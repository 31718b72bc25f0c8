/** `libs::logging::StringLogger`: a logger that collects formatted messages
    in a buffer and appends the buffer to a shared target string once a
    threshold of buffered messages is reached, and once more when it is
    destroyed.

    The clock, `source_location` and `typeid(e).name()` are inputs: the
    timestamp, the location and the exception's type name are parameters. */
module StringLogging {
  import opened Optional
  import opened Numerals
  import opened Logging
  import Strings
  import Types

  /* ----- Message header ----- */

  /** What `std::experimental::source_location` reports. */
  datatype SourceLocation = SourceLocation(fileName: string, line: nat, functionName: string)

  predicate IsSeparator(c: char) { c == '/' || c == '\\' }

  /** `path.find_last_of("/\\") + 1`: the position just after the last
      separator, or 0 when there is none (`npos + 1` wraps to 0). */
  function AfterLastSeparator(path: string): (k: nat)
    ensures k <= |path|
    ensures forall i :: k <= i < |path| ==> !IsSeparator(path[i])
    ensures k > 0 ==> IsSeparator(path[k - 1])
  {
    if path == [] then 0
    else if IsSeparator(path[|path| - 1]) then |path|
    else AfterLastSeparator(path[..|path| - 1])
  }

  /** `path.substr(path.find_last_of("/\\") + 1)`: the longest suffix of
      the path without a separator; the whole path when it has none. */
  function FileName(path: string): (name: string)
    ensures |name| <= |path| && name == path[|path| - |name|..]
    ensures forall i :: 0 <= i < |name| ==> !IsSeparator(name[i])
    ensures |name| < |path| ==> IsSeparator(path[|path| - |name| - 1])
  {
    path[AfterLastSeparator(path)..]
  }

  /** A path without separators is its own file name. */
  lemma {:induction false} FileNameOfPlainName(name: string)
    requires forall i :: 0 <= i < |name| ==> !IsSeparator(name[i])
    ensures FileName(name) == name
  {
    if name != [] {
      FileNameOfPlainName(name[..|name| - 1]);
      assert name[..|name| - 1] + [name[|name| - 1]] == name;
    }
  }

  /** Whatever precedes the last separator is dropped, for either separator. */
  lemma {:induction false} FileNameAfterDirectory(directory: string, separator: char, name: string)
    requires IsSeparator(separator)
    requires forall i :: 0 <= i < |name| ==> !IsSeparator(name[i])
    ensures FileName(directory + [separator] + name) == name
  {
    if name == [] {
      assert directory + [separator] + name == directory + [separator];
    } else {
      var path := directory + [separator] + name;
      var init := name[..|name| - 1];
      assert path[..|path| - 1] == directory + [separator] + init;
      assert path[|path| - 1] == name[|name| - 1];
      FileNameAfterDirectory(directory, separator, init);
      assert init + [name[|name| - 1]] == name;
    }
  }

  /** The level as the header shows it: its name in upper case. */
  function LevelTag(level: Level): (tag: string)
    ensures tag == Strings.Upper(ToString(level))
  {
    Strings.Upper(ToString(level))
  }

  /** The tags the headers carry, e.g. "[INFO]" for `info`. */
  lemma LevelTags()
    ensures LevelTag(Fatal) == "FATAL" && LevelTag(Warning) == "WARNING"
    ensures LevelTag(Info) == "INFO" && LevelTag(Debug) == "DEBUG"
  {
  }

  /** `GetMessageHeader`: the timestamp, the bracketed level tag, the source
      file name with the line in parentheses, and the quoted function name. */
  function MessageHeader(timestamp: string, level: Level, source: SourceLocation): (h: string)
    ensures |h| > |timestamp| + 2 + |LevelTag(level)|
    ensures h[..|timestamp| + 2] == timestamp + " ["
    ensures h[|timestamp| + 2..|timestamp| + 2 + |LevelTag(level)|] == LevelTag(level)
  {
    var opening, tag := timestamp + " [", LevelTag(level);
    Pieces(opening, tag, "] " + Location(source));
    opening + tag + ("] " + Location(source))
  }

  /** The first two pieces of a three-piece concatenation read back as slices. */
  lemma Pieces(a: string, b: string, c: string)
    ensures |a + b + c| == |a| + |b| + |c|
    ensures (a + b + c)[..|a|] == a && (a + b + c)[|a|..|a| + |b|] == b
    ensures (a + b + c)[|a| + |b|..] == c
  {
  }

  /** The part of the header after the level: the source file name, the
      line in parentheses, and the quoted function name. */
  function Location(source: SourceLocation): string
  {
    FileName(source.fileName) + "(" + Decimal(source.line) + ") @\"" + source.functionName + "\": "
  }

  /** Right after the timestamp and " [" a header shows its level's tag,
      so two headers with the same timestamp and different levels differ. */
  lemma HeaderDeterminesLevel(timestamp: string, a: Level, b: Level, s: SourceLocation, t: SourceLocation)
    requires MessageHeader(timestamp, a, s) == MessageHeader(timestamp, b, t)
    ensures a == b
  {
    LevelTags();
    var k := |timestamp| + 2;
    TagFollowsTimestamp(timestamp, a, s);
    TagFollowsTimestamp(timestamp, b, t);
  }

  lemma TagFollowsTimestamp(timestamp: string, level: Level, source: SourceLocation)
    ensures |MessageHeader(timestamp, level, source)| > |timestamp| + 2
    ensures MessageHeader(timestamp, level, source)[|timestamp| + 2] == LevelTag(level)[0]
  {
    LevelTags();
    FirstOfThird(timestamp + " [", LevelTag(level), "] ", Location(source));
  }

  lemma FirstOfThird(p: string, c: string, d: string, e: string)
    requires |c| > 0
    ensures |p + c + d + e| > |p| && (p + c + d + e)[|p|] == c[0]
  {
  }

  /** The buffered line of `log`: header, message, newline. */
  function Line(timestamp: string, level: Level, source: SourceLocation, msg: string): (l: string)
    ensures var h := MessageHeader(timestamp, level, source);
      |l| == |h| + |msg| + 1 && l[..|h|] == h && l[|h|..|l| - 1] == msg && l[|l| - 1] == '\n'
  {
    var h := MessageHeader(timestamp, level, source);
    Pieces(h, msg, "\n");
    h + msg + "\n"
  }

  /** The buffered line of `exception`: a `Debug` header, the exception's
      type name and `what()`, then the message. */
  function ExceptionLine(timestamp: string, source: SourceLocation, msg: string, typeName: string, what: string): (l: string)
    ensures var h := MessageHeader(timestamp, Debug, source);
      |l| > |h| + |msg| && l[..|h|] == h && l[|l| - |msg| - 1..] == msg + "\n"
  {
    var h := MessageHeader(timestamp, Debug, source);
    var exception := "std::exception->" + typeName + " | what: " + what + " | ";
    Pieces(h, exception, msg + "\n");
    h + exception + (msg + "\n")
  }

  /** The destructor's closing line, with the final flushed count. */
  function Trailer(flushed: nat): string
  {
    "~StringLogger(" + Decimal(flushed) + ")\n"
  }

  /** The trailer is "~StringLogger(", a numeral and ")\n", and the numeral
      reads back as the flushed count. */
  lemma TrailerReadsBack(flushed: nat)
    ensures var t := Trailer(flushed);
      |t| >= 17 && t[..14] == "~StringLogger(" && t[|t| - 2..] == ")\n" &&
      AllDigits(t[14..|t| - 2]) && ParseDecimal(t[14..|t| - 2]) == flushed
  {
    var t := Trailer(flushed);
    assert t[14..|t| - 2] == Decimal(flushed);
    ParseDecimalOfDecimal(flushed);
  }

  /* ----- The buffer state machine ----- */

  /** The observable state: the buffer, the two counters, and the target's
      text (`None` for a null target). */
  datatype State = State(buffer: string, buffered: UShort, flushed: nat, target: Option<string>)

  /** `++str_messages_buffered` on an `unsigned short`. */
  function Increment(n: UShort): (r: UShort)
    ensures n < 0xFFFF ==> r == n + 1
    ensures n == 0xFFFF ==> r == 0
  {
    (n + 1) % 0x1_0000
  }

  /** `flush`: the buffer goes to the target (if any) and is cleared, and the
      buffered messages are counted as flushed. */
  function Flushed(s: State): (t: State)
    ensures t.buffer == [] && t.buffered == 0 && t.flushed == s.flushed + s.buffered
    ensures s.target.None? <==> t.target.None?
    ensures s.target.Some? ==> t.target.value == s.target.value + s.buffer
  {
    State([], 0, s.flushed + s.buffered, if s.target.Some? then Some(s.target.value + s.buffer) else None)
  }

  /** `checkFlush`: flush exactly when the buffered count has reached the threshold. */
  function Checked(s: State, threshold: UShort): (t: State)
    ensures t.buffered < threshold || t.buffered == 0
    ensures t.flushed + t.buffered == s.flushed + s.buffered
    ensures s.target.None? <==> t.target.None?
    ensures s.target.Some? ==> t.target.value + t.buffer == s.target.value + s.buffer
  {
    if s.buffered >= threshold then Flushed(s) else s
  }

  /** `log` and `exception` after the line is formatted: nothing when the
      logger is disabled; otherwise buffer the line, count it, check the threshold. */
  function Message(s: State, settings: LoggerSettings, line: string): (t: State)
    ensures !settings.isEnabled ==> t == s
    ensures settings.isEnabled ==> t.flushed + t.buffered == s.flushed + Increment(s.buffered)
    ensures settings.isEnabled ==> (t.buffered < settings.messagesBeforeFlush || t.buffered == 0)
    ensures settings.isEnabled && s.target.Some? ==>
      t.target.Some? && t.target.value + t.buffer == s.target.value + s.buffer + line
  {
    if !settings.isEnabled then s
    else Checked(s.(buffer := s.buffer + line, buffered := Increment(s.buffered)), settings.messagesBeforeFlush)
  }

  /** `~StringLogger`: when enabled, count the buffered messages as flushed,
      close the buffer with the trailer and append it to the target. The
      buffered count is not reset. */
  function Destroyed(s: State, isEnabled: bool): (t: State)
    ensures !isEnabled ==> t == s
    ensures isEnabled ==> t.flushed == s.flushed + s.buffered && t.buffered == s.buffered
    ensures isEnabled ==> t.buffer == s.buffer + Trailer(t.flushed)
    ensures isEnabled && s.target.Some? ==> t.target == Some(s.target.value + t.buffer)
  {
    if !isEnabled then s
    else
      var flushed := s.flushed + s.buffered;
      var buffer := s.buffer + Trailer(flushed);
      State(buffer, s.buffered, flushed, if s.target.Some? then Some(s.target.value + buffer) else None)
  }

  /** All lines, in order. */
  function Concat(lines: seq<string>): string
  {
    if lines == [] then [] else Concat(lines[..|lines| - 1]) + lines[|lines| - 1]
  }

  lemma {:induction false} ConcatSplit(lines: seq<string>, k: nat)
    requires k <= |lines|
    ensures Concat(lines[..k]) + Concat(lines[k..]) == Concat(lines)
    decreases |lines|
  {
    if k < |lines| {
      var init := lines[..|lines| - 1];
      ConcatSplit(init, k);
      assert init[..k] == lines[..k];
      assert init[k..] == lines[k..|lines| - 1];
      assert lines[k..][..|lines[k..]| - 1] == lines[k..|lines| - 1];
    } else {
      assert lines[..k] == lines;
    }
  }

  lemma ConcatAppend(lines: seq<string>, line: string)
    ensures Concat(lines + [line]) == Concat(lines) + line
  {
    assert (lines + [line])[..|lines|] == lines;
  }

  /** The invariant of a logger that has accepted `lines` while enabled,
      starting from a target text `origin`: every line is counted once, as
      flushed or as buffered; the buffer holds exactly the unflushed lines;
      the target holds `origin` followed by the flushed lines in order; and
      the `unsigned short` count stays below its largest value, so it never
      wraps. */
  ghost predicate Accounts(s: State, lines: seq<string>, origin: string)
  {
    && s.flushed + s.buffered == |lines|
    && s.buffered < 0xFFFF
    && s.buffer == Concat(lines[s.flushed..])
    && (s.target.Some? ==> s.target.value == origin + Concat(lines[..s.flushed]))
  }

  /** `Accounts` without the bound on the count. */
  ghost predicate Conserves(s: State, lines: seq<string>, origin: string)
  {
    && s.flushed + s.buffered == |lines|
    && s.buffer == Concat(lines[s.flushed..])
    && (s.target.Some? ==> s.target.value == origin + Concat(lines[..s.flushed]))
  }

  lemma InitialAccounts(target: Option<string>)
    ensures Accounts(State([], 0, 0, target), [], if target.Some? then target.value else [])
  {
  }

  /** A flush moves the buffered lines to the target and loses none. */
  lemma FlushKeepsAccounts(s: State, lines: seq<string>, origin: string)
    requires Conserves(s, lines, origin)
    ensures Accounts(Flushed(s), lines, origin)
  {
    ConcatSplit(lines, s.flushed);
    assert lines[s.flushed + s.buffered..] == [];
    assert lines[..s.flushed + s.buffered] == lines;
  }

  /** Buffering a line and counting it, before the threshold check. */
  lemma AppendConserves(s: State, lines: seq<string>, origin: string, line: string)
    requires Accounts(s, lines, origin)
    ensures var u := s.(buffer := s.buffer + line, buffered := Increment(s.buffered));
      Conserves(u, lines + [line], origin) && u.buffered == s.buffered + 1
  {
    var lines' := lines + [line];
    assert lines'[s.flushed..] == lines[s.flushed..] + [line];
    ConcatAppend(lines[s.flushed..], line);
    assert lines'[..s.flushed] == lines[..s.flushed];
  }

  /** An accepted line is counted without wrapping, and after the threshold
      check the buffered count is zero or below the threshold. A disabled
      logger accepts nothing. */
  lemma {:induction false} MessageKeepsAccounts(s: State, lines: seq<string>, origin: string, settings: LoggerSettings, line: string)
    requires Accounts(s, lines, origin)
    ensures var t := Message(s, settings, line);
      Accounts(t, if settings.isEnabled then lines + [line] else lines, origin)
      && (settings.isEnabled ==> t.buffered == 0 || t.buffered < settings.messagesBeforeFlush)
      && (settings.isEnabled ==> (t.buffered == 0 <==> s.buffered + 1 >= settings.messagesBeforeFlush))
  {
    if settings.isEnabled {
      var u := s.(buffer := s.buffer + line, buffered := Increment(s.buffered));
      AppendConserves(s, lines, origin, line);
      if u.buffered >= settings.messagesBeforeFlush {
        FlushKeepsAccounts(u, lines + [line], origin);
      }
    }
  }

  /** Conservation to the end: an enabled logger with a target leaves in it
      the original text, every accepted line in order, and the trailer
      with their number. A disabled one changes nothing. */
  lemma DestroyedDeliversAll(s: State, lines: seq<string>, origin: string, isEnabled: bool)
    requires Accounts(s, lines, origin)
    ensures isEnabled && s.target.Some? ==> Destroyed(s, isEnabled).target == Some(origin + Concat(lines) + Trailer(|lines|))
    ensures !isEnabled ==> Destroyed(s, isEnabled) == s
  {
    if isEnabled && s.target.Some? {
      var trailer := Trailer(s.flushed + s.buffered);
      var t := Destroyed(s, isEnabled);
      assert t.target == Some(s.target.value + (s.buffer + trailer));
      DeliveredText(s, lines, origin);
    }
  }

  /** The text the destructor leaves in the target. */
  lemma DeliveredText(s: State, lines: seq<string>, origin: string)
    requires Accounts(s, lines, origin) && s.target.Some?
    ensures s.target.value + (s.buffer + Trailer(s.flushed + s.buffered)) == origin + Concat(lines) + Trailer(|lines|)
  {
    ConcatSplit(lines, s.flushed);
    Regroup(origin, Concat(lines[..s.flushed]), s.buffer, Trailer(|lines|));
  }

  lemma Regroup(o: string, f: string, b: string, t: string)
    ensures o + f + (b + t) == o + (f + b) + t
  {
  }

  /** The threshold test: two `info` lines at threshold 2 reach the target
      together, on the second call, in order. */
  lemma FlushAtThresholdExample(first: string, second: string)
    ensures var settings := LoggerSettings(2, true, false);
      var s1 := Message(State([], 0, 0, Some([])), settings, first);
      var s2 := Message(s1, settings, second);
      s1.target == Some([]) && s1.buffered == 1
      && s2.target == Some(first + second) && s2.buffered == 0 && s2.flushed == 2
  {
    var settings := LoggerSettings(2, true, false);
    var s1 := Message(State([], 0, 0, Some([])), settings, first);
    assert s1 == State([] + first, 1, 0, Some([]));
    assert [] + first == first;
    var s2 := Message(s1, settings, second);
    assert s2 == Flushed(State(first + second, 2, 0, Some([])));
    assert [] + (first + second) == first + second;
  }

  /** The destructor test: one `debug` line at threshold 2 stays buffered,
      and the destructor appends it with the trailer "~StringLogger(1)". */
  lemma DestructorExample(text: string, line: string)
    ensures var s1 := Message(State([], 0, 0, Some(text)), LoggerSettings(2, true, false), line);
      s1 == State(line, 1, 0, Some(text))
      && Destroyed(s1, true).target == Some(text + line + "~StringLogger(1)\n")
  {
    var s1 := Message(State([], 0, 0, Some(text)), LoggerSettings(2, true, false), line);
    assert [] + line == line;
    assert s1 == State(line, 1, 0, Some(text));
    assert Decimal(1) == "1";
    var t := "~StringLogger(1)\n";
    assert Trailer(1) == t;
    assert Destroyed(s1, true).target == Some(text + (line + t));
    assert text + (line + t) == text + line + t;
  }

  /* ----- The logger object ----- */

  /** The `std::string` that `str_target` shares with its owner. */
  class Target {
    var text: string

    constructor (text: string)
      ensures this.text == text
    {
      this.text := text;
    }
  }

  class StringLogger {
    /** The `Logger` base: settings, number and the shared counter. */
    const base: Logger
    /** `str_target`, null for a logger without a target. */
    const target: Target?
    var buffer: string
    var buffered: UShort
    var flushed: nat
    /** The lines accepted so far, and the target's text at construction. */
    ghost var lines: seq<string>
    ghost var origin: string

    function Snapshot(): (s: State)
      reads this, target
      ensures s.buffer == buffer && s.buffered == buffered && s.flushed == flushed
      ensures s.target.Some? <==> target != null
      ensures target != null ==> s.target.value == target.text
    {
      State(buffer, buffered, flushed, if target == null then None else Some(target.text))
    }

    /** The accounts of this logger, read on the target's whole text: this
        logger is taken to be the target's only writer. */
    ghost predicate Valid()
      reads this, target
    {
      Accounts(Snapshot(), lines, origin)
    }

    /** `StringLogger()` and `StringLogger(externalTarget)`: an empty buffer,
        both counts zero, and the `Logger` base numbered by its counter. */
    constructor (counter: Types.ObjectCounter, target: Target?)
      requires counter.Valid()
      modifies counter
      ensures Valid() && lines == [] && fresh(base)
      ensures this.target == target && buffer == [] && buffered == 0 && flushed == 0
      ensures base.counter == counter && counter.Valid() && base.id == counter.created
      ensures counter.created == old(counter.created) + 1 && counter.alive == old(counter.alive) + 1
      ensures base.settings == LoggerSettings()
    {
      base := new Logger(counter);
      this.target := target;
      buffer := [];
      buffered := 0;
      flushed := 0;
      lines := [];
      origin := if target == null then [] else target.text;
    }

    /** `set`, inherited from `Logger`. */
    method Set(newSettings: LoggerSettings)
      requires Valid()
      modifies base
      ensures Valid() && base.settings == newSettings
      ensures Snapshot() == old(Snapshot()) && lines == old(lines) && origin == old(origin)
    {
      base.Set(newSettings);
    }

    /** `operator<<`: the text of the lines not yet flushed. */
    function Unflushed(): (r: string)
      requires Valid()
      reads this, target
      ensures r == Concat(lines[flushed..])
    {
      buffer
    }

    /** `flush`. */
    method Flush()
      modifies this, target
      ensures Snapshot() == Flushed(old(Snapshot()))
      ensures lines == old(lines) && origin == old(origin)
    {
      if target != null {
        target.text := target.text + buffer;
      }
      buffer := [];
      flushed := flushed + buffered;
      buffered := 0;
    }

    /** `checkFlush`. `onFlush` is an empty hook here. */
    method CheckFlush()
      modifies this, target
      ensures Snapshot() == Checked(old(Snapshot()), base.settings.messagesBeforeFlush)
      ensures lines == old(lines) && origin == old(origin)
    {
      if buffered >= base.settings.messagesBeforeFlush {
        Flush();
      }
    }

    /** `onDestructor`: a flush that keeps the invariant. */
    method OnDestructor()
      requires Valid()
      modifies this, target
      ensures Valid() && Snapshot() == Flushed(old(Snapshot()))
      ensures lines == old(lines) && origin == old(origin)
      ensures target != null ==> target.text == origin + Concat(lines)
    {
      ghost var s := Snapshot();
      Flush();
      FlushKeepsAccounts(s, lines, origin);
      assert lines[..flushed] == lines;
    }

    /** Buffers one formatted line: the common tail of `log` and
        `exception`. `onBufferedMessage` is an empty hook here. */
    method Accept(line: string)
      requires Valid()
      modifies this, target
      ensures Valid()
      ensures Snapshot() == Message(old(Snapshot()), base.settings, line)
      ensures lines == (if base.settings.isEnabled then old(lines) + [line] else old(lines))
      ensures origin == old(origin)
    {
      ghost var s := Snapshot();
      MessageKeepsAccounts(s, lines, origin, base.settings, line);
      if !base.settings.isEnabled {
        return;
      }
      buffer := buffer + line;
      buffered := Increment(buffered);
      lines := lines + [line];
      CheckFlush();
    }

    /** `log`. */
    method Log(level: Level, msg: string, timestamp: string, source: SourceLocation)
      requires Valid()
      modifies this, target
      ensures Valid()
      ensures Snapshot() == Message(old(Snapshot()), base.settings, Line(timestamp, level, source, msg))
      ensures lines == (if base.settings.isEnabled then old(lines) + [Line(timestamp, level, source, msg)] else old(lines))
      ensures origin == old(origin)
    {
      Accept(Line(timestamp, level, source, msg));
    }

    /** `exception(msg, e)`, with `typeid(e).name()` and `e.what()` as inputs. */
    method Exception(msg: string, typeName: string, what: string, timestamp: string, source: SourceLocation)
      requires Valid()
      modifies this, target
      ensures Valid()
      ensures Snapshot() == Message(old(Snapshot()), base.settings, ExceptionLine(timestamp, source, msg, typeName, what))
      ensures lines == (if base.settings.isEnabled then old(lines) + [ExceptionLine(timestamp, source, msg, typeName, what)] else old(lines))
      ensures origin == old(origin)
    {
      Accept(ExceptionLine(timestamp, source, msg, typeName, what));
    }

    /** `fatal`, `warning`, `info` and `debug` from `Logger`: `log` at a fixed level. */
    method Fatal(msg: string, timestamp: string, source: SourceLocation)
      requires Valid()
      modifies this, target
      ensures Valid()
      ensures Snapshot() == Message(old(Snapshot()), base.settings, Line(timestamp, Level.Fatal, source, msg))
      ensures lines == (if base.settings.isEnabled then old(lines) + [Line(timestamp, Level.Fatal, source, msg)] else old(lines))
      ensures origin == old(origin)
    {
      Log(Level.Fatal, msg, timestamp, source);
    }

    method Warning(msg: string, timestamp: string, source: SourceLocation)
      requires Valid()
      modifies this, target
      ensures Valid()
      ensures Snapshot() == Message(old(Snapshot()), base.settings, Line(timestamp, Level.Warning, source, msg))
      ensures lines == (if base.settings.isEnabled then old(lines) + [Line(timestamp, Level.Warning, source, msg)] else old(lines))
      ensures origin == old(origin)
    {
      Log(Level.Warning, msg, timestamp, source);
    }

    method Info(msg: string, timestamp: string, source: SourceLocation)
      requires Valid()
      modifies this, target
      ensures Valid()
      ensures Snapshot() == Message(old(Snapshot()), base.settings, Line(timestamp, Level.Info, source, msg))
      ensures lines == (if base.settings.isEnabled then old(lines) + [Line(timestamp, Level.Info, source, msg)] else old(lines))
      ensures origin == old(origin)
    {
      Log(Level.Info, msg, timestamp, source);
    }

    method Debug(msg: string, timestamp: string, source: SourceLocation)
      requires Valid()
      modifies this, target
      ensures Valid()
      ensures Snapshot() == Message(old(Snapshot()), base.settings, Line(timestamp, Level.Debug, source, msg))
      ensures lines == (if base.settings.isEnabled then old(lines) + [Line(timestamp, Level.Debug, source, msg)] else old(lines))
      ensures origin == old(origin)
    {
      Log(Level.Debug, msg, timestamp, source);
    }

    /** `~StringLogger`, then the `Logger` base's destructor, which releases
        the counted object. */
    method Destroy()
      requires Valid() && base.counter.Valid() && base.counter.alive > 0
      modifies this, target, base.counter
      ensures Snapshot() == Destroyed(old(Snapshot()), base.settings.isEnabled)
      ensures base.settings.isEnabled && target != null ==> target.text == origin + Concat(lines) + Trailer(|lines|)
      ensures lines == old(lines) && origin == old(origin)
      ensures base.counter.Valid() && base.counter.created == old(base.counter.created)
      ensures base.counter.alive == old(base.counter.alive) - 1
    {
      DestroyedDeliversAll(Snapshot(), lines, origin, base.settings.isEnabled);
      if base.settings.isEnabled {
        flushed := flushed + buffered;
        buffer := buffer + Trailer(flushed);
        if target != null {
          target.text := target.text + buffer;
        }
      }
      base.Destroy();
    }
  }

  /** The destructor test on the object, for any text already in the
      target (the test starts from an empty one): at threshold 2 one
      `debug` line leaves the target unchanged, and the destructor appends
      the line and "~StringLogger(1)". */
  method DestructorScenario(text: string, timestamp: string, source: SourceLocation)
    returns (before: string, after: string)
    ensures before == text
    ensures after == text + Line(timestamp, Level.Debug, source, "dtor_check") + "~StringLogger(1)\n"
  {
    var counter := new Types.ObjectCounter();
    var target := new Target(text);
    var logger := new StringLogger(counter, target);
    logger.Set(LoggerSettings(messagesBeforeFlush := 2));
    ghost var line := Line(timestamp, Level.Debug, source, "dtor_check");
    DestructorExample(text, line);
    logger.Debug("dtor_check", timestamp, source);
    before := target.text;
    logger.Destroy();
    after := target.text;
  }

  /** The disabled test: with `is_enabled` false a logged line never reaches
      the target, not even through the destructor. */
  method DisabledScenario(text: string, timestamp: string, source: SourceLocation) returns (after: string)
    ensures after == text
  {
    var counter := new Types.ObjectCounter();
    var target := new Target(text);
    var logger := new StringLogger(counter, target);
    logger.Set(LoggerSettings(messagesBeforeFlush := 1, isEnabled := false));
    ghost var s0 := logger.Snapshot();
    assert s0.target == Some(text) && !logger.base.settings.isEnabled;
    logger.Info("message that should not be buffered", timestamp, source);
    assert logger.Snapshot() == s0;
    logger.Destroy();
    after := target.text;
  }
}

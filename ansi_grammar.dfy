/** The CSI validator of `libs::standard::ansi::CSISequencer`: `IsValid`, the
    four patterns of `IsCSIMatchFound`, and a scanner that reads a well-formed
    control sequence back into its parameters and final byte.

    The four patterns accept, together, the language of control sequences
    with ECMA-48's CSI syntax (section 5.4 of ECMA-48) restricted to decimal
    parameters and one letter as final byte:

      ESC '[' ( empty | D (';'+ D)* ) L     D = [0-9]+, L = [a-zA-Z]

    `InLanguage` states that language directly; `PatternsDecideLanguage`
    shows that the four patterns accept exactly it, `ScanDecides` that the
    scanner does, and `GateNeverChangesVerdict` that the printable-range gate
    of `IsValid` never rejects a string the patterns would accept. */
module AnsiGrammar {
  import opened Optional
  import opened Numerals
  import opened Types
  import opened Strings

  /** The escape byte 0x1B. */
  const ESC: char := '\U{1B}'

  /** The control sequence introducer "ESC[" as the two bytes it is. */
  const CSI: string := [ESC, '[']

  predicate IsLetter(c: char) { 'a' <= c <= 'z' || 'A' <= c <= 'Z' }

  predicate IsParamChar(c: char) { IsDigit(c) || c == ';' }

  /** `^\033\[` ... `[a-zA-Z]{1}$`: the frame every pattern shares. */
  predicate Framed(s: string)
  {
    |s| >= 3 && s[0] == ESC && s[1] == '[' && IsLetter(s[|s| - 1])
  }

  /** What a framed string holds between "ESC[" and its final letter. */
  function Body(s: string): string
    requires Framed(s)
  {
    s[2..|s| - 1]
  }

  /** `[0-9]+` */
  predicate Digits1(p: string) { |p| >= 1 && AllDigits(p) }

  /** `(;)+` */
  predicate Semis1(p: string) { |p| >= 1 && forall i :: 0 <= i < |p| ==> p[i] == ';' }

  /** `([0-9]+(;)+)+[0-9]+`: a first run of digits, a run of semicolons, and
      then either a last run of digits or the same shape again. */
  predicate RepeatedParams(p: string)
    decreases |p|
  {
    exists i, j :: 0 < i < j < |p| && Digits1(p[..i]) && Semis1(p[i..j]) &&
      (Digits1(p[j..]) || RepeatedParams(p[j..]))
  }

  /** Pattern 1, "ESC[ E": no parameter. */
  predicate NoParamPattern(s: string)
    ensures NoParamPattern(s) ==> |s| == 3
  {
    Framed(s) && Body(s) == []
  }

  /** Pattern 2, "ESC[ $n E": one parameter. */
  predicate SingleParamPattern(s: string)
    ensures SingleParamPattern(s) ==> |s| >= 4 && forall i :: 2 <= i < |s| - 1 ==> IsDigit(s[i])
  {
    Framed(s) && Digits1(Body(s))
  }

  /** Pattern 3, "ESC[ $n; $m E": two parameters. */
  predicate DoubleParamPattern(s: string)
    ensures DoubleParamPattern(s) ==> Framed(s) && |s| >= 6 && ';' in s[2..|s| - 1]
  {
    Framed(s) &&
    var p := Body(s);
    exists k :: 0 < k < |p| && p[k] == ';' && Digits1(p[..k]) && Digits1(p[k + 1..])
  }

  /** Pattern 4, "ESC[ $a[;]+ ... $z[;]+ E": parameters separated by runs of semicolons. */
  predicate MultiParamPattern(s: string)
    ensures MultiParamPattern(s) ==> Framed(s)
  {
    Framed(s) && RepeatedParams(Body(s))
  }

  /** A match of pattern 4 is at least six characters long and holds a
      semicolon between its frame. */
  lemma MultiParamHasSemicolon(s: string)
    requires MultiParamPattern(s)
    ensures |s| >= 6 && ';' in s[2..|s| - 1]
  {
    var p := Body(s);
    var i, j :| 0 < i < j < |p| && Digits1(p[..i]) && Semis1(p[i..j]) &&
      (Digits1(p[j..]) || RepeatedParams(p[j..]));
    assert p[i..j][0] == ';';
  }

  /** `IsCSIMatchFound`: whether any of the four patterns matches the whole string. */
  predicate IsCsiMatchFound(s: string)
    ensures IsCsiMatchFound(s) ==> Framed(s)
  {
    NoParamPattern(s) || SingleParamPattern(s) || DoubleParamPattern(s) || MultiParamPattern(s)
  }

  /** `Range<char>{0x20, 0x7E}`: space to tilde. */
  const PrintableRange: Range := CharRange(' ', '~')

  /** `CSISequencer::IsValid`: the empty string is invalid; every byte after
      the first must be printable; then some pattern must match. */
  predicate IsValid(sequence: string)
    ensures IsValid(sequence) ==> Framed(sequence)
    ensures IsValid(sequence) ==> forall i :: 1 <= i < |sequence| ==> ' ' <= sequence[i] <= '~'
  {
    if sequence == [] then false
    else if !CheckRange(sequence[1..], PrintableRange) then false
    else IsCsiMatchFound(sequence)
  }

  /** The parameter part of the language: empty, or digits and semicolons
      that begin and end with a digit. */
  predicate ParamsShape(p: string)
  {
    p == [] || (IsDigit(p[0]) && IsDigit(p[|p| - 1]) && forall i :: 0 <= i < |p| ==> IsParamChar(p[i]))
  }

  /** The language of the validator, stated directly. */
  predicate InLanguage(s: string)
  {
    Framed(s) && ParamsShape(Body(s))
  }

  /** The length of the run of digits `p` starts with. */
  function DigitRun(p: string): (n: nat)
    ensures n <= |p| && AllDigits(p[..n]) && (n < |p| ==> !IsDigit(p[n]))
  {
    if p == [] || !IsDigit(p[0]) then 0
    else
      var n := 1 + DigitRun(p[1..]);
      assert p[..n] == [p[0]] + p[1..][..n - 1];
      n
  }

  /** The length of the run of semicolons `p` starts with. */
  function SemiRun(p: string): (n: nat)
    ensures n <= |p| && (forall i :: 0 <= i < n ==> p[i] == ';') && (n < |p| ==> p[n] != ';')
  {
    if p == [] || p[0] != ';' then 0 else 1 + SemiRun(p[1..])
  }

  /** What pattern 4 accepts has the shape of the language and holds a semicolon. */
  lemma {:induction false} RepeatedSound(p: string)
    requires RepeatedParams(p)
    ensures p != [] && ParamsShape(p) && ';' in p
    decreases |p|
  {
    var i, j :| 0 < i < j < |p| && Digits1(p[..i]) && Semis1(p[i..j]) &&
      (Digits1(p[j..]) || RepeatedParams(p[j..]));
    var t := p[j..];
    if !Digits1(t) {
      RepeatedSound(t);
    }
    assert p[i] == p[i..j][0];
    assert p[0] == p[..i][0];
    assert p[|p| - 1] == t[|t| - 1];
    forall k | 0 <= k < |p|
      ensures IsParamChar(p[k])
    {
      if k < i {
        assert p[k] == p[..i][k];
      } else if k < j {
        assert p[k] == p[i..j][k - i];
      } else {
        assert p[k] == t[k - j];
      }
    }
  }

  /** Every non-empty string of the language's parameter shape that holds a
      semicolon is accepted by pattern 4. */
  lemma {:induction false} RepeatedComplete(p: string, k: nat)
    requires ParamsShape(p) && p != [] && k < |p| && p[k] == ';'
    ensures RepeatedParams(p)
    decreases |p|
  {
    var i := DigitRun(p);
    assert i > 0;
    assert forall m :: 0 <= m < i ==> IsDigit(p[m]) by {
      forall m | 0 <= m < i ensures IsDigit(p[m]) { assert p[m] == p[..i][m]; }
    }
    assert i <= k;
    var semis := SemiRun(p[i..]);
    var j := i + semis;
    assert semis > 0;
    assert forall m :: i <= m < j ==> p[m] == ';' by {
      forall m | i <= m < j ensures p[m] == ';' { assert p[m] == p[i..][m - i]; }
    }
    assert j < |p|;
    assert p[j] == p[i..][semis];
    var t := p[j..];
    assert Semis1(p[i..j]) by {
      forall m | 0 <= m < j - i ensures p[i..j][m] == ';' {
        assert p[i..j][m] == p[i..][m];
      }
    }
    assert Digits1(p[..i]);
    forall m | 0 <= m < |t|
      ensures IsParamChar(t[m])
    {
      assert t[m] == p[j + m];
    }
    assert IsDigit(t[0]) && IsDigit(t[|t| - 1]);
    if m :| 0 <= m < |t| && t[m] == ';' {
      RepeatedComplete(t, m);
    } else {
      assert Digits1(t);
    }
  }

  /** The four patterns together accept exactly the language. */
  lemma PatternsDecideLanguage(s: string)
    ensures IsCsiMatchFound(s) <==> InLanguage(s)
  {
    if Framed(s) {
      var p := Body(s);
      if DoubleParamPattern(s) {
        var k :| 0 < k < |p| && p[k] == ';' && Digits1(p[..k]) && Digits1(p[k + 1..]);
        assert p[0] == p[..k][0];
        assert p[|p| - 1] == p[k + 1..][|p| - k - 2];
        forall m | 0 <= m < |p|
          ensures IsParamChar(p[m])
        {
          if m < k {
            assert p[m] == p[..k][m];
          } else if m > k {
            assert p[m] == p[k + 1..][m - k - 1];
          }
        }
      }
      if MultiParamPattern(s) {
        RepeatedSound(p);
      }
      if InLanguage(s) && p != [] {
        if k :| 0 <= k < |p| && p[k] == ';' {
          RepeatedComplete(p, k);
        } else {
          assert Digits1(p);
        }
      }
    }
  }

  /** Every string of the language is printable after its escape byte. */
  lemma LanguageIsPrintable(s: string)
    requires InLanguage(s)
    ensures CheckRange(s[1..], PrintableRange)
  {
    forall i | 0 <= i < |s[1..]|
      ensures IsIn(PrintableRange, s[1..][i] as int)
    {
      if 1 <= i < |s| - 2 {
        assert s[1..][i] == Body(s)[i - 1];
      }
    }
  }

  /** `IsValid` decides the language: the range gate rejects only strings the
      patterns reject as well, so it never changes a verdict. A byte outside
      0x20..0x7E after the first makes the string invalid. */
  lemma GateNeverChangesVerdict(s: string)
    ensures IsValid(s) <==> InLanguage(s)
    ensures (exists i :: 1 <= i < |s| && !IsIn(PrintableRange, s[i] as int)) ==> !IsValid(s)
  {
    PatternsDecideLanguage(s);
    if InLanguage(s) {
      LanguageIsPrintable(s);
    }
    if i :| 1 <= i < |s| && !IsIn(PrintableRange, s[i] as int) {
      assert s[1..][i - 1] == s[i];
    }
  }

  /** "ESC[" + `p` + a letter is valid exactly when `p` has the parameter shape. */
  lemma ValidIffShape(p: string, final: char)
    requires IsLetter(final)
    ensures IsValid(CSI + p + [final]) <==> ParamsShape(p)
  {
    var s := CSI + p + [final];
    assert Framed(s) && Body(s) == p;
    GateNeverChangesVerdict(s);
  }

  /** The sequences the unit tests accept, one lemma each. */
  lemma ValidExampleNoParam()
    ensures IsValid("\U{1B}[s")
  {
    assert CSI + "" + ['s'] == "\U{1B}[s";
    ValidIffShape("", 's');
  }

  lemma ValidExampleOneParam()
    ensures IsValid("\U{1B}[0m")
  {
    assert CSI + "0" + ['m'] == "\U{1B}[0m";
    ValidIffShape("0", 'm');
  }

  lemma ValidExampleTwoParams()
    ensures IsValid("\U{1B}[23;24f")
  {
    assert CSI + "23;24" + ['f'] == "\U{1B}[23;24f";
    ValidIffShape("23;24", 'f');
  }

  lemma ValidExampleEmptySlots()
    ensures IsValid("\U{1B}[38;2;;;0;0;0;0;1111m")
  {
    var p := "38;2;;;0;0;0;0;1111";
    assert ParamsShape(p) by {
      forall i | 0 <= i < |p| ensures IsParamChar(p[i]) { }
    }
    assert CSI + p + ['m'] == "\U{1B}[38;2;;;0;0;0;0;1111m";
    ValidIffShape(p, 'm');
  }

  /** The sequences the unit tests reject, one lemma each. */
  lemma InvalidExampleNotNumber()
    ensures !IsValid("\U{1B}[_A")
  {
    assert CSI + "_" + ['A'] == "\U{1B}[_A";
    ValidIffShape("_", 'A');
    assert "_"[0] == '_';
  }

  lemma InvalidExampleNegative()
    ensures !IsValid("\U{1B}[-1C")
  {
    assert CSI + "-1" + ['C'] == "\U{1B}[-1C";
    ValidIffShape("-1", 'C');
    assert "-1"[0] == '-';
  }

  lemma InvalidExampleMissingLast()
    ensures !IsValid("\U{1B}[2;;F")
  {
    assert CSI + "2;;" + ['F'] == "\U{1B}[2;;F";
    ValidIffShape("2;;", 'F');
    assert "2;;"[2] == ';';
  }

  lemma InvalidExampleMissingLastOfMany()
    ensures !IsValid("\U{1B}[38;2;;;0;0;0;0;m")
  {
    assert CSI + "38;2;;;0;0;0;0;" + ['m'] == "\U{1B}[38;2;;;0;0;0;0;m";
    ValidIffShape("38;2;;;0;0;0;0;", 'm');
    assert "38;2;;;0;0;0;0;"[14] == ';';
  }

  lemma InvalidExampleSpace()
    ensures !IsValid("\U{1B}[1;2 222m")
  {
    assert CSI + "1;2 222" + ['m'] == "\U{1B}[1;2 222m";
    ValidIffShape("1;2 222", 'm');
    assert !IsParamChar("1;2 222"[3]);
  }

  lemma InvalidExampleLineFeed()
    ensures !IsValid("\U{1B}[\nu")
  {
    assert CSI + "\n" + ['u'] == "\U{1B}[\nu";
    ValidIffShape("\n", 'u');
    assert !IsParamChar("\n"[0]);
  }

  /** A final byte that is not a letter, a control character in the final
      position, and the empty string are rejected too. */
  lemma InvalidExamplesUnframed()
    ensures !IsValid("\U{1B}[!")
    ensures !IsValid("\U{1B}[u\r\U{C}")
    ensures !IsValid("")
  {
    GateNeverChangesVerdict("\U{1B}[!");
    GateNeverChangesVerdict("\U{1B}[u\r\U{C}");
  }

  // ---------------------------------------------------------------------
  // The scanner

  /** A parameter: an empty slot (its default value) or an explicit number. */
  datatype Param = Default | Value(n: nat)

  /** A decoded control sequence: its parameters in order and its final byte. */
  datatype ControlSequence = ControlSequence(params: seq<Param>, final: char)

  /** The text between the semicolons of `p`, in order. */
  function Fields(p: string): (r: seq<string>)
    ensures |r| >= 1
    ensures forall k :: 0 <= k < |r| ==> ';' !in r[k]
  {
    if p == [] then [""]
    else
      var rest := Fields(p[1..]);
      if p[0] == ';' then [""] + rest else [[p[0]] + rest[0]] + rest[1..]
  }

  /** Fields joined by semicolons. */
  function JoinFields(fs: seq<string>): string
  {
    if |fs| == 0 then ""
    else if |fs| == 1 then fs[0]
    else fs[0] + ";" + JoinFields(fs[1..])
  }

  function ParamOf(f: string): Param
    requires AllDigits(f)
  {
    if f == [] then Default else Value(ParseDecimal(f))
  }

  /** A parameter list the language admits: digits only, and neither the
      first nor the last slot empty. */
  predicate WellFormedFields(fs: seq<string>)
  {
    |fs| >= 1 && fs[0] != [] && fs[|fs| - 1] != [] && forall k :: 0 <= k < |fs| ==> AllDigits(fs[k])
  }

  /** Reads a control sequence: its parameters (an empty slot between two
      semicolons is `Default`) and its final letter, or `None` when the
      string is not in the language. */
  function Scan(s: string): (r: Option<ControlSequence>)
    ensures r.Some? ==> Framed(s) && r.value.final == s[|s| - 1]
  {
    if !Framed(s) then None
    else if Body(s) == [] then Some(ControlSequence([], s[|s| - 1]))
    else
      var fs := Fields(Body(s));
      if WellFormedFields(fs) then
        Some(ControlSequence(seq(|fs|, k requires 0 <= k < |fs| => ParamOf(fs[k])), s[|s| - 1]))
      else None
  }

  /** Splitting and joining are inverse: joining the fields of `p` gives `p`. */
  lemma {:induction false} JoinFieldsOfFields(p: string)
    ensures JoinFields(Fields(p)) == p
  {
    if p != [] {
      var rest := Fields(p[1..]);
      JoinFieldsOfFields(p[1..]);
      if p[0] == ';' {
        assert [""] + rest == [""] + rest;
        assert ([""] + rest)[1..] == rest;
      } else {
        var fs := [[p[0]] + rest[0]] + rest[1..];
        if |rest| == 1 {
          assert fs == [[p[0]] + rest[0]];
        } else {
          assert fs[1..] == rest[1..];
          assert JoinFields(rest) == rest[0] + ";" + JoinFields(rest[1..]);
        }
      }
    }
  }

  /** A string with two or more fields is non-empty. */
  lemma FieldsSingle(p: string)
    requires |Fields(p)| == 1 && p != []
    ensures p[0] != ';'
  {
  }

  /** The first field is empty exactly when `p` is empty or starts with a semicolon. */
  lemma FieldsFirst(p: string)
    ensures Fields(p)[0] != [] <==> p != [] && p[0] != ';'
  {
  }

  /** The last field is empty exactly when `p` is empty or ends with a semicolon. */
  lemma {:induction false} FieldsLast(p: string)
    ensures var fs := Fields(p); fs[|fs| - 1] != [] <==> p != [] && p[|p| - 1] != ';'
  {
    if p != [] {
      var q := p[1..];
      var rest := Fields(q);
      FieldsLast(q);
      if q != [] {
        assert p[|p| - 1] == q[|q| - 1];
        if p[0] != ';' && |rest| == 1 {
          FieldsSingle(q);
          FieldsFirst(q);
        }
      }
    }
  }

  /** The fields are all digits exactly when `p` holds only digits and semicolons. */
  lemma {:induction false} FieldsDigits(p: string)
    ensures (forall k :: 0 <= k < |Fields(p)| ==> AllDigits(Fields(p)[k])) <==>
            (forall i :: 0 <= i < |p| ==> IsParamChar(p[i]))
  {
    if p != [] {
      var q := p[1..];
      var rest := Fields(q);
      var fs := Fields(p);
      FieldsDigits(q);
      assert (forall i :: 0 <= i < |p| ==> IsParamChar(p[i])) <==>
             IsParamChar(p[0]) && (forall i :: 0 <= i < |q| ==> IsParamChar(q[i])) by {
        if IsParamChar(p[0]) && (forall i :: 0 <= i < |q| ==> IsParamChar(q[i])) {
          forall i | 0 <= i < |p| ensures IsParamChar(p[i]) {
            if i > 0 { assert p[i] == q[i - 1]; }
          }
        }
      }
      if p[0] == ';' {
        assert fs == [""] + rest;
        assert AllDigits(fs[0]);
        assert (forall k :: 0 <= k < |fs| ==> AllDigits(fs[k])) <==>
               (forall k :: 0 <= k < |rest| ==> AllDigits(rest[k])) by {
          assert forall k :: 0 <= k < |rest| ==> fs[k + 1] == rest[k];
        }
      } else {
        assert forall k :: 1 <= k < |fs| ==> fs[k] == rest[k];
        assert AllDigits(fs[0]) <==> IsDigit(p[0]) && AllDigits(rest[0]) by {
          assert fs[0] == [p[0]] + rest[0];
          if IsDigit(p[0]) && AllDigits(rest[0]) {
            forall i | 0 <= i < |fs[0]| ensures IsDigit(fs[0][i]) {
              if i > 0 { assert fs[0][i] == rest[0][i - 1]; }
            }
          }
          if AllDigits(fs[0]) {
            assert fs[0][0] == p[0];
            forall i | 0 <= i < |rest[0]| ensures IsDigit(rest[0][i]) {
              assert rest[0][i] == fs[0][i + 1];
            }
          }
        }
      }
    }
  }

  /** The scanner accepts exactly the language. */
  lemma ScanDecides(s: string)
    ensures Scan(s).Some? <==> InLanguage(s)
  {
    if Framed(s) && Body(s) != [] {
      var p := Body(s);
      FieldsFirst(p);
      FieldsLast(p);
      FieldsDigits(p);
    }
  }

  /** The scanner and `IsValid` agree on every string. */
  lemma ScanAgreesWithIsValid(s: string)
    ensures Scan(s).Some? <==> IsValid(s)
  {
    ScanDecides(s);
    GateNeverChangesVerdict(s);
  }

  // ---------------------------------------------------------------------
  // Rendering: the shape every CSI builder produces

  /** The text of one parameter: nothing for an empty slot, else its numeral. */
  function FieldOf(p: Param): (f: string)
    ensures AllDigits(f) && ';' !in f
    ensures f == [] <==> p.Default?
  {
    match p
    case Default => ""
    case Value(n) => Decimal(n)
  }

  /** The texts of the parameters, in order. */
  function ParamFields(ps: seq<Param>): (fs: seq<string>)
    ensures |fs| == |ps|
  {
    seq(|ps|, i requires 0 <= i < |ps| => FieldOf(ps[i]))
  }

  /** "ESC[" + the parameter texts joined by ';' + `final`. */
  function RenderParams(ps: seq<Param>, final: char): string
  {
    CSI + JoinFields(ParamFields(ps)) + [final]
  }

  /** No parameter at all, or an explicit first and last one: the lists the
      language can express. */
  predicate ExplicitEnds(ps: seq<Param>)
  {
    ps == [] || (ps[0].Value? && ps[|ps| - 1].Value?)
  }

  /** Every parameter explicit. */
  function Values(ns: seq<nat>): (ps: seq<Param>)
    ensures |ps| == |ns| && ExplicitEnds(ps)
  {
    seq(|ns|, i requires 0 <= i < |ns| => Value(ns[i]))
  }

  /** "ESC[" + the numerals of `ns` joined by ';' + `final`. */
  function Render(ns: seq<nat>, final: char): string
  {
    RenderParams(Values(ns), final)
  }

  /** Joining a field in front of a non-empty list puts a semicolon between. */
  lemma JoinCons(f: string, fs: seq<string>)
    requires |fs| >= 1
    ensures JoinFields([f] + fs) == f + ";" + JoinFields(fs)
  {
    assert ([f] + fs)[1..] == fs;
  }

  /** The rendering of a single number. */
  lemma RenderOne(n: nat, final: char)
    ensures Render([n], final) == CSI + Decimal(n) + [final]
  {
    assert ParamFields(Values([n])) == [Decimal(n)];
  }

  /** The rendering of a pair, first number first. */
  lemma RenderTwo(m: nat, n: nat, final: char)
    ensures Render([m, n], final) == CSI + Decimal(m) + ";" + Decimal(n) + [final]
  {
    var fs := ParamFields(Values([m, n]));
    assert fs == [Decimal(m), Decimal(n)];
    assert fs[1..] == [Decimal(n)];
    assert JoinFields(fs) == Decimal(m) + ";" + Decimal(n);
  }

  /** A field without a semicolon is a single field. */
  lemma {:induction false} FieldsOfField(d: string)
    requires ';' !in d
    ensures Fields(d) == [d]
  {
    if d != [] {
      FieldsOfField(d[1..]);
      assert [d[0]] + d[1..] == d;
    }
  }

  /** A field followed by a semicolon splits off as the first field. */
  lemma {:induction false} FieldsOfPrefix(d: string, q: string)
    requires ';' !in d
    ensures Fields(d + ";" + q) == [d] + Fields(q)
  {
    if d == [] {
      assert d + ";" + q == [';'] + q;
      assert (d + ";" + q)[1..] == q;
    } else {
      var p := d + ";" + q;
      assert p[1..] == d[1..] + ";" + q;
      FieldsOfPrefix(d[1..], q);
      assert [d[0]] + d[1..] == d;
    }
  }

  /** Fields free of semicolons are recovered from their join. */
  lemma {:induction false} FieldsOfJoin(fs: seq<string>)
    requires |fs| >= 1 && forall k :: 0 <= k < |fs| ==> ';' !in fs[k]
    ensures Fields(JoinFields(fs)) == fs
  {
    if |fs| == 1 {
      FieldsOfField(fs[0]);
    } else {
      FieldsOfJoin(fs[1..]);
      FieldsOfPrefix(fs[0], JoinFields(fs[1..]));
      assert [fs[0]] + fs[1..] == fs;
    }
  }

  /** The texts of a list with explicit ends split back into themselves,
      form a list the language admits, and read back as the parameters. */
  lemma ParamFieldsReadBack(ps: seq<Param>)
    requires ps != [] && ExplicitEnds(ps)
    ensures var fs := ParamFields(ps);
      Fields(JoinFields(fs)) == fs && WellFormedFields(fs) &&
      seq(|fs|, k requires 0 <= k < |fs| => ParamOf(fs[k])) == ps
  {
    var fs := ParamFields(ps);
    FieldsOfJoin(fs);
    assert fs[0] == Decimal(ps[0].n);
    assert fs[|fs| - 1] == Decimal(ps[|ps| - 1].n);
    assert forall k :: 0 <= k < |fs| ==> AllDigits(fs[k]);
    forall k | 0 <= k < |ps| ensures ParamOf(fs[k]) == ps[k] {
      if ps[k].Value? {
        ParseDecimalOfDecimal(ps[k].n);
      }
    }
  }

  /** Rendered parameters scan back to the same list and final letter, so
      every rendering the language can express is valid. */
  lemma RenderParamsScans(ps: seq<Param>, final: char)
    requires IsLetter(final) && ExplicitEnds(ps)
    ensures Scan(RenderParams(ps, final)) == Some(ControlSequence(ps, final))
    ensures IsValid(RenderParams(ps, final))
  {
    var s := RenderParams(ps, final);
    var fs := ParamFields(ps);
    assert s[0] == ESC && s[1] == '[' && s[|s| - 1] == final;
    assert Body(s) == JoinFields(fs);
    if ps != [] {
      ParamFieldsReadBack(ps);
      assert Body(s) != [] by { assert |Decimal(ps[0].n)| >= 1; FieldsFirst(Body(s)); }
      assert Fields(Body(s)) == fs;
    } else {
      assert Body(s) == [];
    }
    ScanAgreesWithIsValid(s);
  }

  /** Rendered numbers scan back to the same numbers and final letter. */
  lemma RenderScans(ns: seq<nat>, final: char)
    requires IsLetter(final)
    ensures Scan(Render(ns, final)) == Some(ControlSequence(Values(ns), final))
    ensures IsValid(Render(ns, final))
  {
    RenderParamsScans(Values(ns), final);
  }
}

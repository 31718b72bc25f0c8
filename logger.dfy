/** `libs::logging`: the severity levels with their names and iteration
    order, the settings every logger carries, and the `Logger` base whose
    construction is counted by `ObjectCounter<Logger>` and numbers the
    logger. */
module Logging {
  import Types

  /** `unsigned short`. */
  type UShort = x: int | 0 <= x < 0x1_0000

  /** `SeverityLevel::Level`. */
  datatype Level = Fatal | Warning | Info | Debug

  /** The numeric value of a level: one bit each. */
  function Code(level: Level): (n: nat)
    ensures n == 1 || n == 2 || n == 4 || n == 8
  {
    match level
    case Fatal => 1
    case Warning => 2
    case Info => 4
    case Debug => 8
  }

  /** The four codes are distinct, so a level can be read back from its code. */
  lemma CodeInjective(a: Level, b: Level)
    requires Code(a) == Code(b)
    ensures a == b
  {
  }

  /** `SeverityLevel::ToString`: the level's name. */
  function ToString(level: Level): (name: string)
    ensures |name| >= 4 && 'A' <= name[0] <= 'Z'
  {
    match level
    case Fatal => "Fatal"
    case Warning => "Warning"
    case Info => "Info"
    case Debug => "Debug"
  }

  /** The four names of the name table. */
  lemma ToStringNames()
    ensures ToString(Fatal) == "Fatal" && ToString(Warning) == "Warning"
    ensures ToString(Info) == "Info" && ToString(Debug) == "Debug"
  {
  }

  /** Distinct levels have distinct names. */
  lemma ToStringInjective(a: Level, b: Level)
    requires ToString(a) == ToString(b)
    ensures a == b
  {
    assert ToString(a)[0] == ToString(b)[0];
  }

  /** `all_items`: the iteration order, most severe first. */
  const AllItems: seq<Level> := [Fatal, Warning, Info, Debug]

  /** `SeverityLevel::Begin`. */
  function Begin(): (level: Level)
    ensures level == AllItems[0]
  {
    AllItems[0]
  }

  /** `SeverityLevel::Next(position)`: the level at `position`. Past the end
      the source reads outside the array, so the model asks for an index
      inside it. */
  function Next(position: int): (level: Level)
    requires 0 <= position < |AllItems|
    ensures level == AllItems[position]
  {
    AllItems[position]
  }

  /** The order lists every level once and runs from the smallest code to
      the largest: Fatal, Warning, Info, Debug. */
  lemma IterationOrder(i: int, j: int, level: Level)
    requires 0 <= i < j < |AllItems|
    ensures Code(Next(i)) < Code(Next(j))
    ensures level in AllItems
    ensures Begin() == Fatal && Next(3) == Debug
  {
  }

  /** `LoggerSettings`, with its defaults: flush after 11 messages, enabled,
      and printing to standard output. */
  datatype LoggerSettings = LoggerSettings(
    messagesBeforeFlush: UShort := 11,
    isEnabled: bool := true,
    skipPrintToStdout: bool := false)

  lemma DefaultSettings()
    ensures LoggerSettings() == LoggerSettings(11, true, false)
  {
  }

  /** `class Logger`: its settings and its number. */
  class Logger {
    var settings: LoggerSettings
    const id: nat
    /** The statics of `ObjectCounter<Logger>`, shared by every logger. */
    const counter: Types.ObjectCounter

    /** The protected constructor: the counted base is built first, then the
        logger takes the creation count as its number. */
    constructor (counter: Types.ObjectCounter)
      requires counter.Valid()
      modifies counter
      ensures counter.Valid()
      ensures counter.created == old(counter.created) + 1 && counter.alive == old(counter.alive) + 1
      ensures id == counter.created && id >= 1
      ensures settings == LoggerSettings() && this.counter == counter
    {
      counter.Construct();
      this.counter := counter;
      id := counter.created;
      settings := LoggerSettings();
    }

    /** `set`: all settings are replaced at once; the number stays. */
    method Set(newSettings: LoggerSettings)
      modifies this
      ensures settings == newSettings
    {
      settings := newSettings;
    }

    /** `getID`. */
    function GetId(): (r: nat)
      reads this
      ensures r == id
    {
      id
    }

    /** The destructor: the counted base releases this logger. */
    method Destroy()
      requires counter.Valid() && counter.alive > 0
      modifies counter
      ensures counter.Valid()
      ensures counter.created == old(counter.created) && counter.alive == old(counter.alive) - 1
    {
      counter.Destroy();
    }
  }

  /** Successive loggers are numbered 1, 2, ... from a fresh counter. */
  method NumberingExample() returns (first: nat, second: nat)
    ensures first == 1 && second == 2
  {
    var counter := new Types.ObjectCounter();
    var a := new Logger(counter);
    var b := new Logger(counter);
    first := a.GetId();
    second := b.GetId();
  }
}

/** The leveled logger: the ordered severity levels, their names and the
    case-insensitive parse back, the gate that decides whether a call
    writes a line, and the insertion of the `"error"` property done by
    `Error` and `Fatal`. A written line is kept as a record of its level
    name, message and properties (the JSON encoding, the timestamp and the
    caller position are not modelled); `os.Exit` becomes the `exited` flag. */
module Logging {
  import opened Wrappers
  import opened Strings

  /** `Level` is an `int8` in the source, so values outside the five named ones exist. */
  newtype Level = x: int | -128 <= x < 128

  const LevelDebug: Level := 0
  const LevelInfo: Level := 1
  const LevelWarn: Level := 2
  const LevelError: Level := 3
  const LevelFatal: Level := 4

  /** One of the five named levels. */
  predicate IsNamed(l: Level) {
    LevelDebug <= l <= LevelFatal
  }

  /** `Level.String`: the five named levels have an upper-case name, every other value the empty string. */
  function LevelName(l: Level): (s: string)
    ensures s == "" <==> !IsNamed(l)
    ensures s == ToUpper(s)
  {
    if l == LevelDebug then "DEBUG"
    else if l == LevelInfo then "INFO"
    else if l == LevelWarn then "WARN"
    else if l == LevelError then "ERROR"
    else if l == LevelFatal then "FATAL"
    else ""
  }

  /** `StringToLevel`: the level whose name equals the upper-cased input, or
      `LevelDebug` together with an error. */
  function StringToLevel(levelStr: string): (r: (Level, Option<string>))
    ensures r.1.None? ==> IsNamed(r.0) && LevelName(r.0) == ToUpper(levelStr)
    ensures r.1.Some? ==> r.0 == LevelDebug && r.1.value == "invalid log level: " + levelStr
    ensures r.1.Some? <==> forall l: Level :: IsNamed(l) ==> LevelName(l) != ToUpper(levelStr)
  {
    var upper := ToUpper(levelStr);
    if upper == "DEBUG" then (LevelDebug, None)
    else if upper == "INFO" then (LevelInfo, None)
    else if upper == "WARN" then (LevelWarn, None)
    else if upper == "ERROR" then (LevelError, None)
    else if upper == "FATAL" then (LevelFatal, None)
    else (LevelDebug, Some("invalid log level: " + levelStr))
  }

  /** The levels are strictly ordered by severity. */
  lemma LevelsOrdered()
    ensures LevelDebug < LevelInfo < LevelWarn < LevelError < LevelFatal
  {
  }

  /** The five names are pairwise distinct, so `LevelName` is one-to-one on the named levels. */
  lemma LevelNamesDistinct(a: Level, b: Level)
    requires IsNamed(a) && IsNamed(b) && a != b
    ensures LevelName(a) != LevelName(b)
  {
  }

  /** Round trip: parsing the name of a level gives that level, with no error. */
  lemma ParseLevelName(l: Level)
    requires IsNamed(l)
    ensures StringToLevel(LevelName(l)) == (l, None)
  {
  }

  /** Parsing is case-insensitive: any casing of a level name parses to that level. */
  lemma ParseAnyCasing(s: string, l: Level)
    requires IsNamed(l) && EqualFold(s, LevelName(l))
    ensures StringToLevel(s) == (l, None)
  {
    EqualFoldSameUpper(s, LevelName(l));
  }

  /** Conversely, a successful parse means the input is a casing of the level's name. */
  lemma ParsedInputIsACasing(s: string)
    requires StringToLevel(s).1.None?
    ensures EqualFold(s, LevelName(StringToLevel(s).0))
  {
    var name := LevelName(StringToLevel(s).0);
    assert forall i :: 0 <= i < |s| ==> UpperChar(name[i]) == name[i] by {
      forall i | 0 <= i < |s| ensures UpperChar(name[i]) == name[i] {
        assert ToUpper(name)[i] == UpperChar(name[i]);
      }
    }
  }

  /** A line as the logger writes it. */
  datatype LogLine = LogLine(level: string, message: string, properties: Option<map<string, string>>)

  /** A Go `map[string]string` passed by reference: `Error` and `Fatal` update it in place. */
  class PropertyMap {
    var entries: map<string, string>

    constructor (entries: map<string, string>)
      ensures this.entries == entries
    {
      this.entries := entries;
    }
  }

  /** The properties as `print` would encode them at this moment (`None` for a nil map). */
  function Snapshot(properties: PropertyMap?): Option<map<string, string>>
    reads properties
  {
    if properties == null then None else Some(properties.entries)
  }

  /** The map `Error` and `Fatal` leave behind: `"error"` bound to the message, every other key as before. */
  function WithError(entries: map<string, string>, message: string): (r: map<string, string>)
    ensures r.Keys == entries.Keys + {"error"}
    ensures r["error"] == message
    ensures forall k :: k in entries && k != "error" ==> r[k] == entries[k]
  {
    entries["error" := message]
  }

  class Logger {
    const minLevel: Level
    var lines: seq<LogLine>
    var exited: bool

    /** `New`: a logger with nothing written yet. */
    constructor (minLevel: Level)
      ensures this.minLevel == minLevel && lines == [] && !exited
    {
      this.minLevel := minLevel;
      lines := [];
      exited := false;
    }

    /** The gate in `print`: a call at `level` writes a line unless `level < minLevel`. */
    predicate Emits(level: Level) {
      !(level < minLevel)
    }

    /** `print`: one line when the gate is open, none otherwise; a written
        `LevelFatal` line ends the process. */
    method Print(level: Level, message: string, properties: Option<map<string, string>>)
      requires !exited
      modifies this`lines, this`exited
      ensures lines == old(lines) + if Emits(level) then [LogLine(LevelName(level), message, properties)] else []
      ensures exited <==> Emits(level) && level == LevelFatal
    {
      if level < minLevel {
        return;
      }
      lines := lines + [LogLine(LevelName(level), message, properties)];
      if level == LevelFatal {
        exited := true;
      }
    }

    method Debug(message: string, properties: PropertyMap?)
      requires !exited
      modifies this`lines, this`exited
      ensures lines == old(lines) + if Emits(LevelDebug) then [LogLine("DEBUG", message, Snapshot(properties))] else []
      ensures !exited
    {
      Print(LevelDebug, message, Snapshot(properties));
    }

    method Info(message: string, properties: PropertyMap?)
      requires !exited
      modifies this`lines, this`exited
      ensures lines == old(lines) + if Emits(LevelInfo) then [LogLine("INFO", message, Snapshot(properties))] else []
      ensures !exited
    {
      Print(LevelInfo, message, Snapshot(properties));
    }

    method Warn(message: string, properties: PropertyMap?)
      requires !exited
      modifies this`lines, this`exited
      ensures lines == old(lines) + if Emits(LevelWarn) then [LogLine("WARN", message, Snapshot(properties))] else []
      ensures !exited
    {
      Print(LevelWarn, message, Snapshot(properties));
    }

    /** `Error`: the caller's map (when it is not nil) gains `"error"`; a nil
        map is replaced by a fresh one that only this call sees. */
    method Error(message: string, err: string, properties: PropertyMap?)
      requires !exited
      modifies this`lines, this`exited, properties
      ensures properties != null ==> properties.entries == WithError(old(properties.entries), err)
      ensures lines == old(lines) +
        if Emits(LevelError) then
          [LogLine("ERROR", message, Some(if properties == null then WithError(map[], err) else properties.entries))]
        else []
      ensures !exited
    {
      var props := properties;
      if props == null {
        props := new PropertyMap(map[]);
      }
      props.entries := props.entries["error" := err];
      Print(LevelError, message, Some(props.entries));
    }

    /** `Fatal`: as `Error`, at `LevelFatal`; the process exits once the line is written. */
    method Fatal(message: string, err: string, properties: PropertyMap?)
      requires !exited
      modifies this`lines, this`exited, properties
      ensures properties != null ==> properties.entries == WithError(old(properties.entries), err)
      ensures lines == old(lines) +
        if Emits(LevelFatal) then
          [LogLine("FATAL", message, Some(if properties == null then WithError(map[], err) else properties.entries))]
        else []
      ensures exited <==> Emits(LevelFatal)
    {
      var props := properties;
      if props == null {
        props := new PropertyMap(map[]);
      }
      props.entries := props.entries["error" := err];
      Print(LevelFatal, message, Some(props.entries));
    }
  }

  /** The gate is monotone: whatever level a logger writes, it writes every more severe level too. */
  lemma GateMonotone(logger: Logger, a: Level, b: Level)
    requires a <= b && logger.Emits(a)
    ensures logger.Emits(b)
  {
  }
}

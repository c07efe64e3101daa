/** The pieces of Python's `logging` module that the package builds on:
  * the standard levels, the level-name registry, log records, `%`-style
  * line templates with the base formatter that renders them, and a logger
  * that hands records on. Only what the package's decisions depend on is
  * modelled; the rest is a parameter or a field supplied from outside.
  */
module LoggingHost {

  datatype Option<T> = None | Some(value: T)

  // ---------------------------------------------------------------------
  // Standard levels
  // ---------------------------------------------------------------------

  const NOTSET: int := 0
  const DEBUG: int := 10
  const INFO: int := 20
  const WARNING: int := 30
  const ERROR: int := 40
  const CRITICAL: int := 50

  const STANDARD_LEVELS: set<int> := {NOTSET, DEBUG, INFO, WARNING, ERROR, CRITICAL}

  /** Decimal rendering of an integer, as `str(n)`. */
  function Decimal(n: int): string
  {
    if n < 0 then "-" + Digits(-n) else Digits(n)
  }

  function Digits(n: nat): string
    decreases n
  {
    var d := ['0', '1', '2', '3', '4', '5', '6', '7', '8', '9'][n % 10];
    if n < 10 then [d] else Digits(n / 10) + [d]
  }

  /** The process-wide registry of level names (`_levelToName` and
    * `_nameToLevel`), updated by `addLevelName`. */
  class LevelRegistry {
    var levelToName: map<int, string>
    var nameToLevel: map<string, int>

    /** The registry as the logging module starts with it. */
    constructor ()
      ensures levelToName == map[CRITICAL := "CRITICAL", ERROR := "ERROR", WARNING := "WARNING",
                                 INFO := "INFO", DEBUG := "DEBUG", NOTSET := "NOTSET"]
      ensures nameToLevel == map["CRITICAL" := CRITICAL, "FATAL" := CRITICAL, "ERROR" := ERROR,
                                 "WARN" := WARNING, "WARNING" := WARNING, "INFO" := INFO,
                                 "DEBUG" := DEBUG, "NOTSET" := NOTSET]
    {
      levelToName := map[CRITICAL := "CRITICAL", ERROR := "ERROR", WARNING := "WARNING",
                         INFO := "INFO", DEBUG := "DEBUG", NOTSET := "NOTSET"];
      nameToLevel := map["CRITICAL" := CRITICAL, "FATAL" := CRITICAL, "ERROR" := ERROR,
                         "WARN" := WARNING, "WARNING" := WARNING, "INFO" := INFO,
                         "DEBUG" := DEBUG, "NOTSET" := NOTSET];
    }

    /** `addLevelName(level, name)`: binds both directions, overwriting. */
    method AddLevelName(level: int, name: string)
      modifies this
      ensures levelToName == old(levelToName)[level := name]
      ensures nameToLevel == old(nameToLevel)[name := level]
    {
      levelToName := levelToName[level := name];
      nameToLevel := nameToLevel[name := level];
    }

    /** `getLevelName(level)` for an integer level: the registered name,
      * or `"Level %s" % level` for a level never registered. */
    function GetLevelName(level: int): (name: string)
      reads this
      ensures level in levelToName ==> name == levelToName[level]
      ensures level !in levelToName ==> name == "Level " + Decimal(level)
    {
      if level in levelToName then levelToName[level] else "Level " + Decimal(level)
    }
  }

  // ---------------------------------------------------------------------
  // Records and templates
  // ---------------------------------------------------------------------

  /** A log record: the fields the formatters read. `asctime` is the
    * record's creation time as the formatter's clock renders it. */
  datatype LogRecord = LogRecord(
    name: string,
    levelno: int,
    levelname: string,
    msg: string,
    args: seq<string>,
    asctime: string)

  /** The record a logger creates: the level name comes from the registry. */
  function MakeRecord(reg: LevelRegistry, name: string, level: int, msg: string,
                      args: seq<string>, asctime: string): (r: LogRecord)
    reads reg
    ensures r.levelname == reg.GetLevelName(level)
    ensures level in reg.levelToName ==> r.levelname == reg.levelToName[level]
    ensures r.name == name && r.levelno == level && r.msg == msg && r.args == args && r.asctime == asctime
  {
    LogRecord(name, level, reg.GetLevelName(level), msg, args, asctime)
  }

  /** The host's `msg % args`, left uninterpreted. */
  type Interpolation = (string, seq<string>) -> string

  /** `record.getMessage()`: the template alone when there are no arguments. */
  function GetMessage(r: LogRecord, interpolate: Interpolation): (m: string)
    ensures r.args == [] ==> m == r.msg
    ensures r.args != [] ==> m == interpolate(r.msg, r.args)
  {
    if r.args == [] then r.msg else interpolate(r.msg, r.args)
  }

  /** One piece of a `%`-style line template, after parsing: literal text,
    * one of the three fields of the package's own template (`%(levelname)s`,
    * `%(asctime)s`, `%(message)s`), or the logger's `%(name)s`. */
  datatype Piece = Lit(text: string) | LevelName | AscTime | Message | LoggerName

  type Template = seq<Piece>

  /** `"%(message)s"`, used by `Formatter(None)`. */
  const DEFAULT_TEMPLATE: Template := [Message]

  /** The template a `Formatter(fmt)` keeps: `fmt or "%(message)s"`, so both
    * a missing and an empty template fall back to the message. */
  function BaseTemplate(fmt: Option<Template>): (t: Template)
    ensures t != []
    ensures fmt.Some? && fmt.value != [] ==> t == fmt.value
    ensures fmt.None? || fmt.value == [] ==> t == DEFAULT_TEMPLATE
  {
    if fmt.Some? && fmt.value != [] then fmt.value else DEFAULT_TEMPLATE
  }

  function PieceText(p: Piece, r: LogRecord, interpolate: Interpolation): string
  {
    match p
    case Lit(text) => text
    case LevelName => r.levelname
    case AscTime => r.asctime
    case Message => GetMessage(r, interpolate)
    case LoggerName => r.name
  }

  /** `Formatter(fmt).format(record)` for a record without exception or
    * stack information: the template with every field substituted. */
  function Render(t: Template, r: LogRecord, interpolate: Interpolation): (s: string)
    ensures t == [] ==> s == []
    ensures |t| == 1 ==> s == PieceText(t[0], r, interpolate)
  {
    if t == [] then [] else PieceText(t[0], r, interpolate) + Render(t[1..], r, interpolate)
  }

  /** Rendering distributes over template concatenation. */
  lemma {:induction false} RenderAppend(t: Template, u: Template, r: LogRecord, interpolate: Interpolation)
    ensures Render(t + u, r, interpolate) == Render(t, r, interpolate) + Render(u, r, interpolate)
  {
    if t == [] {
      assert t + u == u;
    } else {
      assert (t + u)[1..] == t[1..] + u;
      RenderAppend(t[1..], u, r, interpolate);
    }
  }

  /** Rendering one piece in front of a template. */
  lemma RenderCons(p: Piece, t: Template, r: LogRecord, interpolate: Interpolation)
    ensures Render([p] + t, r, interpolate) == PieceText(p, r, interpolate) + Render(t, r, interpolate)
  {
    assert ([p] + t)[1..] == t;
  }

  /** A template that reads only the message renders the message alone. */
  lemma RenderDefault(r: LogRecord, interpolate: Interpolation)
    ensures Render(DEFAULT_TEMPLATE, r, interpolate) == GetMessage(r, interpolate)
  {
    assert DEFAULT_TEMPLATE[1..] == [];
  }

  // ---------------------------------------------------------------------
  // Emission
  // ---------------------------------------------------------------------

  /** A record handed to the handlers: its level and message. */
  datatype Emission = Emission(levelno: int, msg: string)

  /** The emissions a logger with effective level `threshold` lets through
    * (`isEnabledFor`), in order. */
  function Enabled(threshold: int, es: seq<Emission>): (r: seq<Emission>)
    ensures |r| <= |es|
    ensures forall e :: e in r <==> e in es && e.levelno >= threshold
    ensures (forall i :: 0 <= i < |es| ==> es[i].levelno >= threshold) ==> r == es
  {
    if es == [] then []
    else (if es[0].levelno >= threshold then [es[0]] else []) + Enabled(threshold, es[1..])
  }

  /** Filtering a log piece by piece is filtering it whole. */
  lemma {:induction false} EnabledAppend(threshold: int, es: seq<Emission>, fs: seq<Emission>)
    ensures Enabled(threshold, es + fs) == Enabled(threshold, es) + Enabled(threshold, fs)
  {
    if es == [] {
      assert es + fs == fs;
    } else {
      assert (es + fs)[1..] == es[1..] + fs;
      EnabledAppend(threshold, es[1..], fs);
    }
  }

  /** Filtering three emissions is filtering each of them. */
  lemma EnabledTriple(threshold: int, a: Emission, b: Emission, c: Emission)
    ensures Enabled(threshold, [a, b, c]) ==
            Enabled(threshold, [a]) + Enabled(threshold, [b]) + Enabled(threshold, [c])
  {
    assert [a, b, c] == [a] + [b] + [c];
    EnabledAppend(threshold, [a] + [b], [c]);
    EnabledAppend(threshold, [a], [b]);
  }

  /** Logging three records one after the other adds the filtered triple. */
  lemma LogThree(threshold: int, a: Emission, b: Emission, c: Emission,
                 e0: seq<Emission>, e1: seq<Emission>, e2: seq<Emission>, e3: seq<Emission>)
    requires e1 == e0 + Enabled(threshold, [a])
    requires e2 == e1 + Enabled(threshold, [b])
    requires e3 == e2 + Enabled(threshold, [c])
    ensures e3 == e0 + Enabled(threshold, [a, b, c])
  {
    EnabledTriple(threshold, a, b, c);
    ConcatAssoc(e0, Enabled(threshold, [a]), Enabled(threshold, [b]), Enabled(threshold, [c]));
  }

  /** Regrouping a concatenation, kept apart from the filter's contract so
    * that the solver sees the four pieces as plain sequences. */
  lemma ConcatAssoc(w: seq<Emission>, x: seq<Emission>, y: seq<Emission>, z: seq<Emission>)
    ensures w + x + y + z == w + (x + y + z)
  {
  }

  /** A logger, reduced to its effective level and the records it has
    * handed to its handlers so far (oldest first). */
  class Logger {
    var threshold: int
    var emitted: seq<Emission>

    constructor (threshold: int)
      ensures this.threshold == threshold && emitted == []
    {
      this.threshold := threshold;
      emitted := [];
    }

    /** `Logger.log(level, msg)`: one record, if the level is enabled. */
    method Log(level: int, msg: string)
      modifies this`emitted
      ensures emitted == old(emitted) + Enabled(threshold, [Emission(level, msg)])
    {
      if level >= threshold {
        emitted := emitted + [Emission(level, msg)];
      }
    }
  }
}

/** The package module `pretty_logger`: three extra levels and their
  * registration, the extended logger's banner, and the two class-based
  * formatters (plain with optional stripping, and coloured).
  */
module PrettyLogger {
  import opened LoggingHost
  import Ansi

  // ---------------------------------------------------------------------
  // Levels
  // ---------------------------------------------------------------------

  const RAW_LOG: int := INFO + 1
  const SUCCESS: int := RAW_LOG + 1
  const VERBOSE: int := INFO - 1

  /** The extra levels sit between the standard ones and collide with none. */
  lemma LevelOrder()
    ensures DEBUG < VERBOSE < INFO < RAW_LOG < SUCCESS < WARNING < ERROR < CRITICAL
    ensures VERBOSE !in STANDARD_LEVELS && RAW_LOG !in STANDARD_LEVELS && SUCCESS !in STANDARD_LEVELS
  {
  }

  /** The level-to-name table after the package's three registrations. */
  function WithExtendedNames(m: map<int, string>): (r: map<int, string>)
    ensures r.Keys == m.Keys + {VERBOSE, RAW_LOG, SUCCESS}
    ensures r[VERBOSE] == "VERBOSE" && r[RAW_LOG] == "RAW" && r[SUCCESS] == "SUCCESS"
    ensures forall l :: l in m && l != VERBOSE && l != RAW_LOG && l != SUCCESS ==> r[l] == m[l]
  {
    m[VERBOSE := "VERBOSE"][RAW_LOG := "RAW"][SUCCESS := "SUCCESS"]
  }

  /** The name-to-level table after the same three registrations. */
  function WithExtendedLevels(m: map<string, int>): (r: map<string, int>)
    ensures r.Keys == m.Keys + {"VERBOSE", "RAW", "SUCCESS"}
    ensures r["VERBOSE"] == VERBOSE && r["RAW"] == RAW_LOG && r["SUCCESS"] == SUCCESS
    ensures forall n :: n in m && n != "VERBOSE" && n != "RAW" && n != "SUCCESS" ==> r[n] == m[n]
  {
    m["VERBOSE" := VERBOSE]["RAW" := RAW_LOG]["SUCCESS" := SUCCESS]
  }

  /** The three `addLevelName` calls run when the package is imported. */
  method RegisterLevels(reg: LevelRegistry)
    modifies reg
    ensures reg.levelToName == WithExtendedNames(old(reg.levelToName))
    ensures reg.nameToLevel == WithExtendedLevels(old(reg.nameToLevel))
    ensures reg.GetLevelName(VERBOSE) == "VERBOSE" && reg.GetLevelName(RAW_LOG) == "RAW"
    ensures reg.GetLevelName(SUCCESS) == "SUCCESS"
  {
    reg.AddLevelName(VERBOSE, "VERBOSE");
    reg.AddLevelName(RAW_LOG, "RAW");
    reg.AddLevelName(SUCCESS, "SUCCESS");
  }

  /** Registering again changes nothing, in either direction. */
  lemma RegistrationIdempotent(m: map<int, string>, n: map<string, int>)
    ensures WithExtendedNames(WithExtendedNames(m)) == WithExtendedNames(m)
    ensures WithExtendedLevels(WithExtendedLevels(n)) == WithExtendedLevels(n)
  {
  }

  // ---------------------------------------------------------------------
  // ExtendedLogger
  // ---------------------------------------------------------------------

  /** `c` repeated n times. */
  function Repeat(c: char, n: nat): (r: string)
    ensures |r| == n
    ensures forall i :: 0 <= i < n ==> r[i] == c
  {
    if n == 0 then [] else Repeat(c, n - 1) + [c]
  }

  /** The bar drawn above and below a success banner. */
  function Bar(msg: string): (r: string)
    ensures |r| == |msg| + 40
    ensures forall i :: 0 <= i < |r| ==> r[i] == '='
  {
    Repeat('=', |msg| + 40)
  }

  /** The three records a success banner asks for, in order. */
  function Banner(msg: string): (r: seq<Emission>)
    ensures |r| == 3
    ensures r[0] == r[2] == Emission(RAW_LOG, Bar(msg))
    ensures r[1] == Emission(SUCCESS, msg)
  {
    [Emission(RAW_LOG, Bar(msg)), Emission(SUCCESS, msg), Emission(RAW_LOG, Bar(msg))]
  }

  /** What reaches the handlers depends on the logger's level: the whole
    * banner, only its middle line, or nothing. */
  lemma BannerByThreshold(threshold: int, msg: string)
    ensures threshold <= RAW_LOG ==> Enabled(threshold, Banner(msg)) == Banner(msg)
    ensures RAW_LOG < threshold <= SUCCESS ==>
              Enabled(threshold, Banner(msg)) == [Emission(SUCCESS, msg)]
    ensures SUCCESS < threshold ==> Enabled(threshold, Banner(msg)) == []
  {
    var b := Banner(msg);
    assert b == [b[0]] + [b[1]] + [b[2]];
    EnabledAppend(threshold, [b[0]] + [b[1]], [b[2]]);
    EnabledAppend(threshold, [b[0]], [b[1]]);
    EnabledSingle(threshold, b[0]);
    EnabledSingle(threshold, b[1]);
    EnabledSingle(threshold, b[2]);
  }

  lemma EnabledSingle(threshold: int, e: Emission)
    ensures Enabled(threshold, [e]) == if e.levelno >= threshold then [e] else []
  {
    assert [e][1..] == [];
  }

  /** A 14-character message gets bars of 54 characters. */
  lemma BuildCompleteBanner()
    ensures var b := Banner("Build complete");
            |b[0].msg| == 54 && b[1].msg == "Build complete" && b[2] == b[0]
  {
  }

  /** `ExtendedLogger.verbose(msg)`. */
  method Verbose(logger: Logger, msg: string)
    modifies logger`emitted
    ensures logger.emitted == old(logger.emitted) + Enabled(logger.threshold, [Emission(VERBOSE, msg)])
  {
    logger.Log(VERBOSE, msg);
  }

  /** `ExtendedLogger.raw(msg)`. */
  method Raw(logger: Logger, msg: string)
    modifies logger`emitted
    ensures logger.emitted == old(logger.emitted) + Enabled(logger.threshold, [Emission(RAW_LOG, msg)])
  {
    logger.Log(RAW_LOG, msg);
  }

  /** `ExtendedLogger.success(msg)`. */
  method Success(logger: Logger, msg: string)
    modifies logger`emitted
    ensures logger.emitted == old(logger.emitted) + Enabled(logger.threshold, [Emission(SUCCESS, msg)])
  {
    logger.Log(SUCCESS, msg);
  }

  /** `ExtendedLogger.success_banner(msg)`: bar, message, bar. */
  method SuccessBanner(logger: Logger, msg: string)
    modifies logger`emitted
    ensures logger.emitted == old(logger.emitted) + Enabled(logger.threshold, Banner(msg))
  {
    var bar := Bar(msg);
    ghost var e0 := logger.emitted;
    Raw(logger, bar);
    ghost var e1 := logger.emitted;
    Success(logger, msg);
    ghost var e2 := logger.emitted;
    Raw(logger, bar);
    LogThree(logger.threshold, Emission(RAW_LOG, bar), Emission(SUCCESS, msg), Emission(RAW_LOG, bar),
             e0, e1, e2, logger.emitted);
  }

  // ---------------------------------------------------------------------
  // Formatters
  // ---------------------------------------------------------------------

  const GREY: string := Ansi.Sgr("38;10")
  const BLUE: string := Ansi.Sgr("34;10")
  const PURPLE: string := Ansi.Sgr("95;10")
  const GREEN: string := Ansi.Sgr("32;10")
  const YELLOW: string := Ansi.Sgr("33;10")
  const RED: string := Ansi.Sgr("31;10")
  const BOLD_RED: string := Ansi.Sgr("31;1")
  const RESET: string := Ansi.Sgr("0")

  const COLORS: map<int, string> :=
    map[DEBUG := PURPLE, VERBOSE := BLUE, INFO := GREY, SUCCESS := GREEN,
        WARNING := YELLOW, ERROR := RED, CRITICAL := BOLD_RED]

  /** `ExtendedFormatter`: the base formatter, with optional stripping of
    * the message and the bypass for raw records. */
  class ExtendedFormatter {
    const fmt: Template
    const strip: bool

    /** `ExtendedFormatter(fmt, strip=strip)`; a missing or empty template
      * means the message. */
    constructor (fmt: Option<Template>, strip: bool)
      ensures this.fmt == BaseTemplate(fmt)
      ensures fmt.None? || fmt.value == [] ==> this.fmt == DEFAULT_TEMPLATE
      ensures this.strip == strip
    {
      this.fmt := BaseTemplate(fmt);
      this.strip := strip;
    }

    /** The record the formatter renders: when stripping, a copy whose
      * template has been stripped. The copy differs from the caller's
      * record in the message only, and only when stripping is on and the
      * message holds an escape. */
    function Prepared(r: LogRecord): (p: LogRecord)
      ensures p.(msg := r.msg) == r
      ensures strip ==> p.msg == Ansi.Strip(r.msg)
      ensures !strip || (forall i :: 0 <= i < |r.msg| ==> r.msg[i] != Ansi.ESC) ==> p == r
    {
      assert (forall i :: 0 <= i < |r.msg| ==> r.msg[i] != Ansi.ESC) ==> Ansi.Strip(r.msg) == r.msg by {
        if forall i :: 0 <= i < |r.msg| ==> r.msg[i] != Ansi.ESC {
          Ansi.StripNoEscape(r.msg);
        }
      }
      if strip then r.(msg := Ansi.Strip(r.msg)) else r
    }

    /** `ExtendedFormatter.format(record)`: a raw record is its (prepared)
      * message, every other level the template over the prepared record. */
    function Format(r: LogRecord, interpolate: Interpolation): (s: string)
      ensures r.levelno == RAW_LOG ==> s == GetMessage(Prepared(r), interpolate)
      ensures r.levelno != RAW_LOG ==> s == Render(fmt, Prepared(r), interpolate)
      ensures fmt == DEFAULT_TEMPLATE ==> s == GetMessage(Prepared(r), interpolate)
    {
      RenderDefault(Prepared(r), interpolate);
      var p := Prepared(r);
      if p.levelno != RAW_LOG then Render(fmt, p, interpolate) else GetMessage(p, interpolate)
    }
  }

  /** `ColoredFormatter`: the extended formatter's line wrapped in the
    * level's colour. `plain` is the inherited behaviour that `super()`
    * reaches. */
  class ColoredFormatter {
    const plain: ExtendedFormatter

    constructor (fmt: Option<Template>, strip: bool)
      ensures plain.fmt == BaseTemplate(fmt)
      ensures plain.strip == strip
    {
      plain := new ExtendedFormatter(fmt, strip);
    }

    /** `ColoredFormatter.format(record)`: a level in the table is wrapped
      * in its colour and the reset around the template rendered over the
      * prepared record; a raw record is the bare (prepared) message, with
      * no colour; any other level is left uncoloured. */
    function Format(r: LogRecord, interpolate: Interpolation): (s: string)
      ensures r.levelno in COLORS ==>
                s == COLORS[r.levelno] + Render(plain.fmt, plain.Prepared(r), interpolate) + RESET
      ensures r.levelno == RAW_LOG ==> s == GetMessage(plain.Prepared(r), interpolate)
      ensures r.levelno !in COLORS && r.levelno != RAW_LOG ==> s == Render(plain.fmt, plain.Prepared(r), interpolate)
    {
      if r.levelno in COLORS then COLORS[r.levelno] + plain.Format(r, interpolate) + RESET
      else plain.Format(r, interpolate)
    }
  }

  // ---------------------------------------------------------------------
  // What the formatters promise
  // ---------------------------------------------------------------------

  /** A raw record renders as its message alone: neither the template nor
    * the level name, time or logger name play any part. */
  lemma RawIsMessageOnly(f: ExtendedFormatter, g: ExtendedFormatter, r: LogRecord, q: LogRecord,
                         interpolate: Interpolation)
    requires f.strip == g.strip
    requires r.levelno == q.levelno == RAW_LOG
    requires r.msg == q.msg && r.args == q.args
    ensures f.Format(r, interpolate) == g.Format(q, interpolate)
    ensures r.args == [] ==> f.Format(r, interpolate) == (if f.strip then Ansi.Strip(r.msg) else r.msg)
  {
  }

  /** For every level, a stripping formatter renders what a non-stripping
    * one with the same template renders for the record whose message has
    * been stripped: nothing but the message is touched. */
  lemma StripMessageOnly(f: ExtendedFormatter, g: ExtendedFormatter, r: LogRecord, interpolate: Interpolation)
    requires f.strip && !g.strip && f.fmt == g.fmt
    ensures f.Format(r, interpolate) == g.Format(r.(msg := Ansi.Strip(r.msg)), interpolate)
  {
  }

  /** Stripping touches the template only, before the arguments are
    * substituted: escape codes in the arguments survive. */
  lemma StripLeavesArguments(f: ExtendedFormatter, r: LogRecord, interpolate: Interpolation)
    requires f.strip && r.levelno == RAW_LOG && r.args != []
    ensures f.Format(r, interpolate) == interpolate(Ansi.Strip(r.msg), r.args)
  {
  }

  /** The colour table: seven levels, raw records excluded, distinct
    * prefixes. */
  lemma ColorsTable()
    ensures COLORS.Keys == {DEBUG, VERBOSE, INFO, SUCCESS, WARNING, ERROR, CRITICAL}
    ensures RAW_LOG !in COLORS
    ensures forall l, k :: l in COLORS && k in COLORS && l != k ==> COLORS[l] != COLORS[k]
  {
    assert GREY[3] == '8' && BLUE[3] == '4' && GREEN[3] == '2' && YELLOW[3] == '3';
    assert PURPLE[2] == '9' && GREY[2] == BLUE[2] == GREEN[2] == YELLOW[2] == RED[2] == BOLD_RED[2] == '3';
    assert RED[3] == BOLD_RED[3] == '1' && |RED| == 8 && |BOLD_RED| == 7;
  }

  /** Every colour of the table, and the reset, is one complete control
    * sequence. */
  lemma ColorsAreEscapes(l: int)
    requires l in COLORS
    ensures Ansi.IsEscapeSequence(COLORS[l]) && Ansi.IsEscapeSequence(RESET)
  {
    if l == DEBUG {
      Ansi.SgrIsEscape("95;10");
    } else if l == VERBOSE {
      Ansi.SgrIsEscape("34;10");
    } else if l == INFO {
      Ansi.SgrIsEscape("38;10");
    } else if l == SUCCESS {
      Ansi.SgrIsEscape("32;10");
    } else if l == WARNING {
      Ansi.SgrIsEscape("33;10");
    } else if l == ERROR {
      Ansi.SgrIsEscape("31;10");
    } else {
      Ansi.SgrIsEscape("31;1");
    }
    Ansi.SgrIsEscape("0");
  }

  /** Every colour of the table, and the reset, strips away entirely. */
  lemma ColorsStrip(l: int)
    requires l in COLORS
    ensures Ansi.Strip(COLORS[l]) == [] && Ansi.Strip(RESET) == []
  {
    ColorsAreEscapes(l);
    Ansi.StripEscapeSequence(COLORS[l]);
    Ansi.StripEscapeSequence(RESET);
  }

  /** With stripping on, the message is cleaned but the colour wrapping the
    * line is kept: the output still starts with the level's control
    * sequence and ends with the reset. */
  lemma StripBeforeWrap(c: ColoredFormatter, r: LogRecord, interpolate: Interpolation)
    requires c.plain.strip && r.levelno in COLORS
    ensures c.Format(r, interpolate) ==
              COLORS[r.levelno] + Render(c.plain.fmt, r.(msg := Ansi.Strip(r.msg)), interpolate) + RESET
    ensures Ansi.IsEscapeSequence(COLORS[r.levelno]) && Ansi.IsEscapeSequence(RESET)
  {
    ColorsAreEscapes(r.levelno);
  }

  /** Colour is pure decoration: stripping the coloured line gives what
    * stripping the uncoloured one gives. */
  lemma StripColoredIsStripPlain(c: ColoredFormatter, r: LogRecord, interpolate: Interpolation)
    ensures Ansi.Strip(c.Format(r, interpolate)) == Ansi.Strip(c.plain.Format(r, interpolate))
  {
    if r.levelno in COLORS {
      ColorsAreEscapes(r.levelno);
      Ansi.StripWrapped(COLORS[r.levelno], c.plain.Format(r, interpolate), RESET);
    }
  }
}

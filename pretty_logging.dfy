/** The module `pretty_logger.pretty_logging`: two table-driven formatters.
  * Each builds a fresh base formatter from the template its table gives
  * for the record's level (the message alone when the level is missing);
  * the simple one strips the rendered line, the pretty one bakes a colour
  * into the template and never strips.
  */
module PrettyLogging {
  import opened LoggingHost
  import Ansi
  import FullLogger
  import PrettyLogger

  /** `"%(levelname)s:%(asctime)s - %(message)s"` */
  const FORMAT_STR: Template := [LevelName, Lit(":"), AscTime, Lit(" - "), Message]

  const SIMPLE_FORMATS: map<int, Template> :=
    map[DEBUG := FORMAT_STR, INFO := FORMAT_STR, FullLogger.SUCCESS := FORMAT_STR,
        WARNING := FORMAT_STR, ERROR := FORMAT_STR, CRITICAL := FORMAT_STR]

  const GREY: string := Ansi.Sgr("38;20")
  const GREEN: string := Ansi.Sgr("32;10")
  const YELLOW: string := Ansi.Sgr("33;20")
  const RED: string := Ansi.Sgr("31;20")
  const BOLD_RED: string := Ansi.Sgr("31;1")
  const RESET: string := Ansi.Sgr("0")

  /** The colour prefix the pretty table puts in front of each level. */
  const PREFIXES: map<int, string> :=
    map[DEBUG := GREY, INFO := GREY, FullLogger.SUCCESS := GREEN,
        WARNING := YELLOW, ERROR := RED, CRITICAL := BOLD_RED]

  /** `prefix + format_str + reset` as one template. */
  function Coloured(prefix: string): Template
  {
    [Lit(prefix)] + FORMAT_STR + [Lit(RESET)]
  }

  const PRETTY_FORMATS: map<int, Template> :=
    map[DEBUG := Coloured(GREY), INFO := Coloured(GREY), FullLogger.SUCCESS := Coloured(GREEN),
        WARNING := Coloured(YELLOW), ERROR := Coloured(RED), CRITICAL := Coloured(BOLD_RED)]

  /** The template of `Formatter(FORMATS.get(levelno))`: a level missing
    * from the table gives `None`, which falls back to the message. */
  function Lookup(formats: map<int, Template>, level: int): (t: Template)
    ensures level in formats && formats[level] != [] ==> t == formats[level]
    ensures level !in formats ==> t == DEFAULT_TEMPLATE
  {
    BaseTemplate(if level in formats then Some(formats[level]) else None)
  }

  /** The plain line `levelname:asctime - message`. */
  function PlainLine(r: LogRecord, interpolate: Interpolation): string
  {
    r.levelname + ":" + r.asctime + " - " + GetMessage(r, interpolate)
  }

  /** `SimpleFormatter.format(record)`: for a tabled level the strip of the
    * whole plain line, level name and time included; for any other level
    * (RAW, VERBOSE, unregistered ones) the stripped message alone. */
  function SimpleFormat(r: LogRecord, interpolate: Interpolation): (s: string)
    ensures r.levelno in SIMPLE_FORMATS ==> s == Ansi.Strip(PlainLine(r, interpolate))
    ensures r.levelno !in SIMPLE_FORMATS ==> s == Ansi.Strip(GetMessage(r, interpolate))
  {
    RenderFormatStr(r, interpolate);
    RenderDefault(r, interpolate);
    Ansi.Strip(Render(Lookup(SIMPLE_FORMATS, r.levelno), r, interpolate))
  }

  /** `PrettyFormatter.format(record)`: for a tabled level the plain line,
    * left as it is, between the level's colour and the reset; for any
    * other level the message alone, escape codes and all, without colour. */
  function PrettyFormat(r: LogRecord, interpolate: Interpolation): (s: string)
    ensures r.levelno in PRETTY_FORMATS ==> s == PREFIXES[r.levelno] + PlainLine(r, interpolate) + RESET
    ensures r.levelno !in PRETTY_FORMATS ==> s == GetMessage(r, interpolate)
  {
    RenderDefault(r, interpolate);
    if r.levelno in PRETTY_FORMATS then
      RenderColoured(PREFIXES[r.levelno], r, interpolate);
      Render(Lookup(PRETTY_FORMATS, r.levelno), r, interpolate)
    else
      Render(Lookup(PRETTY_FORMATS, r.levelno), r, interpolate)
  }

  lemma RenderFormatStr(r: LogRecord, interpolate: Interpolation)
    ensures Render(FORMAT_STR, r, interpolate) == PlainLine(r, interpolate)
  {
    var m := GetMessage(r, interpolate);
    RenderDefault(r, interpolate);
    RenderCons(Lit(" - "), [Message], r, interpolate);
    RenderCons(AscTime, [Lit(" - "), Message], r, interpolate);
    RenderCons(Lit(":"), [AscTime, Lit(" - "), Message], r, interpolate);
    RenderCons(LevelName, [Lit(":"), AscTime, Lit(" - "), Message], r, interpolate);
    assert r.levelname + (":" + (r.asctime + (" - " + m))) == PlainLine(r, interpolate);
  }

  /** Both tables cover the same six levels; VERBOSE and RAW are not among them. */
  lemma TablesCoverSixLevels()
    ensures SIMPLE_FORMATS.Keys == PRETTY_FORMATS.Keys == PREFIXES.Keys
    ensures SIMPLE_FORMATS.Keys == {DEBUG, INFO, FullLogger.SUCCESS, WARNING, ERROR, CRITICAL}
    ensures FullLogger.RAW_LOG !in SIMPLE_FORMATS && PrettyLogger.VERBOSE !in SIMPLE_FORMATS
    ensures forall l :: l in PRETTY_FORMATS ==> PRETTY_FORMATS[l] == Coloured(PREFIXES[l])
  {
  }

  /** A coloured template renders as its prefix, the plain line and the
    * reset. */
  lemma RenderColoured(prefix: string, r: LogRecord, interpolate: Interpolation)
    ensures Render(Coloured(prefix), r, interpolate) == prefix + PlainLine(r, interpolate) + RESET
  {
    RenderAppend([Lit(prefix)] + FORMAT_STR, [Lit(RESET)], r, interpolate);
    RenderAppend([Lit(prefix)], FORMAT_STR, r, interpolate);
    RenderFormatStr(r, interpolate);
  }

  /** DEBUG and INFO share the grey prefix; the other four are distinct. */
  lemma PrefixesDistinct()
    ensures PREFIXES[DEBUG] == PREFIXES[INFO]
    ensures forall l, k :: l in PREFIXES && k in PREFIXES && l != k && {l, k} != {DEBUG, INFO} ==>
              PREFIXES[l] != PREFIXES[k]
  {
    assert GREY[3] == '8' && GREEN[3] == '2' && YELLOW[3] == '3';
    assert RED[3] == BOLD_RED[3] == '1' && |RED| == 8 && |BOLD_RED| == 7;
  }

  /** Each prefix of the pretty table, and the reset, is one complete
    * control sequence. */
  lemma PrefixIsEscape(l: int)
    requires l in PREFIXES
    ensures Ansi.IsEscapeSequence(PREFIXES[l]) && Ansi.IsEscapeSequence(RESET)
  {
    if l == DEBUG || l == INFO {
      Ansi.SgrIsEscape("38;20");
    } else if l == FullLogger.SUCCESS {
      Ansi.SgrIsEscape("32;10");
    } else if l == WARNING {
      Ansi.SgrIsEscape("33;20");
    } else if l == ERROR {
      Ansi.SgrIsEscape("31;20");
    } else {
      Ansi.SgrIsEscape("31;1");
    }
    Ansi.SgrIsEscape("0");
  }

  /** Stripping the pretty output gives the simple output, for every
    * record: no match can straddle the colour prefix or the reset. */
  lemma PrettyStripsToSimple(r: LogRecord, interpolate: Interpolation)
    ensures Ansi.Strip(PrettyFormat(r, interpolate)) == SimpleFormat(r, interpolate)
  {
    if r.levelno in PRETTY_FORMATS {
      PrefixIsEscape(r.levelno);
      Ansi.StripWrapped(PREFIXES[r.levelno], PlainLine(r, interpolate), RESET);
    }
  }

  /** A SUCCESS record created after the registrations carries the name
    * "SUCCESS", so both formatters print its line under that name. */
  lemma SuccessRecordLine(reg: LevelRegistry, m: map<int, string>, name: string, msg: string,
                          args: seq<string>, asctime: string, interpolate: Interpolation)
    requires reg.levelToName == FullLogger.WithFullNames(m)
    ensures var r := MakeRecord(reg, name, FullLogger.SUCCESS, msg, args, asctime);
            r.levelname == "SUCCESS" &&
            PrettyFormat(r, interpolate) == GREEN + ("SUCCESS:" + asctime + " - " + GetMessage(r, interpolate)) + RESET &&
            SimpleFormat(r, interpolate) == Ansi.Strip("SUCCESS:" + asctime + " - " + GetMessage(r, interpolate))
  {
    var r := MakeRecord(reg, name, FullLogger.SUCCESS, msg, args, asctime);
    assert r.levelno in SIMPLE_FORMATS;
    assert PlainLine(r, interpolate) == "SUCCESS:" + asctime + " - " + GetMessage(r, interpolate);
  }
}

# pretty_logger, modelled in Dafny

`pretty_logger` is a thin layer over Python's `logging`. It adds three
levels: VERBOSE = INFO-1, RAW = INFO+1 and SUCCESS = INFO+2. It also adds a
"success banner" (a bar, the message, a bar) and two families of formatters
that colour a line by level or strip ANSI escape sequences from it.

This project models the package and proves what its decision logic
promises. Its modules follow the package's files:

- `Ansi` (`ansi.dfy`) is the escape-sequence stripper,
  `\x1B(?:[@-Z\\-_]|\[[0-?]*[ -/]*[@-~])` applied with `re.sub`.
  - The stripper is a left-to-right scanner: `MatchLength` and `Strip`, plus
    the token view `Scan`.
  - The pattern's language is given separately as a grammar
    (`IsEscapeSequence`): ESC Fe (section 5.3 of ECMA-48), or a control
    sequence ESC `[` P* I* F (section 5.4 of ECMA-48).
  - The scanner is proved to find exactly those matches. Because the
    language is prefix-free, no match is ever missed or cut short.
  - Every colour code of the two palettes is written as `Sgr(params)`,
    ESC `[` params `m`: `Sgr("38;10")` is the string `"\x1b[38;10m"`.
  - `__init__.py` and `pretty_logging.py` each define their own copy of the
    stripper with the identical pattern literal, so one definition covers
    both.
- `LoggingHost` (`logging_host.dfy`) holds the parts of the standard
  `logging` module the package relies on:
  - the standard levels;
  - the level-name registry, a class whose maps `addLevelName` updates;
  - log records;
  - `%`-style templates, already parsed into pieces, and the base
    formatter's rendering of them;
  - a logger, reduced to its effective level and the sequence of records it
    has emitted.
- `PrettyLogger` (`pretty_logger.dfy`) models `__init__.py`: the levels and
  their registration, `ExtendedLogger`'s emitters and banner,
  `ExtendedFormatter` and `ColoredFormatter`.
- `PrettyLogging` (`pretty_logging.dfy`) models `pretty_logging.py`, the
  table-driven `SimpleFormatter` and `PrettyFormatter`.
- `FullLogger` (`full_logger.dfy`) models `full_logger.py`: levels,
  registration, and the module-level `raw`, `success` and `success_banner`
  on the root logger.

Two consequences of the code that are easy to get wrong:

- Stripping is **not** idempotent. `"\x1b\x1b[0m[0m"` strips to
  `"\x1b[0m"`, and that strips to `""`. Removing the inner sequence joins the
  outer ESC to the text after it. So the output may still contain ESC
  (`Ansi.StripNotIdempotent`). What does hold: the output is a subsequence
  of the input, and text without ESC is unchanged.
- The banner's bars are `len(msg) + 40` characters long. For
  `"Build complete"` (14 characters) that is 54 `=` characters
  (`PrettyLogger.BuildCompleteBanner`).

## Model

| member | source | states |
|---|---|---|
| LoggingHost.LevelRegistry.constructor | src/pretty_logger/__init__.py:22-24 | host definition, as the `logging` module gives it: the registry the package's registrations start from: the six standard levels named, and the names (with the aliases FATAL and WARN) bound to their levels |
| LoggingHost.LevelRegistry.GetLevelName | src/pretty_logger/__init__.py:34-36 | host definition, as the `logging` module gives it: `getLevelName` answers the name registered for a level, and `"Level "` followed by the decimal level for a level never registered |
| LoggingHost.MakeRecord | src/pretty_logger/__init__.py:62 | host definition, as the `logging` module gives it: a record created by `log` carries the given logger name, level, message, arguments and time, and the level name the registry gives for its level |
| LoggingHost.GetMessage | src/pretty_logger/__init__.py:115 | host definition, as the `logging` module gives it: `getMessage` is the template message alone when there are no arguments and `msg % args` otherwise |
| LoggingHost.BaseTemplate | src/pretty_logger/__init__.py:104 | the base formatter keeps `fmt or "%(message)s"`: the given template when it is non-empty, the message template for a missing or empty one; never an empty template |
| LoggingHost.Render | src/pretty_logger/__init__.py:113 | the base formatter renders the empty template as the empty string and a one-piece template as that piece's text |
| PrettyLogger.LevelOrder | src/pretty_logger/__init__.py:30-32 | DEBUG < VERBOSE < INFO < RAW < SUCCESS < WARNING < ERROR < CRITICAL; none of the three new levels is a standard level |
| LoggingHost.LevelRegistry.AddLevelName | src/pretty_logger/__init__.py:34-36 | `addLevelName` binds the level to the name and the name to the level, overwriting earlier bindings and leaving the rest of the registry alone |
| PrettyLogger.WithExtendedNames | src/pretty_logger/__init__.py:34-36 | after the package's registrations the table has the old keys plus VERBOSE, RAW, SUCCESS; those map to "VERBOSE", "RAW", "SUCCESS", and every other entry is unchanged |
| PrettyLogger.RegisterLevels | src/pretty_logger/__init__.py:34-36 | the three `addLevelName` calls leave the level-to-name table as `WithExtendedNames` says and the name-to-level table as `WithExtendedLevels` says, and `getLevelName` then answers the new names |
| PrettyLogger.WithExtendedLevels | src/pretty_logger/__init__.py:34-36 | after the package's registrations the name table has the old names plus "VERBOSE", "RAW", "SUCCESS"; those map to 19, 21, 22, and every other entry is unchanged |
| PrettyLogger.RegistrationIdempotent | src/pretty_logger/__init__.py:34-36 | registering the three names a second time changes nothing, neither in the level-to-name nor in the name-to-level table |
| LoggingHost.Logger.Log | src/pretty_logger/__init__.py:62 | `Logger.log` appends one record exactly when its level reaches the logger's effective level, and nothing otherwise |
| PrettyLogger.Verbose | src/pretty_logger/__init__.py:58-62 | `verbose(msg)` appends the one record (VERBOSE, msg), if enabled |
| PrettyLogger.Raw | src/pretty_logger/__init__.py:64-68 | `raw(msg)` appends the one record (RAW, msg), if enabled |
| PrettyLogger.Success | src/pretty_logger/__init__.py:70-74 | `success(msg)` appends the one record (SUCCESS, msg), if enabled |
| PrettyLogger.Bar | src/pretty_logger/__init__.py:83 | the bar is `|msg| + 40` characters, all `=` |
| PrettyLogger.Banner | src/pretty_logger/__init__.py:83-85 | a banner is three records: RAW bar, SUCCESS with the message itself, and the identical RAW bar |
| PrettyLogger.SuccessBanner | src/pretty_logger/__init__.py:76-85 | `success_banner(msg)` appends to the logger's output exactly the enabled records of the banner, in order, and nothing else |
| PrettyLogger.BannerByThreshold | src/pretty_logger/__init__.py:83-85 | depending on the logger's level, the whole banner gets through, only its SUCCESS line, or nothing |
| PrettyLogger.BuildCompleteBanner | src/pretty_logger/__init__.py:83-85 | for "Build complete" both bars are 54 `=` characters and the middle line is the message |
| LoggingHost.RenderAppend | src/pretty_logger/__init__.py:113 | the base formatter renders a concatenation of templates as the concatenation of their renderings |
| LoggingHost.RenderDefault | src/pretty_logger/__init__.py:113 | the default template `%(message)s` renders the record's message alone |
| LoggingHost.Enabled | src/pretty_logger/__init__.py:62 | the records a logger lets through are exactly those at or above its level, none added; the order is fixed by `EnabledAppend` together with `PrettyLogger.EnabledSingle` (filtering respects concatenation, and one record passes or not) |
| LoggingHost.EnabledAppend | src/pretty_logger/__init__.py:83-85 | filtering a run of records piece by piece is filtering it whole |
| LoggingHost.LogThree | src/pretty_logger/__init__.py:83-85 | three `log` calls in a row add exactly the filtered triple of records to the output |
| PrettyLogger.ExtendedFormatter.constructor | src/pretty_logger/__init__.py:96-105 | the formatter keeps the template the base class keeps (`%(message)s` for a missing or empty one) and the `strip` flag |
| PrettyLogger.ExtendedFormatter.Prepared | src/pretty_logger/__init__.py:108-110 | the record rendered differs from the caller's in `msg` only; with `strip` on its message is the strip of the caller's, and it is the caller's record unchanged when `strip` is off or the message has no ESC |
| PrettyLogger.ExtendedFormatter.Format | src/pretty_logger/__init__.py:107-115 | a RAW record gives the prepared record's message, any other level the template over the prepared record; with the default template every level gives the message |
| PrettyLogger.StripMessageOnly | src/pretty_logger/__init__.py:107-115 | for every level, a stripping formatter gives what a non-stripping one with the same template gives for the record with its message stripped |
| PrettyLogger.RawIsMessageOnly | src/pretty_logger/__init__.py:107-115 | a RAW record renders as its (possibly stripped) message alone. The template, level name, time and logger name play no part, and without arguments the result is the message or its strip |
| PrettyLogger.StripLeavesArguments | src/pretty_logger/__init__.py:108-110 | for a RAW record under a stripping formatter, only the template message is stripped, before the arguments are substituted, so escapes in the arguments survive (for every level, see `StripMessageOnly`) |
| PrettyLogger.ColorsTable | src/pretty_logger/__init__.py:130-138 | the colour table has exactly seven levels, RAW is not among them, and the seven prefixes are pairwise distinct |
| Ansi.SgrIsEscape | src/pretty_logger/__init__.py:121-128 | a colour code ESC `[` params `m` with parameter bytes only is one complete control sequence, a match of the pattern |
| PrettyLogger.ColorsAreEscapes | src/pretty_logger/__init__.py:121-138 | every colour of the table, and RESET, is one complete control sequence |
| PrettyLogger.ColorsStrip | src/pretty_logger/__init__.py:121-138 | stripping any colour of the table, or RESET, yields the empty string |
| PrettyLogger.ColoredFormatter.constructor | src/pretty_logger/__init__.py:96-105 | the coloured formatter inherits the constructor: the same template fallback and `strip` flag |
| PrettyLogger.ColoredFormatter.Format | src/pretty_logger/__init__.py:140-144 | a level in the table gives its colour + the template over the prepared record + RESET; a RAW record gives the bare prepared message without colour; any other level the uncoloured rendering |
| PrettyLogger.StripBeforeWrap | src/pretty_logger/__init__.py:107-113 | with `strip` on, a coloured line is the colour + the template rendered over the stripped message + RESET, and both codes are complete control sequences (they survive the strip) |
| PrettyLogger.StripColoredIsStripPlain | src/pretty_logger/__init__.py:140-144 | stripping the coloured line gives what stripping the uncoloured line gives |
| Ansi.IsEscapeSequence | src/pretty_logger/__init__.py:151 | the language of the pattern as a grammar: ESC Fe, or ESC `[` parameter bytes, intermediate bytes, one final byte |
| Ansi.Span | src/pretty_logger/__init__.py:151 | the end of the longest run of characters of one class from a given position |
| Ansi.MatchLength | src/pretty_logger/__init__.py:151 | a match, when there is one, is at least two characters long and starts with ESC |
| Ansi.MatchLengthSound | src/pretty_logger/__init__.py:151 | what the scanner removes at a position is a whole match of the pattern |
| Ansi.MatchLengthUnique | src/pretty_logger/__init__.py:151 | any match of the pattern at the start of the text has exactly the length the scanner finds |
| Ansi.NoMatchMeansNoPrefix | src/pretty_logger/__init__.py:151 | where the scanner finds no match, no prefix of the text matches the pattern |
| Ansi.NoMatchAtStart | src/pretty_logger/__init__.py:151 | where the scanner finds no match, no prefix of any length matches the pattern |
| Ansi.Scan | src/pretty_logger/__init__.py:150-152 | the scan's tokens spell out the input, every removed run is a whole match of the pattern, and every kept character stands where no match of the pattern starts |
| Ansi.Strip | src/pretty_logger/__init__.py:150-152 | `re.sub` of the pattern with `''` is total and never makes the text longer |
| Ansi.StripIsKeptText | src/pretty_logger/__init__.py:150-152 | the stripped text is exactly the characters the scan keeps |
| Ansi.KeptTextSubsequence | src/pretty_logger/__init__.py:152 | the kept characters form a subsequence of the scanned text |
| Ansi.StripSubsequence | src/pretty_logger/__init__.py:150-152 | the stripper only deletes: its output is a subsequence of its input |
| Ansi.EscapeSequenceShape | src/pretty_logger/__init__.py:151 | every removed run starts with exactly one ESC, holds no other, and ends in a final byte 0x40-0x7E |
| Ansi.StripNoEscape | src/pretty_logger/__init__.py:150-152 | text without ESC passes through unchanged |
| Ansi.StripAfterEscape | src/pretty_logger/__init__.py:150-152 | a complete escape sequence at the front is removed whatever follows it |
| Ansi.StripEscapeSequence | src/pretty_logger/__init__.py:150-152 | a complete escape sequence strips to the empty string |
| Ansi.StripAppend | src/pretty_logger/__init__.py:150-152 | no match straddles a boundary followed by a character outside 0x20-0x7E (ESC and the other controls, DEL, any non-ASCII character), so stripping works piece by piece there |
| Ansi.StripWrapped | src/pretty_logger/__init__.py:150-152 | text between two complete escape sequences strips as it would alone |
| Ansi.ControlSequence | src/pretty_logger/__init__.py:151 | ESC `[`, parameter bytes, and a final byte form a match of the pattern |
| Ansi.StripKeptHead | src/pretty_logger/__init__.py:150-152 | a character where no match starts is kept, and the scan moves on by one |
| Ansi.StripNested | src/pretty_logger/__init__.py:150-152 | an ESC standing in front of a complete sequence is kept while the sequence is removed |
| Ansi.StripNotIdempotent | src/pretty_logger/__init__.py:150-152 | for every complete sequence t, ESC + t + t without its ESC strips to t in one pass and to nothing in a second (t = `"\x1b[0m"` gives `"\x1b\x1b[0m[0m"`): the stripper is not idempotent |
| PrettyLogging.RenderFormatStr | src/pretty_logger/pretty_logging.py:34 | `format_str` renders as level name, `:`, time, ` - `, message |
| PrettyLogging.TablesCoverSixLevels | src/pretty_logger/pretty_logging.py:36-43 | both tables cover exactly DEBUG, INFO, SUCCESS, WARNING, ERROR, CRITICAL; RAW and VERBOSE are missing; each pretty entry is its prefix + `format_str` + reset |
| PrettyLogging.Lookup | src/pretty_logger/pretty_logging.py:46-47 | the template of `Formatter(FORMATS.get(levelno))` is the table's entry for a tabled level and `%(message)s` for a level missing from the table |
| PrettyLogging.SimpleFormat | src/pretty_logger/pretty_logging.py:45-48 | for a tabled level `SimpleFormatter` gives the strip of the whole plain line, level name and time included; for any other level the stripped message alone |
| PrettyLogging.RenderColoured | src/pretty_logger/pretty_logging.py:62-69 | each pretty template renders as its prefix + the plain line + `\x1b[0m` |
| PrettyLogging.PrettyFormat | src/pretty_logger/pretty_logging.py:71-74 | for a tabled level `PrettyFormatter` gives the prefix + the plain line, unstripped + `\x1b[0m`; for any other level, RAW among them, the bare message, escapes kept, without colour |
| PrettyLogging.PrefixesDistinct | src/pretty_logger/pretty_logging.py:55-69 | DEBUG and INFO share the grey prefix; every other pair of levels has distinct prefixes |
| PrettyLogging.PrefixIsEscape | src/pretty_logger/pretty_logging.py:55-60 | each prefix and the reset is one complete control sequence |
| PrettyLogging.SuccessRecordLine | src/pretty_logger/pretty_logging.py:36-74 | a SUCCESS record created after the registrations is named "SUCCESS", so the pretty formatter prints green + `SUCCESS:time - message` + reset and the simple one the strip of that line |
| PrettyLogging.PrettyStripsToSimple | src/pretty_logger/pretty_logging.py:45-74 | for every record, stripping `PrettyFormatter`'s output gives `SimpleFormatter`'s output |
| FullLogger.LevelsAgree | src/pretty_logger/full_logger.py:22-23 | INFO < RAW < SUCCESS < WARNING, and both values agree with the package's own |
| FullLogger.WithFullNames | src/pretty_logger/full_logger.py:25-26 | the table gains 21 -> "RAW" and 22 -> "SUCCESS", and every other entry is unchanged |
| FullLogger.WithFullLevels | src/pretty_logger/full_logger.py:25-26 | the name table gains "RAW" -> 21 and "SUCCESS" -> 22, and every other entry is unchanged |
| FullLogger.RegisterLevels | src/pretty_logger/full_logger.py:25-26 | the two `addLevelName` calls leave the level-to-name table as `WithFullNames` says and the name-to-level table as `WithFullLevels` says |
| FullLogger.RegistrationsAgree | src/pretty_logger/full_logger.py:25-26 | importing this module after the package changes no binding in either table, and neither does importing it twice |
| FullLogger.Raw | src/pretty_logger/full_logger.py:29-35 | `raw(m)` appends, through the root logger, exactly the one record (RAW, m) with `m` unmodified, if enabled |
| FullLogger.Success | src/pretty_logger/full_logger.py:38-44 | `success(m)` appends exactly the one record (SUCCESS, m), if enabled |
| FullLogger.SuccessBanner | src/pretty_logger/full_logger.py:47-56 | `success_banner(m)` appends exactly the enabled records of the banner, which are RAW bar, SUCCESS m and the identical RAW bar, in order, and nothing else |

## Left out

- Exception and stack text: the base formatter's appending of `exc_text`
  and `stack_info` is not modelled. Records are taken to have neither, so the
  RAW bypass, which drops them, is not distinguished from the template path
  there. Nor is what happens to a record carrying `exc_info` (a live
  traceback, as `logger.exception` gives) on the strip path: there
  `ExtendedFormatter.format` deep-copies the record (`__init__.py` line
  109), and copying a traceback raises `TypeError`, so the source raises
  instead of formatting such a record.
- `msg % args`: the substitution is the parameter `Interpolation`, called
  only when there are arguments, as `getMessage` does. It is left
  uninterpreted, so its own failures (a `TypeError` on mismatched
  arguments) are not modelled.
- Time: `asctime`, `datefmt` and the clock behind them are a record field
  supplied from outside.
- Template styles other than `%` (`{` and `$`) and the template parser: a
  template is modelled as its already parsed pieces.
- Template fields: a piece is literal text, one of the three fields of the
  package's own template, `%(levelname)s`, `%(asctime)s` and `%(message)s`,
  or `%(name)s`, each with no conversion flags, width or precision. A user template given to `ExtendedFormatter` or
  `ColoredFormatter` that uses any other record attribute (`%(lineno)d`,
  `%(funcName)s`, …) or a flag (`%(levelname)-8s`) cannot be represented.
- `getLogger`, `setLoggerClass` and the `RuntimeError` check
  (`__init__.py` lines 42-50): these configure the host library and decide
  nothing about levels or formatting.
- Handlers, streams, the logging module's locking, `manager.disable`,
  logger-level filters, `Logger.disabled` and logger propagation: I/O,
  concurrency and configuration. A logger is its effective level and the
  records it emits; a record at or above that level that a filter or
  `disabled` would discard is still emitted in the model.
- `full_logger`'s helpers go through the module-level `logging.log`, which
  configures the root logger on first use when it has no handlers. That
  configuration is not modelled; `root` is a given logger.
- PrettyLogger.ExtendedFormatter.constructor: a non-empty template with no
  field at all is kept as given. Python's `Formatter` validates the template
  by default and raises `ValueError` for such a template; that error is not
  modelled. `datefmt`, `style` and the other keyword arguments are not
  modelled either (see time and template styles above).
- PrettyLogger.Verbose, PrettyLogger.Raw, PrettyLogger.Success: the extra
  positional arguments and the keyword arguments (`exc_info`, `extra`,
  `stack_info`, `stacklevel`) that they pass on to `log` are dropped. An
  emitted record is its level and message only.
- Non-string `record.msg`, on which the regex call would raise: `msg` is a
  string.
- `copy.deepcopy`: the copy is a new record value with `msg` replaced.
  Aliasing of the caller's record cannot arise in this model.
- Ansi.Strip: stated as the kept text of the scan (`StripIsKeptText`), a
  subsequence of its input; idempotence and "no ESC in the output" are not
  claimed, because the pattern as written satisfies neither.

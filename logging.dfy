/**
  The logging half of dismob/log.py: level-name resolution, `setup_logger` over Python's
  registry of named loggers, the `require_logger` guard around `debug`/`info`/`warning`/`error`,
  and the console `ColorFormatter`.

  Python's logging machinery itself (handler objects, files, streams, the clock, stack capture)
  is not modelled: a handler is its kind and its level, and a logging call is the entry handed
  to the logger.
*/
module Logging {
  import opened Wrappers

  // Numeric levels of Python's logging module.
  const NOTSET: nat := 0
  const DEBUG: nat := 10
  const INFO: nat := 20
  const WARNING: nat := 30
  const ERROR: nat := 40
  const CRITICAL: nat := 50

  /** logging.getLevelNamesMapping(): every level name the lookup accepts. */
  const LevelNames: map<string, nat> :=
    map["CRITICAL" := CRITICAL, "FATAL" := CRITICAL, "ERROR" := ERROR, "WARN" := WARNING,
        "WARNING" := WARNING, "INFO" := INFO, "DEBUG" := DEBUG, "NOTSET" := NOTSET]

  function UpperChar(c: char): char {
    if 'a' <= c <= 'z' then (c as int - 32) as char else c
  }

  /** str.upper, restricted to ASCII letters. */
  function Upper(s: string): string {
    seq(|s|, i requires 0 <= i < |s| => UpperChar(s[i]))
  }

  /** Two level names that differ only in the case of their letters. */
  predicate SameIgnoringCase(a: string, b: string) {
    |a| == |b| && forall i :: 0 <= i < |a| ==> UpperChar(a[i]) == UpperChar(b[i])
  }

  /**
    `logLevels.get(level.upper(), logging.INFO)`: the name is upper-cased before the lookup
    and an unknown name falls back to INFO, so the result is always a level logging knows.
  */
  function ResolveLevel(name: string): (r: nat)
    ensures r in LevelNames.Values
    ensures Upper(name) in LevelNames ==> r == LevelNames[Upper(name)]
    ensures Upper(name) !in LevelNames ==> r == INFO
  {
    var key := Upper(name);
    if key in LevelNames then LevelNames[key]
    else assert LevelNames["INFO"] == INFO; INFO
  }

  /** The lookup does not depend on the case of the name. */
  lemma ResolveLevelIgnoresCase(a: string, b: string)
    requires SameIgnoringCase(a, b)
    ensures ResolveLevel(a) == ResolveLevel(b)
  {
    assert Upper(a) == Upper(b);
  }

  lemma ResolveLevelExamples()
    ensures ResolveLevel("debug") == DEBUG
    ensures ResolveLevel("Warn") == WARNING
    ensures ResolveLevel("verbose") == INFO
  {
    assert Upper("debug") == "DEBUG";
    assert Upper("Warn") == "WARN";
    assert Upper("verbose") == "VERBOSE";
  }

  function Min(a: nat, b: nat): nat {
    if a <= b then a else b
  }

  /** A handler attached to a logger: the file sink or the console sink, with its own level. */
  datatype Handler = FileSink(level: nat) | ConsoleSink(level: nat)

  /** What the model keeps of a `logging.Logger`: its own level and its own handlers. */
  datatype LoggerState = LoggerState(level: nat, handlers: seq<Handler>)

  /** logging.getLogger(name): a logger never asked for before has level NOTSET and no handlers. */
  function GetLogger(registry: map<string, LoggerState>, name: string): LoggerState {
    if name in registry then registry[name] else LoggerState(NOTSET, [])
  }

  /**
    The effect of `setup_logger(name, fileLevel, consoleLevel)` on the registry of loggers:
    the named logger's level becomes the lower of the two sink levels, so it never holds back
    a record one of its sinks would accept; the two sinks are attached only when the logger
    has no handler yet; every other logger is left alone.
  */
  function Configure(registry: map<string, LoggerState>, name: string, fileLevel: string, consoleLevel: string)
    : (r: map<string, LoggerState>)
    ensures r.Keys == registry.Keys + {name}
    ensures forall n :: n in registry && n != name ==> r[n] == registry[n]
    ensures r[name].level <= ResolveLevel(fileLevel) && r[name].level <= ResolveLevel(consoleLevel)
    ensures r[name].level == ResolveLevel(fileLevel) || r[name].level == ResolveLevel(consoleLevel)
    ensures GetLogger(registry, name).handlers != [] ==> r[name].handlers == registry[name].handlers
    ensures GetLogger(registry, name).handlers == [] ==>
      r[name].handlers == [FileSink(ResolveLevel(fileLevel)), ConsoleSink(ResolveLevel(consoleLevel))]
  {
    var fileLevelNo := ResolveLevel(fileLevel);
    var consoleLevelNo := ResolveLevel(consoleLevel);
    var current := GetLogger(registry, name);
    var handlers := if current.handlers == [] then [FileSink(fileLevelNo), ConsoleSink(consoleLevelNo)]
                    else current.handlers;
    registry[name := LoggerState(Min(fileLevelNo, consoleLevelNo), handlers)]
  }

  function CountFileSinks(hs: seq<Handler>): nat {
    if hs == [] then 0 else (if hs[0].FileSink? then 1 else 0) + CountFileSinks(hs[1..])
  }

  function CountConsoleSinks(hs: seq<Handler>): nat {
    if hs == [] then 0 else (if hs[0].ConsoleSink? then 1 else 0) + CountConsoleSinks(hs[1..])
  }

  /**
    Setting up the same logger twice leaves exactly one file sink and one console sink, with
    the levels of the first call, while the logger's own level is re-applied by the second.
  */
  lemma RepeatedSetupKeepsFirstSinks(registry: map<string, LoggerState>, name: string,
                                     file1: string, console1: string, file2: string, console2: string)
    requires GetLogger(registry, name).handlers == []
    ensures var r := Configure(Configure(registry, name, file1, console1), name, file2, console2);
      && r[name].handlers == [FileSink(ResolveLevel(file1)), ConsoleSink(ResolveLevel(console1))]
      && CountFileSinks(r[name].handlers) == 1 && CountConsoleSinks(r[name].handlers) == 1
      && r[name].level == Min(ResolveLevel(file2), ResolveLevel(console2))
  {
    var once := Configure(registry, name, file1, console1);
    assert GetLogger(once, name).handlers != [];
    var hs := [FileSink(ResolveLevel(file1)), ConsoleSink(ResolveLevel(console1))];
    assert hs[1..] == [ConsoleSink(ResolveLevel(console1))];
    assert hs[1..][1..] == [];
    assert CountFileSinks(hs[1..]) == 0;
    assert CountConsoleSinks(hs[1..]) == 1;
  }

  /** A logging call, as handed to the logger: its level, its message and whether a stack is attached. */
  datatype Entry = Entry(level: nat, msg: string, stackInfo: bool)

  /** An exception escaping a modelled call. */
  datatype Exception =
    | LoggerNotSetUp                  // RuntimeError raised by the require_logger guard
    | Propagated(description: string) // a remote failure the call does not catch

  /** How a call ends: it returns a value or raises. */
  datatype Exit<T> = Returned(value: T) | Raised(error: Exception)

  /** The entries a call handed to the logger and how the call ended. */
  datatype Logged<T> = Logged(log: seq<Entry>, exit: Exit<T>)

  /**
    One call of `debug`/`info`/`warning`/`error` through the `require_logger` wrapper,
    followed by returning `value`: with no logger set up it raises RuntimeError and hands
    nothing to a logger; otherwise it delegates the entry exactly once.
  */
  function Guard<T>(setUp: bool, e: Entry, value: T): (r: Logged<T>)
    ensures r.exit.Raised? <==> !setUp
    ensures r.exit.Raised? ==> r.exit.error == LoggerNotSetUp && r.log == []
    ensures r.exit.Returned? ==> r.exit.value == value && r.log == [e]
  {
    if setUp then Logged([e], Returned(value)) else Logged([], Raised(LoggerNotSetUp))
  }

  /** The module-level state of dismob/log.py together with the logging registry it uses. */
  class LogSink {
    /** The module-global `logger`: the name of the logger set up last, None before any setup. */
    var logger: Option<string>
    /** Python's registry of named loggers (logging.getLogger). */
    var registry: map<string, LoggerState>
    /** Every entry handed to the global logger so far. */
    var records: seq<Entry>

    constructor ()
      ensures logger == None && registry == map[] && records == []
    {
      logger := None;
      registry := map[];
      records := [];
    }

    /** setup_logger: resolve both level names, configure the named logger, make it the global one. */
    method SetupLogger(name: string := "DungeonBot", fileLevel: string := "INFO", consoleLevel: string := "INFO")
      modifies this`logger, this`registry
      ensures logger == Some(name)
      ensures registry == Configure(old(registry), name, fileLevel, consoleLevel)
    {
      var fileLevelNo := ResolveLevel(fileLevel);
      var consoleLevelNo := ResolveLevel(consoleLevel);
      logger := Some(name);
      var current := GetLogger(registry, name);
      current := current.(level := Min(fileLevelNo, consoleLevelNo));
      if current.handlers == [] {
        current := current.(handlers := current.handlers + [FileSink(fileLevelNo)]);
        current := current.(handlers := current.handlers + [ConsoleSink(consoleLevelNo)]);
        assert current.handlers == [FileSink(fileLevelNo), ConsoleSink(consoleLevelNo)];
      }
      registry := registry[name := current];
    }

    /** The `require_logger` wrapper around one delegation to the global logger. */
    method Guarded(e: Entry) returns (exit: Exit<()>)
      modifies this`records
      ensures exit == Guard(logger.Some?, e, ()).exit
      ensures records == old(records) + Guard(logger.Some?, e, ()).log
    {
      if logger == None {
        exit := Raised(LoggerNotSetUp);
      } else {
        records := records + [e];
        exit := Returned(());
      }
    }

    method Debug(msg: string) returns (exit: Exit<()>)
      modifies this`records
      ensures exit == Guard(logger.Some?, Entry(DEBUG, msg, false), ()).exit
      ensures records == old(records) + Guard(logger.Some?, Entry(DEBUG, msg, false), ()).log
    {
      exit := Guarded(Entry(DEBUG, msg, false));
    }

    method Info(msg: string) returns (exit: Exit<()>)
      modifies this`records
      ensures exit == Guard(logger.Some?, Entry(INFO, msg, false), ()).exit
      ensures records == old(records) + Guard(logger.Some?, Entry(INFO, msg, false), ()).log
    {
      exit := Guarded(Entry(INFO, msg, false));
    }

    method Warning(msg: string) returns (exit: Exit<()>)
      modifies this`records
      ensures exit == Guard(logger.Some?, Entry(WARNING, msg, false), ()).exit
      ensures records == old(records) + Guard(logger.Some?, Entry(WARNING, msg, false), ()).log
    {
      exit := Guarded(Entry(WARNING, msg, false));
    }

    /** error() asks for a stack trace unless told otherwise. */
    method Error(msg: string, stacktrace: bool := true) returns (exit: Exit<()>)
      modifies this`records
      ensures exit == Guard(logger.Some?, Entry(ERROR, msg, stacktrace), ()).exit
      ensures records == old(records) + Guard(logger.Some?, Entry(ERROR, msg, stacktrace), ()).log
    {
      exit := Guarded(Entry(ERROR, msg, stacktrace));
    }
  }

  // ---------------------------------------------------------------------------------------
  // Console formatting

  const ESC: char := '\U{1b}'
  const BOLD: string := [ESC] + "[1m"
  const PURPLE: string := [ESC] + "[35m"
  const GRAY: string := [ESC] + "[90m"
  const RESET: string := [ESC] + "[0m"

  /** ColorFormatter.COLORS.get(levelname, ""): one colour per standard level, none otherwise. */
  function LevelColour(levelname: string): string {
    if levelname == "DEBUG" then [ESC] + "[36m"
    else if levelname == "INFO" then [ESC] + "[34m"
    else if levelname == "WARNING" then [ESC] + "[33m"
    else if levelname == "ERROR" then [ESC] + "[31m"
    else if levelname == "CRITICAL" then [ESC] + "[41m"
    else ""
  }

  /** `f"{s:<width}"`: left-justified, padded with spaces, never truncated. */
  function PadRight(s: string, width: nat): (r: string)
    ensures |r| == if |s| < width then width else |s|
    ensures r[..|s|] == s
    ensures forall i :: |s| <= i < |r| ==> r[i] == ' '
  {
    if |s| < width then s + seq(width - |s|, _ => ' ') else s
  }

  /** The level name as the console shows it: bold, coloured, padded to eight before styling. */
  function StyledLevel(levelname: string): (r: string)
    ensures |r| >= 8
  {
    BOLD + LevelColour(levelname) + PadRight(levelname, 8) + RESET
  }

  function StyledName(name: string): string {
    PURPLE + name + RESET
  }

  /** ColorFormatter.formatTime: the base formatter's timestamp, in bold grey. */
  function StyledTime(asctime: string): string {
    BOLD + GRAY + asctime + RESET
  }

  /** The console layout "%(asctime)s %(levelname)-8s %(name)s %(message)s". */
  function ConsoleLine(asctime: string, levelname: string, name: string, message: string): string {
    asctime + " " + PadRight(levelname, 8) + " " + name + " " + message
  }

  /** A log record, the object ColorFormatter.format decorates in place. */
  class LogRecord {
    var levelno: nat
    var levelname: string
    var name: string
    var message: string
    var asctime: string

    constructor (levelno: nat, levelname: string, name: string, message: string)
      ensures this.levelno == levelno && this.levelname == levelname
      ensures this.name == name && this.message == message && this.asctime == ""
    {
      this.levelno := levelno;
      this.levelname := levelname;
      this.name := name;
      this.message := message;
      this.asctime := "";
    }
  }

  /**
    ColorFormatter.format: overwrites the record's level name and logger name with their styled
    forms, stores the styled timestamp, and lays the record out on one console line. `clock` is
    the timestamp text the base formatter derives from the record's creation time. The numeric
    level, on which handlers filter, is untouched.
  */
  method ColorFormat(record: LogRecord, clock: string) returns (line: string)
    modifies record
    ensures record.levelname == StyledLevel(old(record.levelname))
    ensures record.name == StyledName(old(record.name))
    ensures record.asctime == StyledTime(clock)
    ensures record.levelno == old(record.levelno) && record.message == old(record.message)
    ensures line == ConsoleLine(record.asctime, record.levelname, record.name, record.message)
  {
    var levelname := record.levelname;
    var padded := PadRight(levelname, 8);
    var colour := LevelColour(levelname);
    record.levelname := BOLD + colour + padded + RESET;
    record.name := PURPLE + record.name + RESET;
    record.asctime := StyledTime(clock);
    line := ConsoleLine(record.asctime, record.levelname, record.name, record.message);
  }

  // ---------------------------------------------------------------------------------------
  // What a terminal shows once the escape sequences are interpreted

  predicate NoEscape(s: string) {
    forall i :: 0 <= i < |s| ==> s[i] != ESC
  }

  /** The rest of `s` after the first 'm', which ends an escape sequence. */
  function AfterCode(s: string): (r: string)
    ensures |r| <= |s|
  {
    if s == [] then [] else if s[0] == 'm' then s[1..] else AfterCode(s[1..])
  }

  /** `s` with every escape sequence (ESC up to the next 'm') removed. */
  function StripAnsi(s: string): string
    decreases |s|
  {
    if s == [] then []
    else if s[0] == ESC then StripAnsi(AfterCode(s[1..]))
    else [s[0]] + StripAnsi(s[1..])
  }

  /** A select-graphic-rendition sequence: ESC, then no 'm' until the final 'm'. */
  predicate IsEscapeCode(code: string) {
    && |code| >= 2 && code[0] == ESC && code[|code| - 1] == 'm'
    && forall i :: 1 <= i < |code| - 1 ==> code[i] != 'm'
  }

  lemma {:induction false} AfterCodeSkips(x: string, rest: string)
    requires |x| >= 1 && x[|x| - 1] == 'm'
    requires forall i :: 0 <= i < |x| - 1 ==> x[i] != 'm'
    ensures AfterCode(x + rest) == rest
  {
    if |x| == 1 {
      assert (x + rest)[1..] == rest;
    } else {
      assert (x + rest)[1..] == x[1..] + rest;
      AfterCodeSkips(x[1..], rest);
    }
  }

  lemma StripCode(code: string, rest: string)
    requires IsEscapeCode(code)
    ensures StripAnsi(code + rest) == StripAnsi(rest)
  {
    assert (code + rest)[0] == ESC;
    assert (code + rest)[1..] == code[1..] + rest;
    AfterCodeSkips(code[1..], rest);
  }

  lemma {:induction false} StripPlain(plain: string, rest: string)
    requires NoEscape(plain)
    ensures StripAnsi(plain + rest) == plain + StripAnsi(rest)
  {
    if plain != [] {
      assert (plain + rest)[0] == plain[0] && plain[0] != ESC;
      assert (plain + rest)[1..] == plain[1..] + rest;
      assert NoEscape(plain[1..]) by {
        forall i | 0 <= i < |plain[1..]| ensures plain[1..][i] != ESC {
          assert plain[1..][i] == plain[i + 1];
        }
      }
      StripPlain(plain[1..], rest);
      calc {
        StripAnsi(plain + rest);
        [plain[0]] + StripAnsi(plain[1..] + rest);
        [plain[0]] + (plain[1..] + StripAnsi(rest));
        { assert plain == [plain[0]] + plain[1..]; }
        plain + StripAnsi(rest);
      }
    } else {
      assert plain + rest == rest;
    }
  }

  lemma StripColour(levelname: string, rest: string)
    ensures StripAnsi(LevelColour(levelname) + rest) == StripAnsi(rest)
  {
    var c := LevelColour(levelname);
    if c == "" {
      assert c + rest == rest;
    } else {
      StripCode(c, rest);
    }
  }

  lemma EscapeCodes()
    ensures IsEscapeCode(BOLD) && IsEscapeCode(PURPLE) && IsEscapeCode(GRAY) && IsEscapeCode(RESET)
  {
  }

  /** Removing escapes from `code + plain + RESET + rest` leaves `plain` followed by the stripped rest. */
  lemma StripWrapped(code: string, plain: string, rest: string)
    requires IsEscapeCode(code) && NoEscape(plain)
    ensures StripAnsi(code + plain + RESET + rest) == plain + StripAnsi(rest)
  {
    EscapeCodes();
    assert code + plain + RESET + rest == code + (plain + (RESET + rest));
    StripCode(code, plain + (RESET + rest));
    StripPlain(plain, RESET + rest);
    StripCode(RESET, rest);
  }

  lemma StripStyledTime(clock: string, rest: string)
    requires NoEscape(clock)
    ensures StripAnsi(StyledTime(clock) + rest) == clock + StripAnsi(rest)
  {
    EscapeCodes();
    assert StyledTime(clock) + rest == BOLD + (GRAY + clock + RESET + rest);
    StripCode(BOLD, GRAY + clock + RESET + rest);
    StripWrapped(GRAY, clock, rest);
  }

  lemma StripStyledLevel(levelname: string, rest: string)
    requires NoEscape(levelname)
    ensures StripAnsi(StyledLevel(levelname) + rest) == PadRight(levelname, 8) + StripAnsi(rest)
  {
    EscapeCodes();
    var padded := PadRight(levelname, 8);
    assert NoEscape(padded);
    assert StyledLevel(levelname) + rest == BOLD + (LevelColour(levelname) + (padded + (RESET + rest)));
    StripCode(BOLD, LevelColour(levelname) + (padded + (RESET + rest)));
    StripColour(levelname, padded + (RESET + rest));
    StripPlain(padded, RESET + rest);
    StripCode(RESET, rest);
  }

  lemma StripStyledName(name: string, rest: string)
    requires NoEscape(name)
    ensures StripAnsi(StyledName(name) + rest) == name + StripAnsi(rest)
  {
    EscapeCodes();
    StripWrapped(PURPLE, name, rest);
  }

  lemma ConsoleLineShape(asctime: string, levelname: string, name: string, message: string)
    ensures ConsoleLine(asctime, levelname, name, message)
         == asctime + (" " + (PadRight(levelname, 8) + (" " + (name + (" " + message)))))
  {
  }

  /**
    Styling adds only escape sequences: with them removed, the console line is the plain layout
    of the undecorated record, level name still padded to eight.
  */
  lemma ConsoleStylingIsInvisible(clock: string, levelname: string, name: string, message: string)
    requires NoEscape(clock) && NoEscape(levelname) && NoEscape(name) && NoEscape(message)
    ensures StripAnsi(ConsoleLine(StyledTime(clock), StyledLevel(levelname), StyledName(name), message))
         == ConsoleLine(clock, levelname, name, message)
  {
    var styledLevel := StyledLevel(levelname);
    assert PadRight(styledLevel, 8) == styledLevel;
    var tail := " " + message;
    var afterLevel := " " + (StyledName(name) + tail);
    var afterTime := " " + (styledLevel + afterLevel);
    ConsoleLineShape(StyledTime(clock), styledLevel, StyledName(name), message);
    ConsoleLineShape(clock, levelname, name, message);
    StripPlain(tail, []);
    assert tail + [] == tail;
    StripStyledName(name, tail);
    StripPlain(" ", StyledName(name) + tail);
    StripStyledLevel(levelname, afterLevel);
    StripPlain(" ", styledLevel + afterLevel);
    StripStyledTime(clock, afterTime);
  }
}

// The logging router: two pieces of global state (verbose mode, and
// whether a log file is open) decide which of standard output, standard
// error and the log file receives each entry.
module ErrorLog {
  import opened Common

  /** `ErrorLevel`, in enum order. */
  datatype Level = Debug | Info | Warning | Error | Fatal

  function LevelRank(l: Level): nat {
    match l
    case Debug => 0
    case Info => 1
    case Warning => 2
    case Error => 3
    case Fatal => 4
  }

  /** `ErrorCode`, in enum order starting at 0. */
  datatype Code = Success | MemoryErr | IoErr | PipeErr | ForkErr | SignalErr | SystemErr
                | ParameterErr | GtkErr | PlatformErr | UnknownErr

  function CodeValue(c: Code): nat {
    match c
    case Success => 0
    case MemoryErr => 1
    case IoErr => 2
    case PipeErr => 3
    case ForkErr => 4
    case SignalErr => 5
    case SystemErr => 6
    case ParameterErr => 7
    case GtkErr => 8
    case PlatformErr => 9
    case UnknownErr => 10
  }

  /** `error_level_strings`. */
  function LevelName(l: Level): string {
    match l
    case Debug => "DEBUG"
    case Info => "INFO"
    case Warning => "WARNING"
    case Error => "ERROR"
    case Fatal => "FATAL"
  }

  /** `error_code_strings`. */
  function CodeName(c: Code): string {
    match c
    case Success => "SUCCESS"
    case MemoryErr => "MEMORY"
    case IoErr => "IO"
    case PipeErr => "PIPE"
    case ForkErr => "FORK"
    case SignalErr => "SIGNAL"
    case SystemErr => "SYSTEM"
    case ParameterErr => "PARAMETER"
    case GtkErr => "GTK"
    case PlatformErr => "PLATFORM"
    case UnknownErr => "UNKNOWN"
  }

  /** The level table has one distinct name per level, and the levels are numbered 0 to 4 without repeats. */
  lemma LevelTableDistinct(l1: Level, l2: Level)
    ensures l1 != l2 ==> LevelName(l1) != LevelName(l2) && LevelRank(l1) != LevelRank(l2)
    ensures LevelRank(l1) < 5
  {
  }

  /** The code table has one distinct name per code, and the codes are numbered 0 to 10 without repeats. */
  lemma CodeTableDistinct(c1: Code, c2: Code)
    ensures c1 != c2 ==> CodeName(c1) != CodeName(c2) && CodeValue(c1) != CodeValue(c2)
    ensures CodeValue(c1) < 11
  {
  }

  /** Decimal text of `%d`. */
  function Decimal(n: int): (r: string)
    ensures |r| > 0
    decreases if n < 0 then -n + 1 else n
  {
    if n < 0 then "-" + Decimal(-n)
    else if n < 10 then [('0' as int + n) as char]
    else Decimal(n / 10) + [('0' as int + n % 10) as char]
  }

  const MessageBuffer := 1024
  const EntryBuffer := 2048

  /** The entry before `snprintf` cuts it: `[time] LEVEL [CODE] [file:line:func] message` and a newline. */
  function FullEntry(time: string, level: Level, code: Code, file: string, line: int, func: string, message: string): string {
    "[" + time + "] " + LevelName(level) + " [" + CodeName(code) + "] [" + file + ":" + Decimal(line) + ":" + func + "] "
      + Take(message, MessageBuffer - 1) + "\n"
  }

  /** The entry as written, within its 2048-byte buffer. */
  function Entry(time: string, level: Level, code: Code, file: string, line: int, func: string, message: string): (e: string)
    ensures |e| < EntryBuffer
  {
    Take(FullEntry(time, level, code, file, line, func, message), EntryBuffer - 1)
  }

  /**
   * The entry opens with the bracketed time, the level name and the
   * bracketed code name as far as the buffer reaches, and an entry that
   * fits is written whole and ends with the newline.
   */
  lemma EntryLayout(time: string, level: Level, code: Code, file: string, line: int, func: string, message: string)
    ensures Take("[" + time + "] " + LevelName(level) + " [" + CodeName(code) + "] [", EntryBuffer - 1)
      <= Entry(time, level, code, file, line, func, message)
    ensures |FullEntry(time, level, code, file, line, func, message)| < EntryBuffer ==>
      Entry(time, level, code, file, line, func, message) == FullEntry(time, level, code, file, line, func, message)
      && Entry(time, level, code, file, line, func, message)[|FullEntry(time, level, code, file, line, func, message)| - 1] == '\n'
  {
    var head := "[" + time + "] " + LevelName(level) + " [" + CodeName(code) + "] [";
    var tail := file + ":" + Decimal(line) + ":" + func + "] " + Take(message, MessageBuffer - 1) + "\n";
    var full := FullEntry(time, level, code, file, line, func, message);
    assert full == head + tail;
    TakeOfPrefix(head, tail, EntryBuffer - 1);
  }

  lemma TakeOfPrefix(a: string, b: string, n: nat)
    ensures Take(a, n) <= Take(a + b, n)
  {
    assert Take(a, n) == (a + b)[..|Take(a, n)|];
  }

  /** The outputs an entry can go to. */
  datatype Sink = Stdout | Stderr | LogFile

  /** Where `log_message` sends an entry of this level. */
  function Sinks(level: Level, verbose: bool, fileOpen: bool): set<Sink> {
    if level == Debug && !verbose then {}
    else
      (if LevelRank(level) >= LevelRank(Warning) then {Stderr} else if verbose then {Stdout} else {})
      + (if fileOpen then {LogFile} else {})
  }

  /**
   * The routing rule: debug entries are dropped unless verbose; warnings
   * and worse go to standard error; debug and info go to standard output
   * only when verbose; an open log file gets every entry not dropped; and
   * no entry goes to both consoles.
   */
  lemma SinkRouting(level: Level, verbose: bool, fileOpen: bool)
    ensures level == Debug && !verbose ==> Sinks(level, verbose, fileOpen) == {}
    ensures Stderr in Sinks(level, verbose, fileOpen) <==> LevelRank(level) >= 2
    ensures Stdout in Sinks(level, verbose, fileOpen) <==> LevelRank(level) < 2 && verbose
    ensures LogFile in Sinks(level, verbose, fileOpen) <==> fileOpen && (level != Debug || verbose)
    ensures !(Stdout in Sinks(level, verbose, fileOpen) && Stderr in Sinks(level, verbose, fileOpen))
  {
  }

  /** The globals together with everything written so far to the three outputs. */
  datatype LogState = LogState(verbose: bool, fileOpen: bool, fileText: seq<string>, out: seq<string>, err: seq<string>)

  const Rule := "------------------------------------------------------\n"

  function StartBanner(time: string): string {
    "\n" + Rule + "Log started at " + time + "\n" + Rule
  }

  function EndBanner(time: string): string {
    Rule + "Log ended at " + time + "\n" + Rule
  }

  function OpenFailureText(name: string): string {
    "Error: Could not open log file '" + name + "' for writing\n"
  }

  /** `error_init`'s effect; `openOk` is whether `fopen` succeeds. */
  function InitState(s: LogState, verbose: bool, logName: Option<string>, openOk: bool, time: string): LogState {
    var s1 := s.(verbose := verbose);
    if logName.None? then s1
    else if !openOk then s1.(fileOpen := false, err := s1.err + [OpenFailureText(logName.value)])
    else s1.(fileOpen := true, fileText := s1.fileText + [StartBanner(time)])
  }

  function InitStatus(logName: Option<string>, openOk: bool): int {
    if logName.Some? && !openOk then -1 else 0
  }

  /**
   * Initialisation always sets the verbose flag; it fails exactly when a
   * name is given and cannot be opened, and then no file is open. With no
   * name the file state is left as it was.
   */
  lemma InitOutcome(s: LogState, verbose: bool, logName: Option<string>, openOk: bool, time: string)
    ensures InitState(s, verbose, logName, openOk, time).verbose == verbose
    ensures InitStatus(logName, openOk) == -1 <==> logName.Some? && !openOk
    ensures InitStatus(logName, openOk) == 0 <==> logName.None? || openOk
    ensures logName.Some? ==> InitState(s, verbose, logName, openOk, time).fileOpen == openOk
    ensures logName.None? ==> InitState(s, verbose, logName, openOk, time) == s.(verbose := verbose)
  {
  }

  /** `error_cleanup`'s effect. */
  function CleanupState(s: LogState, time: string): LogState {
    if s.fileOpen then s.(fileOpen := false, fileText := s.fileText + [EndBanner(time)]) else s
  }

  /** Cleanup leaves no file open, and a second cleanup changes nothing. */
  lemma CleanupIdempotent(s: LogState, t1: string, t2: string)
    ensures !CleanupState(s, t1).fileOpen
    ensures CleanupState(CleanupState(s, t1), t2) == CleanupState(s, t1)
    ensures !s.fileOpen ==> CleanupState(s, t1) == s
  {
  }

  /** `log_message`'s effect: the entry is appended to each of its sinks. */
  function Deliver(s: LogState, level: Level, e: string): LogState {
    var sinks := Sinks(level, s.verbose, s.fileOpen);
    s.(out := s.out + (if Stdout in sinks then [e] else []),
       err := s.err + (if Stderr in sinks then [e] else []),
       fileText := s.fileText + (if LogFile in sinks then [e] else []))
  }

  function Logged(s: LogState, level: Level, code: Code, time: string, file: string, line: int, func: string, message: string): LogState {
    Deliver(s, level, Entry(time, level, code, file, line, func, message))
  }

  /** Logging changes neither global, only appends, and appends the entry to a stream exactly when that stream is a sink. */
  lemma LogRouting(s: LogState, level: Level, code: Code, time: string, file: string, line: int, func: string, message: string)
    ensures var t := Logged(s, level, code, time, file, line, func, message);
      var e := Entry(time, level, code, file, line, func, message);
      var sinks := Sinks(level, s.verbose, s.fileOpen);
      t.verbose == s.verbose && t.fileOpen == s.fileOpen
      && (t.out == s.out + [e] <==> Stdout in sinks) && (t.out == s.out <==> Stdout !in sinks)
      && (t.err == s.err + [e] <==> Stderr in sinks) && (t.err == s.err <==> Stderr !in sinks)
      && (t.fileText == s.fileText + [e] <==> LogFile in sinks) && (t.fileText == s.fileText <==> LogFile !in sinks)
  {
    var e := Entry(time, level, code, file, line, func, message);
    assert s.out + [e] != s.out && s.err + [e] != s.err && s.fileText + [e] != s.fileText by {
      assert |s.out + [e]| == |s.out| + 1;
      assert |s.err + [e]| == |s.err| + 1;
      assert |s.fileText + [e]| == |s.fileText| + 1;
    }
  }

  /** `fatal_error`'s exit status: the code's number, or `EXIT_FAILURE` for the success code. */
  function ExitCode(c: Code): int {
    if c == Success then 1 else CodeValue(c)
  }

  /** A fatal error never exits with status 0, and distinct error codes give distinct statuses. */
  lemma ExitCodeNonZero(c1: Code, c2: Code)
    ensures 1 <= ExitCode(c1) <= 10
    ensures c1 != Success ==> ExitCode(c1) == CodeValue(c1)
    ensures c1 != Success && c2 != Success && c1 != c2 ==> ExitCode(c1) != ExitCode(c2)
  {
  }

  /** `fatal_error`'s effect on the outputs: the entry is logged at FATAL, then the log is closed. */
  function FatalState(s: LogState, code: Code, time: string, file: string, line: int, func: string, message: string): LogState {
    CleanupState(Logged(s, Fatal, code, time, file, line, func, message), time)
  }

  /** A fatal error always reaches standard error, reaches the file before its closing banner when one was open, and leaves no file open. */
  lemma FatalReported(s: LogState, code: Code, time: string, file: string, line: int, func: string, message: string)
    ensures var t := FatalState(s, code, time, file, line, func, message);
      var e := Entry(time, Fatal, code, file, line, func, message);
      t.err == s.err + [e] && t.out == s.out && !t.fileOpen
      && t.fileText == s.fileText + (if s.fileOpen then [e, EndBanner(time)] else [])
  {
  }

  /** `check_error`'s result: the code when the condition is non-zero, success otherwise. */
  function CheckResult(condition: int, code: Code): Code {
    if condition != 0 then code else Success
  }

  /** The check reports a failure exactly when the condition holds and the code is not the success code. */
  lemma CheckResultCases(condition: int, code: Code)
    ensures CheckResult(condition, code) != Success <==> condition != 0 && code != Success
    ensures condition != 0 ==> CheckResult(condition, code) == code
  {
  }

  /** The process-wide logger: `g_verbose_mode`, `g_log_file`, and what has been written. */
  class Logger {
    var verbose: bool
    var fileOpen: bool
    var fileText: seq<string>
    var out: seq<string>
    var err: seq<string>

    function State(): LogState
      reads this
    {
      LogState(verbose, fileOpen, fileText, out, err)
    }

    /** The globals' initial values: not verbose, no file. */
    constructor()
      ensures State() == LogState(false, false, [], [], [])
    {
      verbose, fileOpen := false, false;
      fileText, out, err := [], [], [];
    }

    /** `error_init`. */
    method ErrorInit(logName: Option<string>, beVerbose: bool, openOk: bool, time: string) returns (status: int)
      modifies this
      ensures State() == InitState(old(State()), beVerbose, logName, openOk, time)
      ensures status == InitStatus(logName, openOk)
    {
      verbose := beVerbose;
      if logName.Some? {
        fileOpen := openOk;
        if !openOk {
          err := err + [OpenFailureText(logName.value)];
          return -1;
        }
        fileText := fileText + [StartBanner(time)];
      }
      return 0;
    }

    /** `error_cleanup`. */
    method ErrorCleanup(time: string)
      modifies this
      ensures State() == CleanupState(old(State()), time)
    {
      if fileOpen {
        fileText := fileText + [EndBanner(time)];
        fileOpen := false;
      }
    }

    /** `log_message`, with the message already formatted and the clock reading as `time`. */
    method LogMessage(level: Level, code: Code, time: string, file: string, line: int, func: string, message: string)
      modifies this
      ensures State() == Logged(old(State()), level, code, time, file, line, func, message)
    {
      if level == Debug && !verbose {
        return;
      }
      var entry := Entry(time, level, code, file, line, func, message);
      if LevelRank(level) >= LevelRank(Warning) {
        err := err + [entry];
      } else if verbose {
        out := out + [entry];
      }
      if fileOpen {
        fileText := fileText + [entry];
      }
    }

    /** `fatal_error` up to the `exit`, whose status it returns; the C's second formatting of the message is not modelled. */
    method FatalError(code: Code, time: string, file: string, line: int, func: string, message: string) returns (exitStatus: int)
      modifies this
      ensures State() == FatalState(old(State()), code, time, file, line, func, message)
      ensures exitStatus == ExitCode(code)
    {
      LogMessage(Fatal, code, time, file, line, func, Take(message, MessageBuffer - 1));
      assert Take(Take(message, MessageBuffer - 1), MessageBuffer - 1) == Take(message, MessageBuffer - 1);
      ErrorCleanup(time);
      exitStatus := if code == Success then 1 else CodeValue(code);
    }

    /** `check_error`, with the message already formatted; the C's second formatting of that message is not modelled. */
    method CheckError(condition: int, level: Level, code: Code, time: string, file: string, line: int, func: string, message: string)
      returns (result: Code)
      modifies this
      ensures result == CheckResult(condition, code)
      ensures State() == if condition != 0 then Logged(old(State()), level, code, time, file, line, func, message) else old(State())
    {
      if condition != 0 {
        LogMessage(level, code, time, file, line, func, Take(message, MessageBuffer - 1));
        assert Take(Take(message, MessageBuffer - 1), MessageBuffer - 1) == Take(message, MessageBuffer - 1);
        return code;
      }
      return Success;
    }
  }
}

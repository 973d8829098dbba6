// Process-level logic of the command-line monitor: the options record and
// its parser, the answer to the Ctrl-C confirmation prompt, which pipe
// ends each process keeps after the forks, the CPU collector's write
// schedule, and the total hours shown in the system section.
module System {
  import opened Common
  import opened Channel
  import opened Platform
  import CpuCli

  /** `ProgramOptions`. */
  datatype Options = Options(samples: int, tdelay: int, user: bool, system: bool, sequential: bool, graphics: bool)

  const DefaultOptions := Options(DefaultSamples, DefaultDelay, false, false, false, false)

  /** One option as `getopt_long` reports it; `--samples`/`--tdelay` carry their optional argument, already through `atoi`. */
  datatype Flag = SystemFlag | UserFlag | GraphicsFlag | SequentialFlag | SamplesFlag(arg: Option<int>) | TdelayFlag(arg: Option<int>)

  /** The effect of one option on the record. */
  function ApplyFlag(o: Options, f: Flag): Options {
    match f
    case SystemFlag => o.(system := true)
    case UserFlag => o.(user := true)
    case GraphicsFlag => o.(graphics := true)
    case SequentialFlag => o.(sequential := true)
    case SamplesFlag(arg) => if arg.Some? then o.(samples := arg.value) else o
    case TdelayFlag(arg) => if arg.Some? then o.(tdelay := arg.value) else o
  }

  function ApplyFlags(o: Options, flags: seq<Flag>): Options {
    if flags == [] then o else ApplyFlag(ApplyFlags(o, flags[..|flags| - 1]), flags[|flags| - 1])
  }

  /** The options after the positional pass: the first positional is the sample count, the second the delay. */
  function ApplyPositionals(o: Options, positionals: seq<int>): Options {
    var withSamples := if |positionals| >= 1 then o.(samples := positionals[0]) else o;
    if |positionals| >= 2 then withSamples.(tdelay := positionals[1]) else withSamples
  }

  /** What `parseCommandLineOptions` returns for the recognised options and the positional arguments left after them. */
  function ParsedOptions(flags: seq<Flag>, positionals: seq<int>): Options {
    ApplyPositionals(ApplyFlags(DefaultOptions, flags), positionals)
  }

  /** `parseCommandLineOptions`: the defaults, the option loop, then the positional loop. */
  method ParseCommandLineOptions(flags: seq<Flag>, positionals: seq<int>) returns (options: Options)
    ensures options == ParsedOptions(flags, positionals)
  {
    options := DefaultOptions;
    var k := 0;
    while k < |flags|
      invariant 0 <= k <= |flags|
      invariant options == ApplyFlags(DefaultOptions, flags[..k])
    {
      assert flags[..k + 1][..k] == flags[..k];
      match flags[k] {
        case SystemFlag => options := options.(system := true);
        case UserFlag => options := options.(user := true);
        case GraphicsFlag => options := options.(graphics := true);
        case SequentialFlag => options := options.(sequential := true);
        case SamplesFlag(arg) =>
          if arg.Some? {
            options := options.(samples := arg.value);
          }
        case TdelayFlag(arg) =>
          if arg.Some? {
            options := options.(tdelay := arg.value);
          }
      }
      k := k + 1;
    }
    assert flags[..k] == flags;
    var i := 0;
    while i < |positionals|
      invariant 0 <= i <= |positionals|
      invariant options == ApplyPositionals(ApplyFlags(DefaultOptions, flags), positionals[..i])
    {
      if i == 0 {
        options := options.(samples := positionals[i]);
      } else if i == 1 {
        options := options.(tdelay := positionals[i]);
      }
      i := i + 1;
    }
    assert positionals[..i] == positionals;
  }

  /** With no arguments: ten samples, one second apart, every switch off. */
  lemma NoArgumentsGiveDefaults()
    ensures ParsedOptions([], []) == Options(10, 1, false, false, false, false)
  {
  }

  /** Each switch is on exactly when its option appears. */
  lemma {:induction false} SwitchesFollowFlags(flags: seq<Flag>, positionals: seq<int>)
    ensures ParsedOptions(flags, positionals).user <==> UserFlag in flags
    ensures ParsedOptions(flags, positionals).system <==> SystemFlag in flags
    ensures ParsedOptions(flags, positionals).graphics <==> GraphicsFlag in flags
    ensures ParsedOptions(flags, positionals).sequential <==> SequentialFlag in flags
  {
    SwitchesFollowFlagsFrom(flags);
  }

  lemma {:induction false} SwitchesFollowFlagsFrom(flags: seq<Flag>)
    ensures ApplyFlags(DefaultOptions, flags).user <==> UserFlag in flags
    ensures ApplyFlags(DefaultOptions, flags).system <==> SystemFlag in flags
    ensures ApplyFlags(DefaultOptions, flags).graphics <==> GraphicsFlag in flags
    ensures ApplyFlags(DefaultOptions, flags).sequential <==> SequentialFlag in flags
  {
    if flags != [] {
      var init := flags[..|flags| - 1];
      SwitchesFollowFlagsFrom(init);
      assert flags == init + [flags[|flags| - 1]];
    }
  }

  /** `--samples`/`--tdelay` without an attached argument change nothing; with one, the value is the argument. */
  lemma CountOptionArguments(flags: seq<Flag>, v: int)
    ensures ApplyFlags(DefaultOptions, flags + [SamplesFlag(None)]) == ApplyFlags(DefaultOptions, flags)
    ensures ApplyFlags(DefaultOptions, flags + [TdelayFlag(None)]) == ApplyFlags(DefaultOptions, flags)
    ensures ApplyFlags(DefaultOptions, flags + [SamplesFlag(Some(v))]).samples == v
    ensures ApplyFlags(DefaultOptions, flags + [TdelayFlag(Some(v))]).tdelay == v
  {
    assert (flags + [SamplesFlag(None)])[..|flags|] == flags;
    assert (flags + [TdelayFlag(None)])[..|flags|] == flags;
    assert (flags + [SamplesFlag(Some(v))])[..|flags|] == flags;
    assert (flags + [TdelayFlag(Some(v))])[..|flags|] == flags;
  }

  /**
   * The first positional argument overrides the sample count and the
   * second the delay, whatever the options said; further positionals are
   * ignored, and the switches are untouched.
   */
  lemma PositionalsOverride(flags: seq<Flag>, positionals: seq<int>)
    ensures var o := ParsedOptions(flags, positionals); var f := ApplyFlags(DefaultOptions, flags);
      o.samples == (if |positionals| >= 1 then positionals[0] else f.samples)
      && o.tdelay == (if |positionals| >= 2 then positionals[1] else f.tdelay)
      && o.(samples := f.samples, tdelay := f.tdelay) == f
      && o == ParsedOptions(flags, positionals[..Min(2, |positionals|)])
  {
  }

  /** ASCII `tolower`, as `strcasecmp` applies it. */
  function Lower(c: Byte): Byte {
    if 'A' <= c <= 'Z' then (c as int + 32) as char else c
  }

  predicate EqualIgnoringCase(a: seq<Byte>, b: seq<Byte>) {
    |a| == |b| && forall i :: 0 <= i < |a| ==> Lower(a[i]) == Lower(b[i])
  }

  /** The input with one trailing newline removed, if it has one. */
  function StripNewline(s: seq<Byte>): seq<Byte> {
    var t := CString(s);
    if |t| > 0 && t[|t| - 1] == Newline then t[..|t| - 1] else t
  }

  /**
   * The Ctrl-C prompt's decision for what `fgets` returned: `None` at end
   * of input (nothing happens), otherwise whether to terminate.
   */
  function ConfirmTerminate(line: Option<seq<Byte>>): Option<bool> {
    if line.None? then None
    else
      var answer := StripNewline(line.value);
      Some(EqualIgnoringCase(answer, "y") || EqualIgnoringCase(answer, "yes"))
  }

  /** Every spelling the prompt accepts. */
  const AcceptedAnswers: set<seq<Byte>> := {"y", "Y", "yes", "yeS", "yEs", "yES", "Yes", "YeS", "YEs", "YES"}

  /** The process terminates exactly on one of the ten case variants of "y" and "yes", after one newline is dropped. */
  lemma ConfirmAcceptsExactly(line: seq<Byte>)
    ensures ConfirmTerminate(Some(line)) == Some(StripNewline(line) in AcceptedAnswers)
  {
    var t := StripNewline(line);
    if |t| == 1 {
      assert t == [t[0]];
    } else if |t| == 3 {
      assert t == [t[0], t[1], t[2]];
    }
  }

  /**
   * Only one newline is dropped: an answer followed by one newline decides
   * like the bare answer, and one followed by two newlines never
   * terminates; end of input decides nothing.
   */
  lemma OneNewlineStripped(answer: seq<Byte>)
    requires NoNul(answer)
    ensures ConfirmTerminate(Some(answer + [Newline])) == Some(answer in AcceptedAnswers)
    ensures ConfirmTerminate(Some(answer + [Newline, Newline])) == Some(false)
    ensures ConfirmTerminate(None) == None
  {
    var once, twice := answer + [Newline], answer + [Newline, Newline];
    assert NoNul(once) && NoNul(twice);
    CStringOfNulFree(once);
    CStringOfNulFree(twice);
    assert once[..|once| - 1] == answer;
    assert twice[..|twice| - 1] == once;
    ConfirmAcceptsExactly(once);
    ConfirmAcceptsExactly(twice);
    NoAnswerEndsInNewline(once);
  }

  /** No accepted spelling ends in a newline. */
  lemma NoAnswerEndsInNewline(t: seq<Byte>)
    requires |t| > 0 && t[|t| - 1] == Newline
    ensures t !in AcceptedAnswers
  {
  }


  /** The five pipes of `PipeSet`. */
  datatype PipeId = MemPipe | UserPipe | CpuPrevPipe | CpuCurrPipe | CountPipe

  datatype End = ReadEnd | WriteEnd

  datatype PipeEnd = PipeEnd(pipe: PipeId, end: End)

  /** The parent and the three collectors. */
  datatype Role = Parent | MemoryChild | UserChild | CpuChild

  const AllPipes: set<PipeId> := {MemPipe, UserPipe, CpuPrevPipe, CpuCurrPipe, CountPipe}

  /** Every descriptor of the five pipes, as each process inherits them. */
  function AllEnds(): set<PipeEnd> {
    set p, e | p in AllPipes && e in {ReadEnd, WriteEnd} :: PipeEnd(p, e)
  }

  /** The pipes each collector writes its data to. */
  function Writes(r: Role): set<PipeId> {
    match r
    case Parent => {}
    case MemoryChild => {MemPipe}
    case UserChild => {UserPipe, CountPipe}
    case CpuChild => {CpuPrevPipe, CpuCurrPipe}
  }

  /**
   * The ends a process keeps open once `createChildProcesses` has closed
   * the rest: each collector only the write ends it writes to, the parent
   * every read end.
   */
  method KeptEnds(r: Role) returns (open: set<PipeEnd>)
    ensures r == Parent ==> open == set p | p in AllPipes :: PipeEnd(p, ReadEnd)
    ensures r != Parent ==> open == set p | p in Writes(r) :: PipeEnd(p, WriteEnd)
  {
    open := AllEnds();
    match r
    case MemoryChild =>
      open := open - {PipeEnd(CpuPrevPipe, ReadEnd), PipeEnd(CpuPrevPipe, WriteEnd)};
      open := open - {PipeEnd(CpuCurrPipe, ReadEnd), PipeEnd(CpuCurrPipe, WriteEnd)};
      open := open - {PipeEnd(UserPipe, ReadEnd), PipeEnd(UserPipe, WriteEnd)};
      open := open - {PipeEnd(CountPipe, ReadEnd), PipeEnd(CountPipe, WriteEnd)};
      open := open - {PipeEnd(MemPipe, ReadEnd)};
    case UserChild =>
      open := open - {PipeEnd(CpuPrevPipe, ReadEnd), PipeEnd(CpuPrevPipe, WriteEnd)};
      open := open - {PipeEnd(CpuCurrPipe, ReadEnd), PipeEnd(CpuCurrPipe, WriteEnd)};
      open := open - {PipeEnd(MemPipe, ReadEnd), PipeEnd(MemPipe, WriteEnd)};
      open := open - {PipeEnd(UserPipe, ReadEnd)};
      open := open - {PipeEnd(CountPipe, ReadEnd)};
    case CpuChild =>
      open := open - {PipeEnd(MemPipe, ReadEnd), PipeEnd(MemPipe, WriteEnd)};
      open := open - {PipeEnd(UserPipe, ReadEnd), PipeEnd(UserPipe, WriteEnd)};
      open := open - {PipeEnd(CountPipe, ReadEnd), PipeEnd(CountPipe, WriteEnd)};
      open := open - {PipeEnd(CpuPrevPipe, ReadEnd)};
      open := open - {PipeEnd(CpuCurrPipe, ReadEnd)};
    case Parent =>
      open := open - {PipeEnd(MemPipe, WriteEnd)};
      open := open - {PipeEnd(UserPipe, WriteEnd)};
      open := open - {PipeEnd(CpuPrevPipe, WriteEnd)};
      open := open - {PipeEnd(CpuCurrPipe, WriteEnd)};
      open := open - {PipeEnd(CountPipe, WriteEnd)};
  }

  /** Each pipe has exactly one writing collector, and only the parent reads. */
  lemma OneWriterOneReader(p: PipeId, r1: Role, r2: Role)
    ensures exists r :: p in Writes(r)
    ensures p in Writes(r1) && p in Writes(r2) ==> r1 == r2
    ensures p !in Writes(Parent)
  {
    match p
    case MemPipe => assert p in Writes(MemoryChild);
    case UserPipe => assert p in Writes(UserChild);
    case CountPipe => assert p in Writes(UserChild);
    case CpuPrevPipe => assert p in Writes(CpuChild);
    case CpuCurrPipe => assert p in Writes(CpuChild);
  }

  /** One more reading appended to a snapshot stream. */
  lemma StreamExtends(base: seq<Byte>, ss: seq<Snapshot>, k: nat)
    requires k < |ss|
    ensures base + SnapshotStream(ss[..k]) + EncodeSnapshot(ss[k]) == base + SnapshotStream(ss[..k + 1])
  {
    assert ss[..k + 1][..k] == ss[..k];
  }

  /**
   * The CPU collector: each of `samples` rounds sends one reading to the
   * previous-snapshot pipe and then one to the current-snapshot pipe, and
   * the first failed write ends the collector. With budgets P and C for
   * the two pipes, the previous-snapshot pipe receives min(samples, P,
   * C + 1) readings and the current one min(samples, P, C): never more on
   * the current side, and at most one reading fewer.
   */
  method CpuProducer(samples: int, prevReadings: seq<Snapshot>, currReadings: seq<Snapshot>,
                     prevPipe: Pipe, currPipe: Pipe)
    returns (prevSent: nat, currSent: nat, ok: bool)
    requires prevPipe != currPipe
    requires samples <= |prevReadings| && samples <= |currReadings|
    modifies prevPipe, currPipe
    ensures prevSent == Min(Max(0, samples), Min(old(prevPipe.remainingWrites), old(currPipe.remainingWrites) + 1))
    ensures currSent == Min(Max(0, samples), Min(old(prevPipe.remainingWrites), old(currPipe.remainingWrites)))
    ensures prevPipe.unread == old(prevPipe.unread) + SnapshotStream(prevReadings[..prevSent])
    ensures currPipe.unread == old(currPipe.unread) + SnapshotStream(currReadings[..currSent])
    ensures ok == (old(prevPipe.remainingWrites) >= samples && old(currPipe.remainingWrites) >= samples)
  {
    prevSent, currSent := 0, 0;
    var i := 0;
    while i < samples
      invariant 0 <= i <= Max(0, samples)
      invariant prevSent == currSent == i
      invariant i <= old(prevPipe.remainingWrites) && i <= old(currPipe.remainingWrites)
      invariant prevPipe.remainingWrites == old(prevPipe.remainingWrites) - i
      invariant currPipe.remainingWrites == old(currPipe.remainingWrites) - i
      invariant prevPipe.unread == old(prevPipe.unread) + SnapshotStream(prevReadings[..i])
      invariant currPipe.unread == old(currPipe.unread) + SnapshotStream(currReadings[..i])
    {
      ok := CpuCli.StoreCpuInfo(prevReadings[i], prevPipe);
      if !ok {
        return;
      }
      StreamExtends(old(prevPipe.unread), prevReadings, i);
      prevSent := i + 1;
      ok := CpuCli.StoreCpuInfo(currReadings[i], currPipe);
      if !ok {
        return;
      }
      StreamExtends(old(currPipe.unread), currReadings, i);
      currSent := i + 1;
      i := i + 1;
    }
    ok := true;
  }

  /** `printSystemInfo`'s hour figure: whole days as hours plus the hours part. */
  function TotalHours(t: Uptime): int {
    24 * t.days + t.hours
  }

  /**
   * For a decomposition whose minutes and seconds are in range, the total
   * hours with them still recompose the uptime, and are its whole hours.
   */
  lemma TotalHoursOfUptime(t: Uptime)
    requires 0 <= t.minutes < 60 && 0 <= t.seconds < 60
    ensures TotalHours(t) * 3600 + t.minutes * 60 + t.seconds == Seconds(t)
    ensures Seconds(t) >= 0 ==> TotalHours(t) == Seconds(t) / 3600
  {
    assert TotalHours(t) * 3600 == t.days * 86400 + t.hours * 3600;
    var r := t.minutes * 60 + t.seconds;
    assert 0 <= r < 3600;
  }
}

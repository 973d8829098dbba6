// The command-line front end: the refresh-rate argument rule, the reads
// of the count, memory and CPU channels, the order in which each round
// reads the channels, and the closing of the read ends at the end.
module Main {
  import opened Common
  import opened Channel
  import Memory
  import System

  const DefaultRefreshRate := 1

  /** One command-line word after the program name, with the value `atoi` gives it. */
  datatype Arg = Arg(text: string, atoiValue: int)

  predicate IsRefresh(a: Arg) {
    a.text == "-r" || a.text == "--refresh"
  }

  predicate IsHelp(a: Arg) {
    a.text == "-h" || a.text == "--help"
  }

  /** The refresh rate an argument sets: its number, or the default when that is not positive. */
  function RefreshValue(a: Arg): int {
    if a.atoiValue <= 0 then DefaultRefreshRate else a.atoiValue
  }

  /** The outcome of the argument scan: the refresh rate, and whether usage was asked for. */
  datatype ArgScan = ArgScan(refreshRate: int, help: bool)

  /** The scan of the remaining words with the current rate. */
  function ScanArgs(args: seq<Arg>, rate: int): ArgScan
    decreases |args|
  {
    if args == [] then ArgScan(rate, false)
    else if IsRefresh(args[0]) then
      if |args| >= 2 then ScanArgs(args[2..], RefreshValue(args[1])) else ArgScan(rate, false)
    else if IsHelp(args[0]) then ArgScan(rate, true)
    else ScanArgs(args[1..], rate)
  }

  /** The argument loop of `main`: a refresh option consumes the next word; help stops the scan. */
  method ScanMainArgs(args: seq<Arg>) returns (refreshRate: int, help: bool)
    ensures ArgScan(refreshRate, help) == ScanArgs(args, DefaultRefreshRate)
  {
    refreshRate, help := DefaultRefreshRate, false;
    var i := 0;
    while i < |args|
      invariant 0 <= i <= |args|
      invariant ScanArgs(args[i..], refreshRate) == ScanArgs(args, DefaultRefreshRate)
    {
      if IsRefresh(args[i]) {
        if i + 1 < |args| {
          assert args[i..][2..] == args[i + 2..];
          refreshRate := RefreshValue(args[i + 1]);
          i := i + 1;
        } else {
          assert ScanArgs(args[i..], refreshRate) == ArgScan(refreshRate, false);
          assert args[i + 1..] == [];
        }
      } else if IsHelp(args[i]) {
        help := true;
        return;
      } else {
        assert args[i..][1..] == args[i + 1..];
      }
      i := i + 1;
    }
  }

  /** Whatever the words, the refresh rate stays positive. */
  lemma {:induction false} RefreshRatePositive(args: seq<Arg>, rate: int)
    requires rate >= 1
    ensures ScanArgs(args, rate).refreshRate >= 1
    decreases |args|
  {
    if args != [] {
      if IsRefresh(args[0]) {
        if |args| >= 2 {
          RefreshRatePositive(args[2..], RefreshValue(args[1]));
        }
      } else if !IsHelp(args[0]) {
        RefreshRatePositive(args[1..], rate);
      }
    }
  }

  /** Usage is printed only when a help word is scanned, and a word right after a refresh option is never scanned as an option. */
  lemma {:induction false} HelpNeedsHelpWord(args: seq<Arg>, rate: int)
    ensures ScanArgs(args, rate).help ==> exists k :: 0 <= k < |args| && IsHelp(args[k])
    decreases |args|
  {
    if args != [] && !IsHelp(args[0]) {
      if IsRefresh(args[0]) {
        if |args| >= 2 {
          HelpNeedsHelpWord(args[2..], RefreshValue(args[1]));
          if ScanArgs(args, rate).help {
            var k :| 0 <= k < |args[2..]| && IsHelp(args[2..][k]);
            assert IsHelp(args[k + 2]);
          }
        }
      } else {
        HelpNeedsHelpWord(args[1..], rate);
        if ScanArgs(args, rate).help {
          var k :| 0 <= k < |args[1..]| && IsHelp(args[1..][k]);
          assert IsHelp(args[k + 1]);
        }
      }
    }
  }

  /**
   * The refresh option takes the next word as its value whatever that word
   * is (a help word included), resetting a non-positive value to 1; a
   * trailing refresh option keeps the rate; a help word ends the scan,
   * whatever follows it.
   */
  lemma RefreshOptionCases(r: Arg, w: Arg, h: Arg, rest: seq<Arg>, rate: int)
    requires IsRefresh(r) && IsHelp(h)
    ensures ScanArgs([r], rate) == ArgScan(rate, false)
    ensures ScanArgs([r, w] + rest, rate) == ScanArgs(rest, if w.atoiValue <= 0 then 1 else w.atoiValue)
    ensures ScanArgs([h] + rest, rate) == ArgScan(rate, true)
  {
    assert ([r, w] + rest)[2..] == rest;
    assert ([h] + rest)[0] == h;
  }

  /** The user count as a signed 4-byte `int`; a short read fills only the low bytes of the zeroed variable. */
  function CountValue(got: seq<Byte>): int
    requires |got| <= SizeOfInt
  {
    var u := DecodeLE(got);
    if u >= 0x8000_0000 then u - 0x1_0000_0000 else u
  }

  /** The single read of the session count before the first round. */
  method ReceiveCount(pipe: Pipe) returns (count: int)
    modifies pipe
    ensures count == CountValue(Take(old(pipe.unread), SizeOfInt))
    ensures pipe.unread == old(pipe.unread)[Min(SizeOfInt, |old(pipe.unread)|)..]
    ensures pipe.remainingWrites == old(pipe.remainingWrites)
  {
    var got := pipe.Read(SizeOfInt);
    count := CountValue(got);
  }

  /** The count the user collector sends is the count the front end reads. */
  lemma CountRoundTrip(n: nat, rest: seq<Byte>)
    requires n < 0x8000_0000
    ensures Take(IntBytes(n) + rest, SizeOfInt) == IntBytes(n)
    ensures CountValue(IntBytes(n)) == n
  {
    assert (IntBytes(n) + rest)[..SizeOfInt] == IntBytes(n);
    assert Pow256(4) == 0x1_0000_0000;
    DecodeEncodeLE(n, SizeOfInt);
  }

  /** What one attempt to read a memory frame finds. */
  datatype FrameRead = Rejected(rest: seq<Byte>) | NoBody(rest: seq<Byte>) | Accepted(body: seq<Byte>, rest: seq<Byte>)

  /**
   * The reader's length test: the header read must return bytes and give a
   * length strictly between 0 and the 1024-byte row; the body read must
   * then return bytes. A rejected header leaves its payload in the stream.
   */
  function MemoryFrameRead(stream: seq<Byte>): (r: FrameRead)
    ensures r.Accepted? ==> 0 < |r.body| < MaxMemoryBuffer
  {
    var header := Take(stream, SizeOfSizeT);
    var after := stream[|header|..];
    var len := DecodeLE(header);
    if |header| > 0 && 0 < len < MaxMemoryBuffer then
      var body := Take(after, len);
      if |body| > 0 then Accepted(body, after[|body|..]) else NoBody(after)
    else Rejected(after)
  }

  /** A row after the body is copied over its front and a NUL is put at the byte count. */
  function Overlay(row: seq<Byte>, body: seq<Byte>): (r: seq<Byte>)
    ensures CString(r) == CString(body)
    ensures |r| == Max(|row|, |body| + 1)
  {
    CStringBeforeNul(body, if |row| > |body| + 1 then row[|body| + 1..] else []);
    body + [Nul] + (if |row| > |body| + 1 then row[|body| + 1..] else [])
  }

  /** One memory read of a round: the header, then the body into row `i` of the memory rows. */
  method ReceiveMemoryFrame(pipe: Pipe, memArr: array<seq<Byte>>, i: nat) returns (accepted: bool)
    requires i < memArr.Length
    modifies pipe, memArr
    ensures accepted == MemoryFrameRead(old(pipe.unread)).Accepted?
    ensures pipe.unread == MemoryFrameRead(old(pipe.unread)).rest
    ensures pipe.remainingWrites == old(pipe.remainingWrites)
    ensures accepted ==> memArr[i] == Overlay(old(memArr[i]), MemoryFrameRead(old(pipe.unread)).body)
    ensures !accepted ==> memArr[i] == old(memArr[i])
    ensures forall j :: 0 <= j < memArr.Length && j != i ==> memArr[j] == old(memArr[j])
  {
    accepted := false;
    var header := pipe.Read(SizeOfSizeT);
    var len := DecodeLE(header);
    if |header| > 0 && 0 < len < MaxMemoryBuffer {
      var body := pipe.Read(len);
      if |body| > 0 {
        memArr[i] := Overlay(memArr[i], body);
        accepted := true;
      }
    }
  }

  /** A frame the memory collector writes is accepted whole, and the row then holds exactly its text. */
  lemma MemoryFrameRoundTrip(p: Memory.MemPayload, rest: seq<Byte>, row: seq<Byte>)
    requires |p| + 1 < MaxMemoryBuffer
    ensures MemoryFrameRead(TextFrame(p) + rest) == Accepted(p + [Nul], rest)
    ensures CString(Overlay(row, p + [Nul])) == p
  {
    FrameParts(p, rest);
    CStringBeforeNul(p, []);
    CStringOfNulFree(p);
  }

  /**
   * A payload of 1023 bytes is a value the memory collector may frame,
   * but its length 1024 fails the reader's `len < sizeof(memArr[i])` test, and its bytes are
   * left to be taken for the next header.
   */
  lemma LongestFrameRejected(p: Memory.MemPayload, rest: seq<Byte>)
    requires |p| == MaxMemoryBuffer - 1
    ensures MemoryFrameRead(TextFrame(p) + rest) == Rejected(p + [Nul] + rest)
  {
    FrameParts(p, rest);
  }

  /** The snapshot read of one CPU channel: seven `unsigned long`s, decoded when the read is whole. */
  method ReceiveSnapshot(pipe: Pipe) returns (reading: Option<Snapshot>)
    modifies pipe
    ensures |old(pipe.unread)| >= CpuSlots * SizeOfULong ==>
      reading == Some(DecodeSnapshot(old(pipe.unread)[..CpuSlots * SizeOfULong]))
      && pipe.unread == old(pipe.unread)[CpuSlots * SizeOfULong..]
    ensures |old(pipe.unread)| < CpuSlots * SizeOfULong ==> reading == None && pipe.unread == []
    ensures pipe.remainingWrites == old(pipe.remainingWrites)
  {
    var before := pipe.unread;
    var got := pipe.Read(CpuSlots * SizeOfULong);
    if |got| == CpuSlots * SizeOfULong {
      assert got == before[..CpuSlots * SizeOfULong];
      reading := Some(DecodeSnapshot(got));
    } else {
      reading := None;
    }
  }

  /** A snapshot stream read from the front: the first snapshot's bytes, then the stream of the rest. */
  lemma {:induction false} SnapshotStreamFront(ss: seq<Snapshot>)
    requires |ss| > 0
    ensures SnapshotStream(ss) == EncodeSnapshot(ss[0]) + SnapshotStream(ss[1..])
    decreases |ss|
  {
    if |ss| > 1 {
      var init := ss[..|ss| - 1];
      SnapshotStreamFront(init);
      assert init[1..] == ss[1..][..|ss[1..]| - 1];
      assert ss[1..][|ss[1..]| - 1] == ss[|ss| - 1];
    } else {
      assert ss[1..] == [];
      assert ss[..0] == [];
    }
  }

  /** Each read of a CPU channel gets the next snapshot the CPU collector sent, in order. */
  lemma SnapshotReadsBack(ss: seq<Snapshot>, rest: seq<Byte>)
    requires |ss| > 0
    ensures |SnapshotStream(ss) + rest| >= CpuSlots * SizeOfULong
    ensures DecodeSnapshot((SnapshotStream(ss) + rest)[..CpuSlots * SizeOfULong]) == ss[0]
    ensures (SnapshotStream(ss) + rest)[CpuSlots * SizeOfULong..] == SnapshotStream(ss[1..]) + rest
  {
    SnapshotStreamFront(ss);
    var tail := SnapshotStream(ss[1..]) + rest;
    AppendAssoc(EncodeSnapshot(ss[0]), SnapshotStream(ss[1..]), rest);
    FrontSnapshot(ss[0], tail);
  }

  lemma FrontSnapshot(s: Snapshot, tail: seq<Byte>)
    ensures |EncodeSnapshot(s) + tail| >= CpuSlots * SizeOfULong
    ensures DecodeSnapshot((EncodeSnapshot(s) + tail)[..CpuSlots * SizeOfULong]) == s
    ensures (EncodeSnapshot(s) + tail)[CpuSlots * SizeOfULong..] == tail
  {
    var e := EncodeSnapshot(s);
    assert (e + tail)[..|e|] == e;
    SnapshotRoundTrip(s);
  }

  /** The channels the front end reads. */
  datatype Source = MemSource | UserSource | CpuPrevSource | CpuCurrSource

  /** The system section is shown unless only users were asked for. */
  predicate SystemShown(user: bool, system: bool) {
    !user || (user && system)
  }

  /** Users are shown inside the system section when both or neither selection flag was given. */
  predicate UsersShown(user: bool, system: bool) {
    (user && system) || !system
  }

  /** The channels one round reads, in order. */
  function RoundReads(sequential: bool, user: bool, system: bool): seq<Source> {
    var users := if UsersShown(user, system) then [UserSource] else [];
    if !SystemShown(user, system) then [UserSource]
    else if sequential then [MemSource] + users + [CpuPrevSource, CpuCurrSource]
    else users + [CpuPrevSource, CpuCurrSource, MemSource]
  }

  /**
   * A round reads the memory and both CPU channels once each exactly when
   * the system section is shown, and the user channel once exactly when
   * users were asked for or the system section was not restricted.
   */
  lemma RoundReadCounts(sequential: bool, user: bool, system: bool)
    ensures var m := multiset(RoundReads(sequential, user, system));
      m[MemSource] == m[CpuPrevSource] == m[CpuCurrSource] == (if !user || system then 1 else 0)
      && m[UserSource] == (if user || !system then 1 else 0)
  {
  }

  /** The order within a round: memory first in sequential mode, last otherwise, and the current snapshot straight after the previous one. */
  lemma RoundReadOrder(sequential: bool, user: bool, system: bool)
    requires SystemShown(user, system)
    ensures var r := RoundReads(sequential, user, system);
      (sequential ==> r[0] == MemSource)
      && (!sequential ==> r[|r| - 1] == MemSource)
      && exists k :: 0 <= k < |r| - 1 && r[k] == CpuPrevSource && r[k + 1] == CpuCurrSource
  {
    var r := RoundReads(sequential, user, system);
    var k := if sequential then |r| - 2 else |r| - 3;
    assert r[k] == CpuPrevSource && r[k + 1] == CpuCurrSource;
  }

  /**
   * The reads of a whole session, round by round: the memory and both CPU
   * channels are read once per round when the system section is shown and
   * never otherwise, and in user-only mode only the user channel is read.
   */
  method SessionReads(samples: int, sequential: bool, user: bool, system: bool) returns (trace: seq<Source>)
    ensures var m := multiset(trace); var n := if SystemShown(user, system) then Max(0, samples) else 0;
      m[MemSource] == n && m[CpuPrevSource] == n && m[CpuCurrSource] == n
      && m[UserSource] == (if user || !system then Max(0, samples) else 0)
    ensures !SystemShown(user, system) ==> trace == Repeat(UserSource, Max(0, samples))
  {
    var round := RoundReads(sequential, user, system);
    RoundReadCounts(sequential, user, system);
    trace := [];
    var i := 0;
    while i < samples
      invariant 0 <= i <= Max(0, samples)
      invariant var m := multiset(trace); var n := if SystemShown(user, system) then i else 0;
        m[MemSource] == n && m[CpuPrevSource] == n && m[CpuCurrSource] == n
        && m[UserSource] == (if user || !system then i else 0)
      invariant !SystemShown(user, system) ==> trace == Repeat(UserSource, i)
    {
      assert multiset(trace + round) == multiset(trace) + multiset(round);
      trace := trace + round;
      i := i + 1;
    }
  }

  /** `closePipes`: close the read end of each of the five pipes. */
  method ClosePipes(open: set<System.PipeEnd>) returns (remaining: set<System.PipeEnd>)
    ensures forall e :: e in remaining ==> e in open && e.end == System.WriteEnd
    ensures forall e :: e in open && e.end == System.WriteEnd ==> e in remaining
  {
    remaining := open;
    remaining := remaining - {System.PipeEnd(System.CpuPrevPipe, System.ReadEnd)};
    remaining := remaining - {System.PipeEnd(System.CpuCurrPipe, System.ReadEnd)};
    remaining := remaining - {System.PipeEnd(System.UserPipe, System.ReadEnd)};
    remaining := remaining - {System.PipeEnd(System.MemPipe, System.ReadEnd)};
    remaining := remaining - {System.PipeEnd(System.CountPipe, System.ReadEnd)};
    forall e | e in remaining
      ensures e.end == System.WriteEnd
    {
      if e.end == System.ReadEnd {
        match e.pipe
        case MemPipe =>
        case UserPipe =>
        case CpuPrevPipe =>
        case CpuCurrPipe =>
        case CountPipe =>
      }
    }
  }
}

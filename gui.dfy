// The GUI's periodic update: its own smoothed CPU estimator (function-static
// state in `update_system_data`), the 60-slot CPU, memory and swap
// histories shifted in place, the memory figures of
// `get_detailed_memory_info`, and the level and colour choices of the CPU
// and memory displays.
module Gui {
  import opened Common
  import opened Platform
  import PlatformMac
  import opened CpuCli

  /** The value shown before any interval could be measured. */
  const InitialCpuUsage: real := 15.0

  /**
   * Exponential smoothing of a fresh percentage against the last shown
   * value: the bigger the jump, the more weight the last value keeps.
   */
  function Blend(last: real, raw: real): real {
    if Abs(raw - last) > 25.0 then 0.85 * last + 0.15 * raw
    else if Abs(raw - last) > 10.0 then 0.65 * last + 0.35 * raw
    else 0.5 * last + 0.5 * raw
  }

  /**
   * The blend lies between the two values, keeps at least half the weight
   * on the last one, and closes at least 15% of the gap.
   */
  lemma BlendIsConvex(last: real, raw: real)
    ensures (if last <= raw then last else raw) <= Blend(last, raw) <= (if last <= raw then raw else last)
    ensures raw >= 0.0 && last >= 0.0 ==> Blend(last, raw) >= 0.5 * last
    ensures Abs(Blend(last, raw) - raw) <= 0.85 * Abs(last - raw)
  {
  }

  /** The value before the decay-floor guard. */
  function Candidate(samplesCollected: nat, last: real, prev: Snapshot, curr: Snapshot): real {
    if samplesCollected == 0 then last
    else if TotalDiff(prev, curr) == 0 then last
    else Blend(last, ClampPercent(IntervalShare(prev, curr)))
  }

  /**
   * The value one tick of `update_system_data` shows: the candidate, or
   * 0.7 × the last value when the candidate drops below 2 from above 5.
   */
  function GuiEmit(samplesCollected: nat, last: real, prev: Snapshot, curr: Snapshot): real {
    var c := Candidate(samplesCollected, last, prev, curr);
    if c < 2.0 && last > 5.0 then last * 0.7 else c
  }

  /** Every shown value stays in [0,100] when the last one was. */
  lemma GuiEmitInRange(samplesCollected: nat, last: real, prev: Snapshot, curr: Snapshot)
    requires 0.0 <= last <= 100.0
    ensures 0.0 <= GuiEmit(samplesCollected, last, prev, curr) <= 100.0
  {
    if samplesCollected > 0 && TotalDiff(prev, curr) > 0 {
      BlendIsConvex(last, ClampPercent(IntervalShare(prev, curr)));
    }
  }

  /**
   * The decay-floor guard never fires: with a non-negative last value the
   * candidate keeps at least half of it, so it cannot fall below 2 from
   * above 5.
   */
  lemma DecayFloorNeverFires(samplesCollected: nat, last: real, prev: Snapshot, curr: Snapshot)
    requires last >= 0.0
    ensures GuiEmit(samplesCollected, last, prev, curr) == Candidate(samplesCollected, last, prev, curr)
  {
    if samplesCollected > 0 && TotalDiff(prev, curr) > 0 {
      BlendIsConvex(last, ClampPercent(IntervalShare(prev, curr)));
    }
  }

  /**
   * The first tick and every tick with no counted interval show the last
   * value again; unlike the command-line calculation there is no fallback
   * to the absolute counters.
   */
  lemma NoIntervalKeepsLast(samplesCollected: nat, last: real, prev: Snapshot, curr: Snapshot)
    requires last >= 0.0
    requires samplesCollected == 0 || TotalDiff(prev, curr) == 0
    ensures GuiEmit(samplesCollected, last, prev, curr) == last
  {
  }

  /** A measured interval moves the shown value toward the interval's share, never past it. */
  lemma IntervalMovesTowardShare(samplesCollected: nat, last: real, prev: Snapshot, curr: Snapshot)
    requires 0.0 <= last <= 100.0
    requires samplesCollected > 0 && TotalDiff(prev, curr) > 0
    ensures var raw := IntervalShare(prev, curr); var v := GuiEmit(samplesCollected, last, prev, curr);
      Abs(v - raw) <= 0.85 * Abs(last - raw) && (last <= raw ==> last <= v <= raw) && (raw <= last ==> raw <= v <= last)
  {
    IntervalShareInRange(prev, curr);
    BlendIsConvex(last, ClampPercent(IntervalShare(prev, curr)));
    DecayFloorNeverFires(samplesCollected, last, prev, curr);
  }

  predicate IsSnapshot(s: seq<nat>) { |s| == CpuSlots && forall i :: 0 <= i < |s| ==> s[i] < ULongLimit }

  /** The estimator's function-static state: two snapshots, the last shown value and the tick count. */
  class GuiCpuEstimator {
    var prevStats: array<nat>
    var currStats: array<nat>
    var lastCpuUsage: real
    var samplesCollected: nat

    ghost predicate Valid()
      reads this, currStats
    {
      prevStats.Length == CpuSlots && currStats.Length == CpuSlots && prevStats != currStats
      && IsSnapshot(currStats[..]) && 0.0 <= lastCpuUsage <= 100.0
    }

    constructor ()
      ensures Valid() && fresh(prevStats) && fresh(currStats)
      ensures prevStats[..] == ZeroSnapshot && currStats[..] == ZeroSnapshot
      ensures lastCpuUsage == InitialCpuUsage && samplesCollected == 0
    {
      var zeros := new nat[CpuSlots](_ => 0);
      assert zeros[..] == ZeroSnapshot;
      prevStats := new nat[CpuSlots](_ => 0);
      currStats := zeros;
      lastCpuUsage := InitialCpuUsage;
      samplesCollected := 0;
    }

    /**
     * One tick: back up the current snapshot, take `reading` (what
     * `get_cpu_stats` fills in) and compute the shown value.
     */
    method Tick(reading: Snapshot) returns (cpuUsage: real)
      requires Valid()
      modifies this`lastCpuUsage, this`samplesCollected, prevStats, currStats
      ensures Valid()
      ensures prevStats[..] == old(currStats[..]) && currStats[..] == reading
      ensures cpuUsage == GuiEmit(old(samplesCollected), old(lastCpuUsage), old(currStats[..]), reading)
      ensures lastCpuUsage == cpuUsage && samplesCollected == old(samplesCollected) + 1
    {
      ghost var before: Snapshot := currStats[..];
      CopyInto(prevStats, currStats[..]);
      CopyInto(currStats, reading);
      cpuUsage := Estimate(samplesCollected, lastCpuUsage, prevStats[..], currStats[..]);
      GuiEmitInRange(samplesCollected, lastCpuUsage, before, reading);
      lastCpuUsage := cpuUsage;
      samplesCollected := samplesCollected + 1;
    }
  }

  /**
   * The arithmetic of one tick on the snapshots the statics hold: clamped
   * deltas, the raw busy share, the jump-dependent blend, the decay floor.
   */
  method Estimate(samplesCollected: nat, last: real, prev: Snapshot, curr: Snapshot) returns (cpuUsage: real)
    ensures cpuUsage == GuiEmit(samplesCollected, last, prev, curr)
  {
    cpuUsage := last;
    if samplesCollected > 0 {
      var userDelta := if curr[0] >= prev[0] then curr[0] - prev[0] else 0;
      var niceDelta := if curr[1] >= prev[1] then curr[1] - prev[1] else 0;
      var systemDelta := if curr[2] >= prev[2] then curr[2] - prev[2] else 0;
      var idleDelta := if curr[3] >= prev[3] then curr[3] - prev[3] else 0;
      var totalDelta := userDelta + niceDelta + systemDelta + idleDelta;
      if totalDelta > 0 {
        var newUsage := 100.0 * (totalDelta - idleDelta) as real / totalDelta as real;
        assert newUsage == IntervalShare(prev, curr);
        if newUsage < 0.0 {
          newUsage := 0.0;
        }
        if newUsage > 100.0 {
          newUsage := 100.0;
        }
        if Abs(newUsage - last) > 25.0 {
          cpuUsage := 0.85 * last + 0.15 * newUsage;
        } else if Abs(newUsage - last) > 10.0 {
          cpuUsage := 0.65 * last + 0.35 * newUsage;
        } else {
          cpuUsage := 0.5 * last + 0.5 * newUsage;
        }
      }
    }
    if cpuUsage < 2.0 && last > 5.0 {
      cpuUsage := last * 0.7;
    }
  }

  /** `memcpy` of a snapshot into the slots of a statics array. */
  method CopyInto(dst: array<nat>, src: seq<nat>)
    requires dst.Length == |src|
    modifies dst
    ensures dst[..] == src
  {
    for i := 0 to |src|
      invariant forall k :: 0 <= k < i ==> dst[k] == src[k]
    {
      dst[i] := src[i];
    }
  }

  /** Slots in each history: one minute at one sample per second. */
  const HistorySize := 60

  /**
   * The history after the samples `seen` were recorded in order: the first
   * one fills every slot, each later one shifts the slots left by one and
   * lands in the last slot.
   */
  function Window(seen: seq<real>): (w: seq<real>)
    requires |seen| >= 1
    ensures |w| == HistorySize && w[HistorySize - 1] == seen[|seen| - 1]
  {
    if |seen| == 1 then Repeat(seen[0], HistorySize)
    else Window(seen[..|seen| - 1])[1..] + [seen[|seen| - 1]]
  }

  /**
   * The window in closed form: the first sample in the slots not yet
   * reached by later ones, then the most recent later samples, oldest
   * first.
   */
  lemma {:induction false} WindowShape(seen: seq<real>)
    requires |seen| >= 1
    ensures Window(seen) == Repeat(seen[0], Max(0, HistorySize + 1 - |seen|)) + seen[Max(1, |seen| - HistorySize)..]
  {
    if |seen| > 1 {
      var older := seen[..|seen| - 1];
      var last := seen[|seen| - 1];
      assert older + [last] == seen;
      assert older[0] == seen[0];
      WindowShape(older);
      var k := |older|;
      assert Window(seen) == Window(older)[1..] + [last];
      if k <= HistorySize {
        assert Max(0, HistorySize + 1 - k) == HistorySize + 1 - k;
        assert Max(1, k - HistorySize) == 1;
        PaddedShift(seen[0], older, last, HistorySize + 1 - k);
      } else {
        assert Max(0, HistorySize + 1 - k) == 0;
        assert Max(1, k - HistorySize) == k - HistorySize;
        FullShift(seen[0], older, last);
      }
    }
  }

  /** The step of WindowShape once the first sample has left the window. */
  lemma FullShift(first: real, older: seq<real>, last: real)
    requires |older| > HistorySize
    ensures (Repeat(first, 0) + older[|older| - HistorySize..])[1..] + [last]
         == Repeat(first, 0) + (older + [last])[|older| + 1 - HistorySize..]
  {
    assert Repeat(first, 0) == [];
    assert older[|older| - HistorySize..][1..] + [last] == (older + [last])[|older| + 1 - HistorySize..];
  }

  /** The step of WindowShape while the first sample still pads the window. */
  lemma PaddedShift(first: real, older: seq<real>, last: real, pad: nat)
    requires |older| >= 1 && pad >= 1
    ensures (Repeat(first, pad) + older[1..])[1..] + [last] == Repeat(first, pad - 1) + (older + [last])[1..]
  {
    var a := (Repeat(first, pad) + older[1..])[1..] + [last];
    var b := Repeat(first, pad - 1) + (older + [last])[1..];
    assert |a| == |b|;
    forall i | 0 <= i < |a|
      ensures a[i] == b[i]
    {
      if i < pad - 1 {
        assert a[i] == Repeat(first, pad)[i + 1];
      } else if i < |a| - 1 {
        assert a[i] == older[i - pad + 2];
      }
    }
  }

  /** Once 60 samples have been recorded, the history holds exactly the last 60, oldest first. */
  lemma WindowIsLastSixty(seen: seq<real>)
    requires |seen| >= HistorySize
    ensures Window(seen) == seen[|seen| - HistorySize..]
  {
    WindowShape(seen);
    NoPadding(seen);
  }

  /** The closed form of WindowShape keeps no padding once 60 samples exist. */
  lemma NoPadding(seen: seq<real>)
    requires |seen| >= HistorySize
    ensures Repeat(seen[0], Max(0, HistorySize + 1 - |seen|)) + seen[Max(1, |seen| - HistorySize)..] == seen[|seen| - HistorySize..]
  {
    if |seen| == HistorySize {
      assert Repeat(seen[0], 1) == [seen[0]];
      assert [seen[0]] + seen[1..] == seen;
    } else {
      assert Repeat(seen[0], 0) == [];
    }
  }

  /**
   * Record one sample in a history: the first sample allocates it and
   * fills all 60 slots; later ones shift the slots left in place, drop the
   * oldest and store the newest at index 59.
   */
  method RecordSample(history: array?<real>, v: real) returns (r: array<real>)
    requires history != null ==> history.Length == HistorySize
    modifies history
    ensures history == null ==> fresh(r) && r[..] == Repeat(v, HistorySize)
    ensures history != null ==> r == history && r[..] == old(history[..])[1..] + [v]
  {
    if history == null {
      r := NewHistory(v);
    } else {
      ShiftIn(history, v);
      r := history;
    }
  }

  /** A new history of 60 slots, every one holding `v`. */
  method NewHistory(v: real) returns (r: array<real>)
    ensures fresh(r) && r[..] == Repeat(v, HistorySize)
  {
    r := new real[HistorySize];
    for i := 0 to HistorySize
      invariant r[..i] == Repeat(v, i)
    {
      r[i] := v;
    }
    assert r[..] == r[..HistorySize];
  }

  /** Shift the slots left by one in place, dropping the oldest, and store `v` in the last slot. */
  method ShiftIn(h: array<real>, v: real)
    requires h.Length == HistorySize
    modifies h
    ensures h[..] == old(h[..])[1..] + [v]
  {
    ghost var before := h[..];
    for i := 0 to HistorySize - 1
      invariant forall k :: 0 <= k < i ==> h[k] == before[k + 1]
      invariant forall k :: i <= k < HistorySize ==> h[k] == before[k]
    {
      h[i] := h[i + 1];
    }
    h[HistorySize - 1] := v;
    ghost var want := before[1..] + [v];
    assert forall k :: 0 <= k < HistorySize ==> h[k] == want[k];
  }

  /** The four GB figures `get_detailed_memory_info` reports. */
  datatype MemFigures = MemFigures(usedMemory: real, totalMemory: real, usedSwap: real, totalSwap: real)

  /** The six /proc/meminfo values read, in kB (0 for a line that is missing). */
  datatype MemInfo = MemInfo(memTotal: int, memFree: int, buffers: int, cached: int, swapTotal: int, swapFree: int)

  const KbPerGb: real := 1048576.0

  /** The figures from /proc/meminfo: used memory leaves out buffers and cache and is floored at 0; used swap is not floored. */
  function FromMeminfo(m: MemInfo): MemFigures {
    var used := (m.memTotal - m.memFree - m.buffers - m.cached) as real / KbPerGb;
    MemFigures(if used < 0.0 then 0.0 else used, m.memTotal as real / KbPerGb,
               (m.swapTotal - m.swapFree) as real / KbPerGb, m.swapTotal as real / KbPerGb)
  }

  /** The figures from a `struct sysinfo`: total minus free, in GB. */
  function FromSysinfo(c: MemCounters): MemFigures {
    var total := c.totalram as real / GiB;
    var totalSwap := c.totalswap as real / GiB;
    MemFigures(total - c.freeram as real / GiB, total, totalSwap - c.freeswap as real / GiB, totalSwap)
  }

  /** Linux: /proc/meminfo when it opens (`meminfo` is `None` otherwise), else `sysinfo`, else failure. */
  function LinuxMemoryInfo(meminfo: Option<MemInfo>, sys: Option<MemCounters>): Option<MemFigures> {
    if meminfo.Some? then Some(FromMeminfo(meminfo.value))
    else if sys.Some? then Some(FromSysinfo(sys.value))
    else None
  }

  /** Apple: the Mach back-end's four `calculate_*` figures, with used memory above the total replaced by 85% of the total. */
  function AppleMemoryInfo(q: Queries): MemFigures {
    var total := PlatformMac.MemoryTotal(q.memSize);
    var used := PlatformMac.MemoryUsage(q.vm, q.pageSize);
    MemFigures(if used > total then total * 0.85 else used, total,
               PlatformMac.SwapUsage(q.swap), PlatformMac.SwapTotal(q.swap))
  }

  /** The platform `get_detailed_memory_info` was built for. */
  datatype Os = Linux | Apple | OtherOs

  /** `get_detailed_memory_info`: `None` stands for the −1 return. */
  function DetailedMemoryInfo(os: Os, meminfo: Option<MemInfo>, sys: Option<MemCounters>, q: Queries): Option<MemFigures> {
    match os
    case Linux => LinuxMemoryInfo(meminfo, sys)
    case Apple => Some(AppleMemoryInfo(q))
    case OtherOs => if sys.Some? then Some(FromSysinfo(sys.value)) else None
  }

  /** Only Linux and other systems can fail, and only when every source they try fails. */
  lemma DetailedMemoryInfoFails(os: Os, meminfo: Option<MemInfo>, sys: Option<MemCounters>, q: Queries)
    ensures DetailedMemoryInfo(os, meminfo, sys, q).None? <==>
      (os == Linux && meminfo.None? && sys.None?) || (os == OtherOs && sys.None?)
  {
  }

  /**
   * From /proc/meminfo, used memory is never negative and, when the
   * subtracted amounts are not negative, never above the total.
   */
  lemma MeminfoUsedInRange(m: MemInfo)
    ensures FromMeminfo(m).usedMemory >= 0.0
    ensures m.memTotal >= 0 && m.memFree >= 0 && m.buffers >= 0 && m.cached >= 0 ==>
      FromMeminfo(m).usedMemory <= FromMeminfo(m).totalMemory
  {
  }

  /** Used swap is not floored: more free than total swap shows a negative figure. */
  lemma MeminfoSwapCanBeNegative()
    ensures FromMeminfo(MemInfo(0, 0, 0, 0, 1024, 2048)).usedSwap < 0.0
  {
  }

  /** On Apple systems used memory never exceeds the total shown beside it. */
  lemma AppleUsedWithinTotal(q: Queries)
    ensures 0.0 <= AppleMemoryInfo(q).usedMemory <= AppleMemoryInfo(q).totalMemory
  {
  }

  /** Percentage of a used amount, 0 when the total is not positive. */
  function UsagePercent(used: real, total: real): (p: real)
    ensures total <= 0.0 ==> p == 0.0
    ensures total > 0.0 && 0.0 <= used <= total ==> 0.0 <= p <= 100.0
    ensures total > 0.0 ==> p * total == used * 100.0
  {
    if total > 0.0 then used / total * 100.0 else 0.0
  }

  datatype CpuLevel = Normal | Moderate | High | Critical

  function CpuLevelRank(l: CpuLevel): nat {
    match l
    case Normal => 0
    case Moderate => 1
    case High => 2
    case Critical => 3
  }

  /** `update_cpu_display`'s grade: above 90 critical, above 70 high, above 40 moderate. */
  function CpuLevelOf(v: real): CpuLevel {
    if v > 90.0 then Critical else if v > 70.0 then High else if v > 40.0 then Moderate else Normal
  }

  /** The grade never goes down as usage goes up, and each threshold itself belongs to the lower grade. */
  lemma CpuLevelMonotone(a: real, b: real)
    requires a <= b
    ensures CpuLevelRank(CpuLevelOf(a)) <= CpuLevelRank(CpuLevelOf(b))
    ensures CpuLevelOf(90.0) == High && CpuLevelOf(70.0) == Moderate && CpuLevelOf(40.0) == Normal
  {
  }

  /** The four display colours: green, yellow, orange, red. */
  datatype Colour = Green | Yellow | Orange | Red

  function ColourRank(c: Colour): nat {
    match c
    case Green => 0
    case Yellow => 1
    case Orange => 2
    case Red => 3
  }

  function Hex(c: Colour): string {
    match c
    case Green => "#87af5f"
    case Yellow => "#d7d75f"
    case Orange => "#d78700"
    case Red => "#d75f5f"
  }

  /** The CPU colour follows the grade one to one. */
  function CpuColourOf(v: real): (c: Colour)
    ensures ColourRank(c) == CpuLevelRank(CpuLevelOf(v))
  {
    if v > 90.0 then Red else if v > 70.0 then Orange else if v > 40.0 then Yellow else Green
  }

  /** Memory colour: above 90 red, above 70 orange, above 50 yellow. */
  function MemoryColourOf(p: real): Colour {
    if p > 90.0 then Red else if p > 70.0 then Orange else if p > 50.0 then Yellow else Green
  }

  /** Swap colour: above 50 red, above 25 orange, above 10 yellow. */
  function SwapColourOf(p: real): Colour {
    if p > 50.0 then Red else if p > 25.0 then Orange else if p > 10.0 then Yellow else Green
  }

  datatype SwapLevel = SwapNormal | SwapLow | SwapModerate | SwapHigh

  function SwapLevelOf(p: real): SwapLevel {
    if p > 50.0 then SwapHigh else if p > 25.0 then SwapModerate else if p > 10.0 then SwapLow else SwapNormal
  }

  function SwapLevelRank(l: SwapLevel): nat {
    match l
    case SwapNormal => 0
    case SwapLow => 1
    case SwapModerate => 2
    case SwapHigh => 3
  }

  /**
   * Both colour scales only go up with the percentage, swap turns red
   * earlier than memory, and the swap colour and swap level agree.
   */
  lemma ColoursMonotone(a: real, b: real)
    requires a <= b
    ensures ColourRank(MemoryColourOf(a)) <= ColourRank(MemoryColourOf(b))
    ensures ColourRank(SwapColourOf(a)) <= ColourRank(SwapColourOf(b))
    ensures ColourRank(MemoryColourOf(a)) <= ColourRank(SwapColourOf(a))
    ensures ColourRank(SwapColourOf(a)) == SwapLevelRank(SwapLevelOf(a))
  {
  }

  /** The data the GUI keeps between ticks (the part the update computes). */
  class GuiData {
    var cpuUsage: real
    var memoryUsed: real
    var memoryTotal: real
    var swapUsed: real
    var swapTotal: real
    var cpuHistory: array?<real>
    var memoryHistory: array?<real>
    var swapHistory: array?<real>
    var uptime: Uptime
    /** The samples recorded in each history so far. */
    ghost var cpuSeen: seq<real>
    ghost var memorySeen: seq<real>
    ghost var swapSeen: seq<real>

    ghost predicate HistoryHolds(h: array?<real>, seen: seq<real>)
      reads h
    {
      (h == null <==> seen == []) && (h != null ==> h.Length == HistorySize && h[..] == Window(seen))
    }

    ghost predicate Valid()
      reads this, cpuHistory, memoryHistory, swapHistory
    {
      HistoryHolds(cpuHistory, cpuSeen) && HistoryHolds(memoryHistory, memorySeen) && HistoryHolds(swapHistory, swapSeen)
      && (cpuHistory != null && memoryHistory != null ==> cpuHistory != memoryHistory)
      && (cpuHistory != null && swapHistory != null ==> cpuHistory != swapHistory)
      && (memoryHistory != null && swapHistory != null ==> memoryHistory != swapHistory)
    }

    constructor ()
      ensures Valid() && cpuSeen == [] && memorySeen == [] && swapSeen == []
    {
      cpuUsage, memoryUsed, memoryTotal, swapUsed, swapTotal := 0.0, 0.0, 0.0, 0.0, 0.0;
      cpuHistory, memoryHistory, swapHistory := null, null, null;
      uptime := NoUptime;
      cpuSeen, memorySeen, swapSeen := [], [], [];
    }

    /** Record one sample in a history whose recorded samples are `seen`. */
    static method Record(h: array?<real>, ghost seen: seq<real>, v: real) returns (r: array<real>)
      requires h == null <==> seen == []
      requires h != null ==> h.Length == HistorySize && h[..] == Window(seen)
      modifies h
      ensures r.Length == HistorySize && r[..] == Window(seen + [v])
      ensures h == null ==> fresh(r)
      ensures h != null ==> r == h
    {
      r := RecordSample(h, v);
      if h != null {
        assert (seen + [v])[..|seen|] == seen;
      }
    }

    /**
     * The computing part of `update_system_data`: one estimator tick on
     * `reading`, the memory figures (the `calculate_*` fallback when
     * `detailed` failed), the three histories, and the uptime.
     */
    method UpdateSystemData(est: GuiCpuEstimator, reading: Snapshot, detailed: Option<MemFigures>,
                            fallback: MemFigures, uptimeNow: Uptime)
      requires Valid() && est.Valid()
      modifies this, est`lastCpuUsage, est`samplesCollected, est.prevStats, est.currStats
      modifies cpuHistory, memoryHistory, swapHistory
      ensures Valid() && est.Valid()
      ensures cpuUsage == GuiEmit(old(est.samplesCollected), old(est.lastCpuUsage), old(est.currStats[..]), reading)
      ensures cpuUsage == est.lastCpuUsage && est.samplesCollected == old(est.samplesCollected) + 1
      ensures est.prevStats[..] == old(est.currStats[..]) && est.currStats[..] == reading
      ensures MemFigures(memoryUsed, memoryTotal, swapUsed, swapTotal) == if detailed.Some? then detailed.value else fallback
      ensures cpuSeen == old(cpuSeen) + [cpuUsage]
      ensures memorySeen == old(memorySeen) + [memoryUsed] && swapSeen == old(swapSeen) + [swapUsed]
      ensures uptime == uptimeNow
    {
      UpdateCpu(est, reading);
      RecordTick(if detailed.Some? then detailed.value else fallback, uptimeNow);
    }

    /** The rest of a tick once the CPU usage is known: memory figures, the three histories, the uptime. */
    method RecordTick(figures: MemFigures, uptimeNow: Uptime)
      requires Valid()
      modifies this`memoryUsed, this`memoryTotal, this`swapUsed, this`swapTotal, this`uptime
      modifies this`cpuHistory, this`memoryHistory, this`swapHistory, this`cpuSeen, this`memorySeen, this`swapSeen
      modifies cpuHistory, memoryHistory, swapHistory
      ensures Valid()
      ensures MemFigures(memoryUsed, memoryTotal, swapUsed, swapTotal) == figures
      ensures cpuSeen == old(cpuSeen) + [cpuUsage]
      ensures memorySeen == old(memorySeen) + [figures.usedMemory] && swapSeen == old(swapSeen) + [figures.usedSwap]
      ensures uptime == uptimeNow
    {
      uptime := uptimeNow;
      SetMemoryFigures(figures);
      RecordHistories(cpuUsage, memoryUsed, swapUsed);
    }

    /** The estimator tick and its result stored in `cpu_usage`. */
    method UpdateCpu(est: GuiCpuEstimator, reading: Snapshot)
      requires Valid() && est.Valid()
      modifies this`cpuUsage, est`lastCpuUsage, est`samplesCollected, est.prevStats, est.currStats
      ensures Valid() && est.Valid() && cpuUsage == est.lastCpuUsage
      ensures cpuUsage == GuiEmit(old(est.samplesCollected), old(est.lastCpuUsage), old(est.currStats[..]), reading)
      ensures est.samplesCollected == old(est.samplesCollected) + 1
      ensures est.prevStats[..] == old(est.currStats[..]) && est.currStats[..] == reading
    {
      cpuUsage := est.Tick(reading);
    }

    method SetMemoryFigures(figures: MemFigures)
      requires Valid()
      modifies this`memoryUsed, this`memoryTotal, this`swapUsed, this`swapTotal
      ensures Valid()
      ensures MemFigures(memoryUsed, memoryTotal, swapUsed, swapTotal) == figures
    {
      memoryUsed, memoryTotal, swapUsed, swapTotal := figures.usedMemory, figures.totalMemory, figures.usedSwap, figures.totalSwap;
    }

    /** Record the tick's CPU, memory and swap values in their histories. */
    method RecordHistories(cpuValue: real, memoryValue: real, swapValue: real)
      requires Valid()
      modifies this`cpuHistory, this`memoryHistory, this`swapHistory, this`cpuSeen, this`memorySeen, this`swapSeen
      modifies cpuHistory, memoryHistory, swapHistory
      ensures Valid()
      ensures cpuSeen == old(cpuSeen) + [cpuValue]
      ensures memorySeen == old(memorySeen) + [memoryValue] && swapSeen == old(swapSeen) + [swapValue]
    {
      RecordCpu(cpuValue);
      RecordMemory(memoryValue);
      RecordSwap(swapValue);
    }

    method RecordCpu(v: real)
      requires Valid()
      modifies this`cpuHistory, this`cpuSeen, cpuHistory
      ensures Valid() && cpuSeen == old(cpuSeen) + [v]
      ensures memoryHistory == old(memoryHistory) && swapHistory == old(swapHistory)
    {
      ghost var m, s := memoryHistory, swapHistory;
      assert HistoryHolds(m, memorySeen) && HistoryHolds(s, swapSeen);
      var c := Record(cpuHistory, cpuSeen, v);
      assert HistoryHolds(m, memorySeen) && HistoryHolds(s, swapSeen);
      assert (m != null ==> c != m) && (s != null ==> c != s);
      cpuHistory := c;
      cpuSeen := cpuSeen + [v];
    }

    method RecordMemory(v: real)
      requires Valid()
      modifies this`memoryHistory, this`memorySeen, memoryHistory
      ensures Valid() && memorySeen == old(memorySeen) + [v]
      ensures cpuHistory == old(cpuHistory) && swapHistory == old(swapHistory)
    {
      ghost var c, s := cpuHistory, swapHistory;
      assert HistoryHolds(c, cpuSeen) && HistoryHolds(s, swapSeen);
      var m := Record(memoryHistory, memorySeen, v);
      assert HistoryHolds(c, cpuSeen) && HistoryHolds(s, swapSeen);
      assert (c != null ==> m != c) && (s != null ==> m != s);
      memoryHistory := m;
      memorySeen := memorySeen + [v];
    }

    method RecordSwap(v: real)
      requires Valid()
      modifies this`swapHistory, this`swapSeen, swapHistory
      ensures Valid() && swapSeen == old(swapSeen) + [v]
      ensures cpuHistory == old(cpuHistory) && memoryHistory == old(memoryHistory)
    {
      ghost var c, m := cpuHistory, memoryHistory;
      assert HistoryHolds(c, cpuSeen) && HistoryHolds(m, memorySeen);
      var h := Record(swapHistory, swapSeen, v);
      assert HistoryHolds(c, cpuSeen) && HistoryHolds(m, memorySeen);
      assert (c != null ==> h != c) && (m != null ==> h != m);
      swapHistory := h;
      swapSeen := swapSeen + [v];
    }

    /** `update_cpu_display`: clamps the stored usage into [0,100] in place and grades it. */
    method UpdateCpuDisplay() returns (level: CpuLevel, colour: Colour)
      modifies this`cpuUsage
      ensures cpuUsage == ClampPercent(old(cpuUsage))
      ensures level == CpuLevelOf(cpuUsage) && colour == CpuColourOf(cpuUsage)
    {
      if cpuUsage < 0.0 {
        cpuUsage := 0.0;
      }
      if cpuUsage > 100.0 {
        cpuUsage := 100.0;
      }
      level, colour := Normal, Green;
      if cpuUsage > 90.0 {
        level, colour := Critical, Red;
      } else if cpuUsage > 70.0 {
        level, colour := High, Orange;
      } else if cpuUsage > 40.0 {
        level, colour := Moderate, Yellow;
      }
    }
  }
}

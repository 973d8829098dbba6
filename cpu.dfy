// The command-line CPU-usage calculation (module-level `first_run` and
// `prev_cpu_usage`), the bar graphic built from two successive percentages,
// and the CPU producer's one-snapshot write.
module CpuCli {
  import opened Common
  import opened Channel

  /** user + nice + system + idle: the only four slots the calculation reads. */
  function Total4(s: Snapshot): nat { s[0] + s[1] + s[2] + s[3] }

  /** Busy share of the absolute counters, 100 − 100·idle/total, or 0 when nothing was counted. */
  function DirectUsage(s: Snapshot): (r: real)
    ensures 0.0 <= r <= 100.0
    ensures Total4(s) == 0 ==> r == 0.0
    ensures r == 0.0 <==> Total4(s) == s[3]
    ensures r == 100.0 <==> Total4(s) > 0 && s[3] == 0
  {
    if Total4(s) == 0 then 0.0
    else
      var total := Total4(s) as real;
      ShareBounds(s[3] as real, total);
      100.0 - s[3] as real * 100.0 / total
  }

  lemma ShareBounds(x: real, t: real)
    requires 0.0 <= x <= t && t > 0.0
    ensures 0.0 <= x * 100.0 / t <= 100.0
    ensures x * 100.0 / t == 100.0 <==> x == t
    ensures x * 100.0 / t == 0.0 <==> x == 0.0
  {
    var q := x * 100.0 / t;
    assert q * t == x * 100.0;
  }

  /** A counter's increase, or 0 when it went backwards. */
  function ClampedDelta(curr: nat, prev: nat): nat { if curr >= prev then curr - prev else 0 }

  function TotalDiff(prev: Snapshot, curr: Snapshot): nat {
    ClampedDelta(curr[0], prev[0]) + ClampedDelta(curr[1], prev[1])
      + ClampedDelta(curr[2], prev[2]) + ClampedDelta(curr[3], prev[3])
  }

  function IdleDiff(prev: Snapshot, curr: Snapshot): nat { ClampedDelta(curr[3], prev[3]) }

  /** The busy share of the interval before the [0,100] range check. */
  function IntervalShare(prev: Snapshot, curr: Snapshot): real
    requires TotalDiff(prev, curr) > 0
  {
    (TotalDiff(prev, curr) - IdleDiff(prev, curr)) as real * 100.0 / TotalDiff(prev, curr) as real
  }

  function ClampPercent(x: real): real { if x < 0.0 then 0.0 else if x > 100.0 then 100.0 else x }

  /**
   * What `calculateCPUUsage` returns: the direct formula on the first call,
   * otherwise the clamped busy share of the interval, falling back to the
   * direct formula on the current counters when no tick elapsed.
   */
  function CliUsage(firstRun: bool, prev: Snapshot, curr: Snapshot): (r: real)
    ensures 0.0 <= r <= 100.0
  {
    if firstRun then DirectUsage(curr)
    else if TotalDiff(prev, curr) == 0 then DirectUsage(curr)
    else ClampPercent(IntervalShare(prev, curr))
  }

  /** What the call leaves in `prev_cpu_usage`: the previous snapshot on the first call, the current one after a non-zero interval. */
  function StoredPrev(firstRun: bool, prev: Snapshot, curr: Snapshot, stored: seq<nat>): seq<nat> {
    if firstRun then prev else if TotalDiff(prev, curr) == 0 then stored else curr
  }

  /** Since the clamped deltas are never negative, the range check on the interval share never changes it. */
  lemma IntervalShareInRange(prev: Snapshot, curr: Snapshot)
    requires TotalDiff(prev, curr) > 0
    ensures 0.0 <= IntervalShare(prev, curr) <= 100.0
    ensures CliUsage(false, prev, curr) == IntervalShare(prev, curr)
  {
    ShareBounds((TotalDiff(prev, curr) - IdleDiff(prev, curr)) as real, TotalDiff(prev, curr) as real);
  }

  /** The first call looks only at the current snapshot. */
  lemma FirstCallIgnoresPrevious(prev1: Snapshot, prev2: Snapshot, curr: Snapshot)
    ensures CliUsage(true, prev1, curr) == CliUsage(true, prev2, curr) == DirectUsage(curr)
  {
  }

  predicate SameFirstFour(a: Snapshot, b: Snapshot) { a[..4] == b[..4] }

  /** iowait, irq and softirq (slots 4–6) never influence the result. */
  lemma ExtraSlotsIgnored(first: bool, prev1: Snapshot, curr1: Snapshot, prev2: Snapshot, curr2: Snapshot)
    requires SameFirstFour(prev1, prev2) && SameFirstFour(curr1, curr2)
    ensures CliUsage(first, prev1, curr1) == CliUsage(first, prev2, curr2)
  {
    assert forall k :: 0 <= k < 4 ==> prev1[k] == prev1[..4][k] == prev2[k] && curr1[k] == curr1[..4][k] == curr2[k];
  }

  /** When every one of the four counters went backwards (or stayed), the result is the direct formula on the current counters: regressions are tolerated. */
  lemma RegressionFallsBackToDirect(prev: Snapshot, curr: Snapshot)
    requires forall k :: 0 <= k < 4 ==> curr[k] <= prev[k]
    ensures CliUsage(false, prev, curr) == DirectUsage(curr)
  {
    assert TotalDiff(prev, curr) == 0;
  }

  /**
   * The calculator's module-level state: `first_run` and `prev_cpu_usage`.
   * The stored snapshot is written but never read by the calculation.
   */
  class CpuModule {
    var firstRun: bool
    var prevCpuUsage: array<nat>

    ghost predicate Valid()
      reads this
    {
      prevCpuUsage.Length == CpuSlots
    }

    constructor ()
      ensures Valid() && fresh(prevCpuUsage)
      ensures firstRun && prevCpuUsage[..] == ZeroSnapshot
    {
      firstRun := true;
      prevCpuUsage := new nat[CpuSlots](_ => 0);
    }

    method CalculateCpuUsage(prev: Snapshot, curr: Snapshot) returns (r: real)
      requires Valid()
      modifies this, prevCpuUsage
      ensures Valid() && prevCpuUsage == old(prevCpuUsage)
      ensures r == CliUsage(old(firstRun), prev, curr)
      ensures !firstRun
      ensures prevCpuUsage[..] == StoredPrev(old(firstRun), prev, curr, old(prevCpuUsage[..]))
    {
      var stored := prevCpuUsage;
      if firstRun {
        for i := 0 to CpuSlots
          invariant stored[..i] == prev[..i]
          modifies stored
        {
          stored[i] := prev[i];
        }
        firstRun := false;
        var total := curr[0] + curr[1] + curr[2] + curr[3];
        if total == 0 {
          return 0.0;
        }
        var idlePercent := curr[3] as real * 100.0 / total as real;
        return 100.0 - idlePercent;
      }
      var userDiff, niceDiff, systemDiff, idleDiff := 0, 0, 0, 0;
      if curr[0] >= prev[0] { userDiff := curr[0] - prev[0]; }
      if curr[1] >= prev[1] { niceDiff := curr[1] - prev[1]; }
      if curr[2] >= prev[2] { systemDiff := curr[2] - prev[2]; }
      if curr[3] >= prev[3] { idleDiff := curr[3] - prev[3]; }
      var totalDiff := userDiff + niceDiff + systemDiff + idleDiff;
      if totalDiff == 0 {
        var currTotal := curr[0] + curr[1] + curr[2] + curr[3];
        if currTotal == 0 {
          return 0.0;
        }
        var idlePercent := curr[3] as real * 100.0 / currTotal as real;
        return 100.0 - idlePercent;
      }
      var nonIdlePercent := (totalDiff - idleDiff) as real * 100.0 / totalDiff as real;
      if nonIdlePercent < 0.0 {
        nonIdlePercent := 0.0;
      } else if nonIdlePercent > 100.0 {
        nonIdlePercent := 100.0;
      }
      for i := 0 to CpuSlots
        invariant stored[..i] == curr[..i]
        modifies stored
      {
        stored[i] := curr[i];
      }
      r := nonIdlePercent;
    }
  }

  /** Leading indentation of every graphic row. */
  const GraphIndent: seq<Byte> := "         "

  /** The most bars one row may hold. */
  const MaxBars := MaxCpuBuffer - 50

  /** Bars requested: 3 plus the truncated percentage on the first sample, else 3 plus the change of the truncated percentages. */
  function RequestedBars(sampleIndex: int, cur: real, prev: real): int {
    3 + (if sampleIndex == 0 then Trunc(cur) else Trunc(cur) - Trunc(prev))
  }

  /** The row `setCPUGraphics` stores for one sample; `usageText` stands for the formatted " %.2f%%". */
  function CpuRow(sampleIndex: int, cur: real, prev: real, usageText: seq<Byte>): seq<Byte> {
    GraphIndent + Repeat('|', Max(0, Min(RequestedBars(sampleIndex, cur, prev), MaxBars))) + usageText
  }

  function CountBars(s: seq<Byte>): nat {
    if s == [] then 0 else CountBars(s[..|s| - 1]) + (if s[|s| - 1] == '|' then 1 else 0)
  }

  lemma {:induction false} CountBarsAppend(a: seq<Byte>, b: seq<Byte>)
    ensures CountBars(a + b) == CountBars(a) + CountBars(b)
  {
    if b == [] {
      assert a + b == a;
    } else {
      assert (a + b)[..|a + b| - 1] == a + b[..|b| - 1];
      CountBarsAppend(a, b[..|b| - 1]);
    }
  }

  lemma {:induction false} NoBarsCounted(s: seq<Byte>)
    requires forall i :: 0 <= i < |s| ==> s[i] != '|'
    ensures CountBars(s) == 0
  {
    if s != [] {
      NoBarsCounted(s[..|s| - 1]);
    }
  }

  lemma {:induction false} CountBarsRepeat(n: nat)
    ensures CountBars(Repeat('|', n)) == n
  {
    if n > 0 {
      assert Repeat('|', n)[..n - 1] == Repeat('|', n - 1);
      CountBarsRepeat(n - 1);
    }
  }

  /**
   * A row holds exactly max(0, min(requested, MAX_CPU_BUFFER − 50)) bars
   * (a negative request draws none) when the percentage text has none.
   */
  lemma RowBars(sampleIndex: int, cur: real, prev: real, usageText: seq<Byte>)
    requires CountBars(usageText) == 0
    ensures CountBars(CpuRow(sampleIndex, cur, prev, usageText))
      == if RequestedBars(sampleIndex, cur, prev) < 0 then 0 else Min(RequestedBars(sampleIndex, cur, prev), MaxBars)
    ensures RequestedBars(sampleIndex, cur, prev) >= 0 ==> CountBars(CpuRow(sampleIndex, cur, prev, usageText)) <= MaxBars
  {
    var n := Max(0, Min(RequestedBars(sampleIndex, cur, prev), MaxBars));
    var bars := Repeat('|', n);
    NoBarsCounted(GraphIndent);
    CountBarsAppend(GraphIndent, bars);
    CountBarsAppend(GraphIndent + bars, usageText);
    CountBarsRepeat(n);
  }

  /**
   * `setCPUGraphics`: builds the row bar by bar, stores it at `sampleIndex`,
   * returns the rows printed (indices 0..sampleIndex in both modes) and the
   * new value of `*prevCpuUsage`, which is always the current percentage.
   */
  method SetCpuGraphics(sequential: bool, cpuArr: array<seq<Byte>>, cur: real, prev: real,
                        sampleIndex: nat, usageText: seq<Byte>)
    returns (printed: seq<seq<Byte>>, newPrev: real)
    requires sampleIndex < cpuArr.Length
    requires |GraphIndent| + MaxBars + |usageText| <= MaxCpuBuffer - 1
    modifies cpuArr
    ensures cpuArr[sampleIndex] == CpuRow(sampleIndex, cur, prev, usageText)
    ensures |cpuArr[sampleIndex]| <= MaxCpuBuffer - 1
    ensures forall j :: 0 <= j < cpuArr.Length && j != sampleIndex ==> cpuArr[j] == old(cpuArr[j])
    ensures printed == cpuArr[..sampleIndex + 1]
    ensures newPrev == cur
  {
    var additionalBars := if sampleIndex == 0 then Trunc(cur) else Trunc(cur) - Trunc(prev);
    var defaultNum := 3 + additionalBars;
    var row := GraphIndent;
    var i := 0;
    while i < defaultNum && i < MaxBars
      invariant 0 <= i <= Max(0, Min(defaultNum, MaxBars))
      invariant row == GraphIndent + Repeat('|', i)
    {
      row := row + "|";
      i := i + 1;
    }
    row := row + usageText;
    cpuArr[sampleIndex] := Take(row, MaxCpuBuffer - 1);
    // Both modes print rows 0..sampleIndex.
    printed := cpuArr[..sampleIndex + 1];
    newPrev := cur;
  }

  /** `storeCPUInfo`: one snapshot as 56 raw bytes; `false` means the write failed and the producer terminates. */
  method StoreCpuInfo(reading: Snapshot, pipe: Pipe) returns (ok: bool)
    modifies pipe
    ensures ok == (old(pipe.remainingWrites) > 0)
    ensures pipe.unread == old(pipe.unread) + (if ok then EncodeSnapshot(reading) else [])
    ensures pipe.remainingWrites == if ok then old(pipe.remainingWrites) - 1 else 0
  {
    ok := pipe.Write(EncodeSnapshot(reading));
  }
}

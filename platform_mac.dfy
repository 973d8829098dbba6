// The Mach back-end: `get_cpu_stats` reports tick deltas against a stored
// baseline (`prev_cpu_load`, `prev_cpu_load_initialized`), uptime is split
// with integer `time_t` arithmetic, and `sysinfo` fails on any failed query.
module PlatformMac {
  import opened Common
  import opened Platform

  /** What the first successful call reports: a made-up, mostly idle reading. */
  const FirstReading: seq<nat> := [10, 1, 1, 100, 0, 0, 0]

  /** What a call reports when no tick elapsed: 5% busy out of 100 ticks. */
  const IdleReading: seq<nat> := [0, 0, 0, 95, 0, 0, 0]

  /** `natural_t` subtraction: the difference modulo 2^32, never negative. */
  function WrapSub(cur: Natural, prev: Natural): (d: Natural)
    ensures cur >= prev ==> d == cur - prev
    ensures cur < prev ==> d == cur - prev + NaturalLimit
  {
    (cur - prev) % NaturalLimit
  }

  /** Adding the delta back to the baseline, modulo 2^32, gives the new reading. */
  lemma WrapSubRecovers(cur: Natural, prev: Natural)
    ensures (prev + WrapSub(cur, prev)) % NaturalLimit == cur
    ensures WrapSub(cur, prev) == 0 <==> cur == prev
  {
  }

  /** The report of a call after the first: the four deltas, or the idle reading when they are all zero. */
  function Deltas(prev: CpuLoad, cur: CpuLoad): seq<nat> {
    var user := WrapSub(cur.user, prev.user);
    var nice := WrapSub(cur.nice, prev.nice);
    var system := WrapSub(cur.system, prev.system);
    var idle := WrapSub(cur.idle, prev.idle);
    if user + nice + system + idle == 0 then IdleReading else [user, nice, system, idle, 0, 0, 0]
  }

  /** The seven slots a call leaves in `cpu_usage`. */
  function Report(initialized: bool, prev: CpuLoad, query: Option<CpuLoad>): seq<nat> {
    match query
    case None => ZeroSnapshot
    case Some(cur) => if !initialized then FirstReading else Deltas(prev, cur)
  }

  /** iowait, irq and softirq are reported as 0 on every path. */
  lemma ReportHasNoExtraSlots(initialized: bool, prev: CpuLoad, query: Option<CpuLoad>)
    ensures |Report(initialized, prev, query)| == CpuSlots
    ensures Report(initialized, prev, query)[4..] == [0, 0, 0]
  {
  }

  /**
   * After the first call: an unchanged reading gives {0,0,0,95,0,0,0}; any
   * other reading is reported as deltas from which it can be recovered.
   */
  lemma DeltasOfReading(prev: CpuLoad, cur: CpuLoad)
    ensures cur == prev ==> Deltas(prev, cur) == IdleReading
    ensures cur != prev ==>
      var r := Deltas(prev, cur);
      (prev.user + r[0]) % NaturalLimit == cur.user && (prev.nice + r[1]) % NaturalLimit == cur.nice
      && (prev.system + r[2]) % NaturalLimit == cur.system && (prev.idle + r[3]) % NaturalLimit == cur.idle
  {
    WrapSubRecovers(cur.user, prev.user);
    WrapSubRecovers(cur.nice, prev.nice);
    WrapSubRecovers(cur.system, prev.system);
    WrapSubRecovers(cur.idle, prev.idle);
  }

  /** The back-end's static state: the baseline reading and whether it was taken. */
  class MacCpuSource {
    var prevCpuLoad: CpuLoad
    var initialized: bool

    constructor ()
      ensures !initialized && prevCpuLoad == CpuLoad(0, 0, 0, 0)
    {
      prevCpuLoad := CpuLoad(0, 0, 0, 0);
      initialized := false;
    }

    /**
     * `get_cpu_stats`: `query` is the kernel's reply (`None` when
     * `host_statistics` fails). A failed query reports zeros and leaves the
     * baseline alone; a successful one always becomes the new baseline.
     */
    method GetCpuStats(query: Option<CpuLoad>, cpuUsage: array<nat>)
      requires cpuUsage.Length == CpuSlots
      modifies this, cpuUsage
      ensures cpuUsage[..] == Report(old(initialized), old(prevCpuLoad), query)
      ensures initialized == (old(initialized) || query.Some?)
      ensures prevCpuLoad == if query.Some? then query.value else old(prevCpuLoad)
    {
      for i := 0 to CpuSlots
        invariant forall j :: 0 <= j < i ==> cpuUsage[j] == 0
        modifies cpuUsage
      {
        cpuUsage[i] := 0;
      }
      if query.None? {
        assert cpuUsage[..] == ZeroSnapshot;
        return;
      }
      var cpuLoad := query.value;
      if !initialized {
        prevCpuLoad := cpuLoad;
        initialized := true;
        cpuUsage[0], cpuUsage[1], cpuUsage[2], cpuUsage[3] := 10, 1, 1, 100;
        cpuUsage[4], cpuUsage[5], cpuUsage[6] := 0, 0, 0;
        assert cpuUsage[..] == FirstReading;
        return;
      }
      var userDiff: nat := WrapSub(cpuLoad.user, prevCpuLoad.user);
      var niceDiff: nat := WrapSub(cpuLoad.nice, prevCpuLoad.nice);
      var systemDiff: nat := WrapSub(cpuLoad.system, prevCpuLoad.system);
      var idleDiff: nat := WrapSub(cpuLoad.idle, prevCpuLoad.idle);
      var totalDiff := userDiff + niceDiff + systemDiff + idleDiff;
      var idleOut: nat := idleDiff;
      if totalDiff == 0 {
        totalDiff := 100;
        idleOut := 95;
      }
      prevCpuLoad := cpuLoad;
      cpuUsage[0], cpuUsage[1], cpuUsage[2], cpuUsage[3] := userDiff, niceDiff, systemDiff, idleOut;
      cpuUsage[4], cpuUsage[5], cpuUsage[6] := 0, 0, 0;
      assert cpuUsage[..] == [cpuUsage[0], cpuUsage[1], cpuUsage[2], cpuUsage[3], 0, 0, 0];
    }
  }

  /**
   * `get_system_uptime`: `bootTime` is the `kern.boottime` reply (`None`
   * when `sysctl` fails) and `now` the clock.
   */
  method GetSystemUptime(bootTime: Option<int>, now: int) returns (t: Uptime)
    ensures bootTime.None? ==> t == NoUptime
    ensures bootTime.Some? ==> t == SplitIntUptime(now - bootTime.value)
  {
    if bootTime.None? {
      return NoUptime;
    }
    var uptime := now - bootTime.value;
    var days := CDiv(uptime, 24 * 3600);
    uptime := CRem(uptime, 24 * 3600);
    var hours := CDiv(uptime, 3600);
    uptime := CRem(uptime, 3600);
    var minutes := CDiv(uptime, 60);
    var seconds := CRem(uptime, 60);
    t := Uptime(days, hours, minutes, seconds);
  }

  /** Uptime reported for a successful query always adds back up to now − boot time. */
  lemma UptimeRecomposes(bootTime: int, now: int)
    ensures Seconds(SplitIntUptime(now - bootTime)) == now - bootTime
    ensures now >= bootTime ==> var t := SplitIntUptime(now - bootTime);
      0 <= t.hours < 24 && 0 <= t.minutes < 60 && 0 <= t.seconds < 60
  {
    SplitIntUptimeSound(now - bootTime);
  }

  /** Every query `sysinfo` makes succeeded. */
  predicate AllQueriesSucceed(q: Queries) {
    q.bootTime.Some? && q.loadAvg.Some? && q.vm.Some? && q.pageSize.Some? && q.memSize.Some? && q.swap.Some?
  }

  /** A load average in the kernel's fixed-point form (×65536, truncated). */
  function FixedLoad(x: real): int { Trunc(x * 65536.0) }

  /**
   * `sysinfo`: clears the record, then fills it query by query; returns −1
   * for a NULL record or as soon as a query fails (the swap query
   * included), 0 once every field is set.
   */
  method Sysinfo(info: SysInfo?, q: Queries) returns (rc: int)
    modifies info
    ensures rc == 0 <==> info != null && AllQueriesSucceed(q)
    ensures rc != 0 ==> rc == -1
    ensures info != null && q.bootTime.None? ==> info.Cleared()
    ensures info != null && q.bootTime.Some? ==> info.uptime == q.now - q.bootTime.value
    ensures rc == 0 ==> (info.memUnit == 1
      && info.totalram == q.memSize.value && info.freeram == q.vm.value.freeCount * q.pageSize.value
      && info.totalswap == q.swap.value.total && info.freeswap == q.swap.value.avail
      && info.loads == [FixedLoad(q.loadAvg.value.one), FixedLoad(q.loadAvg.value.five), FixedLoad(q.loadAvg.value.fifteen)])
  {
    if info == null {
      return -1;
    }
    info.Clear();
    if q.bootTime.None? {
      return -1;
    }
    info.uptime := q.now - q.bootTime.value;
    if q.loadAvg.None? {
      return -1;
    }
    var loadAvg := q.loadAvg.value;
    info.loads := [FixedLoad(loadAvg.one), FixedLoad(loadAvg.five), FixedLoad(loadAvg.fifteen)];
    if q.vm.None? {
      return -1;
    }
    if q.pageSize.None? {
      return -1;
    }
    if q.memSize.None? {
      return -1;
    }
    if q.swap.None? {
      return -1;
    }
    info.totalram := q.memSize.value;
    info.freeram := q.vm.value.freeCount * q.pageSize.value;
    info.totalswap := q.swap.value.total;
    info.freeswap := q.swap.value.avail;
    info.memUnit := 1;
    return 0;
  }

  /** `calculate_memory_usage`: active plus wired pages in GB; the page count is a `natural_t` sum, so it wraps. */
  function MemoryUsage(vm: Option<VmStats>, pageSize: Option<nat>): (gb: real)
    ensures gb >= 0.0
    ensures vm.None? || pageSize.None? ==> gb == 0.0
    ensures vm.Some? && pageSize.Some? && vm.value.activeCount + vm.value.wireCount < NaturalLimit ==>
      gb == ((vm.value.activeCount + vm.value.wireCount) * pageSize.value) as real / GiB
  {
    if vm.None? then 0.0
    else if pageSize.None? then 0.0
    else (((vm.value.activeCount + vm.value.wireCount) % NaturalLimit) * pageSize.value) as real / GiB
  }

  /** `calculate_memory_total`: physical memory in GB, 0 when the query fails. */
  function MemoryTotal(memSize: Option<nat>): (gb: real)
    ensures gb >= 0.0
    ensures memSize.None? ==> gb == 0.0
    ensures memSize.Some? ==> gb * GiB == memSize.value as real
  {
    if memSize.None? then 0.0 else memSize.value as real / GiB
  }

  /** `calculate_swap_usage`: total − available in GB as a 64-bit unsigned difference, 0 when the query fails. */
  function SwapUsage(swap: Option<SwapUsage>): (gb: real)
    ensures gb >= 0.0
    ensures swap.None? ==> gb == 0.0
    ensures swap.Some? && swap.value.avail <= swap.value.total ==>
      gb == (swap.value.total - swap.value.avail) as real / GiB
  {
    if swap.None? then 0.0 else ((swap.value.total - swap.value.avail) % ULongLimit) as real / GiB
  }

  /** `calculate_swap_total`: swap total in GB, 0 when the query fails. */
  function SwapTotal(swap: Option<SwapUsage>): (gb: real)
    ensures gb >= 0.0
    ensures swap.None? ==> gb == 0.0
    ensures swap.Some? ==> gb * GiB == swap.value.total as real
  {
    if swap.None? then 0.0 else swap.value.total as real / GiB
  }

  /** Swap in use never exceeds the swap total while the kernel reports available ≤ total. */
  lemma SwapUsageWithinTotal(swap: Option<SwapUsage>)
    requires swap.Some? ==> swap.value.avail <= swap.value.total
    ensures SwapUsage(swap) <= SwapTotal(swap)
  {
  }
}

// The stateless Apple back-end: raw cumulative ticks from `get_cpu_stats`,
// a `sysinfo` that tolerates a failed swap query, virtual-memory usage in GB
// and a `double`-based uptime split.
module PlatformDarwin {
  import opened Common
  import opened Platform

  /** The seven slots `get_cpu_stats` leaves: the raw ticks in /proc/stat order, or zeros when the query fails. */
  function Report(query: Option<CpuLoad>): seq<nat> {
    match query
    case None => ZeroSnapshot
    case Some(l) => [l.user, l.nice, l.system, l.idle, 0, 0, 0]
  }

  /** Reports are cumulative: no baseline is kept, so the same reading always gives the same report, and slots 4–6 are 0. */
  lemma ReportIsRawTicks(query: Option<CpuLoad>)
    ensures |Report(query)| == CpuSlots && Report(query)[4..] == [0, 0, 0]
    ensures query.Some? ==> Report(query)[..4] == [query.value.user, query.value.nice, query.value.system, query.value.idle]
    ensures query.None? ==> Report(query) == ZeroSnapshot
  {
  }

  /** `get_cpu_stats`: fills `cpu_usage` from the kernel's reply, or clears it when the query fails. */
  method GetCpuStats(query: Option<CpuLoad>, cpuUsage: array<nat>)
    requires cpuUsage.Length == CpuSlots
    modifies cpuUsage
    ensures cpuUsage[..] == Report(query)
  {
    if query.Some? {
      var l := query.value;
      cpuUsage[0], cpuUsage[1], cpuUsage[2], cpuUsage[3] := l.user, l.nice, l.system, l.idle;
      cpuUsage[4], cpuUsage[5], cpuUsage[6] := 0, 0, 0;
      assert cpuUsage[..] == [l.user, l.nice, l.system, l.idle, 0, 0, 0];
    } else {
      for i := 0 to CpuSlots
        invariant forall j :: 0 <= j < i ==> cpuUsage[j] == 0
      {
        cpuUsage[i] := 0;
      }
      assert cpuUsage[..] == ZeroSnapshot;
    }
  }

  /** The queries whose failure makes `sysinfo` fail; the swap query is not among them. */
  predicate RequiredQueriesSucceed(q: Queries) {
    q.bootTime.Some? && q.pageSize.Some? && q.vm.Some? && q.memSize.Some?
  }

  /**
   * `sysinfo`: clears the record, then fills it; −1 for a NULL record or a
   * failed boot-time, page-size, VM or memory-size query. A failed swap
   * query leaves both swap fields 0 and still succeeds.
   */
  method Sysinfo(info: SysInfo?, q: Queries) returns (rc: int)
    modifies info
    ensures rc == 0 <==> info != null && RequiredQueriesSucceed(q)
    ensures rc != 0 ==> rc == -1
    ensures info != null && q.bootTime.None? ==> info.Cleared()
    ensures rc == 0 ==> (info.memUnit == 1 && info.uptime == q.now - q.bootTime.value
      && info.totalram == q.memSize.value && info.freeram == q.vm.value.freeCount * q.pageSize.value)
    ensures rc == 0 && q.swap.None? ==> info.totalswap == 0 && info.freeswap == 0
    ensures rc == 0 && q.swap.Some? ==> info.totalswap == q.swap.value.total && info.freeswap == q.swap.value.avail
  {
    if info == null {
      return -1;
    }
    info.Clear();
    if q.bootTime.None? {
      return -1;
    }
    info.uptime := q.now - q.bootTime.value;
    if q.pageSize.None? {
      return -1;
    }
    if q.vm.None? {
      return -1;
    }
    if q.memSize.None? {
      return -1;
    }
    info.totalram := q.memSize.value;
    info.freeram := q.vm.value.freeCount * q.pageSize.value;
    if q.swap.None? {
      info.totalswap := 0;
      info.freeswap := 0;
    } else {
      info.totalswap := q.swap.value.total;
      info.freeswap := q.swap.value.avail;
    }
    info.memUnit := 1;
    return 0;
  }

  /** Physical memory in use, in GB: total minus free pages times the page size. */
  function PhysUsedGb(memSize: nat, vm: VmStats, pageSize: nat): real {
    memSize as real / GiB - (vm.freeCount * pageSize) as real / GiB
  }

  /** Swap in use in GB, computed from a 64-bit unsigned difference. */
  function SwapUsedGb(swap: SwapUsage): real {
    ((swap.total - swap.avail) % ULongLimit) as real / GiB
  }

  /**
   * `calculate_memory_usage`: physical memory in use plus swap in use, in
   * GB; 0 when the memory-size, page-size or VM query fails, and no swap
   * term when the swap query fails.
   */
  function MemoryUsage(q: Queries): real {
    if q.memSize.None? || q.pageSize.None? || q.vm.None? then 0.0
    else
      PhysUsedGb(q.memSize.value, q.vm.value, q.pageSize.value)
        + (if q.swap.Some? then SwapUsedGb(q.swap.value) else 0.0)
  }

  /** The sum as the whole byte count: (total − free) + (swap total − swap available), over 2^30. */
  lemma MemoryUsageIsVirtualUsed(q: Queries)
    requires q.memSize.Some? && q.pageSize.Some? && q.vm.Some?
    ensures q.swap.None? ==> MemoryUsage(q) * GiB == (q.memSize.value - q.vm.value.freeCount * q.pageSize.value) as real
    ensures q.swap.Some? && q.swap.value.avail <= q.swap.value.total ==>
      MemoryUsage(q) * GiB
        == ((q.memSize.value - q.vm.value.freeCount * q.pageSize.value) + (q.swap.value.total - q.swap.value.avail)) as real
  {
  }

  lemma MemoryUsageFailure(q: Queries)
    requires q.memSize.None? || q.pageSize.None? || q.vm.None?
    ensures MemoryUsage(q) == 0.0
  {
  }

  /** `get_system_uptime`: all zeros when the boot-time query fails, else the `double` split of now − boot time. */
  method GetSystemUptime(bootTime: Option<int>, now: int) returns (t: Uptime)
    ensures bootTime.None? ==> t == NoUptime
    ensures bootTime.Some? ==> t == SplitRealUptime((now - bootTime.value) as real)
  {
    if bootTime.None? {
      return NoUptime;
    }
    var uptimeSecs := (now - bootTime.value) as real;
    t := SplitRealUptimeInPlace(uptimeSecs);
  }

  /** The uptime is a whole number of seconds here, so its split adds back up to it exactly. */
  lemma UptimeRecomposes(bootTime: int, now: int)
    requires now >= bootTime
    ensures var t := SplitRealUptime((now - bootTime) as real);
      Seconds(t) == now - bootTime && 0 <= t.hours < 24 && 0 <= t.minutes < 60 && 0 <= t.seconds < 60
  {
    SplitRealUptimeSound((now - bootTime) as real);
  }
}

// The Linux back-end: the first line of /proc/stat, virtual-memory usage
// from the C library's `sysinfo`, and /proc/uptime.
module PlatformLinux {
  import opened Common
  import opened Platform

  /**
   * What `fscanf(fp, "cpu %lu ...")` converted: the values it stored, in
   * order, up to the first field that did not match (at most seven).
   */
  type Scanned = s: seq<ULong> | |s| <= CpuSlots

  /** The seven slots `get_cpu_stats` leaves: all seven fields, or zeros when the file is missing or a field is. */
  function Report(stat: Option<Scanned>): seq<nat> {
    if stat.Some? && |stat.value| == CpuSlots then stat.value else ZeroSnapshot
  }

  /** All or nothing: the report is a complete reading or all zero, never a mix of fresh and stale slots. */
  lemma ReportAllOrNothing(stat: Option<Scanned>)
    ensures |Report(stat)| == CpuSlots
    ensures Report(stat) == ZeroSnapshot || (stat.Some? && Report(stat) == stat.value)
    ensures Report(stat) != ZeroSnapshot ==> stat.Some? && |stat.value| == CpuSlots
  {
  }

  /**
   * `get_cpu_stats`: `stat` is `None` when /proc/stat cannot be opened.
   * The scan stores the fields it matched one by one; a short scan is then
   * wiped with `memset`.
   */
  method GetCpuStats(stat: Option<Scanned>, cpuUsage: array<nat>)
    requires cpuUsage.Length == CpuSlots
    modifies cpuUsage
    ensures cpuUsage[..] == Report(stat)
  {
    if stat.None? {
      ClearSlots(cpuUsage);
      return;
    }
    var fields := stat.value;
    for i := 0 to |fields|
      invariant cpuUsage[..i] == fields[..i]
    {
      cpuUsage[i] := fields[i];
    }
    if |fields| != CpuSlots {
      ClearSlots(cpuUsage);
    } else {
      assert cpuUsage[..] == cpuUsage[..|fields|];
    }
  }

  /** `memset(cpu_usage, 0, 7 * sizeof(unsigned long))`. */
  method ClearSlots(cpuUsage: array<nat>)
    requires cpuUsage.Length == CpuSlots
    modifies cpuUsage
    ensures cpuUsage[..] == ZeroSnapshot
  {
    for i := 0 to CpuSlots
      invariant forall j :: 0 <= j < i ==> cpuUsage[j] == 0
    {
      cpuUsage[i] := 0;
    }
  }

  /**
   * `calculate_memory_usage`: physical plus swap memory in use, in GB, each
   * byte count divided by 2^30 separately; 0 when `sysinfo` fails. The
   * record's `mem_unit` is not applied.
   */
  function MemoryUsage(sys: Option<MemCounters>): real {
    if sys.None? then 0.0
    else
      var c := sys.value;
      (c.totalram as real / GiB - c.freeram as real / GiB) + (c.totalswap as real / GiB - c.freeswap as real / GiB)
  }

  /** The result is the whole count of bytes in use, RAM and swap together, over 2^30. */
  lemma MemoryUsageIsVirtualUsed(sys: Option<MemCounters>)
    ensures sys.None? ==> MemoryUsage(sys) == 0.0
    ensures sys.Some? ==>
      MemoryUsage(sys) * GiB
        == ((sys.value.totalram - sys.value.freeram) + (sys.value.totalswap - sys.value.freeswap)) as real
  {
  }

  /** The uptime read from /proc/uptime: 0 when the file cannot be opened or its number not read. */
  function UptimeSeconds(fileOpened: bool, scanned: Option<real>): real {
    if fileOpened && scanned.Some? then scanned.value else 0.0
  }

  /** `get_system_uptime`: the split of the uptime read from /proc/uptime. */
  method GetSystemUptime(fileOpened: bool, scanned: Option<real>) returns (t: Uptime)
    ensures t == SplitRealUptime(UptimeSeconds(fileOpened, scanned))
  {
    var uptimeSecs := 0.0;
    if fileOpened {
      if scanned.Some? {
        uptimeSecs := scanned.value;
      }
    }
    t := SplitRealUptimeInPlace(uptimeSecs);
  }

  /**
   * Days are the whole days of uptime and the other parts stay in range,
   * adding back up to the whole seconds; a missing file gives all zeros.
   */
  lemma UptimeSplitSound(fileOpened: bool, scanned: Option<real>)
    requires UptimeSeconds(fileOpened, scanned) >= 0.0
    ensures var u := UptimeSeconds(fileOpened, scanned); var t := SplitRealUptime(u);
      t.days == (u / 86400.0).Floor && 0 <= t.hours < 24 && 0 <= t.minutes < 60 && 0 <= t.seconds < 60
      && Seconds(t) == u.Floor
    ensures !fileOpened ==> SplitRealUptime(UptimeSeconds(fileOpened, scanned)) == NoUptime
  {
    SplitRealUptimeSound(UptimeSeconds(fileOpened, scanned));
  }
}

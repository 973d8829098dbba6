// The pieces the three platform back-ends share: the Linux-compatible
// `struct sysinfo` record the Apple back-ends fill in place, the results of
// the operating-system queries they consume (taken as inputs, `None` for a
// failed query), and the two ways uptime seconds are split into days, hours,
// minutes and seconds.
module Platform {
  import opened Common

  /** Bytes per GB in every conversion (`1024 * 1024 * 1024`). */
  const GiB: real := 1073741824.0

  /** Exclusive bound of mach's 32-bit `natural_t` counters. */
  const NaturalLimit := 0x1_0000_0000

  /** A mach `natural_t`: an unsigned 32-bit count. */
  type Natural = x: nat | x < NaturalLimit

  /** A `host_cpu_load_info` reply: the four cumulative tick counters, each a `natural_t`. */
  datatype CpuLoad = CpuLoad(user: Natural, nice: Natural, system: Natural, idle: Natural)

  /** The four memory counters the consumers read from a `struct sysinfo`. */
  datatype MemCounters = MemCounters(totalram: nat, freeram: nat, totalswap: nat, freeswap: nat)

  /** The `struct sysinfo` record, filled field by field. */
  class SysInfo {
    var uptime: int
    var loads: seq<int>
    var totalram: nat
    var freeram: nat
    var sharedram: nat
    var bufferram: nat
    var totalswap: nat
    var freeswap: nat
    var procs: nat
    var totalhigh: nat
    var freehigh: nat
    var memUnit: nat

    /** Every field zero, as after `memset(info, 0, sizeof *info)`. */
    predicate Cleared()
      reads this
    {
      uptime == 0 && loads == [0, 0, 0] && totalram == 0 && freeram == 0 && sharedram == 0
      && bufferram == 0 && totalswap == 0 && freeswap == 0 && procs == 0 && totalhigh == 0
      && freehigh == 0 && memUnit == 0
    }

    constructor ()
      ensures Cleared()
    {
      uptime := 0;
      loads := [0, 0, 0];
      totalram := 0;
      freeram := 0;
      sharedram := 0;
      bufferram := 0;
      totalswap := 0;
      freeswap := 0;
      procs := 0;
      totalhigh := 0;
      freehigh := 0;
      memUnit := 0;
    }

    method Clear()
      modifies this
      ensures Cleared()
    {
      uptime := 0;
      loads := [0, 0, 0];
      totalram := 0;
      freeram := 0;
      sharedram := 0;
      bufferram := 0;
      totalswap := 0;
      freeswap := 0;
      procs := 0;
      totalhigh := 0;
      freehigh := 0;
      memUnit := 0;
    }

    function Counters(): (c: MemCounters)
      reads this
      ensures c.totalram == totalram && c.freeram == freeram
      ensures c.totalswap == totalswap && c.freeswap == freeswap
    {
      MemCounters(totalram, freeram, totalswap, freeswap)
    }
  }

  /** The counts of a `vm_statistics64` reply the back-ends use. */
  datatype VmStats = VmStats(freeCount: nat, activeCount: nat, wireCount: nat)

  /** An `xsw_usage` reply: swap total and available bytes. */
  datatype SwapUsage = SwapUsage(total: ULong, avail: ULong)

  /** The 1-, 5- and 15-minute load averages from `getloadavg`. */
  datatype LoadAverages = LoadAverages(one: real, five: real, fifteen: real)

  /**
   * What the Apple back-ends' queries return this time: boot time, the
   * clock, load averages, VM statistics, page size, physical memory size
   * and swap usage; `None` stands for a failed call.
   */
  datatype Queries = Queries(
    bootTime: Option<int>, now: int, loadAvg: Option<LoadAverages>, vm: Option<VmStats>,
    pageSize: Option<nat>, memSize: Option<nat>, swap: Option<SwapUsage>)

  /** Uptime split into its four parts. */
  datatype Uptime = Uptime(days: int, hours: int, minutes: int, seconds: int)

  const NoUptime := Uptime(0, 0, 0, 0)

  function Seconds(t: Uptime): int { t.days * 86400 + t.hours * 3600 + t.minutes * 60 + t.seconds }

  /**
   * The split of a `double` uptime as the Linux and Darwin back-ends do it:
   * each `int` part is the truncated quotient of what is left, and seconds
   * are `(int)rest % 60`.
   */
  function SplitRealUptime(u: real): Uptime {
    var days := Trunc(u / 86400.0);
    var rest1 := u - (days * 24 * 3600) as real;
    var hours := Trunc(rest1 / 3600.0);
    var rest2 := rest1 - (hours * 3600) as real;
    Uptime(days, hours, Trunc(rest2 / 60.0), CRem(Trunc(rest2), 60))
  }

  /** The step-by-step split shared by the Linux and Darwin `get_system_uptime`. */
  method SplitRealUptimeInPlace(uptimeSecs: real) returns (t: Uptime)
    ensures t == SplitRealUptime(uptimeSecs)
  {
    var u := uptimeSecs;
    var days := Trunc(u / 86400.0);
    u := u - (days * 24 * 3600) as real;
    var hours := Trunc(u / 3600.0);
    u := u - (hours * 3600) as real;
    var minutes := Trunc(u / 60.0);
    var seconds := CRem(Trunc(u), 60);
    t := Uptime(days, hours, minutes, seconds);
  }

  lemma FloorQuotient(x: real, k: real)
    requires x >= 0.0 && k > 0.0
    ensures (x / k).Floor >= 0
    ensures (x / k).Floor as real * k <= x < ((x / k).Floor as real + 1.0) * k
  {
    var q := (x / k).Floor;
    var y := x / k;
    assert y * k == x;
    assert q as real <= y < q as real + 1.0;
    assert q as real * k <= y * k;
    calc {
      x;
    ==
      y * k;
    <
      (q as real + 1.0) * k;
    }
  }

  lemma FloorShift(n: int, x: real)
    ensures (n as real + x).Floor == n + x.Floor
  {
  }

  /**
   * For a non-negative uptime the parts are in range and add back up to the
   * whole seconds: the fractional second is the only thing dropped.
   */
  lemma SplitRealUptimeSound(u: real)
    requires u >= 0.0
    ensures var t := SplitRealUptime(u);
      t.days == (u / 86400.0).Floor && 0 <= t.hours < 24 && 0 <= t.minutes < 60 && 0 <= t.seconds < 60
      && Seconds(t) == u.Floor
  {
    var t := SplitRealUptime(u);
    FloorQuotient(u, 86400.0);
    var rest1 := u - (t.days * 24 * 3600) as real;
    assert 0.0 <= rest1 < 86400.0;
    FloorQuotient(rest1, 3600.0);
    var rest2 := rest1 - (t.hours * 3600) as real;
    assert t.hours < 24;
    assert 0.0 <= rest2 < 3600.0;
    FloorQuotient(rest2, 60.0);
    assert t.minutes < 60;
    var f := rest2.Floor;
    assert t.minutes * 60 <= f < t.minutes * 60 + 60;
    CDivRem(f, 60);
    assert f / 60 == t.minutes;
    assert t.seconds == f - t.minutes * 60;
    assert u == (t.days * 86400 + t.hours * 3600) as real + rest2;
    FloorShift(t.days * 86400 + t.hours * 3600, rest2);
  }

  /** The split of an integer `time_t` uptime with C's truncating `/` and `%` (the Mach back-end). */
  function SplitIntUptime(u: int): Uptime {
    var rest1 := CRem(u, 24 * 3600);
    var rest2 := CRem(rest1, 3600);
    Uptime(CDiv(u, 24 * 3600), CDiv(rest1, 3600), CDiv(rest2, 60), CRem(rest2, 60))
  }

  /**
   * Whatever the sign of the uptime (a clock set back gives a negative
   * one), the parts add back up to it exactly and stay within a day, an
   * hour and a minute; a non-negative uptime gives non-negative parts.
   */
  lemma SplitIntUptimeSound(u: int)
    ensures var t := SplitIntUptime(u);
      Seconds(t) == u && -24 < t.hours < 24 && -60 < t.minutes < 60 && -60 < t.seconds < 60
      && (u >= 0 ==> t.days >= 0 && t.hours >= 0 && t.minutes >= 0 && t.seconds >= 0)
  {
    var rest1 := CRem(u, 24 * 3600);
    var rest2 := CRem(rest1, 3600);
    CDivRem(u, 24 * 3600);
    CDivRem(rest1, 3600);
    CDivRem(rest2, 60);
  }
}

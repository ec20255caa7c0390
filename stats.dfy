/**
 * Host telemetry: the snapshot of memory, disk, CPU and load readings, the
 * accessors computed from it, and `GetStats`, which queries the four
 * providers one after another and collects one error per failing provider.
 * The providers' reads of /proc and of the root file system are inputs: a
 * reading, or None when the read failed.
 */
module HostStats {
  import opened Wrappers

  const TWO_TO_THE_64: int := 0x1_0000_0000_0000_0000

  /** Go's uint64. */
  type U64 = x: int | 0 <= x < TWO_TO_THE_64

  /** A uint64 computation: the exact value modulo 2^64. */
  function Wrap(x: int): U64 {
    x % TWO_TO_THE_64
  }

  /** The fields of /proc/meminfo this code reads (kB). */
  datatype MemInfo = MemInfo(memTotal: U64, memAvailable: U64)

  datatype Disk = Disk(all: U64, used: U64, free: U64, freeInodes: U64)

  /** The aggregate line of /proc/stat (jiffies per kind of work). */
  datatype CPUStat = CPUStat(
    id: string,
    user: U64, nice: U64, system: U64, idle: U64, iowait: U64,
    irq: U64, softirq: U64, steal: U64, guest: U64, guestNice: U64)

  /** /proc/loadavg; the averages are Go float64 values, carried as reals. */
  datatype LoadAvg = LoadAvg(last1Min: real, last5Min: real, last15Min: real, processRunning: U64, processTotal: U64, lastPid: U64)

  /** What a provider reads, in the order GetStats queries the providers. */
  datatype Source = MemInfoFile | RootFs | CpuStatFile | LoadAvgFile

  function SourcePath(src: Source): string {
    match src
    case MemInfoFile => "/proc/meminfo"
    case RootFs => "/"
    case CpuStatFile => "/proc/stat"
    case LoadAvgFile => "/proc/loadavg"
  }

  /** A provider failure, naming what could not be read. */
  datatype StatsError = ReadError(source: Source)

  /** The text of a provider failure. */
  function Message(e: StatsError): string {
    "error reading from " + SourcePath(e.source)
  }

  datatype Stats = Stats(
    memStats: MemInfo,
    diskStats: Disk,
    cpuStats: CPUStat,
    loadStats: LoadAvg,
    taskCount: int,
    errors: seq<StatsError>)

  const ZeroMemInfo := MemInfo(0, 0)
  const ZeroDisk := Disk(0, 0, 0, 0)
  const ZeroCPUStat := CPUStat("", 0, 0, 0, 0, 0, 0, 0, 0, 0, 0)
  const ZeroLoadAvg := LoadAvg(0.0, 0.0, 0.0, 0, 0, 0)

  function MemTotalKb(s: Stats): U64 {
    s.memStats.memTotal
  }

  function MemAvailableKb(s: Stats): U64 {
    s.memStats.memAvailable
  }

  /**
   * Used memory, total minus available in uint64 arithmetic: the one value
   * that added to the available memory gives the total modulo 2^64; when
   * more is available than the total, the difference wraps around.
   */
  function MemUsedKb(s: Stats): (r: U64)
    ensures (r + MemAvailableKb(s)) % TWO_TO_THE_64 == MemTotalKb(s)
    ensures MemAvailableKb(s) <= MemTotalKb(s) ==> r + MemAvailableKb(s) == MemTotalKb(s)
    ensures MemAvailableKb(s) > MemTotalKb(s) ==> r > MemTotalKb(s)
  {
    Wrap(MemTotalKb(s) - MemAvailableKb(s))
  }

  /**
   * The "used percent": available divided by total, truncated. It is the
   * available share, not the used one, and is not scaled to a percentage.
   */
  function MemUsedPercent(s: Stats): (r: U64)
    requires MemTotalKb(s) != 0
    ensures r * MemTotalKb(s) <= MemAvailableKb(s) < (r + 1) * MemTotalKb(s)
  {
    var a, t := MemAvailableKb(s), MemTotalKb(s);
    DivBounds(a, t);
    a / t
  }

  /** Multiplication by a successor, and the sign and size of a product of naturals. */
  lemma {:induction false} MulStep(q: nat, t: nat)
    ensures (q + 1) * t == q * t + t
    ensures q * t >= 0
    ensures t > 0 ==> q * t >= q
    decreases q
  {
    if q > 0 {
      MulStep(q - 1, t);
    }
  }

  /** The truncated quotient of naturals lies between 0 and the dividend and brackets it. */
  lemma DivBounds(a: nat, t: nat)
    requires t > 0
    ensures 0 <= a / t <= a
    ensures (a / t) * t <= a < (a / t + 1) * t
  {
    assert a == (a / t) * t + a % t && 0 <= a % t < t;
    MulStep(a / t, t);
  }

  /**
   * Whenever no more is available than the total, the value is 1 when
   * nothing is used and 0 otherwise.
   */
  lemma MemUsedPercentIsZeroOrOne(s: Stats)
    requires 0 < MemTotalKb(s) && MemAvailableKb(s) <= MemTotalKb(s)
    ensures MemUsedPercent(s) == if MemAvailableKb(s) == MemTotalKb(s) then 1 else 0
  {
    var r, t := MemUsedPercent(s), MemTotalKb(s);
    if r >= 2 {
      MulStep(1, t);
      MulStep(r - 2, t);
      MulStep(r - 1, t);
    }
  }

  function DiskTotal(s: Stats): U64 {
    s.diskStats.all
  }

  function DiskFree(s: Stats): U64 {
    s.diskStats.free
  }

  function DiskUsed(s: Stats): U64 {
    s.diskStats.used
  }

  /** A fraction num/den, standing for a float64 quotient. */
  datatype Ratio = Ratio(num: int, den: nat)

  /** The eight counters the usage is computed from, summed exactly. */
  function CounterSum(c: CPUStat): int {
    c.idle + c.iowait + c.user + c.nice + c.system + c.irq + c.softirq + c.steal
  }

  /** The time spent working: everything but idle and iowait, summed exactly. */
  function NonIdleSum(c: CPUStat): int {
    c.user + c.nice + c.system + c.irq + c.softirq + c.steal
  }

  /**
   * CPU usage: (total - idle) / total with idle = idle + iowait and
   * total = idle + non-idle, each sum in uint64 arithmetic; exactly 0 when the
   * total is 0. Without wrap-around this is the non-idle share of all time,
   * a fraction between 0 and 1.
   */
  function CpuUsage(s: Stats): (r: Ratio)
    ensures r.den > 0
  {
    var c := s.cpuStats;
    var idle := Wrap(c.idle + c.iowait);
    var nonIdle := Wrap(c.user + c.nice + c.system + c.irq + c.softirq + c.steal);
    var total := Wrap(idle + nonIdle);
    if total == 0 then Ratio(0, 1) else Ratio(total - idle, total)
  }

  /** A uint64 sum that stays below 2^64 does not wrap. */
  lemma WrapBelowBound(x: int)
    requires 0 <= x < TWO_TO_THE_64
    ensures Wrap(x) == x
  {
  }

  /**
   * Exactly 0 when all eight counters are 0; otherwise, as long as their sum
   * stays below 2^64, the non-idle share of all time, between 0 and 1.
   */
  lemma CpuUsageMeaning(s: Stats)
    ensures CounterSum(s.cpuStats) == 0 ==> CpuUsage(s).num == 0
    ensures 0 < CounterSum(s.cpuStats) < TWO_TO_THE_64 ==>
      CpuUsage(s) == Ratio(NonIdleSum(s.cpuStats), CounterSum(s.cpuStats)) && 0 <= CpuUsage(s).num <= CpuUsage(s).den
  {
    var c := s.cpuStats;
    if CounterSum(c) < TWO_TO_THE_64 {
      WrapBelowBound(c.idle + c.iowait);
      WrapBelowBound(NonIdleSum(c));
      WrapBelowBound(CounterSum(c));
    }
  }

  /** idle 50, iowait 10, user 20, system 10: 30 of 90. */
  lemma CpuUsageExample(s: Stats)
    requires s.cpuStats == CPUStat("cpu", 20, 0, 10, 50, 10, 0, 0, 0, 0, 0)
    ensures CpuUsage(s) == Ratio(30, 90)
  {
  }

  /** The memory provider: the reading, or an empty reading and an error naming the file. */
  function GetMemoryInfo(read: Option<MemInfo>): (r: (MemInfo, Option<StatsError>))
    ensures r.0 == read.GetOr(ZeroMemInfo)
    ensures r.1.Some? <==> read.None?
    ensures r.1.Some? ==> r.1.value == ReadError(MemInfoFile) && Message(r.1.value) == "error reading from /proc/meminfo"
  {
    match read
    case Some(m) => (m, None)
    case None => (ZeroMemInfo, Some(ReadError(MemInfoFile)))
  }

  function GetDiskInfo(read: Option<Disk>): (r: (Disk, Option<StatsError>))
    ensures r.0 == read.GetOr(ZeroDisk)
    ensures r.1.Some? <==> read.None?
    ensures r.1.Some? ==> r.1.value == ReadError(RootFs) && Message(r.1.value) == "error reading from /"
  {
    match read
    case Some(d) => (d, None)
    case None => (ZeroDisk, Some(ReadError(RootFs)))
  }

  function GetCpuStats(read: Option<CPUStat>): (r: (CPUStat, Option<StatsError>))
    ensures r.0 == read.GetOr(ZeroCPUStat)
    ensures r.1.Some? <==> read.None?
    ensures r.1.Some? ==> r.1.value == ReadError(CpuStatFile) && Message(r.1.value) == "error reading from /proc/stat"
  {
    match read
    case Some(c) => (c, None)
    case None => (ZeroCPUStat, Some(ReadError(CpuStatFile)))
  }

  function GetLoadAvg(read: Option<LoadAvg>): (r: (LoadAvg, Option<StatsError>))
    ensures r.0 == read.GetOr(ZeroLoadAvg)
    ensures r.1.Some? <==> read.None?
    ensures r.1.Some? ==> r.1.value == ReadError(LoadAvgFile) && Message(r.1.value) == "error reading from /proc/loadavg"
  {
    match read
    case Some(l) => (l, None)
    case None => (ZeroLoadAvg, Some(ReadError(LoadAvgFile)))
  }

  /** The position of a provider in the order GetStats queries them. */
  function ProviderRank(e: StatsError): nat {
    match e.source
    case MemInfoFile => 0
    case RootFs => 1
    case CpuStatFile => 2
    case LoadAvgFile => 3
  }

  function Count(failed: bool): nat {
    if failed then 1 else 0
  }

  /** The error a provider contributes: one naming its file when it failed, none otherwise. */
  function ErrorIf(failed: bool, src: Source): seq<StatsError> {
    if failed then [ReadError(src)] else []
  }

  /** The errors collected when the providers fail as given, in query order. */
  function CollectedErrors(memFailed: bool, diskFailed: bool, cpuFailed: bool, loadFailed: bool): seq<StatsError> {
    ErrorIf(memFailed, MemInfoFile) + ErrorIf(diskFailed, RootFs) + ErrorIf(cpuFailed, CpuStatFile) + ErrorIf(loadFailed, LoadAvgFile)
  }

  /** One error per failing provider, naming what it failed to read, and none for the others; at most four. */
  lemma CollectedErrorsShape(memFailed: bool, diskFailed: bool, cpuFailed: bool, loadFailed: bool)
    ensures var errs := CollectedErrors(memFailed, diskFailed, cpuFailed, loadFailed);
      && |errs| == Count(memFailed) + Count(diskFailed) + Count(cpuFailed) + Count(loadFailed) <= 4
      && (ReadError(MemInfoFile) in errs <==> memFailed)
      && (ReadError(RootFs) in errs <==> diskFailed)
      && (ReadError(CpuStatFile) in errs <==> cpuFailed)
      && (ReadError(LoadAvgFile) in errs <==> loadFailed)
  {
  }

  /** The errors are ordered as the providers are queried: memory, disk, CPU, load. */
  lemma CollectedErrorsOrdered(memFailed: bool, diskFailed: bool, cpuFailed: bool, loadFailed: bool)
    ensures var errs := CollectedErrors(memFailed, diskFailed, cpuFailed, loadFailed);
      forall i, j :: 0 <= i < j < |errs| ==> ProviderRank(errs[i]) < ProviderRank(errs[j])
  {
  }

  /**
   * Queries memory, disk, CPU and load in that order. Each failure adds one
   * error and leaves that provider's zero reading; no failure stops the
   * providers after it. The task count is left at zero.
   */
  method GetStats(mem: Option<MemInfo>, disk: Option<Disk>, cpu: Option<CPUStat>, load: Option<LoadAvg>)
    returns (s: Stats)
    ensures s.memStats == mem.GetOr(ZeroMemInfo) && s.diskStats == disk.GetOr(ZeroDisk)
    ensures s.cpuStats == cpu.GetOr(ZeroCPUStat) && s.loadStats == load.GetOr(ZeroLoadAvg)
    ensures MemTotalKb(s) == (if mem.Some? then mem.value.memTotal else 0)
    ensures MemAvailableKb(s) == (if mem.Some? then mem.value.memAvailable else 0)
    ensures DiskTotal(s) == (if disk.Some? then disk.value.all else 0)
    ensures DiskFree(s) == (if disk.Some? then disk.value.free else 0)
    ensures DiskUsed(s) == (if disk.Some? then disk.value.used else 0)
    ensures s.taskCount == 0
    ensures s.errors == CollectedErrors(mem.None?, disk.None?, cpu.None?, load.None?)
  {
    s := Stats(ZeroMemInfo, ZeroDisk, ZeroCPUStat, ZeroLoadAvg, 0, []);

    var m := GetMemoryInfo(mem);
    if m.1.Some? {
      s := s.(errors := s.errors + [m.1.value]);
    }
    s := s.(memStats := m.0);

    var d := GetDiskInfo(disk);
    if d.1.Some? {
      s := s.(errors := s.errors + [d.1.value]);
    }
    s := s.(diskStats := d.0);

    var c := GetCpuStats(cpu);
    if c.1.Some? {
      s := s.(errors := s.errors + [c.1.value]);
    }
    s := s.(cpuStats := c.0);

    var l := GetLoadAvg(load);
    if l.1.Some? {
      s := s.(errors := s.errors + [l.1.value]);
    }
    s := s.(loadStats := l.0);
  }
}

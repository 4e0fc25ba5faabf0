/** Turning one stats snapshot into a per-container usage record (getStats,
    without its HTTP request and JSON decoding). */
module Usage {
  import opened Wrappers
  import opened UInt
  import opened DockerTypes

  /** A container as the collector sees it: its id and its canonical name. */
  datatype IdName = IdName(id: string, name: string)

  /** A float64 value, kept as the Go expression that produces it rather than
      evaluated:
      - CpuPercent(d, s, n) stands for float64(d) / float64(s) * float64(n) * 100.0
        (NaN or Inf when s is 0: the code has no guard);
      - OfUint64(n) stands for float64(n). */
  datatype F64 =
    | CpuPercent(cpuDelta: uint64, systemDelta: uint64, onlineCpus: uint32)
    | OfUint64(n: uint64)

  /** The usage record of one container. */
  datatype Resource = Resource(id: string, containerName: string, cpuUsage: F64, memUsage: F64)

  /** The page-cache share of memory usage; 0 when the breakdown has no "cache" key. */
  function Cache(m: MemoryStats): uint64
  {
    Lookup(m.stats, "cache")
  }

  /** Memory in use: total usage minus the page cache, in uint64 arithmetic.
      It is exactly `usage - cache` when the cache fits in the usage, equals
      the usage when there is no "cache" key, and wraps around modulo 2^64
      (rather than going negative) when the cache exceeds the usage. */
  function UsedMemory(m: MemoryStats): (r: uint64)
    ensures WrappingAdd(r, Cache(m)) == m.usage
    ensures "cache" !in m.stats ==> r == m.usage
    ensures Cache(m) <= m.usage ==> r as int == m.usage as int - Cache(m) as int
    ensures m.usage < Cache(m) ==> r as int == m.usage as int + TWO_TO_THE_64 - Cache(m) as int
  {
    WrappingSub(m.usage, Lookup(m.stats, "cache"))
  }

  /** CPU time the container used between the previous and the current
      sample: the current total minus the previous one, modulo 2^64. */
  function CpuDelta(s: Stats): (r: uint64)
    ensures WrappingAdd(r, s.preCpuStats.cpuUsage.totalUsage) == s.cpuStats.cpuUsage.totalUsage
    ensures s.preCpuStats.cpuUsage.totalUsage <= s.cpuStats.cpuUsage.totalUsage ==>
              r as int == s.cpuStats.cpuUsage.totalUsage as int - s.preCpuStats.cpuUsage.totalUsage as int
  {
    WrappingSub(s.cpuStats.cpuUsage.totalUsage, s.preCpuStats.cpuUsage.totalUsage)
  }

  /** CPU time the whole host used over the same interval, modulo 2^64. */
  function SystemCpuDelta(s: Stats): (r: uint64)
    ensures WrappingAdd(r, s.preCpuStats.systemUsage) == s.cpuStats.systemUsage
    ensures s.preCpuStats.systemUsage <= s.cpuStats.systemUsage ==>
              r as int == s.cpuStats.systemUsage as int - s.preCpuStats.systemUsage as int
  {
    WrappingSub(s.cpuStats.systemUsage, s.preCpuStats.systemUsage)
  }

  /** getStats once the response is decoded: a decode (or read) failure is
      passed on unchanged; otherwise the record copies the container's id and
      name and carries the memory in use and the CPU percentage term. */
  function GetStats(container: IdName, decoded: Result<Stats>): (r: Result<Resource>)
    ensures r.Err? <==> decoded.Err?
    ensures decoded.Err? ==> r.error == decoded.error
    ensures decoded.Ok? ==>
              && r.value.id == container.id
              && r.value.containerName == container.name
              && r.value.memUsage == OfUint64(UsedMemory(decoded.value.memoryStats))
              && r.value.cpuUsage == CpuPercent(CpuDelta(decoded.value), SystemCpuDelta(decoded.value),
                                                decoded.value.cpuStats.onlineCpus)
  {
    match decoded
    case Err(e) => Err(e)
    case Ok(v) =>
      var usedMemory := UsedMemory(v.memoryStats);
      var cpuDelta := CpuDelta(v);
      var systemCpuDelta := SystemCpuDelta(v);
      var numberCpus := v.cpuStats.onlineCpus;
      Ok(Resource(container.id, container.name, CpuPercent(cpuDelta, systemCpuDelta, numberCpus), OfUint64(usedMemory)))
  }

  /** Scenario: a cache larger than the usage does not give a negative
      figure; one byte too much cache reads as 2^64 - 1 bytes in use. */
  lemma CacheAboveUsageWraps(stats: map<string, uint64>)
    requires "cache" in stats && stats["cache"] == 1
    ensures UsedMemory(MemoryStats(0, stats)) as int == TWO_TO_THE_64 - 1
  {
  }
}

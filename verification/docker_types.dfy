/** The parts of the Docker Engine API (v1.39) responses that the plugin reads,
    as already-decoded records: a container descriptor from
    `GET /containers/json` and a stats snapshot from
    `GET /containers/{id}/stats?stream=false`. */
module DockerTypes {
  import opened UInt

  /** One entry of the container listing; `names` are the container's
      aliases, the first of which the plugin treats as canonical. */
  datatype Container = Container(id: string, names: seq<string>)

  datatype CPUUsage = CPUUsage(totalUsage: uint64)

  datatype CPUStats = CPUStats(cpuUsage: CPUUsage, systemUsage: uint64, onlineCpus: uint32)

  /** `stats` is the free-form breakdown (page cache and so on) of `usage`. */
  datatype MemoryStats = MemoryStats(usage: uint64, stats: map<string, uint64>)

  /** A single snapshot: current counters, and the previous CPU sample the
      daemon keeps and reports alongside them. */
  datatype Stats = Stats(cpuStats: CPUStats, preCpuStats: CPUStats, memoryStats: MemoryStats)

  /** Go's `m[k]` on a map[string]uint64: the stored value, or the zero value
      when the key is absent. */
  function Lookup(m: map<string, uint64>, k: string): (r: uint64)
    ensures k in m ==> r == m[k]
    ensures k !in m ==> r == 0
  {
    if k in m then m[k] else 0
  }
}

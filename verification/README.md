# mackerel-plugin-my-docker in Dafny

A verified model of the metric collector in `main.go` of
mackerel-plugin-my-docker. The plugin lists the running Docker containers and
reads one stats snapshot per container. For each container it reports two
figures to Mackerel:

- memory in use: total usage minus the page cache, in uint64 arithmetic;
- a CPU percentage term built from the CPU and system-time deltas between two
  samples.

Each figure is stored under a key built from the container's name with its
first '/' removed. The model also covers the graph schema the plugin declares
and the default metric key prefix.

Modules:

- `UInt` (`uint64.dfy`): Go's `uint32`/`uint64` and wrap-around addition and
  subtraction modulo 2^64.
- `DockerTypes` (`docker_types.dfy`): the decoded parts of the Docker Engine
  API v1.39 responses the plugin reads, and Go's zero-default map read.
- `Wrappers` (`wrappers.dfy`): the `Result` type that stands for Go's
  `(value, error)` pairs.
- `Usage` (`usage.dfy`): `getStats` once the response is decoded.
- `Names` (`names.dfy`): `strings.Replace(name, "/", "", 1)` and the two metric
  keys.
- `Collector` (`collector.dfy`):
  - `getContainers` is an imperative loop (`GetContainers`), proved against the
    function `Projected`.
  - `FetchMetrics` is an imperative loop that fills a local map (`FetchMetrics`),
    proved against the function `Fetched`. That function is defined by
    `GatheredStats` (first error wins) and `Collected` (writes in list order,
    last writer wins).
- `Plugin` (`plugin.dfy`): `MetricKeyPrefix`, `strings.Title` and
  `GraphDefinition`, and the agreement between the declared graphs and the
  keys `FetchMetrics` writes.

The Docker daemon is not called. Its answers are inputs:

- the container listing is a `Result<seq<Container>>`, either the decoded
  listing or the read/decode error;
- the stats are a function `statsFor` from a container id to a
  `Result<Stats>`, since the request URL depends only on the id.

Float64 values are kept symbolic (`F64`). `CpuPercent(d, s, n)` stands for
`float64(d) / float64(s) * float64(n) * 100.0`, and `OfUint64(n)` for
`float64(n)`. This lets the model state exactly which integers each figure is
built from, without modelling IEEE arithmetic.

Two behaviours of the code are kept as written:

- `memory.usage - stats["cache"]` is an unsigned subtraction. When the cache
  exceeds the usage it wraps around to a huge value (`UsedMemory`,
  `CacheAboveUsageWraps`).
- A zero system-time delta gets no guard. The CPU term is then
  `CpuPercent(d, 0, n)`, which is NaN or ±Inf in Go.

In a graph name, "#" stands for one key segment: a non-empty run of ASCII
letters, digits, '-' and '_'. This is the host framework's wildcard rule. A
sanitised container name with a '.' therefore writes keys that no declared
graph matches (`FetchedKeysDeclared`, `DottedNameHasNoGraph`).

## Model

| member | source | states |
|---|---|---|
| UInt.WrappingAdd | main.go:67 | Go uint64 addition: the exact sum when it fits below 2^64, otherwise the sum minus 2^64 |
| UInt.WrappingSub | main.go:67 | Go uint64 subtraction: adding `b` back gives `a`; exact when `b <= a`; `a - b + 2^64` when `a < b` |
| UInt.WrappingSubUnique | main.go:71-72 | subtraction is the only inverse of addition: any `r` with `r + b == a` (mod 2^64) equals `a - b` |
| UInt.AddThenSub | main.go:71-72 | `(a + b) - b == a` in uint64 arithmetic, wrap-around included |
| DockerTypes.Lookup | main.go:67 | reading a key of a Go map gives the stored value, or 0 when the key is absent |
| Usage.UsedMemory | main.go:67 | memory in use plus the cache gives the usage (mod 2^64); equals the usage when there is no "cache" key; exact difference when the cache fits; wraps to `usage + 2^64 - cache` otherwise |
| Usage.CpuDelta | main.go:71 | the container's CPU delta added to the previous total gives the current total; exact difference when the counter did not go back |
| Usage.SystemCpuDelta | main.go:72 | the same for the host's system time |
| Usage.GetStats | main.go:53-81 | fails exactly when reading/decoding failed, with that error; otherwise the record carries the container's id and name, `float64(usedMemory)` and the CPU term over the two deltas and the online CPU count |
| Usage.CacheAboveUsageWraps | main.go:67 | usage 0 with cache 1 gives 2^64 - 1 bytes in use, not -1 |
| Names.IndexOfSpec | main.go:119 | the search `strings.Replace` uses finds -1 exactly when '/' is absent, else the first position holding it |
| Names.IndexOfFirst | main.go:119 | a position holding the character with none before it is the one the search returns |
| Names.SanitizeLength | main.go:119 | a name without '/' is unchanged; with one it is exactly one character shorter |
| Names.SanitizeRemovesOneSlash | main.go:119 | what is removed is exactly one '/': the result's characters plus one '/' are the name's characters |
| Names.SanitizeKeepsLaterSlashes | main.go:119 | only the first '/' goes, wherever it is: `s + "/" + t` becomes `s + t` when `s` has no '/', even if `t` has more |
| Names.SanitizeLeadingSlash | main.go:119 | Docker's leading '/' is the one removed: "/web" becomes "web" |
| Names.Sanitize | main.go:119 | `strings.Replace(name, "/", "", 1)`: find the first '/' and splice it out (no contract of its own; its properties are the `Sanitize` lemmas) |
| Names.MemoryKey | main.go:120 | the memory key `"memory." + name + ".Usage"` (no contract of its own) |
| Names.CpuKey | main.go:121 | the CPU key `"cpu." + name + ".Usage"` (no contract of its own) |
| Names.KeysDistinguishNames | main.go:120-121 | two memory keys (or two CPU keys) are equal iff their names are; a memory key is never a CPU key |
| Collector.Projected | main.go:35-43 | one IdName per descriptor, same length and order, carrying the id and the first name |
| Collector.GetContainers | main.go:23-44 | a failed read or decode is returned unchanged; otherwise the appending loop yields exactly `Projected` of the listing |
| Collector.GatheredStats | main.go:114-118 | each container's stats in order, or the first error (no contract of its own; see the lemmas below) |
| Collector.GatheredStatsOk | main.go:114-118 | fetching every container's stats succeeds iff every container's stats do; the records then match the containers one to one, in order |
| Collector.GatheredStatsFirstError | main.go:115-118 | a failure carries the error of the first container whose stats failed, and every earlier container succeeded |
| Collector.GatheredStatsPrefixErr | main.go:116-118 | once a prefix fails, later containers do not change the outcome: the loop returns at the first error |
| Collector.GatheredStatsStep | main.go:114-118 | one more container either ends the loop with its error or appends its record |
| Collector.Collected | main.go:119-121 | the map the loop writes, record by record in list order (no contract of its own; see the lemmas below) |
| Collector.Fetched | main.go:108-124 | the whole cycle: listing error, first stats error, or the collected map (no contract of its own; see the lemmas below) |
| Collector.CollectedSnoc | main.go:119-121 | one more record writes its memory and CPU figures under its sanitised keys, over the map so far |
| Collector.FetchMetrics | main.go:108-124 | the loop's result is the specification `Fetched`: the listing's error, or the first stats error, or the map of all records written in order |
| Collector.CollectedKeys | main.go:113-122 | the map's keys are exactly the memory and CPU keys of the records' sanitised names |
| Collector.CollectedStep | main.go:120-121 | writing one record leaves every other key, and its value, as it was |
| Collector.CollectedLastWins | main.go:114-122 | a name's two keys hold the figures of the last record with that sanitised name |
| Collector.CollectedSizeBound | main.go:113-122 | at most two keys per record |
| Collector.CollectedAddsFresh | main.go:120-121 | a record with a new sanitised name adds exactly two keys |
| Collector.CollectedSizeDistinct | main.go:113-122 | exactly two keys per record when no two records share a sanitised name |
| Collector.FetchedRecords | main.go:113-123 | a successful cycle is the map of one record per listed container, in order, each computed from that container's stats |
| Collector.FetchedAllOrNothing | main.go:109-118 | a cycle fails iff the listing failed or some container's stats failed; it then reports the listing's error or the first failing container's error, and no partial map |
| Collector.FetchedEmpty | main.go:113-123 | an empty listing gives an empty map and no error |
| Collector.FetchedKeys | main.go:113-123 | a successful cycle's keys are exactly the memory and CPU keys of the listed containers' sanitised names |
| Collector.FetchedSize | main.go:113-123 | a successful cycle has at most two keys per container, and exactly two per container when the sanitised names are distinct |
| Collector.FetchedLastWins | main.go:114-122 | on a name collision, each key holds the memory in use and CPU term of the last container with that name |
| Plugin.MetricKeyPrefix | main.go:126-131 | the result is "mydocker" iff the configured prefix is empty or "mydocker"; a non-empty prefix is used as is; never empty |
| Plugin.IsSeparator | main.go:89 | the separator test inside `strings.Title`: ASCII other than letters, digits and '_', or Unicode white space (no contract of its own) |
| Plugin.ToTitle | main.go:89 | a lower-case ASCII letter becomes its upper-case form (code minus 32); any other character is unchanged |
| Plugin.ToTitleKeepsClass | main.go:89 | title case never changes whether a character is a word separator, and is idempotent |
| Plugin.TitleAfter | main.go:89 | same length; each character is title-cased exactly when the character before it is a separator |
| Plugin.Title | main.go:89 | same length; a character is title-cased exactly when it is first or follows a separator |
| Plugin.TitleIdempotent | main.go:89 | applying `strings.Title` twice gives the same as applying it once |
| Plugin.TitleCapitalisesWord | main.go:89 | a lower-case word such as the default "mydocker" only gets its first letter capitalised ("Mydocker") |
| Plugin.GraphDefinition | main.go:88-106 | exactly the graphs "cpu.#" (percentage) and "memory.#" (integer), labelled title-cased prefix + " CPU" / " Memory", each with one stacked "Usage" series |
| Plugin.InstantiateGivesKeys | main.go:91-102 | filling the "#" of "cpu.#"/"memory.#" with a name and adding the series name gives the keys the collector writes |
| Plugin.DeclaredKeysOfUsageGraphs | main.go:90-105 | a schema of exactly the two graphs, each with the single series "Usage", stands (over every series of every graph) for exactly the memory and CPU keys of the names that are one key segment |
| Plugin.DeclaredWithinMetricKeys | main.go:90-105 | for such a schema, every key declared by any series of any graph is a key the collector writes for a one-segment name |
| Plugin.MetricKeysWithinDeclared | main.go:90-105 | for such a schema, every key the collector writes for a one-segment name is declared |
| Plugin.DeclaredKeysAreMetricKeys | main.go:88-106 | `GraphDefinition`'s graphs stand for exactly the memory and CPU keys of the one-segment names of any set |
| Plugin.MetricKeysUnion | main.go:120-121 | the keys of a union of names are the union of their keys |
| Plugin.MetricKeysBySegments | main.go:120-121 | the keys of a set of names are those of its one-segment names plus those of the rest; only the first part when every name is one segment |
| Plugin.FetchedKeysDeclared | main.go:108-124 | a successful cycle's keys are the declared graphs filled with the containers' sanitised names, plus the keys of names that are not one segment, which no graph matches; exactly the declared keys when every name is one segment |
| Plugin.DottedNameHasNoGraph | main.go:91-105 | a container named "app.v1" writes "cpu.app.v1.Usage" and "memory.app.v1.Usage", and no declared graph stands for either |

## Left out

- The HTTP client over the Docker unix socket and `io.ReadAll` are not modelled. Their outcome is the listing input and the `statsFor` input.
- The ignored error of `httpc.Get` is not modelled. A failed request gives a nil response, and `response.Body` then panics in Go.
- `json.Unmarshal` is not modelled; decoded values or a decode error are inputs.
- `getStats` never checks the HTTP status. A daemon error reply, such as a 404 for a container that stopped after the listing, decodes without error into zero counters. The cycle then reports memory 0 and the CPU term `CpuPercent(0, 0, n)` (NaN) instead of failing. The model allows this as `statsFor` answering `Ok` with an all-zero `Stats`, so "failed" in `FetchedAllOrNothing` means a read or decode error only.
- The host framework's matching of "#" against a key segment is written out from its documented rule (`IsSegment`); the framework's source is not part of this model.
- A stats body of `null` is not modelled. It leaves the Go pointer nil, and the field reads then panic.
- Collector.AllNamed: every descriptor having a non-empty `Names` list is a precondition, because `Names[0]` panics in Go otherwise.
- Float64 arithmetic is not modelled: the CPU percentage formula and `float64(uint64)` rounding are kept symbolic in `F64`. The NaN/Inf of a zero system delta is therefore represented but not evaluated.
- Plugin.ToTitle: exact on ASCII; every non-ASCII character is left unchanged, whereas Go's `unicode.ToTitle` maps non-ASCII letters.
- Plugin.IsSeparator: non-ASCII letters and digits count as non-separators. This holds only through the Unicode White_Space list, which the model writes out in place of Go's Unicode tables.
- Go strings are byte strings and the model uses `seq<char>`. Only the ASCII '/' and the ASCII keys matter, so this affects no stated property except `Title` on non-ASCII input.
- `main`, the command-line flags, the socket dialer and `mp.NewMackerelPlugin(...).Run()` are outside the collector and not modelled.
- The `Scale` and `Diff` options of `mp.Metrics` are not modelled beyond `Diff` being false.
- The plugin's `http.Client` field is not modelled. Its responses are the inputs above.
- Calling `FetchMetrics` twice with the same daemon answers gives the same map: `FetchMetrics` is specified by the function `Fetched`. Daemon answers that change between calls are not modelled.

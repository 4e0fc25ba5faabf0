/** The plugin value the host framework drives: its metric key prefix and the
    graph declarations derived from it. */
module Plugin {
  import opened Wrappers
  import opened DockerTypes
  import opened Names
  import opened Collector

  /** The plugin's configuration. The HTTP client it also carries is replaced,
      in this model, by the responses it would deliver. */
  datatype MyDockerPlugin = MyDockerPlugin(prefix: string)

  const DEFAULT_PREFIX: string := "mydocker"

  /** The prefix in use: the configured one, or "mydocker" when none is set.
      The plugin is a value, so the caller's configuration is never changed. */
  function MetricKeyPrefix(n: MyDockerPlugin): (r: string)
    ensures r == DEFAULT_PREFIX <==> n.prefix == "" || n.prefix == DEFAULT_PREFIX
    ensures n.prefix != "" ==> r == n.prefix
    ensures r != ""
  {
    if n.prefix == "" then DEFAULT_PREFIX else n.prefix
  }

  // strings.Title

  /** Go's isSeparator: in ASCII, anything but a letter, a digit or '_';
      beyond ASCII, a Unicode white-space character (no such character is a
      letter or a digit). */
  predicate IsSeparator(c: char)
  {
    if c as int <= 0x7F then
      !(('0' <= c <= '9') || ('a' <= c <= 'z') || ('A' <= c <= 'Z') || c == '_')
    else
      var u := c as int;
      u == 0x85 || u == 0xA0 || u == 0x1680 || (0x2000 <= u <= 0x200A)
      || u == 0x2028 || u == 0x2029 || u == 0x202F || u == 0x205F || u == 0x3000
  }

  /** unicode.ToTitle on ASCII: a lower-case letter becomes upper case;
      everything else is left alone. */
  function ToTitle(c: char): (r: char)
    ensures 'a' <= c <= 'z' ==> 'A' <= r <= 'Z' && r as int == c as int - 32
    ensures !('a' <= c <= 'z') ==> r == c
  {
    if 'a' <= c <= 'z' then (c as int - 32) as char else c
  }

  /** Title case keeps a character's separator status and is idempotent. */
  lemma ToTitleKeepsClass(c: char)
    ensures IsSeparator(ToTitle(c)) == IsSeparator(c)
    ensures ToTitle(ToTitle(c)) == ToTitle(c)
  {
  }

  /** strings.Title's scan: every character that follows a separator is put
      in title case; `prev` is the character before `s`. */
  function TitleAfter(prev: char, s: string): (r: string)
    ensures |r| == |s|
    ensures forall i :: 0 <= i < |s| ==>
              r[i] == if IsSeparator(if i == 0 then prev else s[i - 1]) then ToTitle(s[i]) else s[i]
    decreases |s|
  {
    if s == [] then []
    else [if IsSeparator(prev) then ToTitle(s[0]) else s[0]] + TitleAfter(s[0], s[1..])
  }

  /** strings.Title: the start of the string counts as following a space. */
  function Title(s: string): (r: string)
    ensures |r| == |s|
    ensures forall i :: 0 <= i < |s| ==>
              r[i] == if i == 0 || IsSeparator(s[i - 1]) then ToTitle(s[i]) else s[i]
  {
    TitleAfter(' ', s)
  }

  /** Title case changes no character's separator status, so applying it
      twice gives what applying it once gives. */
  lemma TitleIdempotent(s: string)
    ensures Title(Title(s)) == Title(s)
  {
    var t := Title(s);
    var tt := Title(t);
    assert |tt| == |t| == |s|;
    forall i | 0 <= i < |s| ensures tt[i] == t[i] {
      ToTitleKeepsClass(s[i]);
      if i > 0 {
        var p := s[i - 1];
        ToTitleKeepsClass(p);
        assert t[i - 1] == if i - 1 == 0 || IsSeparator(s[i - 2]) then ToTitle(p) else p;
      }
    }
  }

  // GraphDefinition

  /** One series of a graph (mp.Metrics). */
  datatype Metrics = Metrics(name: string, labelText: string, diff: bool, stacked: bool)

  /** One graph (mp.Graphs): a label, a display unit and its series. */
  datatype Graphs = Graphs(labelText: string, unit: string, metrics: seq<Metrics>)

  const UNIT_PERCENTAGE: string := "percentage"
  const UNIT_INTEGER: string := "integer"

  /** The single stacked series both graphs declare. */
  const USAGE_SERIES: Metrics := Metrics("Usage", "Usage", false, true)

  /** The graph schema: a CPU graph in percent and a memory graph in
      integers, each labelled with the title-cased prefix and holding one
      stacked "Usage" series; "#" in a graph name stands for one key segment
      (see `IsSegment`). */
  function GraphDefinition(n: MyDockerPlugin): (g: map<string, Graphs>)
    ensures g.Keys == {"cpu.#", "memory.#"}
    ensures g["cpu.#"] == Graphs(Title(MetricKeyPrefix(n)) + " CPU", UNIT_PERCENTAGE, [USAGE_SERIES])
    ensures g["memory.#"] == Graphs(Title(MetricKeyPrefix(n)) + " Memory", UNIT_INTEGER, [USAGE_SERIES])
  {
    var labelPrefix := Title(MetricKeyPrefix(n));
    map[
      "cpu.#" := Graphs(labelPrefix + " CPU", UNIT_PERCENTAGE, [USAGE_SERIES]),
      "memory.#" := Graphs(labelPrefix + " Memory", UNIT_INTEGER, [USAGE_SERIES])
    ]
  }

  /** A word of lower-case letters comes out with only its first letter
      capitalised: the default prefix "mydocker" labels its graphs
      "Mydocker CPU" and "Mydocker Memory". */
  lemma TitleCapitalisesWord(w: string)
    requires |w| > 0 && forall i :: 0 <= i < |w| ==> 'a' <= w[i] <= 'z'
    ensures Title(w) == [ToTitle(w[0])] + w[1..]
  {
    var t := Title(w);
    forall i | 1 <= i < |w| ensures t[i] == w[i] {
      assert !IsSeparator(w[i - 1]);
    }
  }

  /** A character the host's "#" wildcard accepts: an ASCII letter, a digit,
      '-' or '_'. */
  predicate IsSegmentChar(c: char)
  {
    ('a' <= c <= 'z') || ('A' <= c <= 'Z') || ('0' <= c <= '9') || c == '-' || c == '_'
  }

  /** A name the "#" of a graph name can stand for: one non-empty run of
      segment characters (so no '.', which separates the segments of a key). */
  predicate IsSegment(s: string)
  {
    |s| > 0 && forall i :: 0 <= i < |s| ==> IsSegmentChar(s[i])
  }

  /** The names of a set that a "#" can stand for. */
  function Segments(names: set<string>): set<string>
  {
    set s | s in names && IsSegment(s)
  }

  /** The names of a set that no "#" can stand for. */
  function NonSegments(names: set<string>): set<string>
  {
    set s | s in names && !IsSegment(s)
  }

  /** The metric name a graph and a container give: the graph name with its
      trailing "#" replaced by the container, then "." and the series name. */
  function Instantiate(graph: string, name: string, series: string): string
    requires |graph| > 0
  {
    graph[..|graph| - 1] + name + "." + series
  }

  /** The keys a graph declaration stands for, over a set of container names:
      every series of every graph, with the "#" filled only with names that
      are a single key segment. */
  function DeclaredKeys(g: map<string, Graphs>, names: set<string>): set<string>
  {
    set graph, i, s | graph in g && |graph| > 0 && 0 <= i < |g[graph].metrics| && s in names && IsSegment(s)
      :: Instantiate(graph, s, g[graph].metrics[i].name)
  }

  /** "cpu.#" and "memory.#" with the "Usage" series name exactly the keys
      the collector writes. */
  lemma InstantiateGivesKeys(s: string)
    ensures Instantiate("cpu.#", s, "Usage") == CpuKey(s)
    ensures Instantiate("memory.#", s, "Usage") == MemoryKey(s)
  {
  }

  /** A schema of the two graphs, each with the single series "Usage", stands
      for exactly the memory and CPU keys of the names that are one segment. */
  lemma DeclaredKeysOfUsageGraphs(g: map<string, Graphs>, names: set<string>)
    requires g.Keys == {"cpu.#", "memory.#"}
    requires |g["cpu.#"].metrics| == 1 && g["cpu.#"].metrics[0].name == "Usage"
    requires |g["memory.#"].metrics| == 1 && g["memory.#"].metrics[0].name == "Usage"
    ensures DeclaredKeys(g, names) == MetricKeys(Segments(names))
  {
    DeclaredWithinMetricKeys(g, names);
    MetricKeysWithinDeclared(g, names);
  }

  lemma DeclaredWithinMetricKeys(g: map<string, Graphs>, names: set<string>)
    requires g.Keys == {"cpu.#", "memory.#"}
    requires |g["cpu.#"].metrics| == 1 && g["cpu.#"].metrics[0].name == "Usage"
    requires |g["memory.#"].metrics| == 1 && g["memory.#"].metrics[0].name == "Usage"
    ensures DeclaredKeys(g, names) <= MetricKeys(Segments(names))
  {
    forall k | k in DeclaredKeys(g, names) ensures k in MetricKeys(Segments(names)) {
      var graph, i, s :| graph in g && |graph| > 0 && 0 <= i < |g[graph].metrics| && s in names && IsSegment(s)
                         && k == Instantiate(graph, s, g[graph].metrics[i].name);
      assert i == 0;
      assert s in Segments(names);
      InstantiateGivesKeys(s);
    }
  }

  lemma MetricKeysWithinDeclared(g: map<string, Graphs>, names: set<string>)
    requires g.Keys == {"cpu.#", "memory.#"}
    requires |g["cpu.#"].metrics| == 1 && g["cpu.#"].metrics[0].name == "Usage"
    requires |g["memory.#"].metrics| == 1 && g["memory.#"].metrics[0].name == "Usage"
    ensures MetricKeys(Segments(names)) <= DeclaredKeys(g, names)
  {
    var declared := DeclaredKeys(g, names);
    var segments := Segments(names);
    assert "memory.#" in g && "cpu.#" in g;
    forall k | k in MetricKeys(segments) ensures k in declared {
      if k in (set s | s in segments :: MemoryKey(s)) {
        var s :| s in segments && k == MemoryKey(s);
        InstantiateGivesKeys(s);
        assert k == Instantiate("memory.#", s, g["memory.#"].metrics[0].name);
      } else {
        var s :| s in segments && k == CpuKey(s);
        InstantiateGivesKeys(s);
        assert k == Instantiate("cpu.#", s, g["cpu.#"].metrics[0].name);
      }
    }
  }

  /** Instantiating the graphs GraphDefinition declares with a set of names
      gives exactly the memory and CPU keys of those names that are a single
      key segment. */
  lemma DeclaredKeysAreMetricKeys(n: MyDockerPlugin, names: set<string>)
    ensures DeclaredKeys(GraphDefinition(n), names) == MetricKeys(Segments(names))
  {
    DeclaredKeysOfUsageGraphs(GraphDefinition(n), names);
  }

  /** Splitting the names splits their keys. */
  lemma MetricKeysUnion(a: set<string>, b: set<string>)
    ensures MetricKeys(a + b) == MetricKeys(a) + MetricKeys(b)
  {
  }

  /** A set of names splits into those that are one segment and those that
      are not, and so do their keys; with no name of the second kind, the
      second part is empty. */
  lemma MetricKeysBySegments(names: set<string>)
    ensures MetricKeys(names) == MetricKeys(Segments(names)) + MetricKeys(NonSegments(names))
    ensures (forall s :: s in names ==> IsSegment(s)) ==> MetricKeys(names) == MetricKeys(Segments(names))
  {
  }

  /** The schema and the fetched figures: a successful cycle's keys are the
      declared graphs instantiated with the containers' sanitised names, plus
      the keys of the names that are not a single key segment (a name with a
      '.', say), which no declared graph matches. When every sanitised name is
      one segment, every figure belongs to a graph and no graph is left empty. */
  lemma FetchedKeysDeclared(n: MyDockerPlugin, descriptors: seq<Container>, statsFor: string -> Result<Stats>)
    requires AllNamed(descriptors) && Fetched(Ok(descriptors), statsFor).Ok?
    ensures Fetched(Ok(descriptors), statsFor).value.Keys
              == DeclaredKeys(GraphDefinition(n), ContainerNames(descriptors))
                 + MetricKeys(NonSegments(ContainerNames(descriptors)))
    ensures (forall s :: s in ContainerNames(descriptors) ==> IsSegment(s)) ==>
              Fetched(Ok(descriptors), statsFor).value.Keys == DeclaredKeys(GraphDefinition(n), ContainerNames(descriptors))
  {
    var names := ContainerNames(descriptors);
    FetchedKeys(descriptors, statsFor);
    DeclaredKeysAreMetricKeys(n, names);
    MetricKeysBySegments(names);
  }

  /** A container named "app.v1" writes "cpu.app.v1.Usage", but no graph
      of the schema stands for that key. */
  lemma DottedNameHasNoGraph(n: MyDockerPlugin)
    ensures CpuKey("app.v1") !in DeclaredKeys(GraphDefinition(n), {"app.v1"})
    ensures MemoryKey("app.v1") !in DeclaredKeys(GraphDefinition(n), {"app.v1"})
  {
    assert "app.v1"[3] == '.';
    assert !IsSegment("app.v1");
    assert Segments({"app.v1"}) == {};
    DeclaredKeysAreMetricKeys(n, {"app.v1"});
    assert MetricKeys({}) == {};
  }
}

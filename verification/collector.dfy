/** The collection cycle: listing the containers (getContainers) and filling
    the metric map container by container (FetchMetrics). */
module Collector {
  import opened Wrappers
  import opened DockerTypes
  import opened Usage
  import opened Names

  /** Every descriptor has at least one name (`Names[0]` is read
      unconditionally; an empty list would make the Go code panic). */
  predicate AllNamed(descriptors: seq<Container>)
  {
    forall i :: 0 <= i < |descriptors| ==> |descriptors[i].names| > 0
  }

  /** The projection getContainers performs, built by appending in list order. */
  function Projected(descriptors: seq<Container>): (cs: seq<IdName>)
    requires AllNamed(descriptors)
    ensures |cs| == |descriptors|
    ensures forall i :: 0 <= i < |cs| ==> cs[i] == IdName(descriptors[i].id, descriptors[i].names[0])
  {
    if descriptors == [] then []
    else
      var last := descriptors[|descriptors| - 1];
      Projected(descriptors[..|descriptors| - 1]) + [IdName(last.id, last.names[0])]
  }

  /** getContainers after the listing request: a failed read or decode is
      passed on; otherwise one IdName per descriptor, in order. */
  method GetContainers(decoded: Result<seq<Container>>) returns (r: Result<seq<IdName>>)
    requires decoded.Ok? ==> AllNamed(decoded.value)
    ensures decoded.Err? ==> r == Err(decoded.error)
    ensures decoded.Ok? ==> r == Ok(Projected(decoded.value))
  {
    if decoded.Err? {
      return Err(decoded.error);
    }
    var jsonObj := decoded.value;
    var containers: seq<IdName> := [];
    for k := 0 to |jsonObj|
      invariant containers == Projected(jsonObj[..k])
    {
      assert jsonObj[..k + 1][..k] == jsonObj[..k];
      containers := containers + [IdName(jsonObj[k].id, jsonObj[k].names[0])];
    }
    assert jsonObj[..|jsonObj|] == jsonObj;
    return Ok(containers);
  }

  /** The stats of every container in order, or the error of the first
      container whose stats could not be read or decoded (the loop of
      FetchMetrics with the map left aside). */
  function GatheredStats(containers: seq<IdName>, statsFor: string -> Result<Stats>): Result<seq<Resource>>
  {
    if containers == [] then Ok([])
    else
      var n := |containers| - 1;
      match GatheredStats(containers[..n], statsFor)
      case Err(e) => Err(e)
      case Ok(rs) =>
        match GetStats(containers[n], statsFor(containers[n].id))
        case Err(e) => Err(e)
        case Ok(res) => Ok(rs + [res])
  }

  /** Gathering succeeds exactly when every container's stats do, and then
      yields each container's record, in order. */
  lemma {:induction false} GatheredStatsOk(containers: seq<IdName>, statsFor: string -> Result<Stats>)
    ensures GatheredStats(containers, statsFor).Ok? <==>
              forall i :: 0 <= i < |containers| ==> statsFor(containers[i].id).Ok?
    ensures GatheredStats(containers, statsFor).Ok? ==>
              && |GatheredStats(containers, statsFor).value| == |containers|
              && forall i :: 0 <= i < |containers| ==>
                   Ok(GatheredStats(containers, statsFor).value[i]) == GetStats(containers[i], statsFor(containers[i].id))
  {
    if containers != [] {
      var n := |containers| - 1;
      var init := containers[..n];
      GatheredStatsOk(init, statsFor);
      assert forall i :: 0 <= i < n ==> init[i] == containers[i];
      var r := GatheredStats(containers, statsFor);
      if GatheredStats(init, statsFor).Err? {
        assert r.Err?;
        var j :| 0 <= j < n && statsFor(init[j].id).Err?;
        assert statsFor(containers[j].id).Err?;
      } else if r.Ok? {
        var rs := GatheredStats(init, statsFor).value;
        assert r.value == rs + [r.value[n]];
      } else {
        assert statsFor(containers[n].id).Err?;
      }
    }
  }

  /** A failed gathering reports the error of the first container whose
      stats failed. */
  lemma {:induction false} GatheredStatsFirstError(containers: seq<IdName>, statsFor: string -> Result<Stats>)
    requires GatheredStats(containers, statsFor).Err?
    ensures exists i :: 0 <= i < |containers| && statsFor(containers[i].id) == Err(GatheredStats(containers, statsFor).error)
                        && forall k :: 0 <= k < i ==> statsFor(containers[k].id).Ok?
  {
    var n := |containers| - 1;
    var init := containers[..n];
    var e := GatheredStats(containers, statsFor).error;
    assert forall i :: 0 <= i < n ==> init[i] == containers[i];
    if GatheredStats(init, statsFor).Err? {
      GatheredStatsFirstError(init, statsFor);
      var i :| 0 <= i < n && statsFor(init[i].id) == Err(e)
               && forall k :: 0 <= k < i ==> statsFor(init[k].id).Ok?;
      assert statsFor(containers[i].id) == Err(e);
    } else {
      GatheredStatsOk(init, statsFor);
      assert statsFor(containers[n].id) == Err(e);
    }
  }

  /** Once some prefix of the list has failed, the whole list fails with the
      same error: later containers are never consulted. */
  lemma {:induction false} GatheredStatsPrefixErr(containers: seq<IdName>, n: nat, statsFor: string -> Result<Stats>)
    requires n <= |containers|
    requires GatheredStats(containers[..n], statsFor).Err?
    ensures GatheredStats(containers, statsFor) == GatheredStats(containers[..n], statsFor)
  {
    if n < |containers| {
      var m := |containers| - 1;
      assert containers[..m][..n] == containers[..n];
      GatheredStatsPrefixErr(containers[..m], n, statsFor);
    } else {
      assert containers[..n] == containers;
    }
  }

  /** One more container whose stats succeed extends the gathered records by
      its own record. */
  lemma GatheredStatsStep(containers: seq<IdName>, k: nat, statsFor: string -> Result<Stats>, done: seq<Resource>)
    requires k < |containers|
    requires GatheredStats(containers[..k], statsFor) == Ok(done)
    ensures GatheredStats(containers[..k + 1], statsFor)
              == match GetStats(containers[k], statsFor(containers[k].id))
                 case Err(e) => Err(e)
                 case Ok(res) => Ok(done + [res])
  {
    assert containers[..k + 1][..k] == containers[..k];
  }

  /** The loop body of FetchMetrics applied to every record in order: each
      record writes its two keys, overwriting what was there. */
  function Collected(rs: seq<Resource>): map<string, F64>
  {
    if rs == [] then map[]
    else
      var res := rs[|rs| - 1];
      var name := Sanitize(res.containerName);
      Collected(rs[..|rs| - 1])[MemoryKey(name) := res.memUsage][CpuKey(name) := res.cpuUsage]
  }

  /** Collecting one more record writes its two keys over the map so far. */
  lemma CollectedSnoc(rs: seq<Resource>, res: Resource)
    ensures Collected(rs + [res])
              == Collected(rs)[MemoryKey(Sanitize(res.containerName)) := res.memUsage]
                              [CpuKey(Sanitize(res.containerName)) := res.cpuUsage]
  {
    assert (rs + [res])[..|rs|] == rs;
  }

  /** The result FetchMetrics is meant to produce for a listing and the
      daemon's per-id stats answers. */
  function Fetched(listing: Result<seq<Container>>, statsFor: string -> Result<Stats>): Result<map<string, F64>>
    requires listing.Ok? ==> AllNamed(listing.value)
  {
    match listing
    case Err(e) => Err(e)
    case Ok(descriptors) =>
      match GatheredStats(Projected(descriptors), statsFor)
      case Err(e) => Err(e)
      case Ok(rs) => Ok(Collected(rs))
  }

  /** FetchMetrics: list the containers, then for each fetch its stats and
      store its memory and CPU figures under keys built from its sanitised
      name; the first error abandons the map. */
  method FetchMetrics(listing: Result<seq<Container>>, statsFor: string -> Result<Stats>)
    returns (r: Result<map<string, F64>>)
    requires listing.Ok? ==> AllNamed(listing.value)
    ensures r == Fetched(listing, statsFor)
  {
    var containers := GetContainers(listing);
    if containers.Err? {
      return Err(containers.error);
    }
    var cs := containers.value;
    var kv: map<string, F64> := map[];
    ghost var done: seq<Resource> := [];
    for k := 0 to |cs|
      invariant GatheredStats(cs[..k], statsFor) == Ok(done)
      invariant kv == Collected(done)
    {
      var res := GetStats(cs[k], statsFor(cs[k].id));
      GatheredStatsStep(cs, k, statsFor, done);
      if res.Err? {
        GatheredStatsPrefixErr(cs, k + 1, statsFor);
        return Err(res.error);
      }
      var name := Sanitize(res.value.containerName);
      kv := kv[MemoryKey(name) := res.value.memUsage];
      kv := kv[CpuKey(name) := res.value.cpuUsage];
      CollectedSnoc(done, res.value);
      done := done + [res.value];
    }
    assert cs[..|cs|] == cs;
    return Ok(kv);
  }

  // Properties of the collected map

  /** The sanitised names of a run of records. */
  function SanitizedNames(rs: seq<Resource>): set<string>
  {
    set i | 0 <= i < |rs| :: Sanitize(rs[i].containerName)
  }

  /** The two keys of every name in a set. */
  function MetricKeys(names: set<string>): set<string>
  {
    (set s | s in names :: MemoryKey(s)) + (set s | s in names :: CpuKey(s))
  }

  /** Adding a name adds exactly its two keys. */
  lemma MetricKeysInsert(names: set<string>, s: string)
    ensures MetricKeys(names + {s}) == MetricKeys(names) + {MemoryKey(s), CpuKey(s)}
  {
    var mem := set t | t in names + {s} :: MemoryKey(t);
    var cpu := set t | t in names + {s} :: CpuKey(t);
    assert mem == (set t | t in names :: MemoryKey(t)) + {MemoryKey(s)};
    assert cpu == (set t | t in names :: CpuKey(t)) + {CpuKey(s)};
  }

  /** A name's keys are among the keys of a set of names only when the name
      itself is in the set. */
  lemma MetricKeysOfAbsentName(names: set<string>, name: string)
    requires name !in names
    ensures MemoryKey(name) !in MetricKeys(names) && CpuKey(name) !in MetricKeys(names)
  {
    forall s | s in names
      ensures MemoryKey(name) != MemoryKey(s) && MemoryKey(name) != CpuKey(s)
      ensures CpuKey(name) != CpuKey(s) && CpuKey(name) != MemoryKey(s)
    {
      KeysDistinguishNames(name, s);
      KeysDistinguishNames(s, name);
    }
  }

  /** A record list grown by one has one more name (possibly one it had). */
  lemma SanitizedNamesSnoc(rs: seq<Resource>, res: Resource)
    ensures SanitizedNames(rs + [res]) == SanitizedNames(rs) + {Sanitize(res.containerName)}
  {
    var all := rs + [res];
    forall s | s in SanitizedNames(all) ensures s in SanitizedNames(rs) + {Sanitize(res.containerName)} {
      var i :| 0 <= i < |all| && s == Sanitize(all[i].containerName);
      if i < |rs| { assert all[i] == rs[i]; }
    }
    forall s | s in SanitizedNames(rs) ensures s in SanitizedNames(all) {
      var i :| 0 <= i < |rs| && s == Sanitize(rs[i].containerName);
      assert all[i] == rs[i];
    }
    assert all[|rs|] == res;
  }

  /** No two records share a sanitised name. */
  predicate DistinctNames(rs: seq<Resource>)
  {
    forall i, j :: 0 <= i < j < |rs| ==> Sanitize(rs[i].containerName) != Sanitize(rs[j].containerName)
  }

  /** The map holds exactly the memory and CPU keys of the records' sanitised
      names, and no other key. */
  lemma {:induction false} CollectedKeys(rs: seq<Resource>)
    ensures Collected(rs).Keys == MetricKeys(SanitizedNames(rs))
  {
    if rs != [] {
      var n := |rs| - 1;
      var init := rs[..n];
      var name := Sanitize(rs[n].containerName);
      assert rs == init + [rs[n]];
      CollectedKeys(init);
      SanitizedNamesSnoc(init, rs[n]);
      MetricKeysInsert(SanitizedNames(init), name);
      assert Collected(rs).Keys == Collected(init).Keys + {MemoryKey(name), CpuKey(name)};
    }
  }

  /** Writing one more record touches its own two keys and no other. */
  lemma CollectedStep(rs: seq<Resource>, res: Resource, k: string)
    requires k != MemoryKey(Sanitize(res.containerName)) && k != CpuKey(Sanitize(res.containerName))
    ensures k in Collected(rs + [res]) <==> k in Collected(rs)
    ensures k in Collected(rs) ==> Collected(rs + [res])[k] == Collected(rs)[k]
  {
  }

  /** Last writer wins: the figures under a sanitised name's keys are those of
      the last record in list order that has that name. */
  lemma {:induction false} CollectedLastWins(rs: seq<Resource>, j: nat)
    requires j < |rs|
    requires forall k :: j < k < |rs| ==> Sanitize(rs[k].containerName) != Sanitize(rs[j].containerName)
    ensures MemoryKey(Sanitize(rs[j].containerName)) in Collected(rs)
    ensures Collected(rs)[MemoryKey(Sanitize(rs[j].containerName))] == rs[j].memUsage
    ensures CpuKey(Sanitize(rs[j].containerName)) in Collected(rs)
    ensures Collected(rs)[CpuKey(Sanitize(rs[j].containerName))] == rs[j].cpuUsage
  {
    var n := |rs| - 1;
    var s := Sanitize(rs[j].containerName);
    var init := rs[..n];
    assert rs == init + [rs[n]];
    if j < n {
      var other := Sanitize(rs[n].containerName);
      assert init[j] == rs[j];
      CollectedLastWins(init, j);
      KeysDistinguishNames(s, other);
      KeysDistinguishNames(other, s);
      CollectedStep(init, rs[n], MemoryKey(s));
      CollectedStep(init, rs[n], CpuKey(s));
    } else {
      KeysDistinguishNames(s, s);
    }
  }

  /** At most two keys per record: each record adds at most its own two. */
  lemma {:induction false} CollectedSizeBound(rs: seq<Resource>)
    ensures |Collected(rs)| <= 2 * |rs|
  {
    if rs != [] {
      var n := |rs| - 1;
      var name := Sanitize(rs[n].containerName);
      var m := Collected(rs[..n]);
      CollectedSizeBound(rs[..n]);
      var m1 := m[MemoryKey(name) := rs[n].memUsage];
      assert |m1| <= |m| + 1;
      assert |m1[CpuKey(name) := rs[n].cpuUsage]| <= |m1| + 1;
    }
  }

  /** Two writes under distinct new keys grow a map by two. */
  lemma UpdateTwoFresh(m: map<string, F64>, k1: string, v1: F64, k2: string, v2: F64)
    requires k1 !in m && k2 !in m && k1 != k2
    ensures |m[k1 := v1][k2 := v2]| == |m| + 2
  {
  }

  /** A last record whose sanitised name is new adds two keys to the map. */
  lemma CollectedAddsFresh(rs: seq<Resource>)
    requires rs != []
    requires Sanitize(rs[|rs| - 1].containerName) !in SanitizedNames(rs[..|rs| - 1])
    ensures |Collected(rs)| == |Collected(rs[..|rs| - 1])| + 2
  {
    var init := rs[..|rs| - 1];
    var res := rs[|rs| - 1];
    var name := Sanitize(res.containerName);
    var m := Collected(init);
    assert MemoryKey(name) !in m && CpuKey(name) !in m by {
      CollectedKeys(init);
      MetricKeysOfAbsentName(SanitizedNames(init), name);
    }
    KeysDistinguishNames(name, name);
    UpdateTwoFresh(m, MemoryKey(name), res.memUsage, CpuKey(name), res.cpuUsage);
  }

  /** Exactly two keys per record when the sanitised names are pairwise
      distinct: then no record overwrites another. */
  lemma {:induction false} CollectedSizeDistinct(rs: seq<Resource>)
    requires DistinctNames(rs)
    ensures |Collected(rs)| == 2 * |rs|
  {
    if rs != [] {
      var n := |rs| - 1;
      var init := rs[..n];
      var name := Sanitize(rs[n].containerName);
      assert DistinctNames(init) by {
        forall i, j | 0 <= i < j < |init|
          ensures Sanitize(init[i].containerName) != Sanitize(init[j].containerName)
        {
          assert init[i] == rs[i] && init[j] == rs[j];
        }
      }
      CollectedSizeDistinct(init);
      assert name !in SanitizedNames(init) by {
        forall i | 0 <= i < |init| ensures Sanitize(init[i].containerName) != name {
          assert init[i] == rs[i];
        }
      }
      CollectedAddsFresh(rs);
    }
  }

  // Properties of a whole collection cycle

  /** The sanitised names of the listed containers. */
  function ContainerNames(descriptors: seq<Container>): set<string>
    requires AllNamed(descriptors)
  {
    set i | 0 <= i < |descriptors| :: Sanitize(descriptors[i].names[0])
  }

  /** The records behind a successful cycle: one per listed container, in
      order, each carrying that container's name and its stats figures. */
  lemma FetchedRecords(descriptors: seq<Container>, statsFor: string -> Result<Stats>) returns (rs: seq<Resource>)
    requires AllNamed(descriptors) && Fetched(Ok(descriptors), statsFor).Ok?
    ensures Fetched(Ok(descriptors), statsFor) == Ok(Collected(rs))
    ensures |rs| == |descriptors|
    ensures forall i :: 0 <= i < |rs| ==> statsFor(descriptors[i].id).Ok?
    ensures forall i :: 0 <= i < |rs| ==>
              rs[i] == GetStats(IdName(descriptors[i].id, descriptors[i].names[0]), statsFor(descriptors[i].id)).value
  {
    var cs := Projected(descriptors);
    GatheredStatsOk(cs, statsFor);
    rs := GatheredStats(cs, statsFor).value;
    forall i | 0 <= i < |rs|
      ensures statsFor(descriptors[i].id).Ok?
      ensures rs[i] == GetStats(IdName(descriptors[i].id, descriptors[i].names[0]), statsFor(descriptors[i].id)).value
    {
      assert cs[i] == IdName(descriptors[i].id, descriptors[i].names[0]);
    }
  }

  /** All or nothing: a cycle fails exactly when the listing failed or the
      stats of some listed container failed, and then it reports the listing's
      error or that of the first container that failed. */
  lemma FetchedAllOrNothing(listing: Result<seq<Container>>, statsFor: string -> Result<Stats>)
    requires listing.Ok? ==> AllNamed(listing.value)
    ensures Fetched(listing, statsFor).Err? <==>
              listing.Err? || exists i :: 0 <= i < |listing.value| && statsFor(listing.value[i].id).Err?
    ensures listing.Err? ==> Fetched(listing, statsFor) == Err(listing.error)
    ensures listing.Ok? && Fetched(listing, statsFor).Err? ==>
              exists i :: 0 <= i < |listing.value| && statsFor(listing.value[i].id) == Err(Fetched(listing, statsFor).error)
                          && forall k :: 0 <= k < i ==> statsFor(listing.value[k].id).Ok?
  {
    if listing.Ok? {
      var ds := listing.value;
      var cs := Projected(ds);
      GatheredStatsOk(cs, statsFor);
      if GatheredStats(cs, statsFor).Err? {
        GatheredStatsFirstError(cs, statsFor);
      }
      assert forall i :: 0 <= i < |ds| ==> cs[i].id == ds[i].id;
    }
  }

  /** An empty listing gives an empty map and no error. */
  lemma FetchedEmpty(statsFor: string -> Result<Stats>)
    ensures Fetched(Ok([]), statsFor) == Ok(map[])
  {
  }

  /** Records named after the listed containers have their sanitised names. */
  lemma SameNames(descriptors: seq<Container>, rs: seq<Resource>)
    requires AllNamed(descriptors) && |rs| == |descriptors|
    requires forall i :: 0 <= i < |rs| ==> rs[i].containerName == descriptors[i].names[0]
    ensures SanitizedNames(rs) == ContainerNames(descriptors)
  {
    forall s | s in SanitizedNames(rs) ensures s in ContainerNames(descriptors) {
      var i :| 0 <= i < |rs| && s == Sanitize(rs[i].containerName);
      assert s == Sanitize(descriptors[i].names[0]);
    }
    forall s | s in ContainerNames(descriptors) ensures s in SanitizedNames(rs) {
      var i :| 0 <= i < |descriptors| && s == Sanitize(descriptors[i].names[0]);
      assert s == Sanitize(rs[i].containerName);
    }
  }

  /** On success the map's keys are exactly the memory and CPU keys of the
      containers' sanitised names. */
  lemma FetchedKeys(descriptors: seq<Container>, statsFor: string -> Result<Stats>)
    requires AllNamed(descriptors) && Fetched(Ok(descriptors), statsFor).Ok?
    ensures Fetched(Ok(descriptors), statsFor).value.Keys == MetricKeys(ContainerNames(descriptors))
  {
    var rs := FetchedRecords(descriptors, statsFor);
    SameNames(descriptors, rs);
    CollectedKeys(rs);
  }

  /** On success the map has at most two keys per container, and exactly two
      per container when the sanitised names are pairwise distinct. */
  lemma FetchedSize(descriptors: seq<Container>, statsFor: string -> Result<Stats>)
    requires AllNamed(descriptors) && Fetched(Ok(descriptors), statsFor).Ok?
    ensures |Fetched(Ok(descriptors), statsFor).value| <= 2 * |descriptors|
    ensures (forall i, j :: 0 <= i < j < |descriptors| ==>
               Sanitize(descriptors[i].names[0]) != Sanitize(descriptors[j].names[0]))
            ==> |Fetched(Ok(descriptors), statsFor).value| == 2 * |descriptors|
  {
    var rs := FetchedRecords(descriptors, statsFor);
    CollectedSizeBound(rs);
    if forall i, j :: 0 <= i < j < |descriptors| ==>
         Sanitize(descriptors[i].names[0]) != Sanitize(descriptors[j].names[0]) {
      forall i, j | 0 <= i < j < |rs|
        ensures Sanitize(rs[i].containerName) != Sanitize(rs[j].containerName)
      {
        assert rs[i].containerName == descriptors[i].names[0];
        assert rs[j].containerName == descriptors[j].names[0];
      }
      CollectedSizeDistinct(rs);
    }
  }

  /** On a collision of sanitised names, each of the two keys holds the
      figures of the last container in list order with that name: its memory
      in use and its CPU percentage term. */
  lemma FetchedLastWins(descriptors: seq<Container>, statsFor: string -> Result<Stats>, j: nat)
    requires AllNamed(descriptors) && Fetched(Ok(descriptors), statsFor).Ok?
    requires j < |descriptors|
    requires forall k :: j < k < |descriptors| ==>
               Sanitize(descriptors[k].names[0]) != Sanitize(descriptors[j].names[0])
    ensures statsFor(descriptors[j].id).Ok?
    ensures var kv := Fetched(Ok(descriptors), statsFor).value;
            var name := Sanitize(descriptors[j].names[0]);
            var v := statsFor(descriptors[j].id).value;
            && MemoryKey(name) in kv && kv[MemoryKey(name)] == OfUint64(UsedMemory(v.memoryStats))
            && CpuKey(name) in kv && kv[CpuKey(name)] == CpuPercent(CpuDelta(v), SystemCpuDelta(v), v.cpuStats.onlineCpus)
  {
    var rs := FetchedRecords(descriptors, statsFor);
    assert forall i :: 0 <= i < |rs| ==> rs[i].containerName == descriptors[i].names[0];
    CollectedLastWins(rs, j);
  }
}

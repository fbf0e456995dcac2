/** The caches running on one node and the casadm commands that change them. Ids and devices are unique among
    running caches; a command that casadm refuses changes nothing. */
module CacheHost {
  import opened Text
  import opened Decimal
  import opened Outcomes

  /** `volumes` maps a backend path to its core id. */
  datatype Cache = Cache(id: GoInt, device: string, mode: string, lineSize: nat, volumes: map<string, GoInt>)

  const DEFAULT_MODE := "wt"
  const DEFAULT_LINE_SIZE: nat := 4

  ghost predicate Distinct(caches: seq<Cache>) {
    forall i, j :: 0 <= i < j < |caches| ==> caches[i].id != caches[j].id && caches[i].device != caches[j].device
  }

  /** Ids and devices are unique, and no path is held by two caches. */
  ghost predicate Single(caches: seq<Cache>) {
    && Distinct(caches)
    && forall c, d, p :: c in caches && d in caches && p in c.volumes && p in d.volumes ==> c.id == d.id
  }

  predicate IdUsed(caches: seq<Cache>, id: GoInt) {
    exists i :: 0 <= i < |caches| && caches[i].id == id
  }

  predicate DeviceUsed(caches: seq<Cache>, device: string) {
    exists i :: 0 <= i < |caches| && caches[i].device == device
  }

  /** The caches left when those with the given ids are stopped. */
  function Without(caches: seq<Cache>, ids: set<GoInt>): seq<Cache> {
    if |caches| == 0 then []
    else if caches[0].id in ids then Without(caches[1..], ids)
    else [caches[0]] + Without(caches[1..], ids)
  }

  function StopCache(caches: seq<Cache>, id: GoInt, o: Outcome): seq<Cache> {
    if o.Failed? then caches else Without(caches, {id})
  }

  predicate StartTakesEffect(caches: seq<Cache>, device: string, newId: GoInt, o: Outcome) {
    !o.Failed? && !DeviceUsed(caches, device) && !IdUsed(caches, newId)
  }

  /** An omitted mode means write-through, an omitted line size 4 KiB. */
  function Started(device: string, mode: string, lineSize: nat, newId: GoInt): Cache {
    Cache(newId, device, if mode == "" then DEFAULT_MODE else mode,
          if lineSize == 0 then DEFAULT_LINE_SIZE else lineSize, map[])
  }

  function StartCache(caches: seq<Cache>, device: string, mode: string, lineSize: nat, newId: GoInt, o: Outcome): seq<Cache> {
    if StartTakesEffect(caches, device, newId, o) then caches + [Started(device, mode, lineSize, newId)] else caches
  }

  function SetMode(caches: seq<Cache>, id: GoInt, mode: string): (after: seq<Cache>)
    ensures |after| == |caches|
  {
    seq(|caches|, i requires 0 <= i < |caches| => if caches[i].id == id then caches[i].(mode := mode) else caches[i])
  }

  function SetCacheMode(caches: seq<Cache>, id: GoInt, mode: string, o: Outcome): seq<Cache> {
    if o.Failed? then caches else SetMode(caches, id, mode)
  }

  function AddCore(caches: seq<Cache>, id: GoInt, path: string, coreId: GoInt): (after: seq<Cache>)
    ensures |after| == |caches|
  {
    seq(|caches|, i requires 0 <= i < |caches| =>
          if caches[i].id == id then caches[i].(volumes := caches[i].volumes[path := coreId]) else caches[i])
  }

  /** The first cache in the list that holds the volume. */
  function Holder(caches: seq<Cache>, path: string): (h: Option<nat>)
    ensures h.Some? ==> h.value < |caches| && path in caches[h.value].volumes
    ensures h.Some? ==> forall i :: 0 <= i < h.value ==> path !in caches[i].volumes
    ensures h == None ==> forall i :: 0 <= i < |caches| ==> path !in caches[i].volumes
  {
    if |caches| == 0 then None
    else if path in caches[0].volumes then Some(0)
    else
      match Holder(caches[1..], path)
      case None => None
      case Some(i) => Some(i + 1)
  }

  function RemoveCore(caches: seq<Cache>, at: nat, path: string): (after: seq<Cache>)
    requires at < |caches|
    ensures |after| == |caches|
  {
    caches[at := caches[at].(volumes := caches[at].volumes - {path})]
  }

  // ---- Facts about stopping ----

  lemma {:induction false} WithoutMembers(caches: seq<Cache>, ids: set<GoInt>)
    ensures forall c :: c in Without(caches, ids) <==> c in caches && c.id !in ids
  {
    if |caches| > 0 {
      WithoutMembers(caches[1..], ids);
      assert caches == [caches[0]] + caches[1..];
    }
  }

  lemma {:induction false} WithoutNone(caches: seq<Cache>, ids: set<GoInt>)
    requires forall c :: c in caches ==> c.id !in ids
    ensures Without(caches, ids) == caches
  {
    if |caches| > 0 {
      assert caches[0] in caches;
      WithoutNone(caches[1..], ids);
    }
  }

  lemma {:induction false} WithoutEvery(caches: seq<Cache>, ids: set<GoInt>)
    requires forall c :: c in caches ==> c.id in ids
    ensures Without(caches, ids) == []
  {
    if |caches| > 0 {
      assert caches[0] in caches;
      WithoutEvery(caches[1..], ids);
    }
  }

  lemma {:induction false} WithoutTwice(caches: seq<Cache>, a: set<GoInt>, b: set<GoInt>)
    ensures Without(Without(caches, a), b) == Without(caches, a + b)
  {
    if |caches| > 0 {
      WithoutTwice(caches[1..], a, b);
      var rest := Without(caches[1..], a);
      if caches[0].id !in a {
        assert ([caches[0]] + rest)[1..] == rest;
      }
    }
  }

  lemma {:induction false} WithoutDistinct(caches: seq<Cache>, ids: set<GoInt>)
    requires Distinct(caches)
    ensures Distinct(Without(caches, ids))
  {
    if |caches| > 0 {
      var rest := caches[1..];
      WithoutDistinct(rest, ids);
      WithoutMembers(rest, ids);
      forall c | c in Without(rest, ids) ensures c.id != caches[0].id && c.device != caches[0].device {
        var i :| 0 <= i < |rest| && rest[i] == c;
        assert caches[i + 1] == c;
      }
    }
  }

  lemma SameId(caches: seq<Cache>, c: Cache, d: Cache)
    requires Distinct(caches) && c in caches && d in caches
    requires c.id == d.id || c.device == d.device
    ensures c == d
  {
  }

  lemma DevicesDiffer(caches: seq<Cache>)
    requires Distinct(caches) && |caches| >= 2
    ensures exists c, d :: c in caches && d in caches && c.device != d.device
  {
    assert caches[0] in caches && caches[1] in caches;
  }

  lemma StartDistinct(caches: seq<Cache>, c: Cache)
    requires Distinct(caches) && !DeviceUsed(caches, c.device) && !IdUsed(caches, c.id)
    ensures Distinct(caches + [c])
  {
  }
}

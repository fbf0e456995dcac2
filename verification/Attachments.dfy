/** Which volumes the caches of a node hold, and what each actor of the system does to that. */
module Attachments {
  import opened Text
  import opened Decimal
  import opened Outcomes
  import opened CacheHost
  import opened CacheReconciler
  import opened NodePlugin
  import DrainProtocol
  import StagingLaws

  /** Some cache holds the path. */
  predicate Held(caches: seq<Cache>, path: string) {
    Holder(caches, path).Some?
  }

  lemma HeldMember(caches: seq<Cache>, path: string)
    ensures Held(caches, path) <==> exists c :: c in caches && path in c.volumes
  {
    if Held(caches, path) {
      assert caches[Holder(caches, path).value] in caches;
    }
  }

  /** Caches that correspond one to one, with volumes that differ at `path` at most. */
  ghost predicate DiffersAt(a: seq<Cache>, b: seq<Cache>, path: string) {
    && |a| == |b|
    && forall i :: 0 <= i < |a| ==>
         b[i].id == a[i].id && b[i].device == a[i].device && forall p :: p != path ==> (p in b[i].volumes <==> p in a[i].volumes)
  }

  lemma OthersHeld(a: seq<Cache>, b: seq<Cache>, path: string, p: string)
    requires DiffersAt(a, b, path) && p != path
    ensures Held(a, p) <==> Held(b, p)
  {
    if Held(a, p) {
      assert p in b[Holder(a, p).value].volumes;
    }
    if Held(b, p) {
      assert p in a[Holder(b, p).value].volumes;
    }
  }

  lemma SingleAfter(a: seq<Cache>, b: seq<Cache>, path: string)
    requires Single(a) && DiffersAt(a, b, path)
    requires forall c, d :: c in b && d in b && path in c.volumes && path in d.volumes ==> c.id == d.id
    ensures Single(b)
  {
    DrainProtocol.PointwiseDistinct(a, b);
    forall c, d, p | c in b && d in b && p in c.volumes && p in d.volumes ensures c.id == d.id {
      var i :| 0 <= i < |b| && b[i] == c;
      var j :| 0 <= j < |b| && b[j] == d;
      if p != path {
        assert a[i] in a && a[j] in a;
      }
    }
  }

  /** Staging adds its volume, to one cache, or nothing. */
  lemma StageHolds(caches: seq<Cache>, nodeLabel: Option<string>, path: string, coreId: GoInt, o: Outcome)
    requires Single(caches)
    ensures var after := StageCore(caches, nodeLabel, path, coreId, o);
            Single(after) && DiffersAt(caches, after, path) && (Held(caches, path) ==> Held(after, path))
  {
    var after := StageCore(caches, nodeLabel, path, coreId, o);
    if after != caches {
      var id := SelectCache(caches, nodeLabel).value;
      assert forall c :: c in after && path in c.volumes ==> c.id == id;
      SingleAfter(caches, after, path);
    }
  }

  /** Unstaging takes its volume away, from every cache, or nothing. */
  lemma UnstageReleases(caches: seq<Cache>, path: string, o: Outcome)
    requires Single(caches)
    ensures var after := UnstageCore(caches, path, o);
            Single(after) && DiffersAt(caches, after, path) && (!o.Failed? ==> !Held(after, path)) && (Held(after, path) ==> Held(caches, path))
  {
    var after := UnstageCore(caches, path, o);
    if Held(caches, path) && !o.Failed? {
      var h := Holder(caches, path).value;
      assert caches[h] in caches;
      forall i | 0 <= i < |after| ensures path !in after[i].volumes {
        assert caches[i] in caches;
      }
      assert !Held(after, path);
      SingleAfter(caches, after, path);
    }
  }

  // ---- The operator ----

  lemma SetUpVolumes(caches: seq<Cache>, n: Node, f: Faults, d: Cache)
    requires d in SetUpCaches(caches, n, f) && d.volumes != map[]
    ensures exists c :: c in caches && d == c.(mode := d.mode)
  {
    var after := SetUpCaches(caches, n, f);
    var i :| 0 <= i < |after| && after[i] == d;
    assert i < |caches|;
    assert caches[i] in caches && d == caches[i].(mode := d.mode);
  }

  /** A cache that holds something after a run was there before it, and held the same. */
  lemma ReconcileInventsNothing(n: Node, f: Faults, d: Cache)
    requires d in Reconciled(n, f).0.caches && d.volumes != map[]
    ensures exists c :: c in n.caches && d == c.(mode := d.mode)
  {
    CachesAfter(n, f);
    if Acts(n, f) {
      SetUpVolumes(Survivors(n, f), n, f, d);
      WithoutMembers(n.caches, StoppedBy(n, f));
    } else {
      assert d == d.(mode := d.mode);
    }
  }

  /** No run of the operator, whatever fails in it, attaches or detaches a volume. */
  lemma ReconcileKeepsVolumes(n: Node, f: Faults, path: string)
    requires Distinct(n.caches)
    ensures Held(Reconciled(n, f).0.caches, path) <==> Held(n.caches, path)
  {
    var after := Reconciled(n, f).0.caches;
    HeldMember(n.caches, path);
    HeldMember(after, path);
    if Held(n.caches, path) {
      var c :| c in n.caches && path in c.volumes;
      HoldingNeverStopped(n, f, c);
    }
    if Held(after, path) {
      var d :| d in after && path in d.volumes;
      ReconcileInventsNothing(n, f, d);
    }
  }

  lemma ReconcileKeepsSingle(n: Node, f: Faults)
    requires Single(n.caches)
    ensures Single(Reconciled(n, f).0.caches)
  {
    var after := Reconciled(n, f).0.caches;
    DrainProtocol.NextDistinct(n, DrainProtocol.Reconcile(f));
    forall c, d, p | c in after && d in after && p in c.volumes && p in d.volumes ensures c.id == d.id {
      ReconcileInventsNothing(n, f, c);
      ReconcileInventsNothing(n, f, d);
    }
  }

  // ---- Whole calls of the node plugin ----

  /** A stage call touches the caches the way the protocol's Stage step does, or not at all; and never without
      having made the link. */
  lemma StageCallRefines(s: Plugin, r: StageRequest, f: StageFaults)
    ensures var (t, code) := Staged(s, r, f);
            && (t.caches == s.caches || t.caches == StageCore(s.caches, s.nodeLabel, ByIdPath(r.volId), f.coreId, f.addCore))
            && (t.links == s.links || t.links == s.links + {r.volId})
            && (t.caches != s.caches || code == OK ==> r.volId in t.links)
            && t.nodeLabel == s.nodeLabel
            && (code == OK ==> Held(t.caches, ByIdPath(r.volId)) && f.pod == Present)
            && (f.pod != Present ==> t == s)
  {
    var linked := StagingLaws.Linked(s, r);
    var a := Attach(linked, ByIdPath(r.volId), f);
    StagingLaws.StageParts(s, r, f);
    StagingLaws.AttachFrame(linked, ByIdPath(r.volId), f);
    if a.1 == OK {
      AttachHolds(linked, ByIdPath(r.volId), f);
      if r.capability.Some? {
        StagingLaws.FormatAndMountFrame(a.0, r, f);
      }
    }
  }

  /** An unstage call, likewise; the link goes exactly with success. With the link in place and leading to the
      device, and the PV there, success means that the volume has left the caches. */
  lemma UnstageCallRefines(s: Plugin, volId: string, target: string, f: UnstageFaults)
    ensures var (t, code) := Unstaged(s, volId, target, f);
            && (t.caches == s.caches || t.caches == UnstageCore(s.caches, ByIdPath(volId), f.removeCore))
            && t.links == (if code == OK then s.links - {volId} else s.links)
            && t.nodeLabel == s.nodeLabel
            && (code == OK && volId in s.links && f.target == Present && f.pv == Present ==>
                  t.caches == UnstageCore(s.caches, ByIdPath(volId), Done))
            && (code == OK && (volId !in s.links || f.target == Absent || f.pv == Absent) ==> t.caches == s.caches)
            && (code == OK && volId in s.links && f.target != Absent ==> f.target == Present && f.pv != Unknown)
  {
  }
}

/** What a run of the operator answers and when, stated on the caches, the specification and the failures alone. */
module ReconcileAnswers {
  import opened Text
  import opened Decimal
  import opened Outcomes
  import opened CacheHost
  import opened CacheReconciler

  // ---- The finalizer ----

  /** The finalizer is set by every run on an undeleted resource whose patch succeeds, even if the rest fails, and no
      run takes it off an undeleted resource. */
  lemma FinalizerSet(n: Node, f: Faults)
    requires !n.deleting && f.nodeFound
    ensures Reconciled(n, f).0.finalizer == (n.finalizer || f.addFinalizer)
  {
  }

  // ---- Deleting the resource ----

  /** Every empty cache can be stopped. */
  predicate AllStop(caches: seq<Cache>, f: Faults) {
    forall c :: c in caches && |c.volumes| == 0 ==> f.stop(c.id).Done?
  }

  lemma DeletionRequeues(n: Node, f: Faults)
    requires n.deleting
    ensures RetireAll(Retirees(n.caches, n.spec, n.deleting), n.caches, n.nodeLabel, n.deleting, f).requeue <==> !AllStop(n.caches, f)
  {
    RetireesMembers(n.caches, n.spec, n.deleting);
    RetireRequeues(Retirees(n.caches, n.spec, n.deleting), n.caches, n.nodeLabel, n.deleting, f);
  }

  lemma DeletionProgress(n: Node, f: Faults)
    requires n.deleting
    ensures var p := RetireAll(Retirees(n.caches, n.spec, n.deleting), n.caches, n.nodeLabel, n.deleting, f);
            p.nodeLabel == n.nodeLabel && Keeper(n.caches, n.spec, n.deleting) == None
  {
    RetireLabels(Retirees(n.caches, n.spec, n.deleting), n.caches, n.nodeLabel, n.deleting, f);
    KeeperMember(n.caches, n.spec, n.deleting);
  }

  /** A run on a deleted resource takes the finalizer off exactly if the caches are listed, every empty cache stops and
      the patch succeeds: caches that hold volumes do not delay it. The label goes then and only then, if its own
      patch succeeds, and the answer says whether all was done. */
  lemma DeletionExactly(n: Node, f: Faults)
    requires n.deleting && n.finalizer && f.nodeFound
    ensures var (m, answer) := Reconciled(n, f);
            var released := f.list && AllStop(n.caches, f) && f.removeFinalizer;
            && m.finalizer == !released
            && m.nodeLabel == (if released && f.deleteLabel then None else n.nodeLabel)
            && answer == (if !f.list then Answer.Error else if released && f.deleteLabel then Ok else Requeue)
  {
    DeletionRequeues(n, f);
    DeletionProgress(n, f);
  }

  /** One run in which nothing fails ends the deletion: finalizer and label are gone, and the caches left are exactly
      those that hold volumes. */
  lemma DeletionCompletes(n: Node, f: Faults)
    requires Distinct(n.caches) && n.deleting && n.finalizer
    requires f.nodeFound && f.list && f.removeFinalizer && f.deleteLabel && AllStop(n.caches, f)
    ensures var (m, answer) := Reconciled(n, f);
            && !m.finalizer && m.nodeLabel == None && answer == Ok
            && m.caches == Holding(n.caches)
            && forall c :: c in m.caches <==> c in n.caches && c.volumes != map[]
  {
    DeletionExactly(n, f);
    DeletionStops(n, f);
    FinalizerGoesLast(n, f);
    HoldingMembers(n.caches);
  }

  lemma HoldingMembers(caches: seq<Cache>)
    requires Distinct(caches)
    ensures forall c :: c in Holding(caches) <==> c in caches && c.volumes != map[]
  {
    WithoutMembers(caches, EmptyIds(caches));
    forall c | c in caches ensures c.id in EmptyIds(caches) <==> c.volumes == map[] {
      if c.id in EmptyIds(caches) {
        var d :| d in caches && |d.volumes| == 0 && d.id == c.id;
        SameId(caches, c, d);
      }
    }
  }

  // ---- Keeping the resource ----

  /** The cache has the specified device and line size, 4 KiB if none is specified. */
  predicate Fits(c: Cache, spec: Spec) {
    c.device == spec.device && c.lineSize == if spec.lineSize == 0 then 4 else spec.lineSize
  }

  predicate HasMode(c: Cache, spec: Spec) {
    c.mode == if spec.mode == "" then "wt" else spec.mode
  }

  lemma RetiringMeans(c: Cache, spec: Spec)
    ensures Retiring(c, spec, false) <==> !Fits(c, spec)
  {
  }

  /** A cache that fits the specification is never stopped or restarted: it keeps its id and its volumes, and only its
      mode is changed, to the specified one. */
  lemma FittingKept(n: Node, f: Faults, c: Cache)
    requires Distinct(n.caches) && !n.deleting && c in n.caches && Fits(c, n.spec)
    ensures var m := Reconciled(n, f).0;
            || c in m.caches
            || (exists d :: d in m.caches && d == c.(mode := d.mode) && HasMode(d, n.spec) && !f.mode.Failed?)
  {
    CachesAfter(n, f);
    RetiringMeans(c, n.spec);
    KeptSurvives(n, f, c);
    if Acts(n, f) {
      FittingSetUp(Survivors(n, f), n, f, c);
    }
  }

  lemma FittingSetUp(caches: seq<Cache>, n: Node, f: Faults, c: Cache)
    requires c in caches
    ensures var after := SetUpCaches(caches, n, f);
            || c in after
            || (exists d :: d in after && d == c.(mode := d.mode) && HasMode(d, n.spec) && !f.mode.Failed?)
  {
    var i :| 0 <= i < |caches| && caches[i] == c;
    var d := SetUpCaches(caches, n, f)[i];
    assert d in SetUpCaches(caches, n, f);
  }

  /** The line size of a cache on the specified device cannot be read. */
  predicate Unreadable(n: Node, f: Faults) {
    exists c :: c in n.caches && c.device == n.spec.device && !f.lineSize(c.id)
  }

  /** Every cache that does not fit is empty and stops. */
  predicate OthersStop(n: Node, f: Faults) {
    forall c :: c in n.caches && !Fits(c, n.spec) ==> |c.volumes| == 0 && f.stop(c.id).Done?
  }

  /** The cache that fits, if there is one, has its mode or gets it; if there is none, one starts. */
  ghost predicate TargetReady(n: Node, f: Faults) {
    if exists c :: c in n.caches && Fits(c, n.spec)
    then forall c :: c in n.caches && Fits(c, n.spec) ==> HasMode(c, n.spec) || f.mode.Done?
    else f.start.Done? && StartTakesEffect(Survivors(n, f), n.spec.device, f.newId, f.start)
  }

  lemma OneFits(n: Node, c: Cache, d: Cache)
    requires Distinct(n.caches) && c in n.caches && d in n.caches && Fits(c, n.spec) && Fits(d, n.spec)
    ensures c == d
  {
    SameId(n.caches, c, d);
  }

  lemma KeeperFits(n: Node)
    requires Distinct(n.caches) && !n.deleting
    ensures match Keeper(n.caches, n.spec, n.deleting)
            case Some(k) => k in n.caches && Fits(k, n.spec) && forall c :: c in n.caches && Fits(c, n.spec) ==> c == k
            case None => forall c :: c in n.caches ==> !Fits(c, n.spec)
  {
    KeeperMember(n.caches, n.spec, n.deleting);
    var k := Keeper(n.caches, n.spec, n.deleting);
    if k.Some? {
      forall c | c in n.caches && Fits(c, n.spec) ensures c == k.value {
        OneFits(n, c, k.value);
      }
    }
  }

  lemma OthersRequeue(n: Node, f: Faults)
    requires !n.deleting
    ensures var p := RetireAll(Retirees(n.caches, n.spec, n.deleting), n.caches, n.nodeLabel, n.deleting, f);
            p.requeue <==> !OthersStop(n, f)
  {
    var retirees := Retirees(n.caches, n.spec, n.deleting);
    RetireesFit(n);
    RetireRequeues(retirees, n.caches, n.nodeLabel, n.deleting, f);
    if !OthersStop(n, f) {
      var c :| c in n.caches && !Fits(c, n.spec) && !(|c.volumes| == 0 && f.stop(c.id).Done?);
      assert c in retirees;
    }
  }

  lemma RetireesFit(n: Node)
    requires !n.deleting
    ensures forall c :: c in Retirees(n.caches, n.spec, n.deleting) <==> c in n.caches && !Fits(c, n.spec)
  {
    RetireesMembers(n.caches, n.spec, n.deleting);
    forall c: Cache ensures Retiring(c, n.spec, n.deleting) <==> !Fits(c, n.spec) {
      RetiringMeans(c, n.spec);
    }
  }

  lemma UnreadableMeans(n: Node, f: Faults)
    requires !n.deleting
    ensures Unreadable(n, f) <==> StatsFail(n.caches, n.spec, n.deleting, f)
  {
    if StatsFail(n.caches, n.spec, n.deleting, f) {
      var i :| 0 <= i < |n.caches| && n.caches[i].device == n.spec.device && !f.lineSize(n.caches[i].id);
      assert n.caches[i] in n.caches;
    }
  }

  /** The answer of a run on an undeleted resource: an error exactly if the caches cannot be read, success exactly if
      every other cache is empty and stops and the target is ready, and a requeue in all other cases. */
  lemma AnswerExactly(n: Node, f: Faults)
    requires Distinct(n.caches) && !n.deleting && f.nodeFound
    ensures Reconciled(n, f).1 ==
            if !f.list || Unreadable(n, f) then Answer.Error
            else if OthersStop(n, f) && TargetReady(n, f) then Ok
            else Requeue
  {
    UnreadableMeans(n, f);
    if f.list && !Unreadable(n, f) {
      ActingAnswer(n, f);
    }
  }

  /** Whether the target is ready, told from the cache the run keeps. */
  predicate KeeperReady(caches: seq<Cache>, n: Node, f: Faults) {
    match Keeper(n.caches, n.spec, n.deleting)
    case Some(k) => HasMode(k, n.spec) || f.mode.Done?
    case None => f.start.Done? && StartTakesEffect(caches, n.spec.device, f.newId, f.start)
  }

  lemma ReadyMeans(n: Node, f: Faults)
    requires Distinct(n.caches) && !n.deleting
    ensures TargetReady(n, f) <==> KeeperReady(Survivors(n, f), n, f)
  {
    KeeperFits(n);
  }

  lemma SetUpAnswer(p: Progress, n: Node, f: Faults)
    requires !n.deleting
    ensures var (q, up) := SetUp(p, Keeper(n.caches, n.spec, n.deleting), n, f);
            (up && CleanUp(q, n, f).1 == Ok) <==> !p.requeue && KeeperReady(p.caches, n, f)
    ensures var (q, up) := SetUp(p, Keeper(n.caches, n.spec, n.deleting), n, f);
            CleanUp(q, n, f).1 == Ok || CleanUp(q, n, f).1 == Requeue
  {
  }

  lemma ActingAnswer(n: Node, f: Faults)
    requires Distinct(n.caches) && !n.deleting && Acts(n, f)
    ensures Reconciled(n, f).1 == if OthersStop(n, f) && TargetReady(n, f) then Ok else Requeue
  {
    var m := if f.addFinalizer then n.(finalizer := true) else n;
    var retirees := Retirees(n.caches, n.spec, n.deleting);
    var p := RetireAll(retirees, n.caches, n.nodeLabel, n.deleting, f);
    OthersRequeue(n, f);
    ReadyMeans(n, f);
    RetireStops(retirees, n.caches, n.nodeLabel, n.deleting, f);
    assert KeeperReady(p.caches, m, f) <==> KeeperReady(p.caches, n, f);
    SetUpAnswer(p, m, f);
  }

  /** Without an error and without a requeue exactly one cache runs, and it has the specified device, line size and mode,
      with 4 KiB and write-through for what is not specified. */
  lemma AnswerMeans(n: Node, f: Faults)
    requires Distinct(n.caches) && !n.deleting && f.nodeFound && Reconciled(n, f).1 == Ok
    ensures var caches := Reconciled(n, f).0.caches;
            |caches| == 1 && Fits(caches[0], n.spec) && HasMode(caches[0], n.spec)
  {
    AnswerSound(n, f);
  }
}

/** The operator's cache reconciler: it sorts the running caches into those to retire and the one to keep,
    empties the node label of a retiring cache, stops the empty ones, then re-modes or starts the target. */
module CacheReconciler {
  import opened Text
  import opened Decimal
  import opened Outcomes
  import opened CacheHost

  /** The Cache resource's specification; 0 and "" mean that a field is omitted. */
  datatype Spec = Spec(device: string, lineSize: nat, mode: string)

  /** One node as the operator and the node plugin see it. `nodeLabel` is the operating-cache label of the Node
      object, `finalizer` and `deleting` belong to the Cache resource. */
  datatype Node = Node(caches: seq<Cache>, nodeLabel: Option<string>, spec: Spec, finalizer: bool, deleting: bool)

  datatype Answer = Ok | Requeue | Error

  /** What the environment decides during one run: which calls fail, and the id casadm assigns to a new cache. */
  datatype Faults = Faults(nodeFound: bool, addFinalizer: bool, list: bool, lineSize: GoInt -> bool,
                           stop: GoInt -> Outcome, clearLabel: bool, mode: Outcome, start: Outcome, newId: GoInt,
                           setLabel: bool, removeFinalizer: bool, deleteLabel: bool)

  function TargetLineSize(spec: Spec): nat {
    if spec.lineSize != 0 then spec.lineSize else DEFAULT_LINE_SIZE
  }

  function TargetMode(spec: Spec): string {
    if spec.mode != "" then spec.mode else DEFAULT_MODE
  }

  /** The cache is on another device or has another line size than specified, or the resource is being deleted. */
  predicate Retiring(c: Cache, spec: Spec, deleting: bool) {
    c.device != spec.device || deleting || c.lineSize != TargetLineSize(spec)
  }

  /** The resource is gone: it is being deleted and its finalizer is removed. */
  predicate Gone(n: Node) {
    n.deleting && !n.finalizer
  }

  // ---- The run, as a function of the node and the faults ----

  function Retirees(caches: seq<Cache>, spec: Spec, deleting: bool): seq<Cache> {
    if |caches| == 0 then []
    else
      var init, last := caches[..|caches| - 1], caches[|caches| - 1];
      Retirees(init, spec, deleting) + (if Retiring(last, spec, deleting) then [last] else [])
  }

  function Keeper(caches: seq<Cache>, spec: Spec, deleting: bool): Option<Cache> {
    if |caches| == 0 then None
    else
      var last := caches[|caches| - 1];
      if Retiring(last, spec, deleting) then Keeper(caches[..|caches| - 1], spec, deleting) else Some(last)
  }

  /** The line size is asked only of caches on the specified device, and only if the resource stays. */
  predicate StatsFail(caches: seq<Cache>, spec: Spec, deleting: bool, f: Faults) {
    !deleting && exists i :: 0 <= i < |caches| && caches[i].device == spec.device && !f.lineSize(caches[i].id)
  }

  datatype Progress = Progress(caches: seq<Cache>, nodeLabel: Option<string>, requeue: bool)

  /** One retiring cache: empty the label if it names this cache, then stop the cache or defer that. */
  function RetireOne(p: Progress, c: Cache, nodeLabel: Option<string>, deleting: bool, f: Faults): Progress {
    var cleared := if nodeLabel == Some(Print(c.id)) && !deleting && f.clearLabel then Some("") else p.nodeLabel;
    if |c.volumes| == 0 then
      Progress(StopCache(p.caches, c.id, f.stop(c.id)), cleared, p.requeue || !f.stop(c.id).Done?)
    else
      Progress(p.caches, cleared, p.requeue || !deleting)
  }

  function RetireAll(retirees: seq<Cache>, caches: seq<Cache>, nodeLabel: Option<string>, deleting: bool, f: Faults): Progress {
    if |retirees| == 0 then Progress(caches, nodeLabel, false)
    else
      var before := RetireAll(retirees[..|retirees| - 1], caches, nodeLabel, deleting, f);
      RetireOne(before, retirees[|retirees| - 1], nodeLabel, deleting, f)
  }

  /** Re-mode the kept cache or start the target; None if the start fails, which ends the run. */
  function SetUp(p: Progress, keeper: Option<Cache>, n: Node, f: Faults): (Progress, bool) {
    match keeper
    case Some(k) =>
      if k.mode == TargetMode(n.spec) then (p, true)
      else
        (Progress(SetCacheMode(p.caches, k.id, TargetMode(n.spec), f.mode), p.nodeLabel, p.requeue || !f.mode.Done?), true)
    case None =>
      if n.deleting then (p, true)
      else
        var caches := StartCache(p.caches, n.spec.device, n.spec.mode, n.spec.lineSize, f.newId, f.start);
        if f.start.Done? && StartTakesEffect(p.caches, n.spec.device, f.newId, f.start)
        then (Progress(caches, if f.setLabel then Some(Print(f.newId)) else p.nodeLabel, p.requeue), true)
        else (Progress(caches, p.nodeLabel, p.requeue), false)
  }

  /** When the resource is being deleted and nothing failed: drop the finalizer, then the label. */
  function CleanUp(p: Progress, n: Node, f: Faults): (Node, Answer) {
    var m := n.(caches := p.caches, nodeLabel := p.nodeLabel);
    if n.deleting && !p.requeue then
      if n.finalizer && !f.removeFinalizer then (m, Requeue)
      else
        var bare := m.(finalizer := false);
        if f.deleteLabel then (bare.(nodeLabel := None), Ok) else (bare, Requeue)
    else (m, if p.requeue then Requeue else Ok)
  }

  function Reconciled(n: Node, f: Faults): (Node, Answer) {
    if Gone(n) || !f.nodeFound then (n, Ok)
    else
      var m := if !n.deleting && f.addFinalizer then n.(finalizer := true) else n;
      if !f.list || StatsFail(m.caches, m.spec, m.deleting, f) then (m, Error)
      else
        var p := RetireAll(Retirees(m.caches, m.spec, m.deleting), m.caches, m.nodeLabel, m.deleting, f);
        var (q, up) := SetUp(p, Keeper(m.caches, m.spec, m.deleting), m, f);
        if up then CleanUp(q, m, f) else (m.(caches := q.caches, nodeLabel := q.nodeLabel), Requeue)
  }

  // ---- The loops of the reconciler ----

  class Reconciler {
    var caches: seq<Cache>
    var nodeLabel: Option<string>
    var spec: Spec
    var finalizer: bool
    var deleting: bool

    function State(): Node
      reads this
    {
      Node(caches, nodeLabel, spec, finalizer, deleting)
    }

    constructor (n: Node)
      ensures State() == n
    {
      caches, nodeLabel, spec, finalizer, deleting := n.caches, n.nodeLabel, n.spec, n.finalizer, n.deleting;
    }

    /** Sorts the listed caches; `failed` if a line size could not be read. */
    method Classify(f: Faults) returns (retirees: seq<Cache>, keeper: Option<Cache>, failed: bool)
      ensures failed == StatsFail(caches, spec, deleting, f)
      ensures !failed ==> retirees == Retirees(caches, spec, deleting) && keeper == Keeper(caches, spec, deleting)
    {
      retirees, keeper, failed := [], None, false;
      for i := 0 to |caches|
        invariant retirees == Retirees(caches[..i], spec, deleting)
        invariant keeper == Keeper(caches[..i], spec, deleting)
        invariant !failed && !StatsFail(caches[..i], spec, deleting, f)
      {
        var c := caches[i];
        assert caches[..i + 1][..i] == caches[..i] && caches[..i + 1][i] == c;
        if c.device != spec.device || deleting {
          retirees := retirees + [c];
        } else {
          if !f.lineSize(c.id) {
            failed := true;
            return;
          }
          if c.lineSize != TargetLineSize(spec) {
            retirees := retirees + [c];
          } else {
            keeper := Some(c);
          }
        }
      }
      assert caches[..|caches|] == caches;
    }

    /** Retires the given caches one by one; the label compared is the one read at the start of the run. */
    method Retire(retirees: seq<Cache>, f: Faults) returns (requeue: bool)
      modifies this`caches, this`nodeLabel
      ensures Progress(caches, nodeLabel, requeue) == RetireAll(retirees, old(caches), old(nodeLabel), deleting, f)
    {
      requeue := false;
      ghost var start, named := caches, nodeLabel;
      var operating := nodeLabel;
      for i := 0 to |retirees|
        invariant operating == named
        invariant Progress(caches, nodeLabel, requeue) == RetireAll(retirees[..i], start, named, deleting, f)
      {
        var c := retirees[i];
        assert retirees[..i + 1][..i] == retirees[..i] && retirees[..i + 1][i] == c;
        if operating == Some(Print(c.id)) && !deleting {
          if f.clearLabel {
            nodeLabel := Some("");
          }
        }
        if |c.volumes| == 0 {
          caches := StopCache(caches, c.id, f.stop(c.id));
          if !f.stop(c.id).Done? {
            requeue := true;
          }
          continue;
        }
        if !deleting {
          requeue := true;
        }
      }
      assert retirees[..|retirees|] == retirees;
    }

    method Reconcile(f: Faults) returns (answer: Answer)
      modifies this
      ensures (State(), answer) == Reconciled(old(State()), f)
    {
      if (deleting && !finalizer) || !f.nodeFound {
        return Ok;
      }
      if !deleting && f.addFinalizer {
        finalizer := true;
      }
      if !f.list {
        return Error;
      }
      var retirees, keeper, failed := Classify(f);
      if failed {
        return Error;
      }
      var requeue := Retire(retirees, f);
      if keeper.Some? {
        if keeper.value.mode != TargetMode(spec) {
          caches := SetCacheMode(caches, keeper.value.id, TargetMode(spec), f.mode);
          if !f.mode.Done? {
            requeue := true;
          }
        }
      } else if !deleting {
        var started := f.start.Done? && StartTakesEffect(caches, spec.device, f.newId, f.start);
        caches := StartCache(caches, spec.device, spec.mode, spec.lineSize, f.newId, f.start);
        if !started {
          return Requeue;
        }
        if f.setLabel {
          nodeLabel := Some(Print(f.newId));
        }
      }
      if deleting && !requeue {
        if finalizer && !f.removeFinalizer {
          requeue := true;
        } else {
          finalizer := false;
          if f.deleteLabel {
            nodeLabel := None;
          } else {
            requeue := true;
          }
        }
      }
      answer := if requeue then Requeue else Ok;
    }
  }

  // ---- What one run does to the caches ----

  lemma {:induction false} RetireesMembers(caches: seq<Cache>, spec: Spec, deleting: bool)
    ensures forall c :: c in Retirees(caches, spec, deleting) <==> c in caches && Retiring(c, spec, deleting)
  {
    if |caches| > 0 {
      RetireesMembers(caches[..|caches| - 1], spec, deleting);
      assert caches == caches[..|caches| - 1] + [caches[|caches| - 1]];
    }
  }

  lemma {:induction false} KeeperMember(caches: seq<Cache>, spec: Spec, deleting: bool)
    ensures var k := Keeper(caches, spec, deleting);
            && (k.Some? ==> k.value in caches && !Retiring(k.value, spec, deleting))
            && (k == None ==> forall c :: c in caches ==> Retiring(c, spec, deleting))
  {
    if |caches| > 0 {
      KeeperMember(caches[..|caches| - 1], spec, deleting);
      assert caches == caches[..|caches| - 1] + [caches[|caches| - 1]];
    }
  }

  /** The ids of the caches a run stops. */
  ghost function Stopped(retirees: seq<Cache>, f: Faults): set<GoInt> {
    set c | c in retirees && |c.volumes| == 0 && !f.stop(c.id).Failed? :: c.id
  }

  /** The retire loop stops exactly the empty retiring caches whose stop takes effect. */
  lemma {:induction false} RetireStops(retirees: seq<Cache>, caches: seq<Cache>, nodeLabel: Option<string>, deleting: bool, f: Faults)
    ensures RetireAll(retirees, caches, nodeLabel, deleting, f).caches == Without(caches, Stopped(retirees, f))
  {
    if |retirees| == 0 {
      WithoutNone(caches, {});
      assert Stopped(retirees, f) == {};
    } else {
      var init, last := retirees[..|retirees| - 1], retirees[|retirees| - 1];
      RetireStops(init, caches, nodeLabel, deleting, f);
      assert retirees == init + [last];
      if |last.volumes| == 0 && !f.stop(last.id).Failed? {
        WithoutTwice(caches, Stopped(init, f), {last.id});
        assert Stopped(retirees, f) == Stopped(init, f) + {last.id};
      } else {
        assert Stopped(retirees, f) == Stopped(init, f);
      }
    }
  }

  /** A requeue is asked for exactly if a stop is not confirmed, or a retiring cache still holds volumes while
      the resource stays. */
  lemma {:induction false} RetireRequeues(retirees: seq<Cache>, caches: seq<Cache>, nodeLabel: Option<string>, deleting: bool, f: Faults)
    ensures RetireAll(retirees, caches, nodeLabel, deleting, f).requeue <==>
            exists c :: c in retirees && if |c.volumes| == 0 then !f.stop(c.id).Done? else !deleting
  {
    if |retirees| > 0 {
      var init, last := retirees[..|retirees| - 1], retirees[|retirees| - 1];
      RetireRequeues(init, caches, nodeLabel, deleting, f);
      assert retirees == init + [last];
    }
  }

  /** The label is emptied exactly if it names a retiring cache and the patch succeeds. */
  lemma {:induction false} RetireLabels(retirees: seq<Cache>, caches: seq<Cache>, nodeLabel: Option<string>, deleting: bool, f: Faults)
    ensures RetireAll(retirees, caches, nodeLabel, deleting, f).nodeLabel ==
            if !deleting && f.clearLabel && (exists c :: c in retirees && nodeLabel == Some(Print(c.id))) then Some("") else nodeLabel
  {
    if |retirees| > 0 {
      var init, last := retirees[..|retirees| - 1], retirees[|retirees| - 1];
      RetireLabels(init, caches, nodeLabel, deleting, f);
      assert retirees == init + [last];
    }
  }

  /** The run gets as far as changing caches. */
  predicate Acts(n: Node, f: Faults) {
    !Gone(n) && f.nodeFound && f.list && !StatsFail(n.caches, n.spec, n.deleting, f)
  }

  ghost function StoppedBy(n: Node, f: Faults): set<GoInt> {
    if Acts(n, f) then Stopped(Retirees(n.caches, n.spec, n.deleting), f) else {}
  }

  /** The caches after the stops. */
  ghost function Survivors(n: Node, f: Faults): seq<Cache> {
    Without(n.caches, StoppedBy(n, f))
  }

  lemma StoppedExactly(n: Node, f: Faults, c: Cache)
    requires Distinct(n.caches) && c in n.caches && Acts(n, f)
    ensures c.id in StoppedBy(n, f) <==> Retiring(c, n.spec, n.deleting) && |c.volumes| == 0 && !f.stop(c.id).Failed?
  {
    RetireesMembers(n.caches, n.spec, n.deleting);
    if c.id in StoppedBy(n, f) {
      var d :| d in Retirees(n.caches, n.spec, n.deleting) && |d.volumes| == 0 && !f.stop(d.id).Failed? && d.id == c.id;
      SameId(n.caches, c, d);
    }
  }

  /** The caches the set-up phase makes of those that survived the stops. */
  function SetUpCaches(caches: seq<Cache>, n: Node, f: Faults): seq<Cache> {
    match Keeper(n.caches, n.spec, n.deleting)
    case Some(k) =>
      if k.mode == TargetMode(n.spec) then caches else SetCacheMode(caches, k.id, TargetMode(n.spec), f.mode)
    case None =>
      if n.deleting then caches
      else StartCache(caches, n.spec.device, n.spec.mode, n.spec.lineSize, f.newId, f.start)
  }

  lemma CleanUpFrame(p: Progress, n: Node, f: Faults)
    ensures var m := CleanUp(p, n, f).0;
            && m.caches == p.caches && m.spec == n.spec && m.deleting == n.deleting
            && (!n.deleting ==> m.nodeLabel == p.nodeLabel)
  {
  }

  lemma SetUpFrame(p: Progress, n: Node, f: Faults)
    ensures SetUp(p, Keeper(n.caches, n.spec, n.deleting), n, f).0.caches == SetUpCaches(p.caches, n, f)
  {
  }

  lemma CachesAfter(n: Node, f: Faults)
    ensures var m := Reconciled(n, f).0;
            && m.spec == n.spec && m.deleting == n.deleting
            && (!Acts(n, f) ==> m.caches == n.caches && m.nodeLabel == n.nodeLabel)
            && (Acts(n, f) ==> m.caches == SetUpCaches(Survivors(n, f), n, f))
  {
    if Acts(n, f) {
      var m := if !n.deleting && f.addFinalizer then n.(finalizer := true) else n;
      var p := RetireAll(Retirees(m.caches, m.spec, m.deleting), m.caches, m.nodeLabel, m.deleting, f);
      var (q, up) := SetUp(p, Keeper(m.caches, m.spec, m.deleting), m, f);
      RetireStops(Retirees(m.caches, m.spec, m.deleting), m.caches, m.nodeLabel, m.deleting, f);
      SetUpFrame(p, m, f);
      CleanUpFrame(q, m, f);
    }
  }

  // ---- The answer is sound, and its goal is a fixpoint ----

  predicate Matches(c: Cache, spec: Spec) {
    c.device == spec.device && c.lineSize == TargetLineSize(spec) && c.mode == TargetMode(spec)
  }

  /** Exactly the specified cache runs. */
  predicate Converged(caches: seq<Cache>, spec: Spec) {
    |caches| == 1 && Matches(caches[0], spec)
  }

  lemma AtMostOne(caches: seq<Cache>, device: string)
    requires Distinct(caches) && forall c :: c in caches ==> c.device == device
    ensures |caches| <= 1
  {
    if |caches| >= 2 {
      DevicesDiffer(caches);
      assert false;
    }
  }

  /** A kept cache is never stopped. */
  lemma KeptSurvives(n: Node, f: Faults, c: Cache)
    requires Distinct(n.caches) && c in n.caches && (!Retiring(c, n.spec, n.deleting) || |c.volumes| > 0)
    ensures c in Survivors(n, f)
  {
    WithoutMembers(n.caches, StoppedBy(n, f));
    if Acts(n, f) {
      StoppedExactly(n, f, c);
    }
  }

  /** If every retiring cache is empty and stops, only the kept cache is left. */
  lemma OnlyKept(n: Node, f: Faults)
    requires Distinct(n.caches) && Acts(n, f)
    requires forall c :: c in n.caches && Retiring(c, n.spec, n.deleting) ==> |c.volumes| == 0 && f.stop(c.id).Done?
    ensures !n.deleting ==> Survivors(n, f) == match Keeper(n.caches, n.spec, n.deleting) { case Some(k) => [k] case None => [] }
    ensures forall c :: c in Survivors(n, f) ==> !Retiring(c, n.spec, n.deleting)
  {
    var left := Survivors(n, f);
    WithoutMembers(n.caches, StoppedBy(n, f));
    forall c | c in left ensures !Retiring(c, n.spec, n.deleting) {
      StoppedExactly(n, f, c);
    }
    if !n.deleting {
      WithoutDistinct(n.caches, StoppedBy(n, f));
      AtMostOne(left, n.spec.device);
      KeeperMember(n.caches, n.spec, n.deleting);
      var k := Keeper(n.caches, n.spec, n.deleting);
      if k.Some? {
        KeptSurvives(n, f, k.value);
        assert left == [left[0]] && left[0] == k.value;
      } else {
        forall c | c in n.caches ensures c.id in StoppedBy(n, f) {
          StoppedExactly(n, f, c);
        }
        WithoutEvery(n.caches, StoppedBy(n, f));
      }
    }
  }

  lemma QuietRun(n: Node, f: Faults)
    requires Acts(n, f) && Reconciled(n, f).1 == Ok && !n.deleting
    ensures forall c :: c in n.caches && Retiring(c, n.spec, n.deleting) ==> |c.volumes| == 0 && f.stop(c.id).Done?
    ensures match Keeper(n.caches, n.spec, n.deleting)
            case Some(k) => k.mode == TargetMode(n.spec) || f.mode.Done?
            case None => f.start.Done? && StartTakesEffect(Survivors(n, f), n.spec.device, f.newId, f.start)
  {
    var retirees := Retirees(n.caches, n.spec, n.deleting);
    RetireesMembers(n.caches, n.spec, n.deleting);
    RetireRequeues(retirees, n.caches, n.nodeLabel, n.deleting, f);
    RetireStops(retirees, n.caches, n.nodeLabel, n.deleting, f);
  }

  /** Reconcile's answer is sound: without an error and without a requeue, exactly one cache runs, with the
      specified device, line size and mode. */
  lemma AnswerSound(n: Node, f: Faults)
    requires Distinct(n.caches) && !n.deleting && f.nodeFound && Reconciled(n, f).1 == Ok
    ensures Converged(Reconciled(n, f).0.caches, n.spec)
  {
    QuietRun(n, f);
    OnlyKept(n, f);
    CachesAfter(n, f);
    KeeperMember(n.caches, n.spec, n.deleting);
  }

  /** The goal is a fixpoint: once the specified cache alone runs and the finalizer is set, a run changes nothing
      whatever fails, and answers without a requeue. */
  lemma GoalIsFixpoint(n: Node, f: Faults)
    requires Converged(n.caches, n.spec) && n.finalizer && !n.deleting
    ensures Reconciled(n, f).0 == n
    ensures Reconciled(n, f).1 == if f.nodeFound && (!f.list || !f.lineSize(n.caches[0].id)) then Error else Ok
  {
    var c := n.caches[0];
    assert n.caches[..0] == [];
    assert Retirees(n.caches, n.spec, false) == [];
    assert Keeper(n.caches, n.spec, false) == Some(c);
    assert n.(finalizer := true) == n;
  }

  // ---- Deleting the resource ----

  ghost function EmptyIds(caches: seq<Cache>): set<GoInt> {
    set c | c in caches && |c.volumes| == 0 :: c.id
  }

  /** The caches that hold volumes, in order. */
  ghost function Holding(caches: seq<Cache>): seq<Cache> {
    Without(caches, EmptyIds(caches))
  }

  /** At the granularity of runs no cache that holds volumes is ever stopped, resource deleted or not. */
  lemma HoldingNeverStopped(n: Node, f: Faults, c: Cache)
    requires Distinct(n.caches) && c in n.caches && |c.volumes| > 0
    ensures exists d :: d in Reconciled(n, f).0.caches && d == c.(mode := d.mode)
  {
    CachesAfter(n, f);
    KeptSurvives(n, f, c);
    if !Acts(n, f) {
      assert c == c.(mode := c.mode);
    } else {
      SetUpKeeps(Survivors(n, f), n, f, c);
    }
  }

  lemma SetUpKeeps(caches: seq<Cache>, n: Node, f: Faults, c: Cache)
    requires c in caches
    ensures exists d :: d in SetUpCaches(caches, n, f) && d == c.(mode := d.mode)
  {
    var i :| 0 <= i < |caches| && caches[i] == c;
    var d := SetUpCaches(caches, n, f)[i];
    assert d in SetUpCaches(caches, n, f) && d == c.(mode := d.mode);
  }

  lemma DeletionStops(n: Node, f: Faults)
    requires Distinct(n.caches) && n.deleting
    ensures Reconciled(n, f).0.caches == Without(n.caches, StoppedBy(n, f))
    ensures StoppedBy(n, f) <= EmptyIds(n.caches)
  {
    CachesAfter(n, f);
    KeeperMember(n.caches, n.spec, n.deleting);
    RetireesMembers(n.caches, n.spec, n.deleting);
    WithoutNone(n.caches, {});
  }

  lemma HoldingUnaffected(caches: seq<Cache>, ids: set<GoInt>)
    requires Distinct(caches) && ids <= EmptyIds(caches)
    ensures Holding(Without(caches, ids)) == Holding(caches)
  {
    WithoutMembers(caches, ids);
    WithoutTwice(caches, ids, EmptyIds(Without(caches, ids)));
    assert ids + EmptyIds(Without(caches, ids)) == EmptyIds(caches);
  }

  /** The finalizer goes only in a run in which every empty cache was stopped. */
  lemma FinalizerGoesLast(n: Node, f: Faults)
    requires Distinct(n.caches) && n.deleting && n.finalizer && !Reconciled(n, f).0.finalizer
    ensures StoppedBy(n, f) == EmptyIds(n.caches)
  {
    var retirees := Retirees(n.caches, n.spec, n.deleting);
    RetireesMembers(n.caches, n.spec, n.deleting);
    RetireRequeues(retirees, n.caches, n.nodeLabel, n.deleting, f);
    assert Acts(n, f);
    forall c | c in n.caches && |c.volumes| == 0 ensures c.id in StoppedBy(n, f) {
      assert c in retirees;
    }
  }

  ghost function Attempts(n: Node, faults: seq<Faults>): Node
    decreases |faults|
  {
    if |faults| == 0 then n else Attempts(Reconciled(n, faults[0]).0, faults[1..])
  }

  /** Deletion of a Cache resource: after any number of failed attempts, if the finalizer is gone, the caches left
      are exactly those that held volumes; until then those are among the caches left. */
  lemma {:induction false} DeletionLeavesHolding(n: Node, faults: seq<Faults>)
    requires Distinct(n.caches) && n.deleting && (n.finalizer || n.caches == Holding(n.caches))
    ensures Distinct(Attempts(n, faults).caches)
    ensures Holding(Attempts(n, faults).caches) == Holding(n.caches)
    ensures !Attempts(n, faults).finalizer ==> Attempts(n, faults).caches == Holding(n.caches)
    decreases |faults|
  {
    if |faults| > 0 {
      var f := faults[0];
      var m := Reconciled(n, f).0;
      DeletionStops(n, f);
      CachesAfter(n, f);
      WithoutDistinct(n.caches, StoppedBy(n, f));
      HoldingUnaffected(n.caches, StoppedBy(n, f));
      if n.finalizer && !m.finalizer {
        FinalizerGoesLast(n, f);
      }
      if !n.finalizer {
        assert m == n;
      }
      DeletionLeavesHolding(m, faults[1..]);
    }
  }
}

/** The drain-and-replace protocol between the operator and the node plugin, over whole runs: no new core reaches
    a retiring cache, and a measure of what is left to drain only falls, down to the specified cache. */
module DrainProtocol {
  import opened Text
  import opened Decimal
  import opened Outcomes
  import opened CacheHost
  import opened CacheReconciler
  import opened NodePlugin

  /** A run of the operator, a call to the plugin for a volume's by-id path, a reboot, or an edit, the
      deletion or a new creation of the resource. */
  datatype Step =
    | Reconcile(faults: Faults)
    | Stage(path: string, coreId: GoInt, added: Outcome)
    | Unstage(path: string, removed: Outcome)
    | Reboot
    | SpecChange(spec: Spec)
    | Delete
    | Create(spec: Spec)

  function Next(n: Node, step: Step): Node {
    match step
    case Reconcile(f) => Reconciled(n, f).0
    case Stage(path, coreId, o) => n.(caches := StageCore(n.caches, n.nodeLabel, path, coreId, o))
    case Unstage(path, o) => n.(caches := UnstageCore(n.caches, path, o))
    case Reboot => n.(caches := [])
    case SpecChange(spec) => n.(spec := spec)
    case Delete => n.(deleting := true)
    case Create(spec) => if Gone(n) then n.(spec := spec, deleting := false) else n
  }

  function Run(n: Node, steps: seq<Step>): Node
    decreases |steps|
  {
    if |steps| == 0 then n else Run(Next(n, steps[0]), steps[1..])
  }

  /** Steps under a fixed, undeleted specification. */
  predicate Steady(step: Step) {
    !step.SpecChange? && !step.Delete? && !step.Create?
  }

  // ---- Ids and devices stay unique ----

  lemma PointwiseDistinct(a: seq<Cache>, b: seq<Cache>)
    requires Distinct(a) && |a| == |b|
    requires forall i :: 0 <= i < |a| ==> b[i].id == a[i].id && b[i].device == a[i].device
    ensures Distinct(b)
  {
  }

  lemma SetUpDistinct(caches: seq<Cache>, n: Node, f: Faults)
    requires Distinct(caches)
    ensures Distinct(SetUpCaches(caches, n, f))
  {
    var after := SetUpCaches(caches, n, f);
    if |after| == |caches| {
      PointwiseDistinct(caches, after);
    } else {
      StartDistinct(caches, Started(n.spec.device, n.spec.mode, n.spec.lineSize, f.newId));
    }
  }

  lemma NextDistinct(n: Node, step: Step)
    requires Distinct(n.caches)
    ensures Distinct(Next(n, step).caches)
  {
    match step
    case Reconcile(f) =>
      CachesAfter(n, f);
      WithoutDistinct(n.caches, StoppedBy(n, f));
      SetUpDistinct(Survivors(n, f), n, f);
    case Stage(path, coreId, o) => PointwiseDistinct(n.caches, Next(n, step).caches);
    case Unstage(path, o) => PointwiseDistinct(n.caches, Next(n, step).caches);
    case _ =>
  }

  // ---- No new core on a retiring cache ----

  /** The node plugin would read the label as this id. */
  predicate Names(nodeLabel: Option<string>, id: GoInt) {
    nodeLabel.Some? && Atoi(nodeLabel.value) == Parsed(id, true)
  }

  /** The label is present and names no retiring cache. */
  ghost predicate Guarded(n: Node) {
    n.nodeLabel.Some? && forall c :: c in n.caches && Retiring(c, n.spec, n.deleting) ==> !Names(n.nodeLabel, c.id)
  }

  /** Labels as the operator writes them. */
  ghost predicate WrittenByOperator(nodeLabel: Option<string>) {
    nodeLabel.Some? && nodeLabel.value != "" ==> Canonical(nodeLabel.value)
  }

  lemma EmptyNamesNone(id: GoInt)
    ensures !Names(Some(""), id)
  {
  }

  lemma PrintedNames(id: GoInt, other: GoInt)
    ensures Names(Some(Print(id)), other) <==> id == other
  {
    RoundTrip(id);
  }

  /** The target started from the specification is not retiring, and a retiring cache keeps everything. */
  lemma RetiringIsOld(caches: seq<Cache>, n: Node, f: Faults, c: Cache)
    requires Distinct(n.caches) && !n.deleting
    requires forall d :: d in caches ==> d in n.caches
    requires c in SetUpCaches(caches, n, f) && Retiring(c, n.spec, false)
    ensures c in caches
  {
    KeeperMember(n.caches, n.spec, n.deleting);
    var after := SetUpCaches(caches, n, f);
    var i :| 0 <= i < |after| && after[i] == c;
    match Keeper(n.caches, n.spec, n.deleting)
    case Some(k) =>
      assert caches[i] in caches;
      if caches[i].id == k.id {
        SameId(n.caches, caches[i], k);
      }
    case None =>
      assert i < |caches| by {
        assert !Retiring(Started(n.spec.device, n.spec.mode, n.spec.lineSize, f.newId), n.spec, false);
      }
  }

  /** The target starts in this run, and the caller is told so. */
  predicate StartsIn(n: Node, f: Faults, caches: seq<Cache>) {
    Keeper(n.caches, n.spec, n.deleting) == None && f.start.Done? && StartTakesEffect(caches, n.spec.device, f.newId, f.start)
  }

  lemma SetUpLabel(p: Progress, n: Node, f: Faults)
    requires !n.deleting
    ensures SetUp(p, Keeper(n.caches, n.spec, n.deleting), n, f).0.nodeLabel ==
            if StartsIn(n, f, p.caches) && f.setLabel then Some(Print(f.newId)) else p.nodeLabel
  {
  }

  lemma LabelAfter(n: Node, f: Faults)
    requires Acts(n, f) && !n.deleting
    ensures Reconciled(n, f).0.nodeLabel ==
            if StartsIn(n, f, Survivors(n, f)) && f.setLabel then Some(Print(f.newId))
            else if f.clearLabel && (exists c :: c in n.caches && Retiring(c, n.spec, false) && n.nodeLabel == Some(Print(c.id)))
            then Some("") else n.nodeLabel
  {
    var m := if f.addFinalizer then n.(finalizer := true) else n;
    var retirees := Retirees(m.caches, m.spec, m.deleting);
    var p := RetireAll(retirees, m.caches, m.nodeLabel, m.deleting, f);
    LabelBefore(m, f);
    SetUpLabel(p, m, f);
    CleanUpFrame(SetUp(p, Keeper(m.caches, m.spec, m.deleting), m, f).0, m, f);
  }

  lemma LabelBefore(n: Node, f: Faults)
    requires Acts(n, f) && !n.deleting
    ensures var p := RetireAll(Retirees(n.caches, n.spec, n.deleting), n.caches, n.nodeLabel, n.deleting, f);
            && p.caches == Survivors(n, f)
            && p.nodeLabel == if f.clearLabel && (exists c :: c in n.caches && Retiring(c, n.spec, false) && n.nodeLabel == Some(Print(c.id)))
                              then Some("") else n.nodeLabel
  {
    var retirees := Retirees(n.caches, n.spec, n.deleting);
    RetireStops(retirees, n.caches, n.nodeLabel, n.deleting, f);
    RetireLabels(retirees, n.caches, n.nodeLabel, n.deleting, f);
    RetireesMembers(n.caches, n.spec, n.deleting);
  }

  /** A retiring cache after a run was there before it, and its id is not the one of a cache just started. */
  lemma RetiringAfter(n: Node, f: Faults, c: Cache)
    requires Distinct(n.caches) && !n.deleting && Acts(n, f)
    requires c in Reconciled(n, f).0.caches && Retiring(c, n.spec, false)
    ensures c in n.caches && c in Survivors(n, f)
    ensures StartTakesEffect(Survivors(n, f), n.spec.device, f.newId, f.start) ==> c.id != f.newId
  {
    CachesAfter(n, f);
    WithoutMembers(n.caches, StoppedBy(n, f));
    RetiringIsOld(Survivors(n, f), n, f, c);
    var left := Survivors(n, f);
    var i :| 0 <= i < |left| && left[i] == c;
  }

  /** After a run that gets to act, whose clearing patch succeeds and that leaves a label, the node is guarded. */
  lemma RunGuards(n: Node, f: Faults)
    requires Distinct(n.caches) && !n.deleting && Acts(n, f) && f.clearLabel && WrittenByOperator(n.nodeLabel)
    requires Reconciled(n, f).0.nodeLabel.Some?
    ensures Guarded(Reconciled(n, f).0) && WrittenByOperator(Reconciled(n, f).0.nodeLabel)
  {
    var m := Reconciled(n, f).0;
    CachesAfter(n, f);
    LabelAfter(n, f);
    forall c | c in m.caches && Retiring(c, m.spec, m.deleting) ensures !Names(m.nodeLabel, c.id) {
      RetiringAfter(n, f, c);
      PrintedNames(f.newId, c.id);
      EmptyNamesNone(c.id);
      if n.nodeLabel.Some? && n.nodeLabel.value != "" {
        ReaderAgreesExactly(n.nodeLabel.value);
      }
    }
  }

  /** The guard survives every step under a fixed specification, whatever fails. */
  lemma GuardKept(n: Node, step: Step)
    requires Distinct(n.caches) && !n.deleting && Guarded(n) && Steady(step)
    ensures Guarded(Next(n, step))
  {
    match step
    case Reconcile(f) =>
      CachesAfter(n, f);
      if Acts(n, f) {
        LabelAfter(n, f);
        var m := Reconciled(n, f).0;
        forall c | c in m.caches && Retiring(c, m.spec, m.deleting) ensures !Names(m.nodeLabel, c.id) {
          RetiringAfter(n, f, c);
          PrintedNames(f.newId, c.id);
          EmptyNamesNone(c.id);
        }
      }
    case Stage(path, coreId, o) => SameRetirees(n, Next(n, step));
    case Unstage(path, o) => SameRetirees(n, Next(n, step));
    case Reboot =>
  }

  lemma SameRetirees(n: Node, m: Node)
    requires Guarded(n) && m == n.(caches := m.caches) && |m.caches| == |n.caches|
    requires forall i :: 0 <= i < |n.caches| ==> m.caches[i] == n.caches[i].(volumes := m.caches[i].volumes)
    ensures Guarded(m)
  {
    forall c | c in m.caches && Retiring(c, m.spec, m.deleting) ensures !Names(m.nodeLabel, c.id) {
      var i :| 0 <= i < |m.caches| && m.caches[i] == c;
      assert n.caches[i] in n.caches && Retiring(n.caches[i], n.spec, n.deleting);
    }
  }

  /** In a guarded node a stage leaves every retiring cache as it is. */
  lemma StageSpares(n: Node, path: string, coreId: GoInt, o: Outcome)
    requires Guarded(n)
    ensures var after := StageCore(n.caches, n.nodeLabel, path, coreId, o);
            |after| == |n.caches| && forall i :: 0 <= i < |after| && Retiring(n.caches[i], n.spec, n.deleting) ==> after[i] == n.caches[i]
  {
    forall i | 0 <= i < |n.caches| && Retiring(n.caches[i], n.spec, n.deleting) ensures !Names(n.nodeLabel, n.caches[i].id) {
      assert n.caches[i] in n.caches;
    }
  }

  /** No new core on a retiring cache: from a guarded node, in every run without a change of the specification,
      whatever fails, the node stays guarded, and no stage changes a retiring cache. */
  lemma {:induction false} NoCoreOnRetiring(n: Node, steps: seq<Step>, i: nat)
    requires Distinct(n.caches) && !n.deleting && Guarded(n) && i < |steps|
    requires forall j :: 0 <= j < |steps| ==> Steady(steps[j])
    ensures var m := Run(n, steps[..i]);
            && Guarded(m)
            && (steps[i].Stage? ==>
                  forall c :: c in m.caches && Retiring(c, m.spec, m.deleting) ==> c in Next(m, steps[i]).caches)
    decreases |steps|
  {
    if i == 0 {
      if steps[0].Stage? {
        StageSpares(n, steps[0].path, steps[0].coreId, steps[0].added);
        var after := Next(n, steps[0]).caches;
        forall c | c in n.caches && Retiring(c, n.spec, n.deleting) ensures c in after {
          var k :| 0 <= k < |n.caches| && n.caches[k] == c;
          assert after[k] == c;
        }
      }
    } else {
      NextDistinct(n, steps[0]);
      GuardKept(n, steps[0]);
      NextKeepsSpec(n, steps[0]);
      NoCoreOnRetiring(Next(n, steps[0]), steps[1..], i - 1);
      assert steps[..i][1..] == steps[1..][..i - 1];
    }
  }

  lemma NextKeepsSpec(n: Node, step: Step)
    requires Steady(step)
    ensures Next(n, step).spec == n.spec && Next(n, step).deleting == n.deleting
  {
    if step.Reconcile? {
      CachesAfter(n, step.faults);
    }
  }

  /** After a run whose clearing patch succeeds, the plugin selects a retiring cache exactly if the label is absent
      and that cache is the only one running: then it takes it for a cache started by hand. */
  lemma RetiringSelectedExactly(n: Node, f: Faults)
    requires Distinct(n.caches) && !n.deleting && Acts(n, f) && f.clearLabel && WrittenByOperator(n.nodeLabel)
    ensures var m := Reconciled(n, f).0;
            (exists c :: c in m.caches && Retiring(c, m.spec, m.deleting) && SelectCache(m.caches, m.nodeLabel) == Some(c.id))
            <==> m.nodeLabel == None && |m.caches| == 1 && Retiring(m.caches[0], m.spec, m.deleting)
  {
    if Reconciled(n, f).0.nodeLabel.Some? {
      RunGuards(n, f);
    }
    SelectedExactly(Reconciled(n, f).0);
  }

  lemma SelectedExactly(m: Node)
    requires m.nodeLabel.Some? ==> Guarded(m)
    ensures (exists c :: c in m.caches && Retiring(c, m.spec, m.deleting) && SelectCache(m.caches, m.nodeLabel) == Some(c.id))
            <==> m.nodeLabel == None && |m.caches| == 1 && Retiring(m.caches[0], m.spec, m.deleting)
  {
    if m.nodeLabel == None && |m.caches| == 1 {
      assert m.caches[0] in m.caches;
      assert forall c :: c in m.caches ==> c == m.caches[0];
    }
  }

  // ---- Drain and converge ----

  /** What a cache adds to the work left: a retiring cache counts once, and once per volume. */
  function Weight(c: Cache, spec: Spec): nat {
    if Retiring(c, spec, false) then 1 + |c.volumes| else 0
  }

  /** Volumes on retiring caches plus the number of retiring caches. */
  function Left(caches: seq<Cache>, spec: Spec): nat {
    if |caches| == 0 then 0 else Weight(caches[0], spec) + Left(caches[1..], spec)
  }

  lemma {:induction false} LeftAppend(a: seq<Cache>, b: seq<Cache>, spec: Spec)
    ensures Left(a + b, spec) == Left(a, spec) + Left(b, spec)
  {
    if |a| == 0 {
      assert a + b == b;
    } else {
      assert (a + b)[0] == a[0] && (a + b)[1..] == a[1..] + b;
      LeftAppend(a[1..], b, spec);
    }
  }

  lemma {:induction false} LeftPointwise(a: seq<Cache>, b: seq<Cache>, spec: Spec)
    requires |a| == |b| && forall i :: 0 <= i < |a| ==> Weight(a[i], spec) == Weight(b[i], spec)
    ensures Left(a, spec) == Left(b, spec)
  {
    if |a| > 0 {
      LeftPointwise(a[1..], b[1..], spec);
    }
  }

  lemma {:induction false} LeftUpdate(a: seq<Cache>, i: nat, c: Cache, spec: Spec)
    requires i < |a|
    ensures Left(a[i := c], spec) + Weight(a[i], spec) == Left(a, spec) + Weight(c, spec)
  {
    var b := a[i := c];
    if i == 0 {
      assert b[1..] == a[1..];
    } else {
      assert b[0] == a[0] && b[1..] == a[1..][i - 1 := c];
      LeftUpdate(a[1..], i - 1, c, spec);
    }
  }

  ghost function Ids(caches: seq<Cache>): set<GoInt> {
    set c | c in caches :: c.id
  }

  lemma {:induction false} WithoutAgree(caches: seq<Cache>, a: set<GoInt>, b: set<GoInt>)
    requires forall c :: c in caches ==> (c.id in a <==> c.id in b)
    ensures Without(caches, a) == Without(caches, b)
  {
    if |caches| > 0 {
      assert caches[0] in caches;
      WithoutAgree(caches[1..], a, b);
    }
  }

  lemma TailDistinct(caches: seq<Cache>)
    requires Distinct(caches) && |caches| > 0
    ensures Distinct(caches[1..]) && forall c :: c in caches[1..] ==> c.id != caches[0].id
    ensures Ids(caches) == {caches[0].id} + Ids(caches[1..])
  {
    var rest := caches[1..];
    assert caches == [caches[0]] + rest;
    forall c | c in rest ensures c.id != caches[0].id {
      var i :| 0 <= i < |rest| && rest[i] == c;
      assert caches[i + 1] == c;
    }
  }

  /** Each stop of an empty retiring cache takes exactly one off the measure. */
  lemma {:induction false} LeftWithout(caches: seq<Cache>, ids: set<GoInt>, spec: Spec)
    requires Distinct(caches) && ids <= Ids(caches)
    requires forall c :: c in caches && c.id in ids ==> Retiring(c, spec, false) && |c.volumes| == 0
    ensures Left(Without(caches, ids), spec) + |ids| == Left(caches, spec)
  {
    if |caches| == 0 {
      assert ids == {};
    } else {
      var c, rest := caches[0], caches[1..];
      TailDistinct(caches);
      assert c in caches;
      if c.id in ids {
        var fewer := ids - {c.id};
        LeftWithout(rest, fewer, spec);
        WithoutAgree(rest, ids, fewer);
      } else {
        LeftWithout(rest, ids, spec);
        assert Without(caches, ids)[1..] == Without(rest, ids);
      }
    }
  }

  /** How much of the work a step does: the caches it stops, or the volume it takes off a retiring cache. */
  ghost function Drained(n: Node, step: Step): nat {
    match step
    case Reconcile(f) => |StoppedBy(n, f)|
    case Unstage(path, o) =>
      var h := Holder(n.caches, path);
      if h.Some? && !o.Failed? && Retiring(n.caches[h.value], n.spec, false) then 1 else 0
    case Reboot => Left(n.caches, n.spec)
    case _ => 0
  }

  lemma SetUpLeft(caches: seq<Cache>, n: Node, f: Faults)
    requires Distinct(n.caches) && !n.deleting && forall d :: d in caches ==> d in n.caches
    ensures Left(SetUpCaches(caches, n, f), n.spec) == Left(caches, n.spec)
  {
    var after := SetUpCaches(caches, n, f);
    if |after| == |caches| {
      forall i | 0 <= i < |caches| ensures Weight(after[i], n.spec) == Weight(caches[i], n.spec) {
      }
      LeftPointwise(after, caches, n.spec);
    } else {
      var c := Started(n.spec.device, n.spec.mode, n.spec.lineSize, f.newId);
      LeftAppend(caches, [c], n.spec);
      assert [c][1..] == [];
    }
  }

  lemma ReconcileDrains(n: Node, f: Faults)
    requires Distinct(n.caches) && !n.deleting
    ensures Left(Reconciled(n, f).0.caches, n.spec) + |StoppedBy(n, f)| == Left(n.caches, n.spec)
  {
    CachesAfter(n, f);
    if Acts(n, f) {
      RetireesMembers(n.caches, n.spec, n.deleting);
      forall c | c in n.caches && c.id in StoppedBy(n, f) ensures Retiring(c, n.spec, false) && |c.volumes| == 0 {
        StoppedExactly(n, f, c);
      }
      LeftWithout(n.caches, StoppedBy(n, f), n.spec);
      WithoutMembers(n.caches, StoppedBy(n, f));
      SetUpLeft(Survivors(n, f), n, f);
    }
  }

  lemma UnstageDrains(n: Node, path: string, o: Outcome)
    ensures Left(UnstageCore(n.caches, path, o), n.spec) + Drained(n, Unstage(path, o)) == Left(n.caches, n.spec)
  {
    var h := Holder(n.caches, path);
    if h.Some? && !o.Failed? {
      var c := n.caches[h.value];
      var d := c.(volumes := c.volumes - {path});
      assert d.volumes.Keys == c.volumes.Keys - {path};
      assert |d.volumes| == |d.volumes.Keys| && |c.volumes| == |c.volumes.Keys|;
      LeftUpdate(n.caches, h.value, d, n.spec);
    }
  }

  lemma StageDrainsNothing(n: Node, path: string, coreId: GoInt, o: Outcome)
    requires Guarded(n) && !n.deleting
    ensures Left(StageCore(n.caches, n.nodeLabel, path, coreId, o), n.spec) == Left(n.caches, n.spec)
  {
    var after := StageCore(n.caches, n.nodeLabel, path, coreId, o);
    StageSpares(n, path, coreId, o);
    forall i | 0 <= i < |after| ensures Weight(after[i], n.spec) == Weight(n.caches[i], n.spec) {
    }
    LeftPointwise(after, n.caches, n.spec);
  }

  /** Conservation in one step: what is left and what the step drained add up to what was left before. */
  lemma StepDrains(n: Node, step: Step)
    requires Distinct(n.caches) && !n.deleting && Guarded(n) && Steady(step)
    ensures Left(Next(n, step).caches, n.spec) + Drained(n, step) == Left(n.caches, n.spec)
  {
    match step
    case Reconcile(f) => ReconcileDrains(n, f);
    case Stage(path, coreId, o) => StageDrainsNothing(n, path, coreId, o);
    case Unstage(path, o) => UnstageDrains(n, path, o);
    case Reboot =>
  }

  ghost function TotalDrained(n: Node, steps: seq<Step>): nat
    decreases |steps|
  {
    if |steps| == 0 then 0 else Drained(n, steps[0]) + TotalDrained(Next(n, steps[0]), steps[1..])
  }

  /** Drain: over every run from a guarded node, whatever fails, the measure never grows, and it falls by exactly
      the number of caches stopped and volumes taken off retiring caches. */
  lemma {:induction false} RunDrains(n: Node, steps: seq<Step>)
    requires Distinct(n.caches) && !n.deleting && Guarded(n)
    requires forall i :: 0 <= i < |steps| ==> Steady(steps[i])
    ensures Run(n, steps).spec == n.spec && Distinct(Run(n, steps).caches) && Guarded(Run(n, steps))
    ensures Left(Run(n, steps).caches, n.spec) + TotalDrained(n, steps) == Left(n.caches, n.spec)
    decreases |steps|
  {
    if |steps| > 0 {
      NextDistinct(n, steps[0]);
      GuardKept(n, steps[0]);
      NextKeepsSpec(n, steps[0]);
      StepDrains(n, steps[0]);
      RunDrains(Next(n, steps[0]), steps[1..]);
    }
  }

  /** Nothing fails in this run. */
  ghost predicate FaultFree(f: Faults) {
    && f.nodeFound && f.addFinalizer && f.list && f.clearLabel && f.mode.Done? && f.start.Done? && f.setLabel
    && (forall id: GoInt :: f.lineSize(id) && f.stop(id).Done?)
  }

  /** Converge: once no retiring cache holds volumes, one fault-free run leaves exactly the specified cache, answers
      without a requeue, and if it started that cache the label names it. */
  lemma DrainedConverges(n: Node, f: Faults)
    requires Distinct(n.caches) && !n.deleting && FaultFree(f)
    requires forall c :: c in n.caches && Retiring(c, n.spec, false) ==> |c.volumes| == 0
    ensures Reconciled(n, f).1 == Ok && Converged(Reconciled(n, f).0.caches, n.spec)
    ensures Keeper(n.caches, n.spec, false) == None ==>
              Reconciled(n, f).0.nodeLabel == Some(Print(Reconciled(n, f).0.caches[0].id))
  {
    var m := n.(finalizer := true);
    var retirees := Retirees(n.caches, n.spec, n.deleting);
    OnlyKept(n, f);
    RetireesMembers(n.caches, n.spec, n.deleting);
    RetireRequeues(retirees, n.caches, n.nodeLabel, n.deleting, f);
    RetireStops(retirees, n.caches, n.nodeLabel, n.deleting, f);
    KeeperMember(n.caches, n.spec, n.deleting);
    AnswerOk(n, f);
    AnswerSound(n, f);
    CachesAfter(n, f);
    LabelAfter(n, f);
  }

  lemma AnswerOk(n: Node, f: Faults)
    requires Acts(n, f) && !n.deleting && FaultFree(f)
    requires !RetireAll(Retirees(n.caches, n.spec, n.deleting), n.caches, n.nodeLabel, n.deleting, f).requeue
    requires Keeper(n.caches, n.spec, n.deleting) == None ==> Survivors(n, f) == []
    ensures Reconciled(n, f).1 == Ok
  {
    RetireStops(Retirees(n.caches, n.spec, n.deleting), n.caches, n.nodeLabel, n.deleting, f);
  }

  lemma {:induction false} NothingLeft(caches: seq<Cache>, spec: Spec, c: Cache)
    requires Left(caches, spec) == 0 && c in caches
    ensures !Retiring(c, spec, false)
  {
    if c != caches[0] {
      NothingLeft(caches[1..], spec, c);
    }
  }

  /** Every run that has drained everything can be ended by one fault-free run of the operator, with exactly the
      specified cache running. */
  lemma RunConverges(n: Node, steps: seq<Step>, f: Faults)
    requires Distinct(n.caches) && !n.deleting && Guarded(n) && FaultFree(f)
    requires forall i :: 0 <= i < |steps| ==> Steady(steps[i])
    requires TotalDrained(n, steps) == Left(n.caches, n.spec)
    ensures Converged(Reconciled(Run(n, steps), f).0.caches, n.spec)
  {
    var m := Run(n, steps);
    RunDrains(n, steps);
    RunUndeleted(n, steps);
    forall c | c in m.caches ensures !Retiring(c, m.spec, false) {
      NothingLeft(m.caches, m.spec, c);
    }
    DrainedConverges(m, f);
  }

  lemma {:induction false} RunUndeleted(n: Node, steps: seq<Step>)
    requires forall i :: 0 <= i < |steps| ==> Steady(steps[i])
    ensures Run(n, steps).deleting == n.deleting
    decreases |steps|
  {
    if |steps| > 0 {
      NextKeepsSpec(n, steps[0]);
      RunUndeleted(Next(n, steps[0]), steps[1..]);
    }
  }

  lemma {:induction false} SomethingLeft(caches: seq<Cache>, spec: Spec) returns (i: nat)
    requires Left(caches, spec) > 0
    ensures i < |caches| && Retiring(caches[i], spec, false)
  {
    if Retiring(caches[0], spec, false) {
      i := 0;
    } else {
      var j := SomethingLeft(caches[1..], spec);
      i := j + 1;
    }
  }

  /** While something is left to drain, a fault-free run of the operator or the unstaging of a volume of a retiring
      cache does some of the work. */
  lemma ProgressPossible(n: Node, f: Faults) returns (step: Step)
    requires Single(n.caches) && !n.deleting && FaultFree(f) && Left(n.caches, n.spec) > 0
    ensures step == Reconcile(f) || (step.Unstage? && step.removed.Done?)
    ensures Drained(n, step) > 0
  {
    var i := SomethingLeft(n.caches, n.spec);
    var c := n.caches[i];
    assert c in n.caches;
    if |c.volumes| == 0 {
      StoppedExactly(n, f, c);
      step := Reconcile(f);
    } else {
      var path :| path in c.volumes;
      var d := n.caches[Holder(n.caches, path).value];
      assert d in n.caches && d.id == c.id;
      SameId(n.caches, c, d);
      step := Unstage(path, Done);
    }
  }
}

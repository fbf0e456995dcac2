/** What the drain protocol guarantees after an arbitrary past: edits of the specification, deletions and new
    creations of the resource, reboots, stages and unstages, and runs of the operator in which anything failed. */
module History {
  import opened Text
  import opened Decimal
  import opened Outcomes
  import opened CacheHost
  import opened CacheReconciler
  import opened DrainProtocol
  import NodePlugin

  // ---- What every past keeps ----

  lemma SetUpLabels(p: Progress, keeper: Option<Cache>, n: Node, f: Faults)
    ensures var after := SetUp(p, keeper, n, f).0.nodeLabel; after == p.nodeLabel || after == Some(Print(f.newId))
  {
  }

  lemma CleanUpLabels(p: Progress, n: Node, f: Faults)
    ensures var after := CleanUp(p, n, f).0.nodeLabel; after == p.nodeLabel || after == None
  {
  }

  /** Whatever happens in a run, the label is as before, empty, absent, or the printed id of the new cache. */
  lemma LabelsPossible(n: Node, f: Faults)
    ensures var after := Reconciled(n, f).0.nodeLabel;
            after == n.nodeLabel || after == Some("") || after == None || after == Some(Print(f.newId))
  {
    if Acts(n, f) {
      var m := if !n.deleting && f.addFinalizer then n.(finalizer := true) else n;
      var p := RetireAll(Retirees(m.caches, m.spec, m.deleting), m.caches, m.nodeLabel, m.deleting, f);
      var keeper := Keeper(m.caches, m.spec, m.deleting);
      var (q, up) := SetUp(p, keeper, m, f);
      RetireLabels(Retirees(m.caches, m.spec, m.deleting), m.caches, m.nodeLabel, m.deleting, f);
      SetUpLabels(p, keeper, m, f);
      CleanUpLabels(q, m, f);
      assert Reconciled(n, f).0 == (if up then CleanUp(q, m, f).0 else m.(caches := q.caches, nodeLabel := q.nodeLabel));
    } else {
      CachesAfter(n, f);
    }
  }

  /** The label stays one that the operator writes, through every step of any kind. */
  lemma WrittenKept(n: Node, step: Step)
    requires WrittenByOperator(n.nodeLabel)
    ensures WrittenByOperator(Next(n, step).nodeLabel)
  {
    if step.Reconcile? {
      LabelsPossible(n, step.faults);
    }
  }

  lemma {:induction false} PastKeeps(n: Node, past: seq<Step>)
    requires Distinct(n.caches) && WrittenByOperator(n.nodeLabel)
    ensures Distinct(Run(n, past).caches) && WrittenByOperator(Run(n, past).nodeLabel)
    decreases |past|
  {
    if |past| > 0 {
      NextDistinct(n, past[0]);
      WrittenKept(n, past[0]);
      PastKeeps(Next(n, past[0]), past[1..]);
    }
  }

  // ---- After a Reconcile ----

  /** A Reconcile that gets to act on an undeleted resource, whose clearing patch succeeds and that leaves a label. */
  predicate Settles(n: Node, f: Faults) {
    !n.deleting && Acts(n, f) && f.clearLabel && Reconciled(n, f).0.nodeLabel.Some?
  }

  /** After any past and such a Reconcile the node is guarded. */
  lemma ReconcileGuards(n: Node, past: seq<Step>, f: Faults)
    requires Distinct(n.caches) && WrittenByOperator(n.nodeLabel) && Settles(Run(n, past), f)
    ensures var m := Reconciled(Run(n, past), f).0; Distinct(m.caches) && !m.deleting && Guarded(m)
  {
    PastKeeps(n, past);
    RunGuards(Run(n, past), f);
    NextDistinct(Run(n, past), Reconcile(f));
    CachesAfter(Run(n, past), f);
  }

  /** No new core on a retiring cache: after any past and such a Reconcile, until the specification changes or the
      resource is deleted, no stage changes a retiring cache, whatever fails. */
  lemma NoCoreAfterReconcile(n: Node, past: seq<Step>, f: Faults, steps: seq<Step>, i: nat)
    requires Distinct(n.caches) && WrittenByOperator(n.nodeLabel) && Settles(Run(n, past), f)
    requires i < |steps| && forall j :: 0 <= j < |steps| ==> Steady(steps[j])
    ensures var m := Run(Reconciled(Run(n, past), f).0, steps[..i]);
            && Guarded(m)
            && (steps[i].Stage? ==>
                  forall c :: c in m.caches && Retiring(c, m.spec, m.deleting) ==> c in Next(m, steps[i]).caches)
  {
    ReconcileGuards(n, past, f);
    NoCoreOnRetiring(Reconciled(Run(n, past), f).0, steps, i);
  }

  /** Drain: after any past and such a Reconcile, over every run that follows, what is left and what was drained add
      up to what was left after the Reconcile. */
  lemma DrainAfterReconcile(n: Node, past: seq<Step>, f: Faults, steps: seq<Step>)
    requires Distinct(n.caches) && WrittenByOperator(n.nodeLabel) && Settles(Run(n, past), f)
    requires forall j :: 0 <= j < |steps| ==> Steady(steps[j])
    ensures var m := Reconciled(Run(n, past), f).0;
            Left(Run(m, steps).caches, m.spec) + TotalDrained(m, steps) == Left(m.caches, m.spec)
  {
    ReconcileGuards(n, past, f);
    RunDrains(Reconciled(Run(n, past), f).0, steps);
  }

  /** Converge: once everything is drained, one fault-free run leaves exactly the specified cache. */
  lemma ConvergeAfterReconcile(n: Node, past: seq<Step>, f: Faults, steps: seq<Step>, last: Faults)
    requires Distinct(n.caches) && WrittenByOperator(n.nodeLabel) && Settles(Run(n, past), f) && FaultFree(last)
    requires forall j :: 0 <= j < |steps| ==> Steady(steps[j])
    requires var m := Reconciled(Run(n, past), f).0; TotalDrained(m, steps) == Left(m.caches, m.spec)
    ensures var m := Reconciled(Run(n, past), f).0; Converged(Reconciled(Run(m, steps), last).0.caches, m.spec)
  {
    ReconcileGuards(n, past, f);
    RunConverges(Reconciled(Run(n, past), f).0, steps, last);
  }

  // ---- Deleting the resource ----

  /** After any past, with stages and unstages between failed attempts, the run that takes the finalizer off a deleted
      resource leaves exactly the caches that hold volumes then. */
  lemma DeletionAfterPast(n: Node, past: seq<Step>, f: Faults)
    requires Distinct(n.caches)
    requires var m := Run(n, past); m.deleting && m.finalizer && !Reconciled(m, f).0.finalizer
    ensures var m := Run(n, past); Reconciled(m, f).0.caches == Holding(m.caches)
  {
    PastDistinct(n, past);
    DeletionStops(Run(n, past), f);
    FinalizerGoesLast(Run(n, past), f);
  }

  lemma {:induction false} PastDistinct(n: Node, past: seq<Step>)
    requires Distinct(n.caches)
    ensures Distinct(Run(n, past).caches)
    decreases |past|
  {
    if |past| > 0 {
      NextDistinct(n, past[0]);
      PastDistinct(Next(n, past[0]), past[1..]);
    }
  }

  // ---- A retiring cache that is selected ----

  /** The node before: no label, one cache with another line size than specified, which holds a volume. */
  const UNLABELLED := Node([Cache(1, "d", "wt", 64, map["p" := 1])], None, Spec("d", 4, ""), false, false)

  /** On this node every run leaves the label absent, and the plugin goes on selecting the retiring cache, which a
      stage of another volume then gets. */
  lemma RetiringSelectedHere(f: Faults)
    requires FaultFree(f)
    ensures var m := Reconciled(UNLABELLED, f).0;
            && m.nodeLabel == None && |m.caches| == 1 && Retiring(m.caches[0], m.spec, m.deleting)
            && NodePlugin.SelectCache(m.caches, m.nodeLabel) == Some(m.caches[0].id)
            && "q" in Next(m, Stage("q", 2, Done)).caches[0].volumes
  {
    var n := UNLABELLED;
    var c := n.caches[0];
    assert n.caches[..0] == [];
    assert Retirees(n.caches, n.spec, false) == [c] && Keeper(n.caches, n.spec, false) == None;
    assert [c][..0] == [];
    assert |c.volumes| == 1;
    assert RetireAll([c], n.caches, None, false, f) == Progress(n.caches, None, true);
    assert DeviceUsed(n.caches, "d");
  }
}

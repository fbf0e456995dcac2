/** The drain can always be brought to its end. */
module Convergence {
  import opened Outcomes
  import opened CacheHost
  import opened CacheReconciler
  import opened DrainProtocol
  import opened Attachments

  /** A step that anybody may bring about: a fault-free run of the operator or a successful unstage. */
  ghost predicate Helpful(step: Step, f: Faults) {
    step == Reconcile(f) || (step.Unstage? && step.removed.Done?)
  }

  lemma HelpfulKeeps(n: Node, step: Step, f: Faults)
    requires Single(n.caches) && !n.deleting && Helpful(step, f)
    ensures var m := Next(n, step);
            && Single(m.caches) && !m.deleting && m.spec == n.spec
            && Left(m.caches, n.spec) + Drained(n, step) == Left(n.caches, n.spec)
  {
    NextKeepsSpec(n, step);
    SingleKept(n, step);
    match step
    case Reconcile(g) => ReconcileDrains(n, g);
    case Unstage(path, o) => UnstageDrains(n, path, o);
  }

  /** No step of any kind attaches a volume twice. */
  lemma SingleKept(n: Node, step: Step)
    requires Single(n.caches)
    ensures Single(Next(n, step).caches)
  {
    match step
    case Reconcile(g) => ReconcileKeepsSingle(n, g);
    case Stage(path, coreId, o) => StageHolds(n.caches, n.nodeLabel, path, coreId, o);
    case Unstage(path, o) => UnstageReleases(n.caches, path, o);
    case _ =>
  }

  lemma {:induction false} RunSingle(n: Node, steps: seq<Step>)
    requires Single(n.caches)
    ensures Single(Run(n, steps).caches)
    decreases |steps|
  {
    if |steps| > 0 {
      SingleKept(n, steps[0]);
      RunSingle(Next(n, steps[0]), steps[1..]);
    }
  }

  /** After any past at all, with any specification changes, deletions and failures in it, the drain to the present
      specification can be completed as below. */
  lemma DrainAlwaysCompletes(n: Node, past: seq<Step>, f: Faults) returns (steps: seq<Step>)
    requires Single(n.caches) && !Run(n, past).deleting && FaultFree(f)
    ensures var m := Run(n, past);
            && |steps| <= Left(m.caches, m.spec) + 1 && (forall step :: step in steps ==> Helpful(step, f))
            && Converged(Run(m, steps).caches, m.spec)
  {
    RunSingle(n, past);
    steps := DrainCompletes(Run(n, past), f);
  }

  /** From every node some run, of at most as many steps as are left to drain and one more, ends with exactly
      the specified cache running; it needs nothing but successful unstages and fault-free runs of the operator. */
  lemma {:induction false} DrainCompletes(n: Node, f: Faults) returns (steps: seq<Step>)
    requires Single(n.caches) && !n.deleting && FaultFree(f)
    ensures |steps| <= Left(n.caches, n.spec) + 1 && forall step :: step in steps ==> Helpful(step, f)
    ensures Converged(Run(n, steps).caches, n.spec)
    decreases Left(n.caches, n.spec)
  {
    if Left(n.caches, n.spec) == 0 {
      forall c | c in n.caches ensures !Retiring(c, n.spec, false) {
        NothingLeft(n.caches, n.spec, c);
      }
      DrainedConverges(n, f);
      steps := [Reconcile(f)];
      assert Run(n, steps) == Run(Next(n, steps[0]), steps[1..]) == Next(n, steps[0]);
    } else {
      var first := ProgressPossible(n, f);
      HelpfulKeeps(n, first, f);
      var rest := DrainCompletes(Next(n, first), f);
      steps := [first] + rest;
      assert steps[1..] == rest;
    }
  }
}

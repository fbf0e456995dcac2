/** The drain protocol one command at a time: a stage reads the label in one step and adds its core in a later one,
    and the commands of a running operator come in between. */
module DrainInterleaving {
  import opened Text
  import opened Decimal
  import opened Outcomes
  import opened CacheHost
  import opened CacheReconciler
  import opened NodePlugin
  import DrainProtocol
  import History

  /** What a stage that has read the label is going to do. */
  datatype Choice = Choice(path: string, cache: GoInt)

  /** `chosen` holds the stages between their reading and their addition, `started` the cache that the operator has
      started and not yet written to the label. */
  datatype State = State(node: Node, chosen: map<nat, Choice>, started: Option<GoInt>)

  datatype Command =
    | Read(call: nat, path: string)
    | Add(call: nat, coreId: GoInt, added: Outcome)
    | Remove(path: string, removed: Outcome)
    | Clear
    | Stop(cache: GoInt)
    | SetMode(cache: GoInt, mode: string)
    | Start(newId: GoInt)
    | SetLabel
    | Reboot

  /** A command that fails is one that does not come. The operator may stop a cache that got a core since it looked. */
  function Next(s: State, c: Command): State {
    var n := s.node;
    match c
    case Read(call, path) =>
      var selected := SelectCache(n.caches, n.nodeLabel);
      if call in s.chosen || Holder(n.caches, path).Some? || selected == None then s
      else s.(chosen := s.chosen[call := Choice(path, selected.value)])
    case Add(call, coreId, o) =>
      if call !in s.chosen then s
      else
        var choice := s.chosen[call];
        var caches := if o.Failed? then n.caches else AddCore(n.caches, choice.cache, choice.path, coreId);
        s.(node := n.(caches := caches), chosen := s.chosen - {call})
    case Remove(path, o) => s.(node := n.(caches := UnstageCore(n.caches, path, o)))
    case Clear => s.(node := n.(nodeLabel := Some("")))
    case Stop(id) => s.(node := n.(caches := Without(n.caches, {id})))
    case SetMode(id, mode) => s.(node := n.(caches := CacheHost.SetMode(n.caches, id, mode)))
    case Start(newId) =>
      if StartTakesEffect(n.caches, n.spec.device, newId, Done)
      then s.(node := n.(caches := StartCache(n.caches, n.spec.device, n.spec.mode, n.spec.lineSize, newId, Done)), started := Some(newId))
      else s
    case SetLabel =>
      if s.started.Some? then s.(node := n.(nodeLabel := Some(Print(s.started.value))), started := None) else s
    case Reboot => s.(node := n.(caches := []))
  }

  function Run(s: State, commands: seq<Command>): State
    decreases |commands|
  {
    if |commands| == 0 then s else Run(Next(s, commands[0]), commands[1..])
  }

  // ---- What the commands keep ----

  /** No retiring cache has this id. */
  ghost predicate Free(n: Node, id: GoInt) {
    forall c :: c in n.caches && Retiring(c, n.spec, n.deleting) ==> c.id != id
  }

  /** No retiring cache of `m` is new: each goes back to one of `n`. */
  ghost predicate NoneNew(n: Node, m: Node) {
    && m.spec == n.spec && m.deleting == n.deleting
    && forall c :: c in m.caches && Retiring(c, m.spec, m.deleting) ==> !Free(n, c.id)
  }

  /** The label names no retiring cache, the one about to be written neither, nor does the choice of any call that is
      not among the early ones. */
  ghost predicate Late(s: State, early: set<nat>) {
    && !s.node.deleting && DrainProtocol.Guarded(s.node)
    && (s.started.Some? ==> Free(s.node, s.started.value))
    && forall call :: call in s.chosen && call !in early ==> Free(s.node, s.chosen[call].cache)
  }

  lemma FreeStays(n: Node, m: Node, id: GoInt)
    requires NoneNew(n, m) && Free(n, id)
    ensures Free(m, id)
  {
  }

  /** A change of volumes or modes alone. */
  lemma PointwiseNoneNew(n: Node, m: Node)
    requires m == n.(caches := m.caches) && |m.caches| == |n.caches|
    requires forall i :: 0 <= i < |n.caches| ==>
               m.caches[i].id == n.caches[i].id && m.caches[i].device == n.caches[i].device && m.caches[i].lineSize == n.caches[i].lineSize
    ensures NoneNew(n, m)
  {
    forall c | c in m.caches && Retiring(c, m.spec, m.deleting) ensures !Free(n, c.id) {
      var i :| 0 <= i < |m.caches| && m.caches[i] == c;
      assert n.caches[i] in n.caches;
    }
  }

  lemma StartedNotRetiring(n: Node, newId: GoInt)
    requires !n.deleting
    ensures !Retiring(Started(n.spec.device, n.spec.mode, n.spec.lineSize, newId), n.spec, n.deleting)
  {
  }

  /** No command makes a cache retiring. */
  lemma CommandNoneNew(s: State, c: Command)
    requires !s.node.deleting
    ensures NoneNew(s.node, Next(s, c).node)
  {
    var n, m := s.node, Next(s, c).node;
    match c
    case Add(call, coreId, o) => PointwiseNoneNew(n, n.(caches := m.caches));
    case Remove(path, o) => PointwiseNoneNew(n, n.(caches := m.caches));
    case SetMode(id, mode) => PointwiseNoneNew(n, n.(caches := m.caches));
    case Stop(id) => WithoutMembers(n.caches, {id});
    case Start(newId) => StartedNotRetiring(n, newId);
    case _ =>
  }

  /** The id of a cache that starts was free before. */
  lemma StartFree(s: State, newId: GoInt)
    requires !s.node.deleting && StartTakesEffect(s.node.caches, s.node.spec.device, newId, Done)
    ensures Free(Next(s, Start(newId)).node, newId)
  {
    var n := s.node;
    StartedNotRetiring(n, newId);
    forall c | c in n.caches ensures c.id != newId {
      var i :| 0 <= i < |n.caches| && n.caches[i] == c;
    }
  }

  lemma NamesFree(n: Node, id: GoInt)
    requires DrainProtocol.Guarded(n) && DrainProtocol.Names(n.nodeLabel, id)
    ensures Free(n, id)
  {
  }

  lemma LabelKept(s: State, c: Command, early: set<nat>)
    requires Late(s, early)
    ensures DrainProtocol.Guarded(Next(s, c).node)
  {
    var n, m := s.node, Next(s, c).node;
    CommandNoneNew(s, c);
    assert m.nodeLabel.Some?;
    forall x | x in m.caches && Retiring(x, m.spec, m.deleting) ensures !DrainProtocol.Names(m.nodeLabel, x.id) {
      if c.Clear? {
        DrainProtocol.EmptyNamesNone(x.id);
      } else if c.SetLabel? && s.started.Some? {
        DrainProtocol.PrintedNames(s.started.value, x.id);
      } else if DrainProtocol.Names(n.nodeLabel, x.id) {
        NamesFree(n, x.id);
        FreeStays(n, m, x.id);
      }
    }
  }

  /** A call that reads a guarded label chooses no retiring cache. */
  lemma ReadFree(s: State, call: nat, path: string)
    requires DrainProtocol.Guarded(s.node) && call !in s.chosen && call in Next(s, Read(call, path)).chosen
    ensures Free(s.node, Next(s, Read(call, path)).chosen[call].cache)
  {
    NamesFree(s.node, SelectCache(s.node.caches, s.node.nodeLabel).value);
  }

  lemma LateKept(s: State, c: Command, early: set<nat>)
    requires Late(s, early)
    ensures Late(Next(s, c), early)
  {
    var t := Next(s, c);
    CommandNoneNew(s, c);
    LabelKept(s, c, early);
    if t.started.Some? {
      if s.started == t.started {
        FreeStays(s.node, t.node, t.started.value);
      } else {
        StartFree(s, t.started.value);
      }
    }
    forall call | call in t.chosen && call !in early ensures Free(t.node, t.chosen[call].cache) {
      if call !in s.chosen {
        ReadFree(s, call, c.path);
      }
      FreeStays(s.node, t.node, t.chosen[call].cache);
    }
  }

  lemma {:induction false} RunLate(s: State, commands: seq<Command>, early: set<nat>)
    requires Late(s, early)
    ensures Late(Run(s, commands), early)
    decreases |commands|
  {
    if |commands| > 0 {
      LateKept(s, commands[0], early);
      RunLate(Next(s, commands[0]), commands[1..], early);
    }
  }

  lemma AddSpares(s: State, call: nat, coreId: GoInt, o: Outcome, c: Cache)
    requires call in s.chosen ==> Free(s.node, s.chosen[call].cache)
    requires c in s.node.caches && Retiring(c, s.node.spec, s.node.deleting)
    ensures c in Next(s, Add(call, coreId, o)).node.caches
  {
    var i :| 0 <= i < |s.node.caches| && s.node.caches[i] == c;
    var after := Next(s, Add(call, coreId, o)).node.caches;
    assert after[i] == c;
  }

  /** A stage whose reading of the label follows the clearing patch never adds its core to a retiring cache, whatever
      commands come in between and whatever stages were under way: the node and its past are arbitrary. */
  lemma NoCoreAfterClear(s: State, commands: seq<Command>, call: nat, coreId: GoInt, o: Outcome, c: Cache)
    requires !s.node.deleting && s.started == None && call !in s.chosen
    requires var t := Run(Next(s, Clear), commands); c in t.node.caches && Retiring(c, t.node.spec, t.node.deleting)
    ensures c in Next(Run(Next(s, Clear), commands), Add(call, coreId, o)).node.caches
  {
    forall x: Cache ensures !DrainProtocol.Names(Some(""), x.id) {
      DrainProtocol.EmptyNamesNone(x.id);
    }
    RunLate(Next(s, Clear), commands, s.chosen.Keys);
    AddSpares(Run(Next(s, Clear), commands), call, coreId, o, c);
  }

  /** No late core on a retiring cache, one command at a time: after any past and a Reconcile that leaves a label, in
      every interleaving of reads, additions, removals and the operator's commands, with any stages already under way,
      no stage that reads the label from then on adds its core to a retiring cache. */
  lemma NoLateCore(n: Node, past: seq<DrainProtocol.Step>, f: Faults, underway: map<nat, Choice>,
                   commands: seq<Command>, call: nat, coreId: GoInt, o: Outcome, c: Cache)
    requires Distinct(n.caches) && DrainProtocol.WrittenByOperator(n.nodeLabel) && History.Settles(DrainProtocol.Run(n, past), f)
    requires call !in underway
    requires var s := Run(State(Reconciled(DrainProtocol.Run(n, past), f).0, underway, None), commands);
             c in s.node.caches && Retiring(c, s.node.spec, s.node.deleting)
    ensures var s := Run(State(Reconciled(DrainProtocol.Run(n, past), f).0, underway, None), commands);
            c in Next(s, Add(call, coreId, o)).node.caches
  {
    var start := State(Reconciled(DrainProtocol.Run(n, past), f).0, underway, None);
    History.ReconcileGuards(n, past, f);
    RunLate(start, commands, underway.Keys);
    AddSpares(Run(start, commands), call, coreId, o, c);
  }

  // ---- A run of the operator is a sequence of its commands ----

  lemma {:induction false} RunAppend(s: State, a: seq<Command>, b: seq<Command>)
    ensures Run(s, a + b) == Run(Run(s, a), b)
    decreases |a|
  {
    if |a| == 0 {
      assert a + b == b;
    } else {
      assert (a + b)[0] == a[0] && (a + b)[1..] == a[1..] + b;
      RunAppend(Next(s, a[0]), a[1..], b);
    }
  }

  lemma RunOne(s: State, c: Command)
    ensures Run(s, [c]) == Next(s, c)
  {
    assert [c][1..] == [];
  }

  /** What the operator sends for one retiring cache. */
  function RetireCommands(c: Cache, nodeLabel: Option<string>, f: Faults): seq<Command> {
    (if nodeLabel == Some(Print(c.id)) && f.clearLabel then [Clear] else [])
    + (if |c.volumes| == 0 && !f.stop(c.id).Failed? then [Stop(c.id)] else [])
  }

  lemma RetireOneRuns(s: State, p: Progress, c: Cache, nodeLabel: Option<string>, f: Faults)
    requires s.node.caches == p.caches && s.node.nodeLabel == p.nodeLabel
    ensures var q := RetireOne(p, c, nodeLabel, false, f);
            Run(s, RetireCommands(c, nodeLabel, f)) == s.(node := s.node.(caches := q.caches, nodeLabel := q.nodeLabel))
  {
    var clear := if nodeLabel == Some(Print(c.id)) && f.clearLabel then [Clear] else [];
    var stop := if |c.volumes| == 0 && !f.stop(c.id).Failed? then [Stop(c.id)] else [];
    RunAppend(s, clear, stop);
    RunOne(s, Clear);
    RunOne(Run(s, clear), Stop(c.id));
  }

  lemma {:induction false} RetireAllRuns(s: State, retirees: seq<Cache>, f: Faults) returns (commands: seq<Command>)
    ensures var p := RetireAll(retirees, s.node.caches, s.node.nodeLabel, false, f);
            Run(s, commands) == s.(node := s.node.(caches := p.caches, nodeLabel := p.nodeLabel))
  {
    if |retirees| == 0 {
      commands := [];
    } else {
      var init, last := retirees[..|retirees| - 1], retirees[|retirees| - 1];
      var before := RetireAllRuns(s, init, f);
      var p := RetireAll(init, s.node.caches, s.node.nodeLabel, false, f);
      RetireOneRuns(Run(s, before), p, last, s.node.nodeLabel, f);
      RunAppend(s, before, RetireCommands(last, s.node.nodeLabel, f));
      commands := before + RetireCommands(last, s.node.nodeLabel, f);
    }
  }

  lemma StartRuns(s: State, p: Progress, n: Node, f: Faults) returns (commands: seq<Command>)
    requires s.node.caches == p.caches && s.node.nodeLabel == p.nodeLabel && s.node.spec == n.spec && !n.deleting
    ensures var q := SetUp(p, None, n, f).0;
            Run(s, commands).node == s.node.(caches := q.caches, nodeLabel := q.nodeLabel)
  {
    if !StartTakesEffect(p.caches, n.spec.device, f.newId, f.start) {
      commands := [];
    } else {
      var t := Next(s, Start(f.newId));
      RunOne(s, Start(f.newId));
      if f.start.Done? && f.setLabel {
        RunAppend(s, [Start(f.newId)], [SetLabel]);
        RunOne(t, SetLabel);
        commands := [Start(f.newId)] + [SetLabel];
      } else {
        commands := [Start(f.newId)];
      }
    }
  }

  lemma SetUpRuns(s: State, p: Progress, keeper: Option<Cache>, n: Node, f: Faults) returns (commands: seq<Command>)
    requires s.node.caches == p.caches && s.node.nodeLabel == p.nodeLabel && s.node.spec == n.spec && !n.deleting
    ensures var q := SetUp(p, keeper, n, f).0;
            Run(s, commands).node == s.node.(caches := q.caches, nodeLabel := q.nodeLabel)
  {
    if keeper == None {
      commands := StartRuns(s, p, n, f);
    } else if keeper.value.mode == TargetMode(n.spec) || f.mode.Failed? {
      commands := [];
    } else {
      commands := [SetMode(keeper.value.id, TargetMode(n.spec))];
      RunOne(s, SetMode(keeper.value.id, TargetMode(n.spec)));
    }
  }

  /** Whatever fails in it, a run of the operator on an undeleted resource does to caches and label what some sequence of
      these commands does, so the interleavings above cover runs that are cut into their commands. */
  lemma ReconcileIsCommands(n: Node, underway: map<nat, Choice>, f: Faults) returns (commands: seq<Command>)
    requires !n.deleting
    ensures var m, t := Reconciled(n, f).0, Run(State(n, underway, None), commands).node;
            t == m.(finalizer := n.finalizer)
  {
    var s := State(n, underway, None);
    if !Acts(n, f) {
      CachesAfter(n, f);
      commands := [];
    } else {
      var keeper, retirees := Keeper(n.caches, n.spec, false), Retirees(n.caches, n.spec, false);
      var p := RetireAll(retirees, n.caches, n.nodeLabel, false, f);
      var first := RetireAllRuns(s, retirees, f);
      var second := SetUpRuns(Run(s, first), p, keeper, n, f);
      RunAppend(s, first, second);
      commands := first + second;
      ReconcileParts(n, f);
    }
  }

  lemma ReconcileParts(n: Node, f: Faults)
    requires !n.deleting && Acts(n, f)
    ensures var p := RetireAll(Retirees(n.caches, n.spec, false), n.caches, n.nodeLabel, false, f);
            var q := SetUp(p, Keeper(n.caches, n.spec, false), n, f).0;
            Reconciled(n, f).0 == n.(caches := q.caches, nodeLabel := q.nodeLabel, finalizer := Reconciled(n, f).0.finalizer)
  {
    var m := if f.addFinalizer then n.(finalizer := true) else n;
    var p := RetireAll(Retirees(n.caches, n.spec, false), n.caches, n.nodeLabel, false, f);
    assert SetUp(p, Keeper(n.caches, n.spec, false), m, f) == SetUp(p, Keeper(n.caches, n.spec, false), n, f);
  }

  // ---- A stage that reads too early ----

  lemma ClearedAfterRead(s: State, call: nat, path: string)
    requires s.chosen == map[] && s.node.nodeLabel.Some? && Holder(s.node.caches, path) == None
    requires SelectCache(s.node.caches, s.node.nodeLabel).Some?
    ensures Next(Next(s, Read(call, path)), Clear) ==
            s.(node := s.node.(nodeLabel := Some("")),
               chosen := map[call := Choice(path, SelectCache(s.node.caches, s.node.nodeLabel).value)])
  {
  }

  /** A stage that has read the label before it is cleared still adds its core to the retiring cache: on every node
      whose label names a retiring cache, for every path that no cache holds. */
  lemma EarlyReadHits(n: Node, c: Cache, call: nat, path: string, coreId: GoInt)
    requires c in n.caches && Retiring(c, n.spec, n.deleting) && n.nodeLabel == Some(Print(c.id)) && Holder(n.caches, path) == None
    ensures var s := Next(Next(State(n, map[], None), Read(call, path)), Clear);
            && s.node == n.(nodeLabel := Some(""))
            && c.(volumes := c.volumes[path := coreId]) in Next(s, Add(call, coreId, Done)).node.caches
  {
    var i :| 0 <= i < |n.caches| && n.caches[i] == c;
    RoundTrip(c.id);
    assert IdUsed(n.caches, c.id);
    assert SelectCache(n.caches, n.nodeLabel) == Some(c.id);
    ClearedAfterRead(State(n, map[], None), call, path);
    var s := Next(Next(State(n, map[], None), Read(call, path)), Clear);
    assert Next(s, Add(call, coreId, Done)).node.caches[i] == c.(volumes := c.volumes[path := coreId]);
  }
}

/** Concurrent Stage and Unstage calls at the granularity of single casadm commands. A call takes the per-volume
    lock (a hashed key mutex: volumes may share a lock), lists the caches, then adds or removes a core; operator
    starts and stops of caches interleave freely, since they take no such lock. */
module AttachInterleaving {
  import opened Text
  import opened Decimal
  import opened NodePlugin

  /** A core is named by its cache id and its own id. */
  type CoreKey = (GoInt, GoInt)

  datatype Kind = Staging | Unstaging

  /** Where a call stands. `Missing`: the list showed no core for the volume. `Chosen`: a cache to add it to was
      read from the label. `Targeted`: the list showed this core. `Served`: nothing left but to unlock. */
  datatype Stand = Waiting | Locked | Missing | Chosen(cache: GoInt) | Targeted(core: CoreKey) | Served

  datatype Call = Call(kind: Kind, vol: string, stand: Stand)

  /** `bucket` is the hash of the key mutex; `locks` maps a taken bucket to the call that holds it. */
  datatype State = State(bucket: string -> nat, running: set<GoInt>, cores: map<CoreKey, string>,
                         calls: map<nat, Call>, locks: map<nat, nat>)

  datatype Step =
    | Begin(id: nat, kind: Kind, vol: string)
    | Lock(id: nat)
    | LookUp(id: nat, seen: CoreKey)
    | Choose(id: nat, cache: GoInt)
    | Add(id: nat, coreId: GoInt, effective: bool)
    | Remove(id: nat, effective: bool)
    | Unlock(id: nat)
    | StartCache(cache: GoInt)
    | StopCache(cache: GoInt)

  predicate Attached(s: State, path: string) {
    exists k :: k in s.cores && s.cores[k] == path
  }

  function At(s: State, id: nat, stand: Stand): State
    requires id in s.calls
  {
    s.(calls := s.calls[id := s.calls[id].(stand := stand)])
  }

  /** Listing the caches: a stage learns whether the volume is attached, an unstage learns its core (`seen` picks
      one if there were several). */
  function LookedUp(s: State, id: nat, seen: CoreKey): State
    requires id in s.calls
  {
    var path := ByIdPath(s.calls[id].vol);
    if s.calls[id].kind == Staging then At(s, id, if Attached(s, path) then Served else Missing)
    else if seen in s.cores && s.cores[seen] == path then At(s, id, Targeted(seen))
    else if !Attached(s, path) then At(s, id, Served)
    else s
  }

  /** One step; a step whose guard does not hold changes nothing. A call may be unlocked from any place, since any
      command may fail and end it; an addition needs a running cache and a free core id. */
  function Next(s: State, step: Step): State {
    match step
    case Begin(id, kind, vol) => if id in s.calls then s else s.(calls := s.calls[id := Call(kind, vol, Waiting)])
    case StartCache(c) => s.(running := s.running + {c})
    case StopCache(c) =>
      s.(running := s.running - {c}, cores := map k | k in s.cores && k.0 != c :: s.cores[k])
    case _ =>
      if step.id !in s.calls then s
      else
        var id, call := step.id, s.calls[step.id];
        var b := s.bucket(call.vol);
        match step
        case Lock(_) =>
          if call.stand == Waiting && b !in s.locks then At(s, id, Locked).(locks := s.locks[b := id]) else s
        case LookUp(_, seen) => if call.stand == Locked then LookedUp(s, id, seen) else s
        case Choose(_, c) => if call.stand == Missing then At(s, id, Chosen(c)) else s
        case Add(_, coreId, effective) =>
          if !call.stand.Chosen? then s
          else
            var k := (call.stand.cache, coreId);
            if effective && k.0 in s.running && k !in s.cores
            then At(s, id, Served).(cores := s.cores[k := ByIdPath(call.vol)])
            else At(s, id, Served)
        case Remove(_, effective) =>
          if !call.stand.Targeted? then s
          else if effective then At(s, id, Served).(cores := s.cores - {call.stand.core})
          else At(s, id, Served)
        case Unlock(_) =>
          if call.stand == Waiting then s
          else s.(calls := s.calls - {id}, locks := s.locks - {b})
  }

  function Run(s: State, steps: seq<Step>): State
    decreases |steps|
  {
    if |steps| == 0 then s else Run(Next(s, steps[0]), steps[1..])
  }

  // ---- At most one core per volume ----

  /** No backend path belongs to two cores, in one cache or in several. */
  ghost predicate SingleCores(s: State) {
    forall k, l :: k in s.cores && l in s.cores && s.cores[k] == s.cores[l] ==> k == l
  }

  /** A call past its lock holds the bucket of its volume. */
  ghost predicate LocksHeld(s: State) {
    forall id :: id in s.calls && s.calls[id].stand != Waiting ==>
      s.bucket(s.calls[id].vol) in s.locks && s.locks[s.bucket(s.calls[id].vol)] == id
  }

  /** What a stage saw missing is still missing. */
  ghost predicate MissingStays(s: State) {
    forall id :: id in s.calls && (s.calls[id].stand == Missing || s.calls[id].stand.Chosen?) ==>
      !Attached(s, ByIdPath(s.calls[id].vol))
  }

  ghost predicate Inv(s: State) {
    SingleCores(s) && LocksHeld(s) && MissingStays(s)
  }

  lemma SameVolumeSameCall(s: State, i: nat, j: nat)
    requires LocksHeld(s) && i in s.calls && j in s.calls && s.calls[i].stand != Waiting && s.calls[j].stand != Waiting
    requires ByIdPath(s.calls[i].vol) == ByIdPath(s.calls[j].vol)
    ensures i == j
  {
    ByIdPathInjective(s.calls[i].vol, s.calls[j].vol);
  }

  /** Moving one call on, without touching cores or locks. */
  lemma MoveKeeps(s: State, id: nat, stand: Stand)
    requires Inv(s) && id in s.calls && s.calls[id].stand != Waiting
    requires stand == Missing || stand.Chosen? ==> !Attached(s, ByIdPath(s.calls[id].vol))
    ensures Inv(At(s, id, stand))
  {
    var t := At(s, id, stand);
    assert forall p :: Attached(t, p) <==> Attached(s, p);
  }

  /** Losing cores never hurts. */
  lemma FewerKeeps(s: State, cores: map<CoreKey, string>)
    requires Inv(s) && forall k :: k in cores ==> k in s.cores && s.cores[k] == cores[k]
    ensures Inv(s.(cores := cores))
  {
    var t := s.(cores := cores);
    assert forall p :: Attached(t, p) ==> Attached(s, p);
  }

  lemma LockKeeps(s: State, id: nat)
    requires Inv(s) && id in s.calls
    ensures Inv(Next(s, Lock(id)))
  {
    var t := Next(s, Lock(id));
    assert forall p :: Attached(t, p) <==> Attached(s, p);
  }

  lemma UnlockKeeps(s: State, id: nat)
    requires Inv(s) && id in s.calls
    ensures Inv(Next(s, Unlock(id)))
  {
    var t := Next(s, Unlock(id));
    assert forall p :: Attached(t, p) <==> Attached(s, p);
  }

  /** The decisive step: a stage adds a core for a volume that has none, and no other call is about to. */
  lemma AddKeeps(s: State, id: nat, coreId: GoInt, effective: bool)
    requires Inv(s) && id in s.calls && s.calls[id].stand.Chosen?
    ensures Inv(Next(s, Add(id, coreId, effective)))
  {
    var call := s.calls[id];
    var path, k := ByIdPath(call.vol), (call.stand.cache, coreId);
    var served := At(s, id, Served);
    MoveKeeps(s, id, Served);
    if effective && k.0 in s.running && k !in s.cores {
      var t := served.(cores := s.cores[k := path]);
      assert forall l :: l in s.cores ==> s.cores[l] != path;
      forall j | j in t.calls && (t.calls[j].stand == Missing || t.calls[j].stand.Chosen?)
        ensures !Attached(t, ByIdPath(t.calls[j].vol))
      {
        if ByIdPath(t.calls[j].vol) == path {
          SameVolumeSameCall(s, id, j);
          assert false;
        }
        assert !Attached(s, ByIdPath(s.calls[j].vol));
      }
    }
  }

  lemma StepKeeps(s: State, step: Step)
    requires Inv(s)
    ensures Inv(Next(s, step))
  {
    match step
    case Begin(id, kind, vol) =>
      var t := Next(s, step);
      assert forall p :: Attached(t, p) <==> Attached(s, p);
    case StartCache(c) =>
      var t := Next(s, step);
      assert forall p :: Attached(t, p) <==> Attached(s, p);
    case StopCache(c) =>
      var fewer := s.(cores := Next(s, step).cores);
      FewerKeeps(s, Next(s, step).cores);
      assert forall p :: Attached(Next(s, step), p) <==> Attached(fewer, p);
    case _ =>
      if step.id in s.calls {
        CallStepKeeps(s, step);
      }
  }

  lemma CallStepKeeps(s: State, step: Step)
    requires Inv(s) && !step.Begin? && !step.StartCache? && !step.StopCache? && step.id in s.calls
    ensures Inv(Next(s, step))
  {
    var id, stand := step.id, s.calls[step.id].stand;
    match step
    case Lock(_) => LockKeeps(s, id);
    case Unlock(_) => UnlockKeeps(s, id);
    case LookUp(_, seen) =>
      if stand == Locked && Next(s, step) != s {
        MoveKeeps(s, id, Next(s, step).calls[id].stand);
      }
    case Choose(_, c) =>
      if stand == Missing {
        MoveKeeps(s, id, Chosen(c));
      }
    case Add(_, coreId, effective) =>
      if stand.Chosen? {
        AddKeeps(s, id, coreId, effective);
      }
    case Remove(_, effective) =>
      if stand.Targeted? {
        MoveKeeps(s, id, Served);
        FewerKeeps(At(s, id, Served), s.cores - {stand.core});
      }
  }

  /** At most one core per volume across all caches of a node, in every interleaving of any number of calls for any
      volumes, with operator starts and stops in between. */
  lemma AtMostOneCore(s: State, steps: seq<Step>)
    requires SingleCores(s) && s.calls == map[]
    ensures SingleCores(Run(s, steps))
  {
    RunKeeps(s, steps);
  }

  lemma {:induction false} RunKeeps(s: State, steps: seq<Step>)
    requires Inv(s)
    ensures Inv(Run(s, steps))
    decreases |steps|
  {
    if |steps| > 0 {
      StepKeeps(s, steps[0]);
      RunKeeps(Next(s, steps[0]), steps[1..]);
    }
  }

  // ---- What an unstage removes ----

  /** The core a call is about to remove. */
  function Target(s: State, id: nat): Option<CoreKey> {
    if id in s.calls && s.calls[id].stand.Targeted? then Some(s.calls[id].stand.core) else None
  }

  /** The step adds a core under this key. */
  predicate Adds(s: State, step: Step, k: CoreKey) {
    && step.Add? && step.effective && step.id in s.calls && s.calls[step.id].stand == Chosen(k.0) && step.coreId == k.1
    && k.0 in s.running && k !in s.cores
  }

  /** The step removes whatever is under this key. */
  predicate Removes(s: State, step: Step, k: CoreKey) {
    step.Remove? && step.effective && Target(s, step.id) == Some(k)
  }

  /** What has become of a targeted key since its lookup, told from the steps alone: its core is `InPlace`; its cache
      was stopped and is `Down`; the cache was started again and the key is `Vacant`; a core was added under it again,
      so it is `Reused`, until that core is removed. Only a stop leads away from `InPlace`. */
  datatype Watch = Idle | InPlace | Down | Vacant | Reused

  function Advance(s: State, step: Step, id: nat, h: Watch): Watch {
    match Target(Next(s, step), id)
    case None => Idle
    case Some(k) =>
      if Target(s, id) == None then InPlace
      else if step == StopCache(k.0) then Down
      else if step == StartCache(k.0) && h == Down then Vacant
      else if Adds(s, step, k) && h == Vacant then Reused
      else if Removes(s, step, k) && h == Reused then Vacant
      else h
  }

  /** The watch tells the truth. */
  ghost predicate Watched(s: State, id: nat, h: Watch) {
    match Target(s, id)
    case None => h == Idle
    case Some(k) =>
      match h
      case Idle => false
      case InPlace => k in s.cores && s.cores[k] == ByIdPath(s.calls[id].vol)
      case Down => k !in s.cores && k.0 !in s.running
      case Vacant => k !in s.cores
      case Reused => k in s.cores && s.cores[k] != ByIdPath(s.calls[id].vol)
  }

  /** How a targeted key changes hands in one step that leaves the call aimed at it. */
  lemma KeyChanges(s: State, step: Step, k: CoreKey)
    ensures var t := Next(s, step);
            && (step == StopCache(k.0) ==> k !in t.cores && k.0 !in t.running)
            && (Adds(s, step, k) ==> k in t.cores && t.cores[k] == ByIdPath(s.calls[step.id].vol))
            && (Removes(s, step, k) ==> k !in t.cores)
            && (step != StopCache(k.0) && !Adds(s, step, k) && !Removes(s, step, k) ==>
                  (k in t.cores <==> k in s.cores) && (k in s.cores ==> t.cores[k] == s.cores[k]))
            && (step != StopCache(k.0) && step != StartCache(k.0) ==> (k.0 in t.running <==> k.0 in s.running))
  {
    assert k == (k.0, k.1);
  }

  lemma TargetStays(s: State, step: Step, id: nat)
    requires Target(s, id).Some? && Target(Next(s, step), id).Some?
    ensures Next(s, step).calls[id] == s.calls[id]
  {
  }

  lemma TargetIsNew(s: State, step: Step, id: nat)
    requires Target(s, id) == None && Target(Next(s, step), id).Some?
    ensures Watched(Next(s, step), id, InPlace)
  {
  }

  /** A core in place is taken from under its call only by a call whose own key is reused. */
  lemma TakenByMisdirection(s: State, step: Step, id: nat, g: Watch)
    requires Inv(s) && Watched(s, id, InPlace) && Target(s, id).Some?
    requires Removes(s, step, Target(s, id).value) && step.id != id && Watched(s, step.id, g)
    ensures g == Reused
  {
    if s.cores[Target(s, id).value] == ByIdPath(s.calls[step.id].vol) {
      SameVolumeSameCall(s, step.id, id);
      assert false;
    }
  }

  /** The watches of all calls. */
  function AdvanceAll(s: State, step: Step, all: nat -> Watch): nat -> Watch {
    (id: nat) => Advance(s, step, id, all(id))
  }

  ghost predicate AllWatched(s: State, all: nat -> Watch) {
    forall id: nat :: Watched(s, id, all(id))
  }

  /** The step removes a key that was stopped, restarted and added again since the lookup of the call. */
  predicate RemovesReused(step: Step, all: nat -> Watch) {
    step.Remove? && step.effective && all(step.id) == Reused
  }

  lemma WatchKept(s: State, step: Step, id: nat, all: nat -> Watch)
    requires Inv(s) && AllWatched(s, all) && !RemovesReused(step, all)
    ensures Watched(Next(s, step), id, Advance(s, step, id, all(id)))
  {
    assert Watched(s, id, all(id));
    match Target(Next(s, step), id)
    case None =>
    case Some(k) =>
      if Target(s, id) == None {
        TargetIsNew(s, step, id);
      } else {
        TargetStays(s, step, id);
        KeyChanges(s, step, k);
        if Adds(s, step, k) && ByIdPath(s.calls[step.id].vol) == ByIdPath(s.calls[id].vol) {
          SameVolumeSameCall(s, step.id, id);
          assert false;
        }
        if Removes(s, step, k) && all(id) == InPlace {
          RemoverServed(s, step);
          TakenByMisdirection(s, step, id, all(step.id));
          assert false;
        }
      }
  }

  /** After its removal a call is aimed at nothing. */
  lemma RemoverServed(s: State, step: Step)
    requires step.Remove? && Target(s, step.id).Some?
    ensures Target(Next(s, step), step.id) == None
  {
  }

  /** Whatever core a removal takes away is the volume's of the call that removes it. */
  ghost predicate RemovesOwn(s: State, step: Step) {
    step.Remove? ==>
      forall k :: k in s.cores && k !in Next(s, step).cores ==> step.id in s.calls && s.cores[k] == ByIdPath(s.calls[step.id].vol)
  }

  lemma RemovalIsOwn(s: State, step: Step, all: nat -> Watch)
    requires AllWatched(s, all)
    ensures RemovesOwn(s, step) <==> !RemovesReused(step, all)
  {
    if step.Remove? {
      assert Watched(s, step.id, all(step.id));
      if step.effective && Target(s, step.id).Some? {
        var k := Target(s, step.id).value;
        assert Next(s, step).cores == s.cores - {k};
        assert all(step.id) == Reused ==> k in s.cores && k !in Next(s, step).cores;
      }
    }
  }

  ghost predicate AllOwn(s: State, steps: seq<Step>)
    decreases |steps|
  {
    |steps| == 0 || (RemovesOwn(s, steps[0]) && AllOwn(Next(s, steps[0]), steps[1..]))
  }

  predicate NeverReused(s: State, steps: seq<Step>, all: nat -> Watch)
    decreases |steps|
  {
    |steps| == 0 || (!RemovesReused(steps[0], all) && NeverReused(Next(s, steps[0]), steps[1..], AdvanceAll(s, steps[0], all)))
  }

  lemma {:induction false} OwnExactly(s: State, steps: seq<Step>, all: nat -> Watch)
    requires Inv(s) && AllWatched(s, all)
    ensures AllOwn(s, steps) <==> NeverReused(s, steps, all)
    decreases |steps|
  {
    if |steps| > 0 {
      RemovalIsOwn(s, steps[0], all);
      if !RemovesReused(steps[0], all) {
        StepKeeps(s, steps[0]);
        forall id: nat ensures Watched(Next(s, steps[0]), id, AdvanceAll(s, steps[0], all)(id)) {
          WatchKept(s, steps[0], id, all);
        }
        OwnExactly(Next(s, steps[0]), steps[1..], AdvanceAll(s, steps[0], all));
      }
    }
  }

  /** Over every interleaving, all removals take away the core of their own volume exactly if no call removes a key that
      was stopped, restarted and added again between the call's lookup and its removal. */
  lemma RemovalsOwnExactly(s: State, steps: seq<Step>)
    requires SingleCores(s) && s.calls == map[]
    ensures AllOwn(s, steps) <==> NeverReused(s, steps, (id: nat) => Idle)
  {
    OwnExactly(s, steps, (id: nat) => Idle);
  }

  // ---- The removal of another volume's core ----

  /** An unstage of `v` looks up its core, the cache is restarted, a stage of `w` is given the same ids. */
  function Misdirection(v: string, w: string, k: CoreKey): seq<Step> {
    [Begin(0, Unstaging, v), Lock(0), LookUp(0, k), StopCache(k.0), StartCache(k.0)]
    + [Begin(1, Staging, w), Lock(1), LookUp(1, k), Choose(1, k.0), Add(1, k.1, true)]
  }

  lemma {:induction false} RunAppend(s: State, a: seq<Step>, b: seq<Step>)
    ensures Run(s, a + b) == Run(Run(s, a), b)
    decreases |a|
  {
    if |a| == 0 {
      assert a + b == b;
    } else {
      assert (a + b)[0] == a[0] && (a + b)[1..] == a[1..] + b;
      RunAppend(Next(s, a[0]), a[1..], b);
    }
  }

  lemma RunCons(s: State, a: Step, rest: seq<Step>)
    ensures Run(s, [a] + rest) == Run(Next(s, a), rest)
  {
    assert ([a] + rest)[1..] == rest;
  }

  lemma RunFive(s: State, a: Step, b: Step, c: Step, d: Step, e: Step)
    ensures Run(s, [a, b, c, d, e]) == Next(Next(Next(Next(Next(s, a), b), c), d), e)
  {
    RunCons(s, a, [b, c, d, e]);
    RunCons(Next(s, a), b, [c, d, e]);
    RunCons(Next(Next(s, a), b), c, [d, e]);
    RunCons(Next(Next(Next(s, a), b), c), d, [e]);
    RunCons(Next(Next(Next(Next(s, a), b), c), d), e, []);
    assert [a, b, c, d, e] == [a] + [b, c, d, e] && [b, c, d, e] == [b] + [c, d, e];
    assert [c, d, e] == [c] + [d, e] && [d, e] == [d] + [e] && [e] == [e] + [];
  }

  /** A new call takes its lock. */
  lemma Enters(s: State, id: nat, kind: Kind, v: string)
    requires id !in s.calls && s.bucket(v) !in s.locks
    ensures Next(Next(s, Begin(id, kind, v)), Lock(id)) ==
            s.(calls := s.calls[id := Call(kind, v, Locked)], locks := s.locks[s.bucket(v) := id])
  {
    var a := Next(s, Begin(id, kind, v));
    assert a.calls[id := Call(kind, v, Locked)] == s.calls[id := Call(kind, v, Locked)];
  }

  lemma UnstageLooks(s: State, v: string, k: CoreKey)
    requires s.calls == map[] && s.locks == map[] && s.cores == map[k := ByIdPath(v)]
    ensures var t := Run(s, [Begin(0, Unstaging, v), Lock(0), LookUp(0, k), StopCache(k.0), StartCache(k.0)]);
            && t.bucket == s.bucket && k.0 in t.running && t.cores == map[]
            && t.calls == map[0 := Call(Unstaging, v, Targeted(k))] && t.locks == map[s.bucket(v) := 0]
  {
    RunFive(s, Begin(0, Unstaging, v), Lock(0), LookUp(0, k), StopCache(k.0), StartCache(k.0));
    Enters(s, 0, Unstaging, v);
    var a := Next(Next(s, Begin(0, Unstaging, v)), Lock(0));
    assert Next(a, LookUp(0, k)).calls == map[0 := Call(Unstaging, v, Targeted(k))];
  }

  lemma StageFinds(s: State, w: string, k: CoreKey)
    requires s.cores == map[] && 1 !in s.calls && s.bucket(w) !in s.locks
    ensures var t := Next(Next(Next(s, Begin(1, Staging, w)), Lock(1)), LookUp(1, k));
            t == s.(calls := s.calls[1 := Call(Staging, w, Missing)], locks := s.locks[s.bucket(w) := 1])
  {
    Enters(s, 1, Staging, w);
    var a := Next(Next(s, Begin(1, Staging, w)), Lock(1));
    assert !Attached(a, ByIdPath(w));
  }

  lemma StageAdds(s: State, w: string, k: CoreKey)
    requires k.0 in s.running && s.cores == map[] && 1 in s.calls && s.calls[1] == Call(Staging, w, Missing)
    ensures var t := Next(Next(s, Choose(1, k.0)), Add(1, k.1, true));
            t.cores == map[k := ByIdPath(w)] && t.calls == s.calls[1 := Call(Staging, w, Served)]
  {
    assert k == (k.0, k.1);
  }

  lemma StageReuses(s: State, v: string, w: string, k: CoreKey)
    requires k.0 in s.running && s.cores == map[] && s.bucket(v) != s.bucket(w)
    requires s.calls == map[0 := Call(Unstaging, v, Targeted(k))] && s.locks == map[s.bucket(v) := 0]
    ensures var t := Run(s, [Begin(1, Staging, w), Lock(1), LookUp(1, k), Choose(1, k.0), Add(1, k.1, true)]);
            t.cores == map[k := ByIdPath(w)] && Target(t, 0) == Some(k) && t.calls[0].vol == v
  {
    RunFive(s, Begin(1, Staging, w), Lock(1), LookUp(1, k), Choose(1, k.0), Add(1, k.1, true));
    StageFinds(s, w, k);
    StageAdds(Next(Next(Next(s, Begin(1, Staging, w)), Lock(1)), LookUp(1, k)), w, k);
  }

  /** Cores are removed by their ids: from a quiet node with one core, for every volume `w` that does not share the
      lock of `v`, this run leaves `w` attached under the ids of `v`, and the unstage of `v` then takes it away. */
  lemma StopMisdirects(s: State, v: string, w: string, k: CoreKey)
    requires s.calls == map[] && s.locks == map[] && s.cores == map[k := ByIdPath(v)] && s.bucket(v) != s.bucket(w)
    ensures var t := Run(s, Misdirection(v, w, k));
            && t.cores == map[k := ByIdPath(w)] && Next(t, Remove(0, true)).cores == map[]
            && !RemovesOwn(t, Remove(0, true))
  {
    var first := [Begin(0, Unstaging, v), Lock(0), LookUp(0, k), StopCache(k.0), StartCache(k.0)];
    var second := [Begin(1, Staging, w), Lock(1), LookUp(1, k), Choose(1, k.0), Add(1, k.1, true)];
    RunAppend(s, first, second);
    UnstageLooks(s, v, k);
    StageReuses(Run(s, first), v, w, k);
    var t := Run(s, Misdirection(v, w, k));
    if ByIdPath(v) == ByIdPath(w) {
      ByIdPathInjective(v, w);
      assert false;
    }
    assert k in t.cores && k !in Next(t, Remove(0, true)).cores && t.calls[0].vol == v;
  }

  /** The same with nothing left open: volumes "a" and "bb", core 1 of cache 1. */
  lemma StopMisdirectsHere()
    ensures var s := State((v: string) => |v|, {1}, map[(1, 1) := ByIdPath("a")], map[], map[]);
            && SingleCores(s) && s.calls == map[]
            && !AllOwn(s, Misdirection("a", "bb", (1, 1)) + [Remove(0, true)])
  {
    var s := State((v: string) => |v|, {1}, map[(1, 1) := ByIdPath("a")], map[], map[]);
    StopMisdirects(s, "a", "bb", (1, 1));
    NotAllOwn(s, Misdirection("a", "bb", (1, 1)), Remove(0, true));
  }

  lemma {:induction false} NotAllOwn(s: State, steps: seq<Step>, last: Step)
    requires !RemovesOwn(Run(s, steps), last)
    ensures !AllOwn(s, steps + [last])
    decreases |steps|
  {
    if |steps| == 0 {
      assert steps + [last] == [last];
    } else {
      assert (steps + [last])[0] == steps[0] && (steps + [last])[1..] == steps[1..] + [last];
      NotAllOwn(Next(s, steps[0]), steps[1..], last);
    }
  }
}

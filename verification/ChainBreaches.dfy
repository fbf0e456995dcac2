/** When the volume chain is in danger: the exact condition on the state before a call, and how each breach goes on
    to break the chain. */
module ChainBreaches {
  import opened Text
  import opened Decimal
  import opened Outcomes
  import opened CacheHost
  import opened NodePlugin
  import opened ProtectedObjects
  import opened VolumeRequest
  import opened Attachments
  import opened VolumeChain
  import R = CacheReconciler

  // ---- The condition before the call ----

  /** The same request in the same circumstances; what goes wrong in serving it may differ. */
  predicate SameCall(a: Step, b: Step) {
    match a
    case CreateVolume(v, f) =>
      b.CreateVolume? && b.vol == v && b.creation.capabilities == f.capabilities && b.creation.parameters == f.parameters
    case DeleteVolume(v, _) => b.DeleteVolume? && b.vol == v
    case ControllerPublish(v, n, f) =>
      b.ControllerPublish? && b.vol == v && b.node == n && b.attachment.capability == f.capability
    case ControllerUnpublish(v, n, _) => b.ControllerUnpublish? && b.vol == v && b.node == n
    case NodeStage(n, r, _) => b.NodeStage? && b.node == n && b.request == r
    case NodeUnstage(v, n, target, f) =>
      b.NodeUnstage? && b.vol == v && b.node == n && b.target == target && b.unstaging.pv == f.pv
    case Reconcile(n, resource, finalizer, deleting, _) =>
      b.Reconcile? && b.node == n && b.resource == resource && b.finalizer == finalizer && b.deleting == deleting
    case DeletePod(name) => b.DeletePod? && b.name == name
    case DeleteClaim(name) => b.DeleteClaim? && b.name == name
    case Reboot(n) => b.Reboot? && b.node == n
  }

  predicate CreateRisky(w: World, v: string, f: CreateVolumeCall) {
    v != "" && Acceptable(f.capabilities, f.parameters) && Exposed(w.cluster.claims, ClaimName(v))
  }

  predicate PublishRisky(w: World, v: string, n: string, f: AttachFaults) {
    v != "" && n != "" && f.capability && Exposed(w.cluster.pods, PodName(n, v))
  }

  predicate UnstageRisky(w: World, v: string, n: string, target: string, f: UnstageFaults)
    requires MayUnstage(w, v, n)
  {
    v != "" && target != "" && f.pv == Absent && Held(w.nodes[n].caches, ByIdPath(v))
  }

  /** What can be told before the call: a well-formed request to create or publish a volume whose claim or Pod is there
      without its label, or to unstage an attached volume whose PV is gone. */
  predicate Risky(w: World, step: Step)
    requires Allowed(w, step)
  {
    match step
    case CreateVolume(v, f) => CreateRisky(w, v, f)
    case ControllerPublish(v, n, f) => PublishRisky(w, v, n, f)
    case NodeUnstage(v, n, target, f) => UnstageRisky(w, v, n, target, f)
    case _ => false
  }

  lemma SameRisk(w: World, a: Step, b: Step)
    requires Allowed(w, a) && SameCall(a, b)
    ensures Allowed(w, b) && (Risky(w, a) <==> Risky(w, b))
  {
  }

  lemma BreachIsRisky(w: World, step: Step)
    requires Allowed(w, step) && Breach(w, step)
    ensures Risky(w, step)
  {
  }

  /** Nothing goes wrong in a publication. */
  function Smooth(): AttachFaults {
    AttachFaults(true, true, true, CreateFaults(Done, Running), DeleteFaults(true, Done, false, Done, false), true, true, true)
  }

  /** Nothing goes wrong in an unstage, but the PV is gone. */
  function SmoothUnstage(): UnstageFaults {
    UnstageFaults(true, true, Present, Absent, Present, true, Done)
  }

  lemma PublishCanBreach(w: World, v: string, n: string, f: AttachFaults)
    requires Inv(w) && MayPublish(w, v, n) && PublishRisky(w, v, n, f)
    ensures PublishBreach(w, v, n, Smooth())
  {
    assert v in Claimed(w.cluster.claims);
  }

  lemma UnstageCanBreach(w: World, v: string, n: string, target: string, f: UnstageFaults)
    requires Inv(w) && MayUnstage(w, v, n) && UnstageRisky(w, v, n, target, f)
    ensures UnstageBreach(w, v, n, target, SmoothUnstage())
  {
    UnstageSees(w, v, n);
    UnstagedWithoutPv(w.nodes[n], v, target);
  }

  lemma UnstageSees(w: World, v: string, n: string)
    requires Inv(w) && MayUnstage(w, v, n)
    ensures UnstageView(w, n, v, SmoothUnstage()) == SmoothUnstage()
  {
    assert (n, v) in Podded(w.idLength, w.cluster.pods);
    assert PodName((n, v).0, (n, v).1) in w.cluster.pods;
  }

  lemma UnstagedWithoutPv(s: Plugin, v: string, target: string)
    requires v != "" && target != ""
    ensures NodePlugin.Unstaged(s, v, target, SmoothUnstage()).1 == OK
  {
  }

  /** A risky call is a breach if nothing else goes wrong in it. */
  lemma RiskyCanBreach(w: World, step: Step) returns (call: Step)
    requires Inv(w) && Allowed(w, step) && Risky(w, step)
    ensures SameCall(step, call) && Allowed(w, call) && Breach(w, call)
  {
    match step
    case CreateVolume(v, f) => call := CreateVolume(v, f.(storageClass := true, lookup := true));
    case ControllerPublish(v, n, f) =>
      PublishCanBreach(w, v, n, f);
      call := ControllerPublish(v, n, Smooth());
    case NodeUnstage(v, n, target, f) =>
      UnstageCanBreach(w, v, n, target, f);
      call := NodeUnstage(v, n, target, SmoothUnstage());
  }

  /** However the call goes, the invariant holds after it. */
  ghost predicate Safe(w: World, step: Step) {
    forall call :: SameCall(step, call) && Allowed(w, call) ==> Inv(Next(w, call))
  }

  /** A call keeps the invariant, however it goes, exactly if it is not risky. */
  lemma CallSafeExactly(w: World, step: Step)
    requires Inv(w) && Allowed(w, step)
    ensures Safe(w, step) <==> !Risky(w, step)
  {
    if Risky(w, step) {
      var call := RiskyCanBreach(w, step);
      StepExactly(w, call);
    } else {
      forall call | SameCall(step, call) && Allowed(w, call) ensures Inv(Next(w, call)) {
        NotRiskyKeeps(w, step, call);
      }
    }
  }

  lemma NotRiskyKeeps(w: World, step: Step, call: Step)
    requires Inv(w) && Allowed(w, step) && !Risky(w, step) && SameCall(step, call) && Allowed(w, call)
    ensures Inv(Next(w, call))
  {
    SameRisk(w, step, call);
    StepExactly(w, call);
    if Breach(w, call) {
      BreachIsRisky(w, call);
    }
  }

  // ---- Whole runs ----

  /** No call of the run is risky when it is issued. */
  predicate Cautious(w: World, steps: seq<Step>)
    requires AllowedRun(w, steps)
    decreases |steps|
  {
    |steps| == 0 || (!Risky(w, steps[0]) && Cautious(Next(w, steps[0]), steps[1..]))
  }

  /** No call of the run could have gone so as to violate the invariant. */
  ghost predicate AlwaysSafe(w: World, steps: seq<Step>)
    requires AllowedRun(w, steps)
    decreases |steps|
  {
    |steps| == 0 || (Safe(w, steps[0]) && AlwaysSafe(Next(w, steps[0]), steps[1..]))
  }

  /** Over every run, no call could have violated the invariant exactly if none was risky when it was issued. */
  lemma {:induction false} RunSafeExactly(w: World, steps: seq<Step>)
    requires Inv(w) && AllowedRun(w, steps)
    ensures AlwaysSafe(w, steps) <==> Cautious(w, steps)
    decreases |steps|
  {
    if |steps| > 0 {
      CallSafeExactly(w, steps[0]);
      if !Risky(w, steps[0]) {
        NotRiskyKeeps(w, steps[0], steps[0]);
        RunSafeExactly(Next(w, steps[0]), steps[1..]);
      }
    }
  }

  lemma {:induction false} CautiousNoBreach(w: World, steps: seq<Step>)
    requires AllowedRun(w, steps) && Cautious(w, steps)
    ensures NoBreach(w, steps)
    decreases |steps|
  {
    if |steps| > 0 {
      if Breach(w, steps[0]) {
        BreachIsRisky(w, steps[0]);
      }
      CautiousNoBreach(Next(w, steps[0]), steps[1..]);
    }
  }

  /** An orchestrator that issues no risky call keeps the chain, whatever else happens and fails. */
  lemma CautionKeepsChain(w: World, steps: seq<Step>)
    requires Inv(w) && AllowedRun(w, steps) && Cautious(w, steps)
    ensures Inv(Run(w, steps)) && Chain(Run(w, steps))
  {
    CautiousNoBreach(w, steps);
    ChainKept(w, steps);
  }

  // ---- Every breach can go on to break the chain ----

  lemma NoChain(w: World, n: string, v: string)
    requires n in w.nodes && Held(w.nodes[n].caches, ByIdPath(v))
    requires !Protected(w.cluster.pods, PodName(n, v)) || v !in w.nodes[n].links
    ensures !Chain(w)
  {
  }

  /** A breach by an unstage breaks the chain at once: the core loses its link. */
  lemma UnstageBreaks(w: World, v: string, n: string, target: string, f: UnstageFaults)
    requires MayUnstage(w, v, n) && UnstageBreach(w, v, n, target, f)
    ensures !Chain(AfterUnstage(w, v, n, target, f))
  {
    UnstageCallRefines(w.nodes[n], v, target, UnstageView(w, n, v, f));
    NoChain(AfterUnstage(w, v, n, target, f), n, v);
  }

  /** After a breach by a creation the volume is on no node, so its Pods are not protected. */
  lemma CreateBreachPlaces(w: World, v: string, n: string, f: CreateVolumeCall)
    requires Inv(w) && MayCreate(w, v) && CreateBreach(w, v, f)
    ensures (n, v) !in w.places && !Protected(w.cluster.pods, PodName(n, v))
    ensures AfterCreate(w, v, f) == w.(volumes := w.volumes[v := Ready])
  {
    assert v !in Claimed(w.cluster.claims);
    assert (n, v) in w.places ==> (n, v).1 in Claimed(w.cluster.claims);
    assert (n, v) in Podded(w.idLength, w.cluster.pods) <==> Protected(w.cluster.pods, PodName(n, v));
  }

  lemma PublishFresh(c: Cluster, v: string, n: string)
    requires v != "" && n != "" && ClaimName(v) in c.claims && PodName(n, v) !in c.pods
    ensures ControllerPublished(c, v, n, Smooth()) == (c.(pods := c.pods[PodName(n, v) := map[LABEL := ""]]), OK)
  {
  }

  lemma DeletedExposed(objects: Store, name: string)
    requires name != "" && !Protected(objects, name)
    ensures name !in Deleted(objects, name)
  {
  }

  /** After a breach by a creation, one smooth publish on any node breaks the chain: its protected Pod has no protected
      claim. A third party may have to make way for it first. */
  lemma CreateBreaks(w: World, v: string, n: string, f: CreateVolumeCall)
    requires Inv(w) && MayCreate(w, v) && CreateBreach(w, v, f) && n in w.nodes && n != ""
    ensures Ruins(w, CreateVolume(v, f), [DeletePod(PodName(n, v)), ControllerPublish(v, n, Smooth())])
  {
    var name, t := PodName(n, v), AfterCreate(w, v, f);
    CreateBreachPlaces(w, v, n, f);
    var u := Next(t, DeletePod(name));
    DeletedExposed(w.cluster.pods, name);
    PublishFresh(u.cluster, v, n);
    var x := AfterPublish(u, v, n, Smooth());
    assert Protected(x.cluster.pods, name) && !Protected(x.cluster.claims, ClaimName(v)) && |v| == x.idLength;
    assert !Chain(x);
    TwoSteps(t, DeletePod(name), ControllerPublish(v, n, Smooth()));
  }

  lemma TwoSteps(w: World, a: Step, b: Step)
    requires Allowed(w, a) && Allowed(Next(w, a), b) && !Risky(w, a) && !Risky(Next(w, a), b)
    ensures AllowedRun(w, [a, b]) && Cautious(w, [a, b]) && Run(w, [a, b]) == Next(Next(w, a), b)
  {
    OneStep(Next(w, a), b);
    assert [a, b][1..] == [b];
  }

  lemma OneStep(w: World, a: Step)
    requires Allowed(w, a) && !Risky(w, a)
    ensures AllowedRun(w, [a]) && Cautious(w, [a]) && Run(w, [a]) == Next(w, a)
  {
    assert [a][1..] == [];
  }

  /** A cache for a node that has just been rebooted. */
  const SPEC := R.Spec("/dev/cache", 4, "wt")

  function Quiet(): R.Faults {
    R.Faults(true, true, true, (id: GoInt) => true, (id: GoInt) => Done, true, Done, Done, 1, true, true, true)
  }

  lemma StartsOnEmpty(s: Plugin)
    requires s.caches == []
    ensures var t := Operated(s, SPEC, true, false, Quiet());
            t == s.(caches := [Cache(1, "/dev/cache", "wt", 4, map[])], nodeLabel := Some(Print(1)))
  {
    var n := R.Node([], s.nodeLabel, SPEC, true, false);
    assert R.Retirees([], SPEC, false) == [] && R.Keeper([], SPEC, false) == None;
    var p := R.RetireAll([], [], s.nodeLabel, false, Quiet());
    assert p == R.Progress([], s.nodeLabel, false);
    assert [] + [Started("/dev/cache", "wt", 4, 1)] == [Cache(1, "/dev/cache", "wt", 4, map[])];
  }

  function BlockRequest(v: string): StageRequest {
    StageRequest(v, "/staging", Some(Block), "pv")
  }

  function SmoothStage(): StageFaults {
    StageFaults(Present, true, true, true, true, 1, Done, true, true, true, MountFaults(true, true, true, []))
  }

  lemma StagesOnEmpty(s: Plugin, v: string)
    requires v != "" && s.caches == [Cache(1, "/dev/cache", "wt", 4, map[])] && s.nodeLabel == Some(Print(1))
    ensures NodePlugin.Staged(s, BlockRequest(v), SmoothStage()).1 == OK
  {
    RoundTrip(1);
    PrintDigits(1);
    assert s.caches[0].id == 1;
    assert IdUsed(s.caches, 1);
    assert SelectCache(s.caches, s.nodeLabel) == Some(1);
  }

  /** The rest of the run after a breach by a publication: the node is rebooted, its cache started, the volume staged,
      and somebody asks for the deletion of its Pod. */
  function Aftermath(v: string, n: string): seq<Step> {
    [Reboot(n), Reconcile(n, SPEC, true, false, Quiet())] + [NodeStage(n, BlockRequest(v), SmoothStage()), DeletePod(PodName(n, v))]
  }

  lemma {:induction false} Appended(w: World, a: seq<Step>, b: seq<Step>)
    requires AllowedRun(w, a) && Cautious(w, a) && AllowedRun(Run(w, a), b) && Cautious(Run(w, a), b)
    ensures AllowedRun(w, a + b) && Cautious(w, a + b) && Run(w, a + b) == Run(Run(w, a), b)
    decreases |a|
  {
    if |a| == 0 {
      assert a + b == b;
    } else {
      assert (a + b)[0] == a[0] && (a + b)[1..] == a[1..] + b;
      Appended(Next(w, a[0]), a[1..], b);
    }
  }

  lemma RestartedNode(w: World, n: string)
    requires n in w.nodes
    ensures var steps := [Reboot(n), Reconcile(n, SPEC, true, false, Quiet())];
            && AllowedRun(w, steps) && Cautious(w, steps)
            && var t := Run(w, steps);
               && n in t.nodes && t == WithNode(w, n, t.nodes[n])
               && t.nodes[n].caches == [Cache(1, "/dev/cache", "wt", 4, map[])] && t.nodes[n].nodeLabel == Some(Print(1))
  {
    var a, b := Reboot(n), Reconcile(n, SPEC, true, false, Quiet());
    TwoSteps(w, a, b);
    StartsOnEmpty(Rebooted(w.nodes[n]));
    var t := Next(Next(w, a), b);
    assert t.nodes == w.nodes[n := t.nodes[n]];
  }

  /** After any breach by a publication, once the volume is staged, one third-party delete request breaks the
      chain: the core loses its Pod. */
  lemma BreachBites(w: World, v: string, n: string, r: StageRequest, g: StageFaults)
    requires MayStage(w, n, v) && !Protected(w.cluster.pods, PodName(n, v)) && r.volId == v && StageCall(w, n, r, g).1 == OK
    ensures var steps := [NodeStage(n, r, g), DeletePod(PodName(n, v))];
            AllowedRun(w, steps) && Cautious(w, steps) && !Chain(Run(w, steps))
  {
    var t := AfterStage(w, n, r, g);
    StageCallRefines(w.nodes[n], r, g.(pod := Seen(w, n, v, g.pod)));
    NoChain(Next(t, DeletePod(PodName(n, v))), n, v);
    TwoSteps(w, NodeStage(n, r, g), DeletePod(PodName(n, v)));
  }

  lemma PublishBreaks(w: World, v: string, n: string, f: AttachFaults)
    requires MayPublish(w, v, n) && PublishBreach(w, v, n, f)
    ensures Ruins(w, ControllerPublish(v, n, f), Aftermath(v, n))
  {
    var t := AfterPublish(w, v, n, f);
    PublishPod(w.cluster, v, n, f);
    RestartedNode(t, n);
    var first := [Reboot(n), Reconcile(n, SPEC, true, false, Quiet())];
    var u := Run(t, first);
    StagesOnEmpty(u.nodes[n], v);
    assert SmoothStage().(pod := Present) == SmoothStage();
    BreachBites(u, v, n, BlockRequest(v), SmoothStage());
    Appended(t, first, [NodeStage(n, BlockRequest(v), SmoothStage()), DeletePod(PodName(n, v))]);
  }

  /** The call goes through, and a run that follows, with no risky call in it, ends with a broken chain. */
  ghost predicate Ruins(w: World, call: Step, rest: seq<Step>) {
    Allowed(w, call) && AllowedRun(Next(w, call), rest) && Cautious(Next(w, call), rest) && !Chain(Run(Next(w, call), rest))
  }

  lemma UnstageRuins(w: World, v: string, n: string, target: string, f: UnstageFaults)
    requires MayUnstage(w, v, n) && UnstageBreach(w, v, n, target, f)
    ensures Ruins(w, NodeUnstage(v, n, target, f), [])
  {
    UnstageBreaks(w, v, n, target, f);
  }

  lemma BreachRuins(w: World, call: Step, n: string) returns (rest: seq<Step>)
    requires Inv(w) && Allowed(w, call) && Breach(w, call) && n in w.nodes && n != ""
    ensures Ruins(w, call, rest)
  {
    match call
    case CreateVolume(v, f) =>
      CreateBreaks(w, v, n, f);
      rest := [DeletePod(PodName(n, v)), ControllerPublish(v, n, Smooth())];
    case ControllerPublish(v, m, f) =>
      PublishBreaks(w, v, m, f);
      rest := Aftermath(v, m);
    case NodeUnstage(v, m, target, f) =>
      UnstageRuins(w, v, m, target, f);
      rest := [];
  }

  lemma CautiousCallKeeps(w: World, step: Step, call: Step, rest: seq<Step>)
    requires Inv(w) && Allowed(w, step) && !Risky(w, step) && SameCall(step, call)
    ensures !Ruins(w, call, rest)
  {
    if Ruins(w, call, rest) {
      NotRiskyKeeps(w, step, call);
      CautionKeepsChain(Next(w, call), rest);
    }
  }

  /** The chain itself: a call is risky exactly if it can go so that the chain is broken after it, by a run in which
      no further call is risky. */
  lemma ChainAtRiskExactly(w: World, step: Step, n: string)
    requires Inv(w) && Allowed(w, step) && n in w.nodes && n != ""
    ensures Risky(w, step) <==> exists call, rest :: SameCall(step, call) && Ruins(w, call, rest)
  {
    if Risky(w, step) {
      var call := RiskyCanBreach(w, step);
      var rest := BreachRuins(w, call, n);
      assert SameCall(step, call) && Ruins(w, call, rest);
    } else {
      forall call, rest | SameCall(step, call) ensures !Ruins(w, call, rest) {
        CautiousCallKeeps(w, step, call, rest);
      }
    }
  }

  // ---- Risky calls arise ----

  /** The Pod is made but does not come up, and the deletion that follows ends after taking the label off. */
  function CutShort(): AttachFaults {
    Smooth().(make := CreateFaults(Done, TimedOut), undo := DeleteFaults(true, Done, false, Failed, false))
  }

  /** Wherever a volume may be published on a node without its Pod, one publication that is cut short makes the
      repetition of it risky. */
  lemma RepeatedPublishRisky(w: World, v: string, n: string)
    requires Inv(w) && MayPublish(w, v, n) && PodName(n, v) !in w.cluster.pods && v != "" && n != ""
    ensures var t := AfterPublish(w, v, n, CutShort());
            && ControllerPublished(w.cluster, v, n, CutShort()).1 == Aborted && !PublishRisky(w, v, n, CutShort())
            && MayPublish(t, v, n) && PublishRisky(t, v, n, Smooth()) && PublishBreach(t, v, n, Smooth())
  {
    assert v in Claimed(w.cluster.claims);
    PublishedShort(w.cluster, v, n);
  }

  lemma PublishedShort(c: Cluster, v: string, n: string)
    requires ClaimName(v) in c.claims && PodName(n, v) !in c.pods && v != "" && n != ""
    ensures var (d, code) := ControllerPublished(c, v, n, CutShort());
            code == Aborted && d.claims == c.claims && Exposed(d.pods, PodName(n, v))
    ensures var d := ControllerPublished(c, v, n, CutShort()).0; ControllerPublished(d, v, n, Smooth()) == (d, OK)
  {
    var name := PodName(n, v);
    CleanUpRequestRejected(c.pods, name, CutShort().make);
    var pods := CreatedPod(c.pods, name, CutShort().make).0;
    assert Attempt(pods, name, CutShort().undo) == (Strip(pods, name), Error);
    assert ControllerPublished(c, v, n, CutShort()) == (c.(pods := Strip(pods, name)), Aborted);
  }

  /** A deletion that is reported while the object is still on its way out. */
  predicate Lingering(f: DeleteFaults) {
    Complete(f) && f.lingers && !f.snatched
  }

  lemma AttemptLingers(objects: Store, name: string, f: DeleteFaults)
    requires Protected(objects, name) && name != "" && Lingering(f)
    ensures Attempt(objects, name, f) == (Strip(objects, name), Ok)
  {
  }

  /** A Pod that is still terminating after a successful unpublish, met by a new publish. */
  lemma RepublishRisky(w: World, v: string, n: string, lingering: DeleteFaults)
    requires Inv(w) && (n, v) in w.places && w.places[(n, v)].Published? && n in w.nodes && v != "" && n != "" && Lingering(lingering)
    ensures var f := DeleteVolumeFaults(true, lingering);
            var t := AfterUnpublish(w, v, n, f);
            && MayUnpublish(w, v, n) && ControllerUnpublished(w.cluster, v, n, f).1 == OK
            && MayPublish(t, v, n) && PublishRisky(t, v, n, Smooth())
  {
    assert (n, v) in Podded(w.idLength, w.cluster.pods);
    AttemptLingers(w.cluster.pods, PodName(n, v), lingering);
    assert (n, v).1 in w.volumes;
  }

  /** A claim that lingers after its deletion was reported, met by a new creation. */
  lemma RecreationRisky(w: World, v: string, lingering: DeleteFaults, f: CreateVolumeCall)
    requires Inv(w) && MayDelete(w, v) && w.volumes[v] == Ready && v != "" && Lingering(lingering)
    requires Acceptable(f.capabilities, f.parameters)
    ensures var t := AfterDelete(w, v, DeleteVolumeFaults(true, lingering));
            v !in t.volumes && MayCreate(t, v) && CreateRisky(t, v, f)
  {
    assert v in Claimed(w.cluster.claims);
    DeletedLingering(w.cluster, v, lingering);
  }

  lemma DeletedLingering(c: Cluster, v: string, lingering: DeleteFaults)
    requires Protected(c.claims, ClaimName(v)) && v != "" && Lingering(lingering)
    ensures DeletedVolume(c, v, DeleteVolumeFaults(true, lingering)) == (c.(claims := Strip(c.claims, ClaimName(v))), OK)
  {
    AttemptLingers(c.claims, ClaimName(v), lingering);
  }

  /** An unstage of any attached volume is risky as soon as its PV is gone, and then leaves the core without its link. */
  lemma UnstageWithoutPvBreaks(w: World, v: string, n: string, target: string)
    requires Inv(w) && MayUnstage(w, v, n) && Held(w.nodes[n].caches, ByIdPath(v)) && v != "" && target != ""
    ensures UnstageRisky(w, v, n, target, SmoothUnstage())
    ensures var (s, code) := UnstageCall(w, n, v, target, SmoothUnstage());
            code == OK && Held(s.caches, ByIdPath(v)) && v !in s.links
    ensures !Chain(AfterUnstage(w, v, n, target, SmoothUnstage()))
  {
    UnstageCanBreach(w, v, n, target, SmoothUnstage());
    UnstageCallRefines(w.nodes[n], v, target, UnstageView(w, n, v, SmoothUnstage()));
    UnstageBreaks(w, v, n, target, SmoothUnstage());
  }
}

/** The controller's calls, and the chain of resources behind a volume (claim, intermediate Pod, by-id link, core)
    over whole runs of an orchestrator that follows the volume lifecycle of the CSI specification, with node
    reboots, runs of the cache operator and third-party delete requests in between. */
module VolumeChain {
  import opened Text
  import opened Outcomes
  import opened CacheHost
  import opened NodePlugin
  import opened ProtectedObjects
  import opened VolumeRequest
  import opened Attachments
  import R = CacheReconciler

  // ---- Names ----

  function PodName(node: string, vol: string): string {
    node + "-" + vol
  }

  function ClaimName(vol: string): string {
    "opencas-csi-" + vol
  }

  lemma ClaimNameInjective(v: string, w: string)
    requires ClaimName(v) == ClaimName(w)
    ensures v == w
  {
    assert ClaimName(v)[12..] == v && ClaimName(w)[12..] == w;
  }

  /** Volume ids of one length make Pod names unique. */
  lemma PodNameInjective(n: string, v: string, m: string, w: string)
    requires PodName(n, v) == PodName(m, w) && |v| == |w|
    ensures n == m && v == w
  {
    assert PodName(n, v)[..|n|] == n && PodName(m, w)[..|m|] == m;
    assert PodName(n, v)[|n| + 1..] == v && PodName(m, w)[|m| + 1..] == w;
  }

  /** Exactly when two Pod names with ids of different length coincide. */
  lemma PodNamesCollide(n: string, v: string, m: string, w: string)
    requires |v| < |w|
    ensures PodName(n, v) == PodName(m, w) <==> exists x :: w == x + "-" + v && n == m + "-" + x
  {
    if PodName(n, v) == PodName(m, w) {
      var name := PodName(n, v);
      var k := |w| - |v| - 1;
      var x := w[..k];
      assert name[|m| + 1..] == w && name[|n| + 1..] == v && name[..|n|] == n && name[..|m|] == m;
      assert w[k] == name[|n|] && w[k + 1..] == v;
      assert w == x + "-" + v;
      assert n == m + "-" + x;
    }
    if x :| w == x + "-" + v && n == m + "-" + x {
      assert PodName(n, v) == m + "-" + (x + "-" + v);
    }
  }

  // ---- The controller's calls ----

  /** The objects of the protected namespace. */
  datatype Cluster = Cluster(claims: Store, pods: Store)

  /** The request beside its name, and what goes wrong in serving it. */
  datatype CreateVolumeCall = CreateVolumeCall(capabilities: seq<Capability>, parameters: Parameters,
                                               storageClass: bool, lookup: bool, create: Outcome)

  function CreatedVolume(c: Cluster, vol: string, f: CreateVolumeCall): (Cluster, Code) {
    if vol == "" || !Acceptable(f.capabilities, f.parameters) then (c, InvalidArgument)
    else if !f.storageClass || !f.lookup then (c, Internal)
    else if ClaimName(vol) in c.claims then (c, OK)
    else
      var (claims, ok) := CreatedClaim(c.claims, ClaimName(vol), f.create);
      (c.(claims := claims), if ok then OK else Internal)
  }

  datatype DeleteVolumeFaults = DeleteVolumeFaults(lookup: bool, delete: DeleteFaults)

  function DeletedVolume(c: Cluster, vol: string, f: DeleteVolumeFaults): (Cluster, Code) {
    if vol == "" then (c, InvalidArgument)
    else if !f.lookup then (c, Internal)
    else if ClaimName(vol) !in c.claims then (c, OK)
    else
      var (claims, v) := Attempt(c.claims, ClaimName(vol), f.delete);
      (c.(claims := claims), if v == Error then Internal else OK)
  }

  datatype AttachFaults = AttachFaults(capability: bool, claim: bool, lookup: bool, make: CreateFaults, undo: DeleteFaults,
                                       refresh: bool, bound: bool, volume: bool)

  /** The checks after the Pod is there. */
  function Bound(f: AttachFaults): Code {
    if !f.refresh then Internal else if !f.bound then Code.NotFound else if !f.volume then Internal else OK
  }

  function ControllerPublished(c: Cluster, vol: string, node: string, f: AttachFaults): (Cluster, Code) {
    var name := PodName(node, vol);
    if vol == "" || node == "" || !f.capability then (c, InvalidArgument)
    else if !f.claim then (c, Internal)
    else if ClaimName(vol) !in c.claims then (c, Code.NotFound)
    else if !f.lookup then (c, Internal)
    else if name in c.pods then (c, Bound(f))
    else
      var (pods, creation) := CreatedPod(c.pods, name, f.make);
      if !creation.failed then (c.(pods := pods), Bound(f))
      else if !creation.made then (c.(pods := pods), Internal)
      else (c.(pods := Attempt(pods, name, f.undo).0), Aborted)
  }

  function ControllerUnpublished(c: Cluster, vol: string, node: string, f: DeleteVolumeFaults): (Cluster, Code) {
    var name := PodName(node, vol);
    if vol == "" || node == "" then (c, InvalidArgument)
    else if !f.lookup then (c, Internal)
    else if name !in c.pods then (c, OK)
    else
      var (pods, v) := Attempt(c.pods, name, f.delete);
      (c.(pods := pods), if v == Error then Internal else OK)
  }

  class ControllerServer {
    const claims: ProtectedStore
    const pods: ProtectedStore

    function State(): Cluster
      reads claims, pods
    {
      Cluster(claims.objects, pods.objects)
    }

    constructor (claims: ProtectedStore, pods: ProtectedStore)
      ensures this.claims == claims && this.pods == pods
    {
      this.claims, this.pods := claims, pods;
    }

    method CreateVolume(vol: string, f: CreateVolumeCall) returns (code: Code)
      requires claims != pods
      modifies claims
      ensures (State(), code) == CreatedVolume(old(State()), vol, f)
    {
      if vol == "" {
        return InvalidArgument;
      }
      var valid := CheckCapabilities(f.capabilities);
      if !valid {
        return InvalidArgument;
      }
      var backend := ReadParameters(f.parameters);
      if backend == None || backend == Some("") {
        return InvalidArgument;
      }
      if !f.storageClass || !f.lookup {
        return Internal;
      }
      if ClaimName(vol) !in claims.objects {
        var ok := claims.CreateClaim(ClaimName(vol), f.create);
        if !ok {
          return Internal;
        }
      }
      return OK;
    }

    method DeleteVolume(vol: string, f: DeleteVolumeFaults) returns (code: Code)
      requires claims != pods
      modifies claims
      ensures (State(), code) == DeletedVolume(old(State()), vol, f)
    {
      if vol == "" {
        return InvalidArgument;
      }
      if !f.lookup {
        return Internal;
      }
      if ClaimName(vol) in claims.objects {
        var v := claims.Delete(ClaimName(vol), f.delete);
        if v == Error {
          return Internal;
        }
      }
      return OK;
    }

    method ControllerPublishVolume(vol: string, node: string, f: AttachFaults) returns (code: Code)
      requires claims != pods
      modifies pods
      ensures (State(), code) == ControllerPublished(old(State()), vol, node, f)
    {
      if vol == "" || node == "" || !f.capability {
        return InvalidArgument;
      }
      if !f.claim {
        return Internal;
      }
      if ClaimName(vol) !in claims.objects {
        return Code.NotFound;
      }
      if !f.lookup {
        return Internal;
      }
      var name := PodName(node, vol);
      if name !in pods.objects {
        var creation := pods.CreatePod(name, f.make);
        if creation.failed {
          if !creation.made {
            return Internal;
          }
          var _ := pods.Delete(name, f.undo);
          return Aborted;
        }
      }
      if !f.refresh {
        return Internal;
      }
      if !f.bound {
        return Code.NotFound;
      }
      return if f.volume then OK else Internal;
    }

    method ControllerUnpublishVolume(vol: string, node: string, f: DeleteVolumeFaults) returns (code: Code)
      requires claims != pods
      modifies pods
      ensures (State(), code) == ControllerUnpublished(old(State()), vol, node, f)
    {
      if vol == "" || node == "" {
        return InvalidArgument;
      }
      if !f.lookup {
        return Internal;
      }
      var name := PodName(node, vol);
      if name in pods.objects {
        var v := pods.Delete(name, f.delete);
        if v == Error {
          return Internal;
        }
      }
      return OK;
    }
  }

  // ---- The whole system ----

  datatype VolumePhase = Creating | Ready | Deleting

  datatype Phase = Publishing | Published | Staging | Staged | Unstaging | Unpublishing

  /** A volume at a node. */
  type Place = (string, string)

  /** `volumes` and `places` are the orchestrator's record of the calls it issued; all volume ids have length `idLength`. */
  datatype World = World(idLength: nat, cluster: Cluster, nodes: map<string, Plugin>,
                         volumes: map<string, VolumePhase>, places: map<Place, Phase>)

  datatype Step =
    | CreateVolume(vol: string, creation: CreateVolumeCall)
    | DeleteVolume(vol: string, deletion: DeleteVolumeFaults)
    | ControllerPublish(vol: string, node: string, attachment: AttachFaults)
    | ControllerUnpublish(vol: string, node: string, detachment: DeleteVolumeFaults)
    | NodeStage(node: string, request: StageRequest, staging: StageFaults)
    | NodeUnstage(vol: string, node: string, target: string, unstaging: UnstageFaults)
    | DeletePod(name: string)
    | DeleteClaim(name: string)
    | Reboot(node: string)
    | Reconcile(node: string, resource: R.Spec, finalizer: bool, deleting: bool, faults: R.Faults)

  /** What the plugin sees of the Pod. */
  function Seen(w: World, node: string, vol: string, seen: Found): Found {
    if seen == Unknown then Unknown else if PodName(node, vol) in w.cluster.pods then Present else Absent
  }

  function StageCall(w: World, node: string, r: StageRequest, f: StageFaults): (Plugin, Code)
    requires node in w.nodes
  {
    NodePlugin.Staged(w.nodes[node], r, f.(pod := Seen(w, node, r.volId, f.pod)))
  }

  /** While the Pod is there, so is the device that the link leads to. */
  function UnstageView(w: World, node: string, vol: string, f: UnstageFaults): UnstageFaults {
    var target := if PodName(node, vol) in w.cluster.pods && f.target == Absent then Present else f.target;
    f.(pod := Seen(w, node, vol, f.pod), target := target)
  }

  function UnstageCall(w: World, node: string, vol: string, target: string, f: UnstageFaults): (Plugin, Code)
    requires node in w.nodes
  {
    NodePlugin.Unstaged(w.nodes[node], vol, target, UnstageView(w, node, vol, f))
  }

  /** A reboot stops the caches and empties the device directory and the mount table. */
  function Rebooted(s: Plugin): Plugin {
    s.(caches := [], links := {}, mounts := [])
  }

  function Operated(s: Plugin, resource: R.Spec, finalizer: bool, deleting: bool, f: R.Faults): Plugin {
    var n := R.Reconciled(R.Node(s.caches, s.nodeLabel, resource, finalizer, deleting), f).0;
    s.(caches := n.caches, nodeLabel := n.nodeLabel)
  }

  /** Staging has been asked for and unstaging has not succeeded. */
  predicate AtNode(p: Phase) {
    p.Staging? || p.Staged? || p.Unstaging?
  }

  predicate MayCreate(w: World, v: string) {
    |v| == w.idLength && (v in w.volumes ==> w.volumes[v] != Deleting)
  }

  predicate MayDelete(w: World, v: string) {
    v in w.volumes && forall p :: p in w.places ==> p.1 != v
  }

  predicate MayPublish(w: World, v: string, n: string) {
    && v in w.volumes && w.volumes[v] == Ready && n in w.nodes
    && ((n, v) in w.places ==> w.places[(n, v)].Publishing? || w.places[(n, v)].Published?)
  }

  predicate MayUnpublish(w: World, v: string, n: string) {
    (n, v) in w.places && (w.places[(n, v)].Publishing? || w.places[(n, v)].Published? || w.places[(n, v)].Unpublishing?)
  }

  predicate MayStage(w: World, n: string, v: string) {
    && n in w.nodes && (n, v) in w.places
    && (w.places[(n, v)].Published? || w.places[(n, v)].Staging? || w.places[(n, v)].Staged?)
  }

  predicate MayUnstage(w: World, v: string, n: string) {
    n in w.nodes && (n, v) in w.places && AtNode(w.places[(n, v)])
  }

  /** The calls the orchestrator may issue: creation before use, publication before staging, an issued unstage or
      unpublish is repeated until it succeeds, and a volume is deleted only when it is nowhere published. */
  predicate Allowed(w: World, step: Step) {
    match step
    case CreateVolume(v, _) => MayCreate(w, v)
    case DeleteVolume(v, _) => MayDelete(w, v)
    case ControllerPublish(v, n, _) => MayPublish(w, v, n)
    case ControllerUnpublish(v, n, _) => MayUnpublish(w, v, n)
    case NodeStage(n, r, _) => MayStage(w, n, r.volId)
    case NodeUnstage(v, n, _, _) => MayUnstage(w, v, n)
    case Reboot(n) => n in w.nodes
    case Reconcile(n, _, _, _, _) => n in w.nodes
    case DeletePod(_) => true
    case DeleteClaim(_) => true
  }

  function AfterCreate(w: World, v: string, f: CreateVolumeCall): World {
    var (c, code) := CreatedVolume(w.cluster, v, f);
    var phase := if code == OK || (v in w.volumes && w.volumes[v] == Ready) then Ready else Creating;
    w.(cluster := c, volumes := w.volumes[v := phase])
  }

  function AfterDelete(w: World, v: string, f: DeleteVolumeFaults): World {
    var (c, code) := DeletedVolume(w.cluster, v, f);
    w.(cluster := c, volumes := if code == OK then w.volumes - {v} else w.volumes[v := Deleting])
  }

  function AfterPublish(w: World, v: string, n: string, f: AttachFaults): World {
    var (c, code) := ControllerPublished(w.cluster, v, n, f);
    var phase := if code == OK || ((n, v) in w.places && w.places[(n, v)].Published?) then Published else Publishing;
    w.(cluster := c, places := w.places[(n, v) := phase])
  }

  function AfterUnpublish(w: World, v: string, n: string, f: DeleteVolumeFaults): World {
    var (c, code) := ControllerUnpublished(w.cluster, v, n, f);
    w.(cluster := c, places := if code == OK then w.places - {(n, v)} else w.places[(n, v) := Unpublishing])
  }

  function AfterStage(w: World, n: string, r: StageRequest, f: StageFaults): World
    requires MayStage(w, n, r.volId)
  {
    var (s, code) := StageCall(w, n, r, f);
    var phase := if code == OK || w.places[(n, r.volId)].Staged? then Staged else Staging;
    w.(nodes := w.nodes[n := s], places := w.places[(n, r.volId) := phase])
  }

  function AfterUnstage(w: World, v: string, n: string, target: string, f: UnstageFaults): World
    requires MayUnstage(w, v, n)
  {
    var (s, code) := UnstageCall(w, n, v, target, f);
    w.(nodes := w.nodes[n := s], places := w.places[(n, v) := if code == OK then Published else Unstaging])
  }

  function WithNode(w: World, n: string, s: Plugin): World {
    w.(nodes := w.nodes[n := s])
  }

  function Next(w: World, step: Step): World
    requires Allowed(w, step)
  {
    match step
    case CreateVolume(v, f) => AfterCreate(w, v, f)
    case DeleteVolume(v, f) => AfterDelete(w, v, f)
    case ControllerPublish(v, n, f) => AfterPublish(w, v, n, f)
    case ControllerUnpublish(v, n, f) => AfterUnpublish(w, v, n, f)
    case NodeStage(n, r, f) => AfterStage(w, n, r, f)
    case NodeUnstage(v, n, target, f) => AfterUnstage(w, v, n, target, f)
    case DeletePod(name) => w.(cluster := w.cluster.(pods := Deleted(w.cluster.pods, name)))
    case DeleteClaim(name) => w.(cluster := w.cluster.(claims := Deleted(w.cluster.claims, name)))
    case Reboot(n) => WithNode(w, n, Rebooted(w.nodes[n]))
    case Reconcile(n, resource, finalizer, deleting, f) =>
      WithNode(w, n, Operated(w.nodes[n], resource, finalizer, deleting, f))
  }

  predicate AllowedRun(w: World, steps: seq<Step>)
    decreases |steps|
  {
    |steps| == 0 || (Allowed(w, steps[0]) && AllowedRun(Next(w, steps[0]), steps[1..]))
  }

  function Run(w: World, steps: seq<Step>): World
    requires AllowedRun(w, steps)
    decreases |steps|
  {
    if |steps| == 0 then w else Run(Next(w, steps[0]), steps[1..])
  }

  // ---- The chain ----

  /** Every attached core has its link and its protected Pod; every protected Pod has its protected claim. */
  ghost predicate Chain(w: World) {
    && (forall n, v :: n in w.nodes && Held(w.nodes[n].caches, ByIdPath(v)) ==>
          v in w.nodes[n].links && Protected(w.cluster.pods, PodName(n, v)))
    && (forall n, v :: |v| == w.idLength && Protected(w.cluster.pods, PodName(n, v)) ==>
          Protected(w.cluster.claims, ClaimName(v)))
  }

  /** The volumes with a protected claim. */
  ghost function Claimed(claims: Store): iset<string> {
    iset v: string | Protected(claims, ClaimName(v))
  }

  /** The places with a protected Pod, for ids of the given length. */
  ghost function Podded(idLength: nat, pods: Store): iset<Place> {
    iset p: Place | |p.1| == idLength && Protected(pods, PodName(p.0, p.1))
  }

  /** The Pod was reported as published and is not being unpublished. */
  predicate PodDue(p: Phase) {
    p.Published? || AtNode(p)
  }

  /** The orchestrator's record agrees with the cluster: volumes reported as created have their protected claim,
      only such volumes are published, protected Pods are at known places, and a Pod that is due is there. */
  ghost predicate Recorded(idLength: nat, volumes: map<string, VolumePhase>, places: map<Place, Phase>,
                           claimed: iset<string>, podded: iset<Place>)
  {
    && (forall v :: v in volumes ==> |v| == idLength && (volumes[v] == Ready ==> v in claimed))
    && (forall p :: p in places ==> p.1 in volumes && volumes[p.1] == Ready && (PodDue(places[p]) ==> p in podded))
    && (forall p :: p in podded ==> p in places)
  }

  /** A link is at a place where staging was asked for. */
  ghost predicate LinksKnown(nodes: map<string, Plugin>, places: map<Place, Phase>) {
    forall n, v :: n in nodes && v in nodes[n].links ==> (n, v) in places && AtNode(places[(n, v)])
  }

  /** A core has its link. */
  ghost predicate CoresLinked(s: Plugin) {
    && Single(s.caches)
    && forall v :: Held(s.caches, ByIdPath(v)) ==> v in s.links
  }

  ghost predicate NodesLinked(nodes: map<string, Plugin>) {
    forall n :: n in nodes ==> CoresLinked(nodes[n])
  }

  ghost predicate Inv(w: World) {
    && Recorded(w.idLength, w.volumes, w.places, Claimed(w.cluster.claims), Podded(w.idLength, w.cluster.pods))
    && LinksKnown(w.nodes, w.places)
    && NodesLinked(w.nodes)
  }

  lemma CoreChain(w: World, n: string, v: string)
    requires Inv(w) && n in w.nodes && Held(w.nodes[n].caches, ByIdPath(v))
    ensures v in w.nodes[n].links && Protected(w.cluster.pods, PodName(n, v))
  {
    assert CoresLinked(w.nodes[n]);
    assert (n, v) in Podded(w.idLength, w.cluster.pods);
  }

  lemma PodChain(w: World, n: string, v: string)
    requires Inv(w) && |v| == w.idLength && Protected(w.cluster.pods, PodName(n, v))
    ensures Protected(w.cluster.claims, ClaimName(v))
  {
    assert (n, v) in Podded(w.idLength, w.cluster.pods);
    assert (n, v).1 in Claimed(w.cluster.claims);
  }

  lemma InvGivesChain(w: World)
    requires Inv(w)
    ensures Chain(w)
  {
    forall n, v | n in w.nodes && Held(w.nodes[n].caches, ByIdPath(v))
      ensures v in w.nodes[n].links && Protected(w.cluster.pods, PodName(n, v))
    {
      CoreChain(w, n, v);
    }
    forall n, v | |v| == w.idLength && Protected(w.cluster.pods, PodName(n, v))
      ensures Protected(w.cluster.claims, ClaimName(v))
    {
      PodChain(w, n, v);
    }
  }

  /** Nothing of an unpublished volume is left at a node: no core, no link, no protected Pod. */
  lemma NothingLeftBehind(w: World, n: string, v: string)
    requires Inv(w) && n in w.nodes && (n, v) !in w.places
    ensures !Held(w.nodes[n].caches, ByIdPath(v)) && v !in w.nodes[n].links
    ensures |v| == w.idLength ==> !Protected(w.cluster.pods, PodName(n, v))
  {
    assert CoresLinked(w.nodes[n]);
    assert |v| == w.idLength ==> ((n, v) in Podded(w.idLength, w.cluster.pods) <==> Protected(w.cluster.pods, PodName(n, v)));
  }

  // ---- What breaks it ----

  /** The volume is reported as created on a claim whose label is already gone. */
  predicate CreateBreach(w: World, v: string, f: CreateVolumeCall) {
    Exposed(w.cluster.claims, ClaimName(v)) && CreatedVolume(w.cluster, v, f).1 == OK
  }

  /** The volume is reported as published on a Pod whose label is already gone. */
  predicate PublishBreach(w: World, v: string, n: string, f: AttachFaults) {
    Exposed(w.cluster.pods, PodName(n, v)) && ControllerPublished(w.cluster, v, n, f).1 == OK
  }

  /** An attached volume is reported as unstaged because its PV is gone. */
  predicate UnstageBreach(w: World, v: string, n: string, target: string, f: UnstageFaults)
    requires MayUnstage(w, v, n)
  {
    f.pv == Absent && Held(w.nodes[n].caches, ByIdPath(v)) && UnstageCall(w, n, v, target, f).1 == OK
  }

  /** The calls that report success but break the chain. An object without its label was left by a deletion that
      was cut short or has not finished. */
  predicate Breach(w: World, step: Step)
    requires Allowed(w, step)
  {
    match step
    case CreateVolume(v, f) => CreateBreach(w, v, f)
    case ControllerPublish(v, n, f) => PublishBreach(w, v, n, f)
    case NodeUnstage(v, n, target, f) => UnstageBreach(w, v, n, target, f)
    case _ => false
  }

  // ---- Every step keeps the invariant, or is a breach ----

  /** A creation adds its claim or nothing, and success means a protected claim unless it met an exposed one. */
  lemma CreateClaims(c: Cluster, v: string, f: CreateVolumeCall)
    ensures var (d, code) := CreatedVolume(c, v, f);
            && d == c.(claims := d.claims)
            && Claimed(c.claims) <= Claimed(d.claims)
            && (code == OK ==> (v in Claimed(d.claims) <==> !Exposed(c.claims, ClaimName(v))))
  {
  }

  lemma CreateKeeps(w: World, v: string, f: CreateVolumeCall)
    requires Inv(w) && MayCreate(w, v)
    ensures Inv(AfterCreate(w, v, f)) <==> !CreateBreach(w, v, f)
  {
    CreateClaims(w.cluster, v, f);
    CreateRecord(w, v, f, Claimed(w.cluster.claims), Claimed(CreatedVolume(w.cluster, v, f).0.claims), Podded(w.idLength, w.cluster.pods));
  }

  lemma CreateRecord(w: World, v: string, f: CreateVolumeCall, before: iset<string>, after: iset<string>, podded: iset<Place>)
    requires Recorded(w.idLength, w.volumes, w.places, before, podded) && MayCreate(w, v) && before <= after
    requires CreatedVolume(w.cluster, v, f).1 == OK ==> (v in after <==> !CreateBreach(w, v, f))
    ensures var t := AfterCreate(w, v, f);
            Recorded(w.idLength, t.volumes, w.places, after, podded) <==> !CreateBreach(w, v, f)
  {
    var t := AfterCreate(w, v, f);
    assert v in t.volumes;
  }

  /** A deletion touches the claim of its own volume only. */
  lemma DeleteClaims(c: Cluster, v: string, f: DeleteVolumeFaults)
    ensures var d := DeletedVolume(c, v, f).0;
            d == c.(claims := d.claims) && Claimed(c.claims) - iset{v} <= Claimed(d.claims)
  {
    var d := DeletedVolume(c, v, f).0;
    AttemptFrame(c.claims, ClaimName(v), f.delete);
    forall u | u in Claimed(c.claims) && u != v ensures u in Claimed(d.claims) {
      if ClaimName(u) == ClaimName(v) {
        ClaimNameInjective(u, v);
      }
    }
  }

  lemma DeleteKeeps(w: World, v: string, f: DeleteVolumeFaults)
    requires Inv(w) && MayDelete(w, v)
    ensures Inv(AfterDelete(w, v, f))
  {
    var t := AfterDelete(w, v, f);
    DeleteClaims(w.cluster, v, f);
    DeleteRecord(w.idLength, w.volumes, t.volumes, w.places, Claimed(w.cluster.claims), Claimed(t.cluster.claims),
                 Podded(w.idLength, w.cluster.pods), v);
  }

  lemma DeleteRecord(k: nat, volumes: map<string, VolumePhase>, after: map<string, VolumePhase>, places: map<Place, Phase>,
                     claimed: iset<string>, left: iset<string>, podded: iset<Place>, v: string)
    requires Recorded(k, volumes, places, claimed, podded) && claimed - iset{v} <= left
    requires v in volumes && (after == volumes - {v} || after == volumes[v := Deleting])
    requires forall p :: p in places ==> p.1 != v
    ensures Recorded(k, after, places, left, podded)
  {
  }

  /** Between two stores at most the object `name` differs in protection. */
  ghost predicate OthersKept(a: Store, b: Store, name: string) {
    forall n :: n != name ==> (Protected(a, n) <==> Protected(b, n))
  }

  /** A step that changes the Pod of one place, and where the orchestrator sees it, off the node. */
  ghost predicate PlaceStep(a: map<Place, Phase>, b: map<Place, Phase>, podded: iset<Place>, after: iset<Place>, p: Place) {
    && (forall q :: q != p ==> (q in podded <==> q in after))
    && (forall q :: q != p ==> (q in a <==> q in b) && (q in a ==> b[q] == a[q]))
    && (p in a ==> !AtNode(a[p]))
    && (p in b ==> !AtNode(b[p]) && (PodDue(b[p]) ==> p in after))
    && (p in after ==> p in b)
  }

  lemma PlaceRecord(k: nat, volumes: map<string, VolumePhase>, a: map<Place, Phase>, b: map<Place, Phase>,
                    claimed: iset<string>, podded: iset<Place>, after: iset<Place>, p: Place)
    requires Recorded(k, volumes, a, claimed, podded) && PlaceStep(a, b, podded, after, p)
    requires p.1 in volumes && volumes[p.1] == Ready
    ensures Recorded(k, volumes, b, claimed, after)
  {
  }

  lemma PlaceLinks(nodes: map<string, Plugin>, a: map<Place, Phase>, b: map<Place, Phase>,
                   podded: iset<Place>, after: iset<Place>, p: Place)
    requires LinksKnown(nodes, a) && PlaceStep(a, b, podded, after, p)
    ensures LinksKnown(nodes, b)
  {
  }

  /** With ids of one length, a change of one Pod is a change at one place. */
  lemma PodAtPlace(k: nat, pods: Store, after: Store, n: string, v: string)
    requires |v| == k && OthersKept(pods, after, PodName(n, v))
    ensures forall q :: q != (n, v) ==> (q in Podded(k, pods) <==> q in Podded(k, after))
    ensures (n, v) in Podded(k, after) <==> Protected(after, PodName(n, v))
  {
    forall q: Place | q != (n, v) && |q.1| == k ensures q in Podded(k, pods) <==> q in Podded(k, after) {
      if PodName(q.0, q.1) == PodName(n, v) {
        PodNameInjective(q.0, q.1, n, v);
      }
    }
  }

  /** What a publication does to its Pod. */
  lemma PublishPod(c: Cluster, v: string, n: string, f: AttachFaults)
    ensures var (d, code) := ControllerPublished(c, v, n, f);
            && d == c.(pods := d.pods)
            && OthersKept(c.pods, d.pods, PodName(n, v))
            && (Protected(c.pods, PodName(n, v)) ==> Protected(d.pods, PodName(n, v)))
            && (code == OK ==> (Protected(d.pods, PodName(n, v)) <==> !Exposed(c.pods, PodName(n, v))))
  {
    var name := PodName(n, v);
    if name !in c.pods {
      CleanUpRequestRejected(c.pods, name, f.make);
      AttemptFrame(CreatedPod(c.pods, name, f.make).0, name, f.undo);
    }
  }

  lemma PublishKeeps(w: World, v: string, n: string, f: AttachFaults)
    requires Inv(w) && MayPublish(w, v, n)
    ensures Inv(AfterPublish(w, v, n, f)) <==> !PublishBreach(w, v, n, f)
  {
    var (c, code) := ControllerPublished(w.cluster, v, n, f);
    PublishPod(w.cluster, v, n, f);
    PodAtPlace(w.idLength, w.cluster.pods, c.pods, n, v);
    PodAtPlace(w.idLength, w.cluster.pods, w.cluster.pods, n, v);
    PublishRecord(w, v, n, f, Claimed(w.cluster.claims), Podded(w.idLength, w.cluster.pods), Podded(w.idLength, c.pods));
  }

  lemma PublishRecord(w: World, v: string, n: string, f: AttachFaults, claimed: iset<string>, podded: iset<Place>, after: iset<Place>)
    requires Recorded(w.idLength, w.volumes, w.places, claimed, podded) && LinksKnown(w.nodes, w.places) && MayPublish(w, v, n)
    requires forall q :: q != (n, v) ==> (q in podded <==> q in after)
    requires (n, v) in podded ==> (n, v) in after
    requires ControllerPublished(w.cluster, v, n, f).1 == OK ==> ((n, v) in after <==> !PublishBreach(w, v, n, f))
    ensures var places := AfterPublish(w, v, n, f).places;
            Recorded(w.idLength, w.volumes, places, claimed, after) && LinksKnown(w.nodes, places) <==> !PublishBreach(w, v, n, f)
  {
    var p, places := (n, v), AfterPublish(w, v, n, f).places;
    if PublishBreach(w, v, n, f) {
      assert p in places && PodDue(places[p]) && p !in after;
    } else {
      PlaceRecord(w.idLength, w.volumes, w.places, places, claimed, podded, after, p);
      PlaceLinks(w.nodes, w.places, places, podded, after, p);
    }
  }

  /** What the withdrawal of a publication does to its Pod. */
  lemma UnpublishPod(c: Cluster, v: string, n: string, f: DeleteVolumeFaults)
    ensures var (d, code) := ControllerUnpublished(c, v, n, f);
            && d == c.(pods := d.pods)
            && OthersKept(c.pods, d.pods, PodName(n, v))
            && (code == OK ==> !Protected(d.pods, PodName(n, v)))
  {
    AttemptFrame(c.pods, PodName(n, v), f.delete);
    if Attempt(c.pods, PodName(n, v), f.delete).1 != Error {
      SuccessUnprotects(c.pods, PodName(n, v), f.delete);
    }
  }

  lemma UnpublishKeeps(w: World, v: string, n: string, f: DeleteVolumeFaults)
    requires Inv(w) && MayUnpublish(w, v, n)
    ensures Inv(AfterUnpublish(w, v, n, f))
  {
    var (c, code) := ControllerUnpublished(w.cluster, v, n, f);
    assert (n, v).1 in w.volumes;
    UnpublishPod(w.cluster, v, n, f);
    PodAtPlace(w.idLength, w.cluster.pods, c.pods, n, v);
    var places := if code == OK then w.places - {(n, v)} else w.places[(n, v) := Unpublishing];
    UnpublishRecord(w, (n, v), places, Claimed(w.cluster.claims), Podded(w.idLength, w.cluster.pods), Podded(w.idLength, c.pods));
  }

  lemma UnpublishRecord(w: World, p: Place, places: map<Place, Phase>, claimed: iset<string>, podded: iset<Place>, after: iset<Place>)
    requires Recorded(w.idLength, w.volumes, w.places, claimed, podded) && LinksKnown(w.nodes, w.places) && MayUnpublish(w, p.1, p.0)
    requires forall q :: q != p ==> (q in podded <==> q in after)
    requires places == w.places[p := Unpublishing] || (places == w.places - {p} && p !in after)
    ensures Recorded(w.idLength, w.volumes, places, claimed, after) && LinksKnown(w.nodes, places)
  {
    assert p == (p.0, p.1);
    PlaceRecord(w.idLength, w.volumes, w.places, places, claimed, podded, after, p);
    PlaceLinks(w.nodes, w.places, places, podded, after, p);
  }

  /** Replacing one node, and moving one of its places between phases in which its Pod is due. */
  lemma NodeChange(w: World, n: string, v: string, s: Plugin, phase: Phase)
    requires Inv(w) && n in w.nodes && (n, v) in w.places && PodDue(w.places[(n, v)]) && PodDue(phase)
    requires CoresLinked(s)
    requires forall u :: u in s.links && u != v ==> u in w.nodes[n].links
    requires v in s.links ==> AtNode(phase)
    ensures Inv(w.(nodes := w.nodes[n := s], places := w.places[(n, v) := phase]))
  {
    PhaseRecord(w.idLength, w.volumes, w.places, Claimed(w.cluster.claims), Podded(w.idLength, w.cluster.pods), (n, v), phase);
    NodeLinks(w.nodes, w.places, n, v, s, phase);
  }

  lemma NodeLinks(nodes: map<string, Plugin>, places: map<Place, Phase>, n: string, v: string, s: Plugin, phase: Phase)
    requires LinksKnown(nodes, places) && NodesLinked(nodes) && n in nodes && CoresLinked(s)
    requires forall u :: u in s.links && u != v ==> u in nodes[n].links
    requires v in s.links ==> AtNode(phase)
    ensures LinksKnown(nodes[n := s], places[(n, v) := phase]) && NodesLinked(nodes[n := s])
  {
  }

  lemma PhaseRecord(k: nat, volumes: map<string, VolumePhase>, places: map<Place, Phase>, claimed: iset<string>,
                    podded: iset<Place>, p: Place, phase: Phase)
    requires Recorded(k, volumes, places, claimed, podded) && p in places && PodDue(places[p]) && PodDue(phase)
    ensures Recorded(k, volumes, places[p := phase], claimed, podded)
  {
  }

  /** After a stage call every core of the node still has its link. */
  lemma StageLinked(s: Plugin, r: StageRequest, f: StageFaults)
    requires CoresLinked(s)
    ensures CoresLinked(NodePlugin.Staged(s, r, f).0)
  {
    var t, path := NodePlugin.Staged(s, r, f).0, ByIdPath(r.volId);
    StageCallRefines(s, r, f);
    StageHolds(s.caches, s.nodeLabel, path, f.coreId, f.addCore);
    forall u | Held(t.caches, ByIdPath(u)) ensures u in t.links {
      if t.caches != s.caches && u != r.volId {
        if ByIdPath(u) == path {
          ByIdPathInjective(u, r.volId);
        }
        OthersHeld(s.caches, t.caches, path, ByIdPath(u));
      }
    }
  }

  lemma StageKeeps(w: World, n: string, r: StageRequest, f: StageFaults)
    requires Inv(w) && MayStage(w, n, r.volId)
    ensures Inv(AfterStage(w, n, r, f))
  {
    var t, seen := AfterStage(w, n, r, f), f.(pod := Seen(w, n, r.volId, f.pod));
    assert CoresLinked(w.nodes[n]);
    StageLinked(w.nodes[n], r, seen);
    StageCallRefines(w.nodes[n], r, seen);
    NodeChange(w, n, r.volId, t.nodes[n], t.places[(n, r.volId)]);
  }

  /** After an unstage call every core of the node still has its link, unless the PV was gone. */
  lemma UnstageLinked(s: Plugin, v: string, target: string, f: UnstageFaults)
    requires CoresLinked(s) && f.target != Absent
    ensures var (t, code) := NodePlugin.Unstaged(s, v, target, f);
            CoresLinked(t) <==> !(f.pv == Absent && Held(s.caches, ByIdPath(v)) && code == OK)
  {
    var (t, code) := NodePlugin.Unstaged(s, v, target, f);
    var path := ByIdPath(v);
    UnstageCallRefines(s, v, target, f);
    UnstageReleases(s.caches, path, f.removeCore);
    UnstageReleases(s.caches, path, Done);
    if f.pv == Absent && Held(s.caches, path) && code == OK {
      assert Held(t.caches, ByIdPath(v)) && v !in t.links;
    } else {
      forall u | Held(t.caches, ByIdPath(u)) ensures u in t.links {
        UnstageLinkOf(s, v, target, f, u);
      }
    }
  }

  lemma UnstageLinkOf(s: Plugin, v: string, target: string, f: UnstageFaults, u: string)
    requires CoresLinked(s) && f.target != Absent
    requires var (t, code) := NodePlugin.Unstaged(s, v, target, f);
             Held(t.caches, ByIdPath(u)) && !(f.pv == Absent && Held(s.caches, ByIdPath(v)) && code == OK)
    ensures u in NodePlugin.Unstaged(s, v, target, f).0.links
  {
    var (t, code) := NodePlugin.Unstaged(s, v, target, f);
    UnstageCallRefines(s, v, target, f);
    UnstageReleases(s.caches, ByIdPath(v), f.removeCore);
    UnstageReleases(s.caches, ByIdPath(v), Done);
    if u != v && t.caches != s.caches {
      if ByIdPath(u) == ByIdPath(v) {
        ByIdPathInjective(u, v);
      }
      OthersHeld(s.caches, t.caches, ByIdPath(v), ByIdPath(u));
    }
  }

  lemma UnstageKeeps(w: World, v: string, n: string, target: string, f: UnstageFaults)
    requires Inv(w) && MayUnstage(w, v, n)
    ensures Inv(AfterUnstage(w, v, n, target, f)) <==> !UnstageBreach(w, v, n, target, f)
  {
    var t, view := AfterUnstage(w, v, n, target, f), UnstageView(w, n, v, f);
    assert CoresLinked(w.nodes[n]);
    assert (n, v) in Podded(w.idLength, w.cluster.pods);
    assert Protected(w.cluster.pods, PodName((n, v).0, (n, v).1));
    UnstageLinked(w.nodes[n], v, target, view);
    UnstageCallRefines(w.nodes[n], v, target, view);
    if !UnstageBreach(w, v, n, target, f) {
      NodeChange(w, n, v, t.nodes[n], t.places[(n, v)]);
    }
  }

  /** After a run of the operator every core of the node still has its link. */
  lemma OperatedLinked(s: Plugin, resource: R.Spec, finalizer: bool, deleting: bool, f: R.Faults)
    requires CoresLinked(s)
    ensures var t := Operated(s, resource, finalizer, deleting, f); CoresLinked(t) && t.links == s.links
  {
    var t := Operated(s, resource, finalizer, deleting, f);
    var node := R.Node(s.caches, s.nodeLabel, resource, finalizer, deleting);
    ReconcileKeepsSingle(node, f);
    forall v | Held(t.caches, ByIdPath(v)) ensures v in t.links {
      ReconcileKeepsVolumes(node, f, ByIdPath(v));
    }
  }

  lemma WithNodeKeeps(w: World, n: string, s: Plugin)
    requires Inv(w) && n in w.nodes && CoresLinked(s) && s.links <= w.nodes[n].links
    ensures Inv(WithNode(w, n, s))
  {
  }

  lemma OthersDelete(w: World, pods: Store, claims: Store)
    requires Inv(w)
    requires forall x :: Protected(w.cluster.pods, x) <==> Protected(pods, x)
    requires forall x :: Protected(w.cluster.claims, x) <==> Protected(claims, x)
    ensures Inv(w.(cluster := Cluster(claims, pods)))
  {
    assert Claimed(claims) == Claimed(w.cluster.claims);
    assert Podded(w.idLength, pods) == Podded(w.idLength, w.cluster.pods);
  }

  lemma RequestKeeps(objects: Store, name: string)
    ensures forall x :: Protected(objects, x) <==> Protected(Deleted(objects, name), x)
  {
  }

  lemma RebootedLinked(s: Plugin)
    ensures CoresLinked(Rebooted(s))
  {
  }

  lemma OtherKeeps(w: World, step: Step)
    requires Inv(w) && Allowed(w, step)
    requires step.DeletePod? || step.DeleteClaim? || step.Reboot? || step.Reconcile?
    ensures Inv(Next(w, step))
  {
    match step
    case DeletePod(name) =>
      RequestKeeps(w.cluster.pods, name);
      OthersDelete(w, Deleted(w.cluster.pods, name), w.cluster.claims);
    case DeleteClaim(name) =>
      RequestKeeps(w.cluster.claims, name);
      OthersDelete(w, w.cluster.pods, Deleted(w.cluster.claims, name));
    case Reboot(n) =>
      RebootedLinked(w.nodes[n]);
      WithNodeKeeps(w, n, Rebooted(w.nodes[n]));
    case Reconcile(n, resource, finalizer, deleting, f) =>
      assert CoresLinked(w.nodes[n]);
      OperatedLinked(w.nodes[n], resource, finalizer, deleting, f);
      WithNodeKeeps(w, n, Operated(w.nodes[n], resource, finalizer, deleting, f));
  }

  /** A step that the orchestrator may take keeps the invariant exactly if it is no breach. */
  lemma StepExactly(w: World, step: Step)
    requires Inv(w) && Allowed(w, step)
    ensures Inv(Next(w, step)) <==> !Breach(w, step)
  {
    match step
    case CreateVolume(v, f) => CreateKeeps(w, v, f);
    case DeleteVolume(v, f) => DeleteKeeps(w, v, f);
    case ControllerPublish(v, n, f) => PublishKeeps(w, v, n, f);
    case ControllerUnpublish(v, n, f) => UnpublishKeeps(w, v, n, f);
    case NodeStage(n, r, f) => StageKeeps(w, n, r, f);
    case NodeUnstage(v, n, target, f) => UnstageKeeps(w, v, n, target, f);
    case _ => OtherKeeps(w, step);
  }

  // ---- Whole runs ----

  predicate NoBreach(w: World, steps: seq<Step>)
    requires AllowedRun(w, steps)
    decreases |steps|
  {
    |steps| == 0 || (!Breach(w, steps[0]) && NoBreach(Next(w, steps[0]), steps[1..]))
  }

  /** The chain holds at the end of every run without a breach, however third parties, reboots and the operator
      interfere and whatever fails. */
  lemma {:induction false} ChainKept(w: World, steps: seq<Step>)
    requires Inv(w) && AllowedRun(w, steps) && NoBreach(w, steps)
    ensures Inv(Run(w, steps)) && Chain(Run(w, steps))
    decreases |steps|
  {
    if |steps| == 0 {
      InvGivesChain(w);
    } else {
      StepExactly(w, steps[0]);
      ChainKept(Next(w, steps[0]), steps[1..]);
    }
  }

  /** A node as it is before the driver does anything on it: caches without volumes, no links. */
  ghost predicate Fresh(s: Plugin) {
    s.links == {} && Distinct(s.caches) && forall c :: c in s.caches ==> c.volumes == map[]
  }

  lemma FreshLinked(s: Plugin)
    requires Fresh(s)
    ensures CoresLinked(s)
  {
    forall path ensures !Held(s.caches, path) {
      HeldMember(s.caches, path);
    }
  }

  /** From a cluster without volumes, with any nodes, every lifecycle without a breach keeps the chain. */
  lemma ChainFromScratch(idLength: nat, nodes: map<string, Plugin>, steps: seq<Step>)
    requires forall n :: n in nodes ==> Fresh(nodes[n])
    requires var w := World(idLength, Cluster(map[], map[]), nodes, map[], map[]); AllowedRun(w, steps) && NoBreach(w, steps)
    ensures Chain(Run(World(idLength, Cluster(map[], map[]), nodes, map[], map[]), steps))
  {
    var w := World(idLength, Cluster(map[], map[]), nodes, map[], map[]);
    forall n | n in nodes ensures CoresLinked(nodes[n]) {
      FreshLinked(nodes[n]);
    }
    assert LinksKnown(nodes, map[]) by {
      forall n | n in nodes ensures nodes[n].links == {} {
        assert Fresh(nodes[n]);
      }
    }
    ChainKept(w, steps);
  }
}

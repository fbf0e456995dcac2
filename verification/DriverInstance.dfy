/** The reconciler of a DriverInstance: it applies the driver's objects in order, takes them down in the reverse
    order, and lets go of the instance last. Resource versions are left out, so states are equal up to them. */
module DriverInstance {
  import opened Outcomes

  datatype Kind = Namespace | ServiceAccount | Role | RoleBinding | ClusterRole | ClusterRoleBinding
                | CsiDriver | ConfigMap | Deployment | DaemonSet

  datatype Key = Key(kind: Kind, namespace: string, name: string)

  /** An object in the cluster. `terminating`: its deletion was asked for and waits for its finalizers. */
  datatype Object = Object(content: string, finalizers: set<string>, terminating: bool)

  type Cluster = map<Key, Object>

  /** `manifest` is the desired content of each object, with the instance as its controller. */
  datatype Instance = Instance(name: string, driverNamespace: string, manifest: Key -> string, finalizer: bool, deleting: bool)

  const FINALIZER := "csi.open-cas.com/operator"
  const ACCOUNT := "opencas-csi-driver-sa"

  predicate Workload(kind: Kind) {
    kind.Deployment? || kind.DaemonSet?
  }

  /** Workloads get no finalizer. */
  function OwnFinalizers(kind: Kind): set<string> {
    if Workload(kind) then {} else {FINALIZER}
  }

  // ---- The objects, in the order they are applied ----

  function Listed(name: string, ns: string): seq<Key> {
    [ Key(Namespace, "", ns),
      Key(ServiceAccount, ns, ACCOUNT),
      Key(Role, ns, "pod-executioner"),
      Key(RoleBinding, ns, ACCOUNT + "-pod-executioner"),
      Key(ClusterRole, "", "external-provisioner-runner"),
      Key(ClusterRole, "", "external-attacher-runner"),
      Key(ClusterRoleBinding, "", ACCOUNT + "-external-provisioner-runner"),
      Key(ClusterRoleBinding, "", ACCOUNT + "-external-attacher-runner"),
      Key(CsiDriver, "", name),
      Key(ConfigMap, ns, "opencas-csi-driver-config-map"),
      Key(Deployment, ns, "opencas-csi-controller-plugin"),
      Key(DaemonSet, ns, "opencas-csi-node-plugin") ]
  }

  ghost predicate DistinctKeys(keys: seq<Key>) {
    forall i, j :: 0 <= i < j < |keys| ==> keys[i] != keys[j]
  }

  /** The names never clash, whatever the instance is called and wherever it lives. */
  lemma ListedDistinct(name: string, ns: string)
    ensures DistinctKeys(Listed(name, ns))
  {
    var keys := Listed(name, ns);
    assert |keys[4].name| != |keys[5].name| && |keys[6].name| != |keys[7].name|;
  }

  function Reversed(keys: seq<Key>): (r: seq<Key>)
    ensures |r| == |keys|
    ensures forall i :: 0 <= i < |keys| ==> r[i] == keys[|keys| - 1 - i]
  {
    seq(|keys|, i requires 0 <= i < |keys| => keys[|keys| - 1 - i])
  }

  // ---- One object ----

  datatype ObjectFaults = ObjectFaults(reference: bool, get: bool, write: Outcome)

  /** Store a new version of an object; one that is terminating goes with its last finalizer. */
  function Put(c: Cluster, key: Key, o: Object): Cluster {
    if o.terminating && o.finalizers == {} then c - {key} else c[key := o]
  }

  /** The merge patch replaces content and finalizers; no finalizer can be added to a terminating object. */
  predicate PatchRefused(c: Cluster, key: Key)
    requires key in c
  {
    c[key].terminating && !(OwnFinalizers(key.kind) <= c[key].finalizers)
  }

  /** Bring one object to its desired form, or take the finalizer off it. */
  function Handled(c: Cluster, di: Instance, key: Key, f: ObjectFaults): (Cluster, bool) {
    if !f.reference || !f.get then (c, false)
    else if key !in c then
      if di.deleting then (c, true)
      else if f.write.Failed? then (c, false)
      else (c[key := Object(di.manifest(key), OwnFinalizers(key.kind), false)], f.write.Done?)
    else if di.deleting then
      if Workload(key.kind) || FINALIZER !in c[key].finalizers then (c, true)
      else if f.write.Failed? then (c, false)
      else (Put(c, key, c[key].(finalizers := c[key].finalizers - {FINALIZER})), f.write.Done?)
    else if f.write.Failed? || PatchRefused(c, key) then (c, false)
    else (Put(c, key, Object(di.manifest(key), OwnFinalizers(key.kind), c[key].terminating)), f.write.Done?)
  }

  /** Handle objects in order up to the first failure; the number tells how many succeeded. */
  function Pass(c: Cluster, di: Instance, keys: seq<Key>, f: Key -> ObjectFaults): (Cluster, nat)
    decreases |keys|
  {
    if |keys| == 0 then (c, 0)
    else
      var (d, ok) := Handled(c, di, keys[0], f(keys[0]));
      if !ok then (d, 0)
      else
        var (e, n) := Pass(d, di, keys[1..], f);
        (e, n + 1)
  }

  datatype Faults = Faults(found: bool, get: bool, addFinalizer: Outcome, removeFinalizer: Outcome, each: Key -> ObjectFaults)

  datatype Answer = Ok | Requeue | Error

  function Order(di: Instance): seq<Key> {
    if di.deleting then Reversed(Listed(di.name, di.driverNamespace)) else Listed(di.name, di.driverNamespace)
  }

  /** The instance is gone: it is being deleted and its finalizer is removed. */
  predicate Gone(di: Instance) {
    di.deleting && !di.finalizer
  }

  function Reconciled(c: Cluster, di: Instance, f: Faults): (Cluster, Instance, Answer) {
    if Gone(di) || !f.found then (c, di, Ok)
    else if !f.get then (c, di, Error)
    else
      var held := if !di.deleting && !f.addFinalizer.Failed? then di.(finalizer := true) else di;
      var (d, n) := Pass(c, di, Order(di), f.each);
      if n < |Order(di)| then (d, held, Requeue)
      else if !di.deleting then (d, held, Ok)
      else (d, if f.removeFinalizer.Failed? then held else held.(finalizer := false), if f.removeFinalizer.Done? then Ok else Error)
  }

  class Reconciler {
    var cluster: Cluster
    var instance: Instance

    constructor (c: Cluster, di: Instance)
      ensures cluster == c && instance == di
    {
      cluster, instance := c, di;
    }

    method HandleObject(key: Key, f: ObjectFaults) returns (ok: bool)
      modifies this`cluster
      ensures (cluster, ok) == Handled(old(cluster), instance, key, f)
    {
      if !f.reference || !f.get {
        return false;
      }
      var desired := Object(instance.manifest(key), OwnFinalizers(key.kind), false);
      if key !in cluster {
        if instance.deleting {
          return true;
        }
        if !f.write.Failed? {
          cluster := cluster[key := desired];
        }
        return f.write.Done?;
      }
      var live := cluster[key];
      if instance.deleting {
        if Workload(key.kind) || FINALIZER !in live.finalizers {
          return true;
        }
        if !f.write.Failed? {
          cluster := Put(cluster, key, live.(finalizers := live.finalizers - {FINALIZER}));
        }
        return f.write.Done?;
      }
      if f.write.Failed? || PatchRefused(cluster, key) {
        return false;
      }
      cluster := Put(cluster, key, desired.(terminating := live.terminating));
      return f.write.Done?;
    }

    method Reconcile(f: Faults) returns (answer: Answer)
      modifies this
      ensures (cluster, instance, answer) == Reconciled(old(cluster), old(instance), f)
    {
      if Gone(instance) || !f.found {
        return Ok;
      }
      if !f.get {
        return Error;
      }
      ghost var before := instance;
      if !instance.deleting && !f.addFinalizer.Failed? {
        instance := instance.(finalizer := true);
      }
      var objects := Listed(instance.name, instance.driverNamespace);
      if instance.deleting {
        objects := Reversed(objects);
      }
      PassIgnoresFinalizer(cluster, before, instance, objects, f.each);
      var n := HandleAll(objects, f.each);
      if n < |objects| {
        return Requeue;
      }
      if instance.deleting {
        if !f.removeFinalizer.Failed? {
          instance := instance.(finalizer := false);
        }
        return if f.removeFinalizer.Done? then Ok else Error;
      }
      return Ok;
    }

    /** The loop over the objects; it ends at the first failure. */
    method HandleAll(objects: seq<Key>, f: Key -> ObjectFaults) returns (n: nat)
      modifies this`cluster
      ensures (cluster, n) == Pass(old(cluster), instance, objects, f)
    {
      n := 0;
      while n < |objects|
        invariant n <= |objects|
        invariant var rest := Pass(cluster, instance, objects[n..], f);
                  Pass(old(cluster), instance, objects, f) == (rest.0, n + rest.1)
      {
        assert objects[n..][1..] == objects[n + 1..];
        var ok := HandleObject(objects[n], f(objects[n]));
        if !ok {
          return;
        }
        n := n + 1;
      }
    }
  }

  lemma {:induction false} PassIgnoresFinalizer(c: Cluster, a: Instance, b: Instance, keys: seq<Key>, f: Key -> ObjectFaults)
    requires a.manifest == b.manifest && a.deleting == b.deleting
    ensures Pass(c, a, keys, f) == Pass(c, b, keys, f)
    decreases |keys|
  {
    if |keys| > 0 {
      PassIgnoresFinalizer(Handled(c, a, keys[0], f(keys[0])).0, a, b, keys[1..], f);
    }
  }

  // ---- Frames ----

  /** An object is the same in both clusters, or absent from both. */
  predicate Same(c: Cluster, d: Cluster, key: Key) {
    (key in c <==> key in d) && (key in c ==> c[key] == d[key])
  }

  lemma HandledFrame(c: Cluster, di: Instance, key: Key, f: ObjectFaults, other: Key)
    requires other != key
    ensures Same(c, Handled(c, di, key, f).0, other)
  {
  }

  /** A pass touches no object outside its list. */
  lemma {:induction false} PassFrame(c: Cluster, di: Instance, keys: seq<Key>, f: Key -> ObjectFaults, other: Key)
    requires other !in keys
    ensures Same(c, Pass(c, di, keys, f).0, other)
    decreases |keys|
  {
    if |keys| > 0 {
      HandledFrame(c, di, keys[0], f(keys[0]), other);
      PassFrame(Handled(c, di, keys[0], f(keys[0])).0, di, keys[1..], f, other);
    }
  }

  lemma {:induction false} PassCount(c: Cluster, di: Instance, keys: seq<Key>, f: Key -> ObjectFaults)
    ensures Pass(c, di, keys, f).1 <= |keys|
    decreases |keys|
  {
    if |keys| > 0 {
      PassCount(Handled(c, di, keys[0], f(keys[0])).0, di, keys[1..], f);
    }
  }

  lemma TailDistinct(keys: seq<Key>)
    requires DistinctKeys(keys) && |keys| > 0
    ensures DistinctKeys(keys[1..]) && keys[0] !in keys[1..]
  {
    assert forall i :: 0 <= i < |keys| - 1 ==> keys[1..][i] == keys[i + 1];
  }

  /** In a pass over distinct objects, the successful ones are each handled on their own, the one that fails may
      have been changed, and those after it are untouched. */
  lemma {:induction false} PassParts(c: Cluster, di: Instance, keys: seq<Key>, f: Key -> ObjectFaults, i: nat)
    requires DistinctKeys(keys) && i < |keys|
    ensures var (d, n) := Pass(c, di, keys, f);
            && (i < n ==> Handled(c, di, keys[i], f(keys[i])).1)
            && (i <= n ==> Same(Handled(c, di, keys[i], f(keys[i])).0, d, keys[i]))
            && (i > n ==> Same(c, d, keys[i]))
    decreases |keys|
  {
    TailDistinct(keys);
    var (d, ok) := Handled(c, di, keys[0], f(keys[0]));
    if i == 0 {
      PassFrame(d, di, keys[1..], f, keys[0]);
    } else {
      HandledFrame(c, di, keys[0], f(keys[0]), keys[i]);
      assert keys[1..][i - 1] == keys[i];
      if ok {
        PassParts(d, di, keys[1..], f, i - 1);
        HandledLocal(c, d, di, keys[i], f(keys[i]));
      }
    }
  }

  /** What handling does to an object depends on that object alone. */
  lemma HandledLocal(c: Cluster, d: Cluster, di: Instance, key: Key, f: ObjectFaults)
    requires Same(c, d, key)
    ensures Handled(c, di, key, f).1 == Handled(d, di, key, f).1
    ensures Same(Handled(c, di, key, f).0, Handled(d, di, key, f).0, key)
  {
  }

  // ---- Applying ----

  /** The object has its desired form. */
  predicate Settled(c: Cluster, di: Instance, key: Key) {
    key in c && c[key].content == di.manifest(key) && c[key].finalizers == OwnFinalizers(key.kind)
  }

  /** A workload that is on its way out: the patch takes its last finalizer, and it goes. */
  predicate Doomed(c: Cluster, key: Key) {
    key in c && c[key].terminating && Workload(key.kind)
  }

  /** Success makes the object equal to its desired form, exactly if it is no terminating workload. */
  lemma HandledSettles(c: Cluster, di: Instance, key: Key, f: ObjectFaults)
    requires !di.deleting && Handled(c, di, key, f).1
    ensures Settled(Handled(c, di, key, f).0, di, key) <==> !Doomed(c, key)
  {
  }

  /** A pass that ends at position n leaves all earlier objects in their desired form (but terminating workloads,
      which are gone) and all later ones untouched. */
  lemma ApplyPass(c: Cluster, di: Instance, f: Faults, i: nat)
    requires !di.deleting && i < |Order(di)|
    ensures var (d, n) := Pass(c, di, Order(di), f.each); var key := Order(di)[i];
            && (i < n ==> (Settled(d, di, key) <==> !Doomed(c, key)))
            && (i == n ==> Same(c, d, key) || Settled(d, di, key) || (Doomed(c, key) && key !in d))
            && (i > n ==> Same(c, d, key))
  {
    ListedDistinct(di.name, di.driverNamespace);
    var key := Order(di)[i];
    PassParts(c, di, Order(di), f.each, i);
    if Handled(c, di, key, f.each(key)).1 {
      HandledSettles(c, di, key, f.each(key));
    }
  }

  /** If nothing listed is a terminating workload, an answer without error means that everything listed has its
      desired form. */
  lemma ApplySound(c: Cluster, di: Instance, f: Faults, key: Key)
    requires !di.deleting && f.found && key in Listed(di.name, di.driverNamespace) && Reconciled(c, di, f).2 == Ok
    ensures f.get && (Settled(Reconciled(c, di, f).0, di, key) <==> !Doomed(c, key))
  {
    var i :| 0 <= i < |Order(di)| && Order(di)[i] == key;
    PassCount(c, di, Order(di), f.each);
    ApplyPass(c, di, f, i);
  }

  lemma HandledAgain(c: Cluster, di: Instance, key: Key, f: ObjectFaults)
    requires !di.deleting && Settled(c, di, key) && !Doomed(c, key)
    ensures Handled(c, di, key, f).0 == c
  {
    assert c[key] == Object(di.manifest(key), OwnFinalizers(key.kind), c[key].terminating);
  }

  lemma {:induction false} PassAgain(c: Cluster, di: Instance, keys: seq<Key>, f: Key -> ObjectFaults)
    requires !di.deleting && forall key :: key in keys ==> Settled(c, di, key) && !Doomed(c, key)
    ensures Pass(c, di, keys, f).0 == c
    decreases |keys|
  {
    if |keys| > 0 {
      HandledAgain(c, di, keys[0], f(keys[0]));
      PassAgain(c, di, keys[1..], f);
    }
  }

  /** From the desired state another run changes no object, whatever fails in it. */
  lemma ApplyIdempotent(c: Cluster, di: Instance, f: Faults)
    requires !di.deleting && forall key :: key in Listed(di.name, di.driverNamespace) ==> Settled(c, di, key) && !Doomed(c, key)
    ensures Reconciled(c, di, f).0 == c
  {
    PassAgain(c, di, Order(di), f.each);
  }

  lemma HandledDoomsNothing(c: Cluster, di: Instance, key: Key, f: ObjectFaults)
    requires !Doomed(c, key)
    ensures !Doomed(Handled(c, di, key, f).0, key)
  {
  }

  /** After a run that answers without error, and with no listed workload terminating, the next run changes nothing. */
  lemma ApplyTwice(c: Cluster, di: Instance, f: Faults, g: Faults)
    requires !di.deleting && f.found && Reconciled(c, di, f).2 == Ok
    requires forall key :: key in Listed(di.name, di.driverNamespace) ==> !Doomed(c, key)
    ensures var (d, e, _) := Reconciled(c, di, f); Reconciled(d, e, g).0 == d
  {
    var (d, e, _) := Reconciled(c, di, f);
    forall key | key in Listed(di.name, di.driverNamespace) ensures Settled(d, e, key) && !Doomed(d, key) {
      var i :| 0 <= i < |Order(di)| && Order(di)[i] == key;
      ListedDistinct(di.name, di.driverNamespace);
      PassCount(c, di, Order(di), f.each);
      PassParts(c, di, Order(di), f.each, i);
      HandledDoomsNothing(c, di, key, f.each(key));
      ApplySound(c, di, f, key);
    }
    ApplyIdempotent(d, e, g);
  }

  function Passes(c: Cluster, di: Instance, runs: seq<Faults>): Cluster
    decreases |runs|
  {
    if |runs| == 0 then c else Passes(Pass(c, di, Order(di), runs[0].each).0, di, runs[1..])
  }

  /** No run loses ground: what has its desired form keeps it through any number of failing runs. */
  lemma {:induction false} SettledStays(c: Cluster, di: Instance, runs: seq<Faults>, key: Key)
    requires !di.deleting && Settled(c, di, key) && !Doomed(c, key)
    ensures Settled(Passes(c, di, runs), di, key)
    decreases |runs|
  {
    if |runs| > 0 {
      var d := Pass(c, di, Order(di), runs[0].each).0;
      if key in Order(di) {
        var i :| 0 <= i < |Order(di)| && Order(di)[i] == key;
        ListedDistinct(di.name, di.driverNamespace);
        PassParts(c, di, Order(di), runs[0].each, i);
        HandledAgain(c, di, key, runs[0].each(key));
      } else {
        PassFrame(c, di, Order(di), runs[0].each, key);
      }
      assert Same(c, d, key);
      SettledStays(d, di, runs[1..], key);
    }
  }

  // ---- Taking down ----

  /** The object still carries the operator's finalizer, and it is the reconciler's task to take it off. */
  predicate Guarded(c: Cluster, key: Key) {
    !Workload(key.kind) && key in c && FINALIZER in c[key].finalizers
  }

  /** How many finalizers are left. */
  function Left(c: Cluster, keys: seq<Key>): nat {
    if |keys| == 0 then 0 else (if Guarded(c, keys[0]) then 1 else 0) + Left(c, keys[1..])
  }

  /** Which of them this handling takes off. */
  predicate Takes(c: Cluster, key: Key, f: ObjectFaults) {
    f.reference && f.get && Guarded(c, key) && !f.write.Failed?
  }

  lemma HandledReleases(c: Cluster, di: Instance, key: Key, f: ObjectFaults)
    requires di.deleting
    ensures var (d, ok) := Handled(c, di, key, f);
            && (Guarded(d, key) <==> Guarded(c, key) && !Takes(c, key, f))
            && (ok ==> !Guarded(d, key))
            && (!Takes(c, key, f) ==> d == c)
  {
  }

  lemma ReversedDistinct(keys: seq<Key>)
    requires DistinctKeys(keys)
    ensures DistinctKeys(Reversed(keys))
  {
  }

  /** Taking down goes from the last object to the first. Whenever a run stops, there is a position such that all
      objects after it are free of the finalizer and all before it are untouched. */
  lemma TeardownPass(c: Cluster, di: Instance, f: Faults, i: nat)
    requires di.deleting && i < |Order(di)|
    ensures var (d, n) := Pass(c, di, Order(di), f.each); var key := Listed(di.name, di.driverNamespace)[|Order(di)| - 1 - i];
            && (i < n ==> !Guarded(d, key))
            && (i > n ==> Same(c, d, key))
            && (Guarded(d, key) ==> Guarded(c, key))
  {
    ListedDistinct(di.name, di.driverNamespace);
    ReversedDistinct(Listed(di.name, di.driverNamespace));
    var key := Order(di)[i];
    PassParts(c, di, Order(di), f.each, i);
    HandledReleases(c, di, key, f.each(key));
  }

  /** The instance's finalizer goes only when no listed object but the workloads carries the operator's. */
  lemma InstanceGoesLast(c: Cluster, di: Instance, f: Faults, key: Key)
    requires di.deleting && di.finalizer && !Reconciled(c, di, f).1.finalizer
    requires key in Listed(di.name, di.driverNamespace)
    ensures !Guarded(Reconciled(c, di, f).0, key)
  {
    var keys := Listed(di.name, di.driverNamespace);
    var j :| 0 <= j < |keys| && keys[j] == key;
    PassCount(c, di, Order(di), f.each);
    TeardownPass(c, di, f, |keys| - 1 - j);
  }

  lemma {:induction false} LeftSame(c: Cluster, d: Cluster, keys: seq<Key>)
    requires forall key :: key in keys ==> (Guarded(c, key) <==> Guarded(d, key))
    ensures Left(c, keys) == Left(d, keys)
  {
    if |keys| > 0 {
      LeftSame(c, d, keys[1..]);
    }
  }

  lemma {:induction false} LeftFalls(c: Cluster, d: Cluster, keys: seq<Key>)
    requires forall key :: key in keys && Guarded(d, key) ==> Guarded(c, key)
    ensures Left(d, keys) <= Left(c, keys)
  {
    if |keys| > 0 {
      LeftFalls(c, d, keys[1..]);
    }
  }

  lemma {:induction false} LeftZero(c: Cluster, keys: seq<Key>)
    ensures Left(c, keys) == 0 <==> forall key :: key in keys ==> !Guarded(c, key)
  {
    if |keys| > 0 {
      LeftZero(c, keys[1..]);
      assert keys == [keys[0]] + keys[1..];
    }
  }

  /** How many finalizers a pass takes off. */
  function Taken(c: Cluster, di: Instance, keys: seq<Key>, f: Key -> ObjectFaults): nat
    decreases |keys|
  {
    if |keys| == 0 then 0
    else
      var (d, ok) := Handled(c, di, keys[0], f(keys[0]));
      (if Takes(c, keys[0], f(keys[0])) then 1 else 0) + (if ok then Taken(d, di, keys[1..], f) else 0)
  }

  /** Every pass, failed or not, lowers the count by exactly what it took off: it never adds a finalizer back. */
  lemma {:induction false} TeardownConserves(c: Cluster, di: Instance, keys: seq<Key>, f: Key -> ObjectFaults)
    requires di.deleting && DistinctKeys(keys)
    ensures Left(c, keys) == Left(Pass(c, di, keys, f).0, keys) + Taken(c, di, keys, f)
    decreases |keys|
  {
    if |keys| > 0 {
      var key, rest := keys[0], keys[1..];
      var (d, ok) := Handled(c, di, key, f(key));
      TailDistinct(keys);
      HandledReleases(c, di, key, f(key));
      forall other | other in rest ensures Guarded(c, other) <==> Guarded(d, other) {
        HandledFrame(c, di, key, f(key), other);
      }
      LeftSame(c, d, rest);
      if ok {
        TeardownConserves(d, di, rest, f);
        PassFrame(d, di, rest, f, key);
      }
    }
  }

  // ---- Runs of a teardown ----

  /** A run of the reconciler, anybody's delete request, or anybody's removal of a finalizer. */
  datatype Step = Run(faults: Faults) | Request(key: Key) | Release(key: Key, finalizer: string)

  function Next(c: Cluster, di: Instance, step: Step): (Cluster, Instance) {
    match step
    case Run(f) => var (d, e, _) := Reconciled(c, di, f); (d, e)
    case Request(key) => (if key in c then Put(c, key, c[key].(terminating := true)) else c, di)
    case Release(key, x) => (if key in c then Put(c, key, c[key].(finalizers := c[key].finalizers - {x})) else c, di)
  }

  function RunAll(c: Cluster, di: Instance, steps: seq<Step>): (Cluster, Instance)
    decreases |steps|
  {
    if |steps| == 0 then (c, di)
    else
      var (d, e) := Next(c, di, steps[0]);
      RunAll(d, e, steps[1..])
  }

  /** No step guards an object again, and the instance's finalizer goes only with the last of theirs. */
  lemma StepReleases(c: Cluster, di: Instance, step: Step, key: Key)
    requires di.deleting && key in Order(di)
    ensures var (d, e) := Next(c, di, step);
            && (Guarded(d, key) ==> Guarded(c, key))
            && e == di.(finalizer := e.finalizer)
            && (di.finalizer && !e.finalizer ==> !Guarded(d, key))
  {
    if step.Run? {
      var i :| 0 <= i < |Order(di)| && Order(di)[i] == key;
      PassCount(c, di, Order(di), step.faults.each);
      TeardownPass(c, di, step.faults, i);
    }
  }

  /** Over every teardown the number of finalizers left never rises; and once the instance has lost its own, none
      is left, for good. */
  lemma {:induction false} TeardownSafe(c: Cluster, di: Instance, steps: seq<Step>)
    requires di.deleting && (!di.finalizer ==> Left(c, Order(di)) == 0)
    ensures var (d, e) := RunAll(c, di, steps);
            && Left(d, Order(di)) <= Left(c, Order(di))
            && (!e.finalizer ==> Left(d, Order(di)) == 0)
    decreases |steps|
  {
    if |steps| > 0 {
      var (d, e) := Next(c, di, steps[0]);
      assert |Order(di)| == 12;
      StepReleases(c, di, steps[0], Order(di)[0]);
      forall key | key in Order(di) ensures Guarded(d, key) ==> Guarded(c, key) {
        StepReleases(c, di, steps[0], key);
      }
      LeftFalls(c, d, Order(di));
      if di.finalizer && !e.finalizer {
        forall key | key in Order(di) ensures !Guarded(d, key) {
          StepReleases(c, di, steps[0], key);
        }
        LeftZero(d, Order(di));
      }
      TeardownSafe(d, e, steps[1..]);
    }
  }

  predicate Clear(f: ObjectFaults) {
    f.reference && f.get && f.write.Done?
  }

  /** Nothing fails in this run. */
  ghost predicate Fine(f: Faults) {
    f.found && f.get && f.removeFinalizer.Done? && forall key :: Clear(f.each(key))
  }

  lemma {:induction false} ClearPass(c: Cluster, di: Instance, keys: seq<Key>, f: Key -> ObjectFaults)
    requires di.deleting && forall key :: key in keys ==> Clear(f(key))
    ensures Pass(c, di, keys, f).1 == |keys|
    decreases |keys|
  {
    if |keys| > 0 {
      ClearPass(Handled(c, di, keys[0], f(keys[0])).0, di, keys[1..], f);
    }
  }

  /** After any teardown so far, one run in which nothing fails completes it. */
  lemma TeardownCompletes(c: Cluster, di: Instance, steps: seq<Step>, f: Faults)
    requires di.deleting && (!di.finalizer ==> Left(c, Order(di)) == 0)
    requires Fine(f)
    ensures var (d, e) := RunAll(c, di, steps + [Run(f)]);
            !e.finalizer && Left(d, Order(di)) == 0
  {
    var (d, e) := RunAll(c, di, steps);
    TeardownSafe(c, di, steps + [Run(f)]);
    RunAppend(c, di, steps, Run(f));
    StillDeleting(c, di, steps);
    ClearPass(d, e, Order(e), f.each);
  }

  lemma {:induction false} RunAppend(c: Cluster, di: Instance, steps: seq<Step>, last: Step)
    ensures RunAll(c, di, steps + [last]) == Next(RunAll(c, di, steps).0, RunAll(c, di, steps).1, last)
    decreases |steps|
  {
    if |steps| == 0 {
      assert (steps + [last])[1..] == [];
    } else {
      var (d, e) := Next(c, di, steps[0]);
      RunAppend(d, e, steps[1..], last);
      assert (steps + [last])[1..] == steps[1..] + [last];
    }
  }

  lemma {:induction false} StillDeleting(c: Cluster, di: Instance, steps: seq<Step>)
    requires di.deleting
    ensures var e := RunAll(c, di, steps).1; e == di.(finalizer := e.finalizer)
    decreases |steps|
  {
    if |steps| > 0 {
      var (d, e) := Next(c, di, steps[0]);
      StillDeleting(d, e, steps[1..]);
    }
  }

  function Runs(runs: seq<Faults>): seq<Step> {
    seq(|runs|, i requires 0 <= i < |runs| => Run(runs[i]))
  }

  /** No run of the reconciler touches an object that is not listed. */
  lemma {:induction false} UnlistedStays(c: Cluster, di: Instance, runs: seq<Faults>, key: Key)
    requires di.deleting && key !in Listed(di.name, di.driverNamespace)
    ensures Same(c, RunAll(c, di, Runs(runs)).0, key)
    decreases |runs|
  {
    if |runs| > 0 {
      var (d, e) := Next(c, di, Run(runs[0]));
      assert key !in Order(di);
      PassFrame(c, di, Order(di), runs[0].each, key);
      UnlistedStays(d, e, runs[1..], key);
      assert Runs(runs)[0] == Run(runs[0]) && Runs(runs)[1..] == Runs(runs[1..]);
    }
  }

  /** What a teardown leaves: after any runs and one in which nothing fails, an object carries the operator's
      finalizer exactly if it did before and the instance does not list it now. */
  lemma StrandedExactly(c: Cluster, di: Instance, runs: seq<Faults>, f: Faults, key: Key)
    requires di.deleting && di.finalizer && Fine(f)
    ensures Guarded(RunAll(c, di, Runs(runs) + [Run(f)]).0, key) <==>
            Guarded(c, key) && key !in Listed(di.name, di.driverNamespace)
  {
    var d := RunAll(c, di, Runs(runs) + [Run(f)]).0;
    if key in Listed(di.name, di.driverNamespace) {
      TeardownCompletes(c, di, Runs(runs), f);
      OrderMembers(di, key);
      LeftZero(d, Order(di));
    } else {
      assert Runs(runs + [f]) == Runs(runs) + [Run(f)];
      UnlistedStays(c, di, runs + [f], key);
    }
  }

  lemma OrderMembers(di: Instance, key: Key)
    requires key in Listed(di.name, di.driverNamespace)
    ensures key in Order(di)
  {
    var keys := Listed(di.name, di.driverNamespace);
    var j :| 0 <= j < |keys| && keys[j] == key;
    assert Reversed(keys)[|keys| - 1 - j] == key;
  }

  /** A change of the driver namespace strands what was applied in the old one: its Namespace object, for one. */
  lemma NamespaceStranded(c: Cluster, di: Instance, former: string, runs: seq<Faults>, f: Faults)
    requires di.deleting && di.finalizer && Fine(f)
    requires former != di.driverNamespace && Guarded(c, Key(Namespace, "", former))
    ensures Guarded(RunAll(c, di, Runs(runs) + [Run(f)]).0, Key(Namespace, "", former))
  {
    StrandedExactly(c, di, runs, f, Key(Namespace, "", former));
  }

  /** A Deployment that is being deleted shows it: the patch succeeds and the Deployment is gone. */
  lemma TerminatingWorkloadGoes(di: Instance)
    requires !di.deleting
    ensures var key := Key(Deployment, di.driverNamespace, "opencas-csi-controller-plugin");
            var c := map[key := Object(di.manifest(key), {"foregroundDeletion"}, true)];
            Handled(c, di, key, ObjectFaults(true, true, Done)) == (map[], true)
  {
    var key := Key(Deployment, di.driverNamespace, "opencas-csi-controller-plugin");
    var c := map[key := Object(di.manifest(key), {"foregroundDeletion"}, true)];
    assert c - {key} == map[];
  }
}

/** The objects of a driver instance by name: which are applied, in which order, and what a first apply and a teardown
    do to each. */
module DriverObjects {
  import opened Outcomes
  import opened DriverInstance

  const OPERATOR := "csi.open-cas.com/operator"

  // ---- The objects by name ----

  function NamespaceKey(ns: string): Key {
    Key(Namespace, "", ns)
  }

  function AccountKey(ns: string): Key {
    Key(ServiceAccount, ns, "opencas-csi-driver-sa")
  }

  function ControllerKey(ns: string): Key {
    Key(Deployment, ns, "opencas-csi-controller-plugin")
  }

  function NodeKey(ns: string): Key {
    Key(DaemonSet, ns, "opencas-csi-node-plugin")
  }

  /** What lets the plugins do their work: roles, bindings, registration and configuration. */
  ghost predicate Supporting(key: Key, name: string, ns: string) {
    || key == Key(Role, ns, "pod-executioner")
    || key == Key(RoleBinding, ns, ACCOUNT + "-pod-executioner")
    || key == Key(ClusterRole, "", "external-provisioner-runner")
    || key == Key(ClusterRole, "", "external-attacher-runner")
    || key == Key(ClusterRoleBinding, "", ACCOUNT + "-external-provisioner-runner")
    || key == Key(ClusterRoleBinding, "", ACCOUNT + "-external-attacher-runner")
    || key == Key(CsiDriver, "", name)
    || key == Key(ConfigMap, ns, "opencas-csi-driver-config-map")
  }

  ghost predicate Plugin(key: Key, ns: string) {
    key == ControllerKey(ns) || key == NodeKey(ns)
  }

  /** The objects of an instance. */
  ghost predicate Driver(key: Key, name: string, ns: string) {
    key == NamespaceKey(ns) || key == AccountKey(ns) || Supporting(key, name, ns) || Plugin(key, ns)
  }

  /** Where an object of the driver is in the list. */
  lemma Position(key: Key, name: string, ns: string) returns (i: nat)
    requires Driver(key, name, ns)
    ensures i < |Listed(name, ns)| == 12 && Listed(name, ns)[i] == key
    ensures key == NamespaceKey(ns) <==> i == 0
    ensures key == AccountKey(ns) <==> i == 1
    ensures key == ControllerKey(ns) <==> i == 10
    ensures key == NodeKey(ns) <==> i == 11
  {
    match key.kind
    case Namespace => i := 0;
    case ServiceAccount => i := 1;
    case Role => i := 2;
    case RoleBinding => i := 3;
    case ClusterRole => i := if key.name == "external-provisioner-runner" then 4 else 5;
    case ClusterRoleBinding => i := if key.name == ACCOUNT + "-external-provisioner-runner" then 6 else 7;
    case CsiDriver => i := 8;
    case ConfigMap => i := 9;
    case Deployment => i := 10;
    case DaemonSet => i := 11;
  }

  lemma ListedAreDriver(name: string, ns: string, i: nat)
    requires i < |Listed(name, ns)|
    ensures Driver(Listed(name, ns)[i], name, ns)
  {
  }

  /** The list holds exactly these objects, each once, the Namespace first, the ServiceAccount second, the two plugins
      last, and roles before their bindings. */
  lemma ListedInOrder(name: string, ns: string)
    ensures var keys := Listed(name, ns);
            && |keys| == 12 && DistinctKeys(keys)
            && (forall key :: key in keys <==> Driver(key, name, ns))
            && keys[0] == NamespaceKey(ns) && keys[1] == AccountKey(ns)
            && keys[10] == ControllerKey(ns) && keys[11] == NodeKey(ns)
            && keys[2].kind == Role && keys[3].kind == RoleBinding
            && keys[4].kind == keys[5].kind == ClusterRole && keys[6].kind == keys[7].kind == ClusterRoleBinding
  {
    var keys := Listed(name, ns);
    ListedDistinct(name, ns);
    forall key ensures key in keys <==> Driver(key, name, ns) {
      ListedExactly(key, name, ns);
    }
  }

  lemma ListedExactly(key: Key, name: string, ns: string)
    ensures key in Listed(name, ns) <==> Driver(key, name, ns)
  {
    var keys := Listed(name, ns);
    if key in keys {
      var i :| 0 <= i < |keys| && keys[i] == key;
      ListedAreDriver(name, ns, i);
    }
    if Driver(key, name, ns) {
      var i := Position(key, name, ns);
    }
  }

  lemma PluginKinds(key: Key, name: string, ns: string)
    requires Driver(key, name, ns)
    ensures Workload(key.kind) <==> Plugin(key, ns)
    ensures OwnFinalizers(key.kind) == if Plugin(key, ns) then {} else {OPERATOR}
  {
  }

  // ---- Passes over any list ----

  /** An object is touched only when every earlier one has its desired form. */
  lemma EarlierSettled(c: Cluster, di: Instance, keys: seq<Key>, f: Key -> ObjectFaults, i: nat, p: nat)
    requires !di.deleting && DistinctKeys(keys) && i < p < |keys| && !Doomed(c, keys[i]) && !Same(c, Pass(c, di, keys, f).0, keys[p])
    ensures Settled(Pass(c, di, keys, f).0, di, keys[i])
  {
    PassParts(c, di, keys, f, p);
    PassParts(c, di, keys, f, i);
    HandledSettles(c, di, keys[i], f(keys[i]));
  }

  /** In a teardown, an object is touched only when every earlier one is free of the finalizer. */
  lemma EarlierReleased(c: Cluster, di: Instance, keys: seq<Key>, f: Key -> ObjectFaults, i: nat, p: nat)
    requires di.deleting && DistinctKeys(keys) && i < p < |keys| && !Same(c, Pass(c, di, keys, f).0, keys[p])
    ensures !Guarded(Pass(c, di, keys, f).0, keys[i])
  {
    PassParts(c, di, keys, f, p);
    PassParts(c, di, keys, f, i);
    HandledReleases(c, di, keys[i], f(keys[i]));
  }

  lemma {:induction false} ApplyGoesThrough(c: Cluster, di: Instance, keys: seq<Key>, f: Key -> ObjectFaults)
    requires !di.deleting && DistinctKeys(keys) && (forall key :: Clear(f(key))) && forall key :: key in keys ==> key !in c
    ensures Pass(c, di, keys, f).1 == |keys|
    decreases |keys|
  {
    if |keys| > 0 {
      TailDistinct(keys);
      forall other | other in keys[1..] ensures other !in Handled(c, di, keys[0], f(keys[0])).0 {
        HandledFrame(c, di, keys[0], f(keys[0]), other);
      }
      ApplyGoesThrough(Handled(c, di, keys[0], f(keys[0])).0, di, keys[1..], f);
    }
  }

  /** On an empty cluster a pass in which nothing fails makes exactly the objects of its list. */
  lemma MakesListed(di: Instance, keys: seq<Key>, f: Key -> ObjectFaults, key: Key)
    requires !di.deleting && DistinctKeys(keys) && forall k :: Clear(f(k))
    ensures var (c, n) := Pass(map[], di, keys, f);
            && n == |keys| && (key in c <==> key in keys)
            && (key in c ==> c[key] == Object(di.manifest(key), OwnFinalizers(key.kind), false))
  {
    ApplyGoesThrough(map[], di, keys, f);
    if key in keys {
      var i :| 0 <= i < |keys| && keys[i] == key;
      PassParts(map[], di, keys, f, i);
    } else {
      PassFrame(map[], di, keys, f, key);
    }
  }

  /** What a teardown in which nothing fails does to an object of its list. */
  lemma TakesDown(c: Cluster, di: Instance, keys: seq<Key>, f: Key -> ObjectFaults, i: nat)
    requires di.deleting && DistinctKeys(keys) && i < |keys| && (forall k :: Clear(f(k))) && !Workload(keys[i].kind)
    ensures var (d, n) := Pass(c, di, keys, f);
            && n == |keys|
            && (keys[i] in c && !c[keys[i]].terminating ==>
                  keys[i] in d && d[keys[i]] == c[keys[i]].(finalizers := c[keys[i]].finalizers - {OPERATOR}))
            && (keys[i] in c && c[keys[i]].terminating && c[keys[i]].finalizers == {OPERATOR} ==> keys[i] !in d)
  {
    ClearPass(c, di, keys, f);
    PassParts(c, di, keys, f, i);
    if keys[i] in c && OPERATOR !in c[keys[i]].finalizers {
      assert c[keys[i]].finalizers - {OPERATOR} == c[keys[i]].finalizers;
    }
  }

  // ---- Applying ----

  /** Nothing fails in this run. */
  ghost predicate Smooth(f: Faults) {
    f.found && f.get && f.addFinalizer.Done? && forall key :: Clear(f.each(key))
  }

  /** The first apply of an instance: every object of the driver is there with its manifest, the operator's finalizer on
      all but the two plugins, nothing else is there, the instance is held, and the answer is without error. */
  lemma FirstApply(di: Instance, f: Faults, key: Key)
    requires !di.deleting && Smooth(f)
    ensures var (c, e, answer) := Reconciled(map[], di, f);
            && answer == Ok && e == di.(finalizer := true)
            && (key in c <==> Driver(key, di.name, di.driverNamespace))
            && (key in c ==> c[key] == Object(di.manifest(key), if Plugin(key, di.driverNamespace) then {} else {OPERATOR}, false))
  {
    ListedExactly(key, di.name, di.driverNamespace);
    ListedDistinct(di.name, di.driverNamespace);
    MakesListed(di, Order(di), f.each, key);
    if Driver(key, di.name, di.driverNamespace) {
      PluginKinds(key, di.name, di.driverNamespace);
    }
  }

  /** Whatever a run changes, it changes by one pass over the list. */
  lemma RunIsPass(c: Cluster, di: Instance, f: Faults)
    requires c != Reconciled(c, di, f).0
    ensures Reconciled(c, di, f).0 == Pass(c, di, Order(di), f.each).0
  {
  }

  /** In any run, on any cluster, a plugin is touched only when every other object of the driver has its desired form. */
  lemma PluginsLast(c: Cluster, di: Instance, f: Faults, plugin: Key, key: Key)
    requires !di.deleting && Plugin(plugin, di.driverNamespace) && !Same(c, Reconciled(c, di, f).0, plugin)
    requires Driver(key, di.name, di.driverNamespace) && !Plugin(key, di.driverNamespace)
    ensures Settled(Reconciled(c, di, f).0, di, key)
  {
    ListedDistinct(di.name, di.driverNamespace);
    PluginKinds(key, di.name, di.driverNamespace);
    var i := Position(key, di.name, di.driverNamespace);
    var p := Position(plugin, di.name, di.driverNamespace);
    RunIsPass(c, di, f);
    EarlierSettled(c, di, Order(di), f.each, i, p);
  }

  /** In any run, on any cluster, no object but the Namespace is touched unless the Namespace has its desired form. */
  lemma NamespaceFirst(c: Cluster, di: Instance, f: Faults, key: Key)
    requires !di.deleting && key != NamespaceKey(di.driverNamespace) && !Same(c, Reconciled(c, di, f).0, key)
    ensures Settled(Reconciled(c, di, f).0, di, NamespaceKey(di.driverNamespace))
  {
    ListedDistinct(di.name, di.driverNamespace);
    ListedExactly(key, di.name, di.driverNamespace);
    RunIsPass(c, di, f);
    if Driver(key, di.name, di.driverNamespace) {
      var p := Position(key, di.name, di.driverNamespace);
      EarlierSettled(c, di, Order(di), f.each, 0, p);
    } else {
      PassFrame(c, di, Order(di), f.each, key);
    }
  }

  /** A first apply that fails at the ServiceAccount has made neither plugin. */
  lemma FailedAccount(di: Instance, f: Faults, plugin: Key)
    requires !di.deleting && f.each(AccountKey(di.driverNamespace)).write.Failed? && Plugin(plugin, di.driverNamespace)
    ensures plugin !in Reconciled(map[], di, f).0
  {
    var account := AccountKey(di.driverNamespace);
    if plugin in Reconciled(map[], di, f).0 {
      PluginsLast(map[], di, f, plugin, account);
      RunIsPass(map[], di, f);
      ListedDistinct(di.name, di.driverNamespace);
      var i := Position(account, di.name, di.driverNamespace);
      PassParts(map[], di, Order(di), f.each, i);
    }
  }

  /** An object on its way out that lacks the operator's finalizer cannot get it: the run fails there and leaves it. */
  lemma TerminatingRefused(c: Cluster, di: Instance, key: Key, f: ObjectFaults)
    requires !di.deleting && Driver(key, di.name, di.driverNamespace) && !Plugin(key, di.driverNamespace)
    requires key in c && c[key].terminating && OPERATOR !in c[key].finalizers
    ensures Handled(c, di, key, f) == (c, false)
  {
    PluginKinds(key, di.name, di.driverNamespace);
  }

  // ---- Taking down ----

  /** Where an object of the driver is in the reversed list. */
  lemma ReversedPosition(key: Key, di: Instance) returns (i: nat)
    requires di.deleting && Driver(key, di.name, di.driverNamespace)
    ensures i < |Order(di)| == 12 && Order(di)[i] == key && DistinctKeys(Order(di))
    ensures key == NamespaceKey(di.driverNamespace) <==> i == 11
  {
    var j := Position(key, di.name, di.driverNamespace);
    ListedDistinct(di.name, di.driverNamespace);
    ReversedDistinct(Listed(di.name, di.driverNamespace));
    i := 11 - j;
  }

  /** In a teardown the Namespace is touched only when no other object of the driver carries the operator's finalizer. */
  lemma NamespaceLast(c: Cluster, di: Instance, f: Faults, key: Key)
    requires di.deleting && !Same(c, Reconciled(c, di, f).0, NamespaceKey(di.driverNamespace))
    requires Driver(key, di.name, di.driverNamespace) && !Plugin(key, di.driverNamespace) && key != NamespaceKey(di.driverNamespace)
    ensures key in Reconciled(c, di, f).0 ==> OPERATOR !in Reconciled(c, di, f).0[key].finalizers
  {
    PluginKinds(key, di.name, di.driverNamespace);
    var i := ReversedPosition(key, di);
    var p := ReversedPosition(NamespaceKey(di.driverNamespace), di);
    RunIsPass(c, di, f);
    EarlierReleased(c, di, Order(di), f.each, i, p);
  }

  /** A teardown touches no plugin, and nothing that is not the driver's. */
  lemma PluginsLeftAlone(c: Cluster, di: Instance, f: Faults, key: Key)
    requires di.deleting && (Plugin(key, di.driverNamespace) || !Driver(key, di.name, di.driverNamespace))
    ensures Same(c, Reconciled(c, di, f).0, key)
  {
    if !Same(c, Reconciled(c, di, f).0, key) {
      RunIsPass(c, di, f);
      if Plugin(key, di.driverNamespace) {
        var i := ReversedPosition(key, di);
        PassParts(c, di, Order(di), f.each, i);
      } else {
        NotOrdered(key, di);
        PassFrame(c, di, Order(di), f.each, key);
      }
    }
  }

  lemma NotOrdered(key: Key, di: Instance)
    requires !Driver(key, di.name, di.driverNamespace)
    ensures key !in Order(di)
  {
    ListedExactly(key, di.name, di.driverNamespace);
  }

  /** A fault-free teardown takes the operator's finalizer off every object of the driver but the plugins, keeps all else
      of an object that is not terminating, releases the instance and answers without error. */
  lemma TeardownReleases(c: Cluster, di: Instance, f: Faults, key: Key)
    requires di.deleting && di.finalizer && Fine(f)
    requires Driver(key, di.name, di.driverNamespace) && !Plugin(key, di.driverNamespace)
    ensures var (d, e, answer) := Reconciled(c, di, f);
            && answer == Ok && e == di.(finalizer := false)
            && (key in c && !c[key].terminating ==>
                  key in d && d[key] == c[key].(finalizers := c[key].finalizers - {OPERATOR}))
            && (key in c && c[key].terminating && c[key].finalizers == {OPERATOR} ==> key !in d)
  {
    PluginKinds(key, di.name, di.driverNamespace);
    var i := ReversedPosition(key, di);
    TakesDown(c, di, Order(di), f.each, i);
  }
}

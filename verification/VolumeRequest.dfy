/** What the controller checks of a create request: its capabilities, and the parameters of the storage class, a Go
    map that is visited in an unspecified order. */
module VolumeRequest {
  import opened Text
  import opened NodePlugin

  const BACKEND_CLASS := "backend-sc-name"

  predicate CapabilitiesValid(capabilities: seq<Capability>) {
    |capabilities| > 0 && Neither !in capabilities
  }

  method CheckCapabilities(capabilities: seq<Capability>) returns (ok: bool)
    ensures ok <==> CapabilitiesValid(capabilities)
  {
    if |capabilities| == 0 {
      return false;
    }
    for i := 0 to |capabilities|
      invariant Neither !in capabilities[..i]
    {
      if capabilities[i] == Neither {
        return false;
      }
      assert capabilities[..i + 1] == capabilities[..i] + [capabilities[i]];
    }
    assert capabilities[..|capabilities|] == capabilities;
    return true;
  }

  /** A parameter and its value, in the order in which the map is visited. */
  type Parameters = seq<(string, string)>

  predicate Known(p: (string, string)) {
    Lower(p.0) == BACKEND_CLASS
  }

  /** The backend class: the value visited last, empty without parameters, none if a parameter is unknown. */
  function BackendClass(parameters: Parameters): Option<string> {
    if !(forall p :: p in parameters ==> Known(p)) then None
    else if |parameters| == 0 then Some("")
    else Some(parameters[|parameters| - 1].1)
  }

  method ReadParameters(parameters: Parameters) returns (backend: Option<string>)
    ensures backend == BackendClass(parameters)
  {
    var value := "";
    for i := 0 to |parameters|
      invariant BackendClass(parameters[..i]) == Some(value)
    {
      assert parameters[..i + 1] == parameters[..i] + [parameters[i]];
      if Lower(parameters[i].0) == BACKEND_CLASS {
        value := parameters[i].1;
      } else {
        assert parameters[i] in parameters;
        return None;
      }
    }
    assert parameters[..|parameters|] == parameters;
    return Some(value);
  }

  predicate Acceptable(capabilities: seq<Capability>, parameters: Parameters) {
    CapabilitiesValid(capabilities) && BackendClass(parameters).Some? && BackendClass(parameters) != Some("")
  }

  // ---- The order of the map ----

  function MovedLast(parameters: Parameters, i: nat): Parameters
    requires i < |parameters|
  {
    parameters[..i] + parameters[i + 1..] + [parameters[i]]
  }

  lemma MovedLastReorders(parameters: Parameters, i: nat)
    requires i < |parameters|
    ensures multiset(MovedLast(parameters, i)) == multiset(parameters)
    ensures forall p :: p in MovedLast(parameters, i) <==> p in parameters
  {
    assert parameters == parameters[..i] + [parameters[i]] + parameters[i + 1..];
  }

  lemma SameMembers(ps: Parameters, qs: Parameters)
    requires multiset(ps) == multiset(qs)
    ensures |ps| == |qs| && forall p :: p in ps <==> p in qs
  {
    assert |multiset(ps)| == |ps| && |multiset(qs)| == |qs|;
    assert forall p :: p in ps <==> p in multiset(ps);
    assert forall p :: p in qs <==> p in multiset(qs);
  }

  /** The backend class does not depend on the order in which Go visits the map exactly if a parameter is unknown or
      all spellings of the one known parameter carry the same value. */
  lemma ClassIndependentExactly(parameters: Parameters)
    ensures (forall other :: multiset(other) == multiset(parameters) ==> BackendClass(other) == BackendClass(parameters))
            <==> BackendClass(parameters) == None || forall p, q :: p in parameters && q in parameters ==> p.1 == q.1
  {
    if BackendClass(parameters) == None || forall p, q :: p in parameters && q in parameters ==> p.1 == q.1 {
      forall other | multiset(other) == multiset(parameters) ensures BackendClass(other) == BackendClass(parameters) {
        SameMembers(other, parameters);
        assert |other| > 0 ==> other[|other| - 1] in parameters && parameters[|parameters| - 1] in parameters;
      }
    } else {
      var p, q :| p in parameters && q in parameters && p.1 != q.1;
      var i :| 0 <= i < |parameters| && parameters[i] == p;
      var j :| 0 <= j < |parameters| && parameters[j] == q;
      MovedLastReorders(parameters, i);
      MovedLastReorders(parameters, j);
      assert BackendClass(MovedLast(parameters, i)) == Some(p.1) && BackendClass(MovedLast(parameters, j)) == Some(q.1);
    }
  }

  /** Any two spellings of the parameter, upper and lower case say, with different values show it. */
  lemma ClassMayDependOnOrder(p: (string, string), q: (string, string))
    requires Known(p) && Known(q) && p.1 != q.1
    ensures multiset([p, q]) == multiset([q, p])
    ensures BackendClass([p, q]) == Some(q.1) && BackendClass([q, p]) == Some(p.1)
  {
    assert forall x :: x in [p, q] ==> Known(x);
    assert forall x :: x in [q, p] ==> Known(x);
  }
}

/** Objects that carry the protection label, the webhook that guards their deletion, and the helpers that create
    and delete them. One store holds the objects of one kind (claims or Pods) of the protected namespace. */
module ProtectedObjects {
  import opened Text
  import opened Outcomes

  const LABEL := "csi.open-cas.com/protected"
  const REJECTION := "objects with label '" + LABEL + "' are managed by Open-CAS CSI driver"

  type Labels = map<string, string>

  /** Objects of one kind, by name. */
  type Store = map<string, Labels>

  predicate Protected(objects: Store, name: string) {
    name in objects && LABEL in objects[name]
  }

  /** Present, but open to anybody's delete request. */
  predicate Exposed(objects: Store, name: string) {
    name in objects && LABEL !in objects[name]
  }

  // ---- The webhook ----

  datatype Object = Object(kind: string, name: string, namespace: string, labels: Labels)

  /** `oldObject` is None if its raw form does not decode. */
  datatype Request = Request(uid: string, oldObject: Option<Object>)

  datatype Body = Undecodable | Empty | Review(request: Request)

  datatype Response = BadRequest | Answer(uid: string, allowed: bool, message: string)

  /** What the webhook promises: it answers exactly the well-formed reviews, and turns down exactly the labelled objects. */
  ghost predicate Decides(body: Body, r: Response) {
    && (r.Answer? <==> body.Review? && body.request.oldObject.Some? && body.request.oldObject.value.name != "")
    && (r.Answer? ==>
          && r.uid == body.request.uid
          && (r.allowed <==> LABEL !in body.request.oldObject.value.labels)
          && r.message == if r.allowed then "" else REJECTION)
  }

  method Validate(body: Body) returns (r: Response)
    ensures Decides(body, r)
  {
    if !body.Review? {
      return BadRequest;
    }
    match body.request.oldObject {
      case None => return BadRequest;
      case Some(o) =>
        if o.name == "" {
          return BadRequest;
        }
        r := Answer(body.request.uid, true, "");
        if LABEL in o.labels {
          r := r.(allowed := false, message := REJECTION);
        }
    }
  }

  function ReviewOf(name: string, labels: Labels): Body {
    Review(Request("", Some(Object("", name, "", labels))))
  }

  /** The webhook lets the deletion of this object through. */
  predicate Admitted(name: string, labels: Labels) {
    name != "" && LABEL !in labels
  }

  /** `Admitted` is what every answer to the review of that object says. */
  lemma AdmittedIsTheAnswer(name: string, labels: Labels, r: Response)
    requires Decides(ReviewOf(name, labels), r)
    ensures Admitted(name, labels) <==> r.Answer? && r.allowed
  {
  }

  /** A delete request, from anybody, as the API server serves it. */
  function Deleted(objects: Store, name: string): Store {
    if name in objects && Admitted(name, objects[name]) then objects - {name} else objects
  }

  // ---- The helpers ----

  /** `snatched`: somebody else asks for the deletion before the helper does. `lingers`: the deletion is accepted,
      but the object stays until its grace period or its finalizers are over. */
  datatype DeleteFaults = DeleteFaults(get: bool, update: Outcome, snatched: bool, delete: Outcome, lingers: bool)

  datatype Verdict = Ok | NotFound | Error

  /** The last call of a deletion. */
  function Finish(objects: Store, name: string, f: DeleteFaults): (Store, Verdict) {
    var met := if f.snatched then Deleted(objects, name) else objects;
    if f.delete.Failed? then (met, Error)
    else if name !in met then (met, if f.delete.Done? then NotFound else Error)
    else if !Admitted(name, met[name]) then (met, Error)
    else (if f.lingers then met else met - {name}, if f.delete.Done? then Ok else Error)
  }

  function Strip(objects: Store, name: string): Store
    requires name in objects
  {
    objects[name := objects[name] - {LABEL}]
  }

  /** One attempt at a deletion: look, take the label off, delete. It may end after any of these. */
  function Attempt(objects: Store, name: string, f: DeleteFaults): (Store, Verdict) {
    if !f.get then (objects, Error)
    else if name !in objects then (objects, Ok)
    else if LABEL !in objects[name] then Finish(objects, name, f)
    else
      match f.update
      case Failed => (objects, Error)
      case Unconfirmed => (Strip(objects, name), Error)
      case Done => Finish(Strip(objects, name), name, f)
  }

  datatype Start = Running | TimedOut | WatchEnded | WatchRefused

  datatype CreateFaults = CreateFaults(create: Outcome, start: Start)

  /** What the creator of a Pod hands back: whether there is a Pod, and whether there is an error. */
  datatype Creation = Creation(made: bool, failed: bool)

  function CreatedClaim(objects: Store, name: string, o: Outcome): (Store, bool) {
    if name in objects || o.Failed? then (objects, false)
    else (objects[name := map[LABEL := ""]], o.Done?)
  }

  /** A Pod that does not come up is asked to be deleted, label and all. */
  function CreatedPod(objects: Store, name: string, f: CreateFaults): (Store, Creation) {
    var (made, known) := CreatedClaim(objects, name, f.create);
    if !known then (made, Creation(false, true))
    else
      match f.start
      case Running => (made, Creation(true, false))
      case WatchRefused => (made, Creation(true, true))
      case TimedOut => (Deleted(made, name), Creation(true, true))
      case WatchEnded => (Deleted(made, name), Creation(true, false))
  }

  class ProtectedStore {
    var objects: Store

    constructor (initial: Store)
      ensures objects == initial
    {
      objects := initial;
    }

    method Request(name: string)
      modifies this
      ensures objects == Deleted(old(objects), name)
    {
      if name in objects {
        var r := Validate(ReviewOf(name, objects[name]));
        AdmittedIsTheAnswer(name, objects[name], r);
        if r.Answer? && r.allowed {
          objects := objects - {name};
        }
      }
    }

    method Delete(name: string, f: DeleteFaults) returns (v: Verdict)
      modifies this
      ensures (objects, v) == Attempt(old(objects), name, f)
    {
      if !f.get {
        return Error;
      }
      if name !in objects {
        return Ok;
      }
      if LABEL in objects[name] {
        var labels := objects[name];
        if !f.update.Failed? {
          objects := objects[name := labels - {LABEL}];
        }
        if !f.update.Done? {
          return Error;
        }
      }
      if f.snatched {
        Request(name);
      }
      if f.delete.Failed? {
        return Error;
      }
      if name !in objects {
        return if f.delete.Done? then NotFound else Error;
      }
      if !Admitted(name, objects[name]) {
        return Error;
      }
      if !f.lingers {
        objects := objects - {name};
      }
      return if f.delete.Done? then Ok else Error;
    }

    method CreateClaim(name: string, o: Outcome) returns (ok: bool)
      modifies this
      ensures (objects, ok) == CreatedClaim(old(objects), name, o)
      ensures ok ==> Protected(objects, name) && objects - {name} == old(objects)
      ensures forall n :: n in old(objects) ==> n in objects && objects[n] == old(objects)[n]
    {
      if name in objects || o.Failed? {
        return false;
      }
      objects := objects[name := map[LABEL := ""]];
      return o.Done?;
    }

    method CreatePod(name: string, f: CreateFaults) returns (c: Creation)
      modifies this
      ensures (objects, c) == CreatedPod(old(objects), name, f)
    {
      var known := CreateClaim(name, f.create);
      if !known {
        return Creation(false, true);
      }
      if f.start == WatchRefused {
        return Creation(true, true);
      }
      if f.start != Running {
        Request(name);
      }
      return Creation(true, f.start == TimedOut);
    }
  }

  // ---- Single calls ----

  /** How far an object is from being gone. */
  function Rank(objects: Store, name: string): nat {
    if name !in objects then 0 else if LABEL !in objects[name] then 1 else 2
  }

  /** A new Pod is always labelled, so the creator's own delete request of a Pod that did not come up is turned
      down: whatever happens, the Pod is there afterwards and protected. */
  lemma CleanUpRequestRejected(objects: Store, name: string, f: CreateFaults)
    requires name !in objects
    ensures var (after, c) := CreatedPod(objects, name, f);
            && after == (if f.create.Failed? then objects else objects[name := map[LABEL := ""]])
            && (c.made ==> Protected(after, name))
  {
  }

  /** An attempt leaves all other objects alone and never puts the label on. */
  lemma AttemptFrame(objects: Store, name: string, f: DeleteFaults)
    ensures var after := Attempt(objects, name, f).0;
            && (forall n :: n != name ==> (n in after <==> n in objects) && (n in after ==> after[n] == objects[n]))
            && Rank(after, name) <= Rank(objects, name)
            && (name in after ==> after[name] == objects[name] || after[name] == objects[name] - {LABEL})
  {
  }

  predicate Complete(f: DeleteFaults) {
    f.get && f.update.Done? && f.delete.Done?
  }

  /** The helper's own delete request is never turned down: if its calls go through, the object is gone or,
      at worst, unprotected and on its way out. */
  lemma CompleteAttemptDeletes(objects: Store, name: string, f: DeleteFaults)
    requires name != "" && Complete(f)
    ensures var (after, v) := Attempt(objects, name, f);
            && v != Error
            && !Protected(after, name)
            && (!f.lingers ==> after == objects - {name})
  {
    if name in objects {
      assert Strip(objects, name) - {name} == objects - {name};
    } else {
      assert objects - {name} == objects;
    }
  }

  /** An attempt that reports success leaves no protected object behind. */
  lemma SuccessUnprotects(objects: Store, name: string, f: DeleteFaults)
    requires Attempt(objects, name, f).1 != Error
    ensures !Protected(Attempt(objects, name, f).0, name)
  {
  }
}

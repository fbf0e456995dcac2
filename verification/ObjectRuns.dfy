/** Protected objects over whole runs: creations, attempts at deletion that may be cut short, and anybody's delete
    requests. */
module ObjectRuns {
  import opened ProtectedObjects

  datatype Step =
    | Delete(name: string, faults: DeleteFaults)
    | ThirdParty(name: string)
    | Create(name: string, creation: CreateFaults)

  function Next(objects: Store, step: Step): Store {
    match step
    case Delete(name, f) => Attempt(objects, name, f).0
    case ThirdParty(name) => Deleted(objects, name)
    case Create(name, f) => CreatedPod(objects, name, f).0
  }

  function Run(objects: Store, steps: seq<Step>): Store
    decreases |steps|
  {
    if |steps| == 0 then objects else Run(Next(objects, steps[0]), steps[1..])
  }

  /** A protected object survives any run in which the driver does not itself delete it, unchanged. */
  lemma {:induction false} ProtectedSurvives(objects: Store, steps: seq<Step>, name: string)
    requires Protected(objects, name)
    requires forall i :: 0 <= i < |steps| ==> steps[i].Delete? ==> steps[i].name != name
    ensures name in Run(objects, steps) && Run(objects, steps)[name] == objects[name]
    decreases |steps|
  {
    if |steps| > 0 {
      var next := Next(objects, steps[0]);
      assert name in next && next[name] == objects[name];
      ProtectedSurvives(next, steps[1..], name);
    }
  }

  /** The deletions that were cut short are never undone: without a new creation of that name an object only
      moves on, from protected to exposed to absent, whoever else asks for what. */
  lemma {:induction false} DeletionOnlyProgresses(objects: Store, steps: seq<Step>, name: string)
    requires forall i :: 0 <= i < |steps| ==> steps[i].Create? ==> steps[i].name != name
    ensures Rank(Run(objects, steps), name) <= Rank(objects, name)
    decreases |steps|
  {
    if |steps| > 0 {
      assert Rank(Next(objects, steps[0]), name) <= Rank(objects, name);
      DeletionOnlyProgresses(Next(objects, steps[0]), steps[1..], name);
    }
  }

  /** Any run, with any number of attempts cut short, then one complete attempt: the object is absent, and stays
      absent until somebody creates it. */
  lemma CompleteAttemptEnds(objects: Store, before: seq<Step>, f: DeleteFaults, after: seq<Step>, name: string)
    requires name != "" && Complete(f) && !f.lingers
    requires forall i :: 0 <= i < |after| ==> after[i].Create? ==> after[i].name != name
    ensures name !in Run(Attempt(Run(objects, before), name, f).0, after)
  {
    var ended := Attempt(Run(objects, before), name, f).0;
    CompleteAttemptDeletes(Run(objects, before), name, f);
    DeletionOnlyProgresses(ended, after, name);
  }
}

/** What the calls of the controller answer and do, stated on the request, the cluster and the failures alone. */
module ControllerAnswers {
  import opened Text
  import opened Outcomes
  import opened NodePlugin
  import opened ProtectedObjects
  import opened VolumeRequest
  import opened VolumeChain

  // ---- The helpers ----

  /** An attempt at a deletion reports no failure exactly if each of its calls that is needed goes through. */
  lemma AttemptSucceedsExactly(objects: Store, name: string, f: DeleteFaults)
    requires name != ""
    ensures Attempt(objects, name, f).1 != Error <==>
            f.get && (name in objects ==> (Protected(objects, name) ==> f.update.Done?) && f.delete.Done?)
  {
  }

  /** What the creator of a Pod reports: a Pod exactly if the creation is confirmed, and an error exactly if it is not or
      the Pod does not come up, unless the watch just ends. */
  lemma CreationReported(objects: Store, name: string, f: CreateFaults)
    ensures var c := CreatedPod(objects, name, f).1;
            && (c.made <==> name !in objects && f.create.Done?)
            && (c.failed <==> !c.made || f.start == TimedOut || f.start == WatchRefused)
  {
  }

  // ---- Create and delete ----

  /** A creation succeeds exactly if the request is valid and the claim is there or can be created; a claim it creates
      is as `CreateMakesClaim` says. */
  lemma CreateSucceedsExactly(c: Cluster, v: string, f: CreateVolumeCall)
    ensures var (d, code) := CreatedVolume(c, v, f);
            && (code == OK <==>
                  && v != "" && |f.capabilities| > 0 && Neither !in f.capabilities
                  && |f.parameters| > 0 && (forall p :: p in f.parameters ==> Known(p)) && f.parameters[|f.parameters| - 1].1 != ""
                  && f.storageClass && f.lookup && (ClaimName(v) in c.claims || f.create.Done?))
            && (ClaimName(v) in c.claims ==> d == c)
  {
  }

  /** The claim that a successful creation makes, if there was none: named after the volume, with the label the webhook
      looks for, and beside all that was there. */
  lemma CreateMakesClaim(c: Cluster, v: string, f: CreateVolumeCall)
    requires CreatedVolume(c, v, f).1 == OK && "opencas-csi-" + v !in c.claims
    ensures CreatedVolume(c, v, f).0 == c.(claims := c.claims["opencas-csi-" + v := map["csi.open-cas.com/protected" := ""]])
  {
  }

  lemma CreateRefused(c: Cluster, v: string, f: CreateVolumeCall)
    requires v == "" || !Acceptable(f.capabilities, f.parameters)
    ensures CreatedVolume(c, v, f) == (c, InvalidArgument)
  {
  }

  lemma ClaimNamed(v: string)
    ensures ClaimName(v) != ""
  {
    assert |ClaimName(v)| >= 12;
  }

  /** A deletion succeeds exactly if the claim is not there or every call needed to delete it goes through; the volume is
      never reported as deleted while its claim is protected. */
  lemma DeleteSucceedsExactly(c: Cluster, v: string, f: DeleteVolumeFaults)
    ensures var (d, code) := DeletedVolume(c, v, f);
            && (code == OK <==>
                  && v != "" && f.lookup
                  && (ClaimName(v) in c.claims ==>
                        f.delete.get && (Protected(c.claims, ClaimName(v)) ==> f.delete.update.Done?) && f.delete.delete.Done?))
            && (code == OK ==> !Protected(d.claims, ClaimName(v)))
            && d.pods == c.pods
  {
    ClaimNamed(v);
    AttemptSucceedsExactly(c.claims, ClaimName(v), f.delete);
    if Attempt(c.claims, ClaimName(v), f.delete).1 != Error {
      SuccessUnprotects(c.claims, ClaimName(v), f.delete);
    }
  }

  /** A deletion in which nothing fails removes exactly the claim of its volume. */
  lemma DeleteRemovesClaim(c: Cluster, v: string, f: DeleteVolumeFaults)
    requires v != "" && f.lookup && Complete(f.delete) && !f.delete.lingers
    ensures DeletedVolume(c, v, f) == (c.(claims := c.claims - {ClaimName(v)}), OK)
  {
    ClaimNamed(v);
    CompleteAttemptDeletes(c.claims, ClaimName(v), f.delete);
    if ClaimName(v) !in c.claims {
      assert c.claims - {ClaimName(v)} == c.claims;
    }
  }

  // ---- Publish and unpublish ----

  /** The Pod is there, or it is created and comes up or its watch just ends. */
  predicate PodComes(c: Cluster, v: string, n: string, f: AttachFaults) {
    PodName(n, v) in c.pods || (f.make.create.Done? && (f.make.start == Running || f.make.start == WatchEnded))
  }

  /** A publish succeeds exactly if the claim is there, the Pod is there or comes, and the PV is bound and found. */
  lemma ControllerPublishSucceedsExactly(c: Cluster, v: string, n: string, f: AttachFaults)
    ensures ControllerPublished(c, v, n, f).1 == OK <==>
            && v != "" && n != "" && f.capability && f.claim && ClaimName(v) in c.claims
            && f.lookup && PodComes(c, v, n, f) && f.refresh && f.bound && f.volume
  {
    CreationReported(c.pods, PodName(n, v), f.make);
  }

  /** The answers to a publish that is refused before it touches a Pod. */
  lemma ControllerPublishRefused(c: Cluster, v: string, n: string, f: AttachFaults)
    ensures v == "" || n == "" || !f.capability ==> ControllerPublished(c, v, n, f) == (c, InvalidArgument)
    ensures v != "" && n != "" && f.capability && f.claim && ClaimName(v) !in c.claims ==>
              ControllerPublished(c, v, n, f) == (c, Code.NotFound)
  {
  }

  lemma PodNamed(n: string, v: string)
    ensures PodName(n, v) != ""
  {
    assert PodName(n, v)[|n|] == '-';
  }

  /** A successful publish leaves the Pod that it met or a new protected one, and touches nothing else. */
  lemma ControllerPublishLeaves(c: Cluster, v: string, n: string, f: AttachFaults)
    requires ControllerPublished(c, v, n, f).1 == OK
    ensures ControllerPublished(c, v, n, f).0 ==
            if n + "-" + v in c.pods then c else c.(pods := c.pods[n + "-" + v := map["csi.open-cas.com/protected" := ""]])
  {
    if PodName(n, v) !in c.pods {
      CleanUpRequestRejected(c.pods, PodName(n, v), f.make);
    }
  }

  /** A Pod that does not come up is undone: the publish is aborted, and with nothing failing in the deletion the cluster
      is as before. */
  lemma ControllerPublishUndone(c: Cluster, v: string, n: string, f: AttachFaults)
    requires v != "" && n != "" && f.capability && f.claim && ClaimName(v) in c.claims && f.lookup && PodName(n, v) !in c.pods
    requires f.make.create.Done? && (f.make.start == TimedOut || f.make.start == WatchRefused)
    ensures ControllerPublished(c, v, n, f).1 == Aborted
    ensures Complete(f.undo) && !f.undo.lingers ==> ControllerPublished(c, v, n, f).0 == c
  {
    var name := PodName(n, v);
    PodNamed(n, v);
    CleanUpRequestRejected(c.pods, name, f.make);
    var pods := CreatedPod(c.pods, name, f.make).0;
    assert pods - {name} == c.pods;
    if Complete(f.undo) {
      CompleteAttemptDeletes(pods, name, f.undo);
    }
  }

  /** An unpublish succeeds exactly if the Pod is not there or every call needed to delete it goes through; with nothing
      failing it removes exactly that Pod. */
  lemma ControllerUnpublishSucceedsExactly(c: Cluster, v: string, n: string, f: DeleteVolumeFaults)
    ensures var (d, code) := ControllerUnpublished(c, v, n, f);
            && (code == OK <==>
                  && v != "" && n != "" && f.lookup
                  && (PodName(n, v) in c.pods ==>
                        f.delete.get && (Protected(c.pods, PodName(n, v)) ==> f.delete.update.Done?) && f.delete.delete.Done?))
            && (code == OK ==> !Protected(d.pods, PodName(n, v)))
  {
    PodNamed(n, v);
    AttemptSucceedsExactly(c.pods, PodName(n, v), f.delete);
    UnpublishPod(c, v, n, f);
  }

  lemma ControllerUnpublishRemovesPod(c: Cluster, v: string, n: string, f: DeleteVolumeFaults)
    requires v != "" && n != "" && f.lookup && Complete(f.delete) && !f.delete.lingers
    ensures ControllerUnpublished(c, v, n, f) == (c.(pods := c.pods - {PodName(n, v)}), OK)
  {
    PodNamed(n, v);
    CompleteAttemptDeletes(c.pods, PodName(n, v), f.delete);
    if PodName(n, v) !in c.pods {
      assert c.pods - {PodName(n, v)} == c.pods;
    }
  }

  // ---- There and back ----

  /** Create, publish, unpublish and delete, where the first two succeed and nothing fails in the last two, leave the
      cluster as it was before the volume. */
  lemma LifecycleRestores(c: Cluster, v: string, n: string, f: CreateVolumeCall, g: AttachFaults, h: DeleteVolumeFaults)
    requires ClaimName(v) !in c.claims && PodName(n, v) !in c.pods
    requires CreatedVolume(c, v, f).1 == OK && ControllerPublished(CreatedVolume(c, v, f).0, v, n, g).1 == OK
    requires h.lookup && Complete(h.delete) && !h.delete.lingers
    ensures var published := ControllerPublished(CreatedVolume(c, v, f).0, v, n, g).0;
            var (unpublished, code) := ControllerUnpublished(published, v, n, h);
            code == OK && DeletedVolume(unpublished, v, h) == (c, OK)
  {
    var created := CreatedVolume(c, v, f).0;
    CreateMakesClaim(c, v, f);
    ControllerPublishSucceedsExactly(created, v, n, g);
    ControllerPublishLeaves(created, v, n, g);
    var published := ControllerPublished(created, v, n, g).0;
    ControllerUnpublishRemovesPod(published, v, n, h);
    assert published.pods - {PodName(n, v)} == c.pods;
    CreateSucceedsExactly(c, v, f);
    DeleteRemovesClaim(created, v, h);
    assert created.claims - {ClaimName(v)} == c.claims;
  }
}

/** What the calls of the node plugin answer and do, stated on the request, the node and the failures alone. */
module NodeAnswers {
  import opened Text
  import opened Decimal
  import opened Outcomes
  import opened CacheHost
  import opened NodePlugin
  import opened StagingLaws

  /** Some cache holds the volume. */
  ghost predicate Attached(s: Plugin, volId: string) {
    exists c :: c in s.caches && ByIdPath(volId) in c.volumes
  }

  lemma AttachedMeans(s: Plugin, volId: string)
    ensures Attached(s, volId) <==> Holder(s.caches, ByIdPath(volId)).Some?
  {
    var h := Holder(s.caches, ByIdPath(volId));
    if h.Some? {
      assert s.caches[h.value] in s.caches;
    }
  }

  // ---- Stage ----

  /** The label names this cache, or there is no label and it is the only one. */
  predicate Named(s: Plugin, c: Cache) {
    match s.nodeLabel
    case Some(text) => c in s.caches && Atoi(text) == Parsed(c.id, true)
    case None => s.caches == [c]
  }

  lemma NamedSelected(s: Plugin, c: Cache)
    requires Named(s, c)
    ensures SelectCache(s.caches, s.nodeLabel) == Some(c.id) && s.nodeLabel != Some("") && |s.caches| > 0
  {
    if s.nodeLabel.Some? {
      var i :| 0 <= i < |s.caches| && s.caches[i] == c;
      assert IdUsed(s.caches, c.id);
    } else {
      assert s.caches[0] == c;
    }
  }

  lemma SelectedNamed(s: Plugin) returns (c: Cache)
    requires SelectCache(s.caches, s.nodeLabel).Some?
    ensures Named(s, c) && c.id == SelectCache(s.caches, s.nodeLabel).value
  {
    if s.nodeLabel.Some? {
      var i :| 0 <= i < |s.caches| && s.caches[i].id == Atoi(s.nodeLabel.value).value;
      c := s.caches[i];
    } else {
      c := s.caches[0];
    }
  }

  ghost predicate Choosable(s: Plugin) {
    exists c :: Named(s, c)
  }

  lemma ChoosableMeans(s: Plugin)
    ensures Choosable(s) <==> SelectCache(s.caches, s.nodeLabel).Some?
    ensures Choosable(s) ==> s.nodeLabel != Some("") && |s.caches| > 0
  {
    if Choosable(s) {
      var c :| Named(s, c);
      NamedSelected(s, c);
    }
    if SelectCache(s.caches, s.nodeLabel).Some? {
      var c := SelectedNamed(s);
    }
  }

  /** The file system a request asks for: the one it names, ext4 otherwise. */
  function Wanted(capability: Capability): string {
    match capability
    case Mounted(fsType, _) => if fsType == "" then "ext4" else fsType
    case _ => "ext4"
  }

  predicate Complete(r: StageRequest) {
    r.volId != "" && r.target != "" && r.capability.Some? && r.backendPv != ""
  }

  ghost predicate CoreThere(s: Plugin, volId: string, f: StageFaults) {
    Attached(s, volId) || (f.list && f.node && Choosable(s) && f.addCore.Done?)
  }

  /** The backend carries the wanted file system, or none and it can be made. */
  predicate FilesystemThere(s: Plugin, volId: string, wanted: string, f: StageFaults) {
    f.probe && if ByIdPath(volId) in s.filesystems then s.filesystems[ByIdPath(volId)] == wanted else f.probeAgain && f.makeFs
  }

  predicate MountThere(s: Plugin, target: string, f: MountFaults) {
    f.check && (IsMounted(s.mounts, target) || (f.create && f.attach))
  }

  lemma AttachExactly(s: Plugin, volId: string, f: StageFaults)
    ensures Attach(s, ByIdPath(volId), f).1 == OK <==> f.lookup && CoreThere(s, volId, f)
  {
    AttachedMeans(s, volId);
    ChoosableMeans(s);
  }

  lemma WantedMeans(capability: Capability)
    ensures RequestedFs(capability) == Wanted(capability) != ""
  {
  }

  /** A file system is prepared exactly if the asked one is there, or none is and it can be made; an existing one is never
      replaced. */
  lemma PrepareFsExactly(s: Plugin, path: string, fsType: string, f: StageFaults)
    ensures var (t, ok) := PrepareFs(s, path, fsType, f);
            && (ok <==> fsType != "" && f.probeAgain && if path in s.filesystems then s.filesystems[path] == fsType else f.makeFs)
            && (ok ==> path in t.filesystems && t.filesystems[path] == fsType)
            && (path in s.filesystems || !ok ==> t == s)
            && t == s.(filesystems := t.filesystems) && t.filesystems - {path} == s.filesystems - {path}
  {
  }

  lemma FormatExactly(s: Plugin, r: StageRequest, f: StageFaults)
    requires r.capability.Some? && Holder(s.caches, ByIdPath(r.volId)).Some?
    ensures FormatAndMount(s, r, f).1 == OK <==>
            FilesystemThere(s, r.volId, Wanted(r.capability.value), f) && MountThere(s, r.target, f.mount)
  {
    WantedMeans(r.capability.value);
  }

  /** A stage succeeds exactly if the request is complete, the Pod is there, and core, file system and mount are there
      or can be made; a raw block volume needs the core only. */
  lemma StageSucceedsExactly(s: Plugin, r: StageRequest, f: StageFaults)
    ensures Staged(s, r, f).1 == OK <==>
            && Complete(r) && f.pod == Present && f.makeLink && f.lookup && CoreThere(s, r.volId, f)
            && (r.capability == Some(Block) ||
                (FilesystemThere(s, r.volId, Wanted(r.capability.value), f) && MountThere(s, r.target, f.mount)))
  {
    if Complete(r) && f.pod == Present && f.makeLink {
      var linked := Linked(s, r);
      LinkedSame(s, r, f);
      AttachExactly(linked, r.volId, f);
      var t := Attach(linked, ByIdPath(r.volId), f).0;
      AttachFrame(linked, ByIdPath(r.volId), f);
      if Attach(linked, ByIdPath(r.volId), f).1 == OK {
        AttachHolds(linked, ByIdPath(r.volId), f);
        FormatExactly(t, r, f);
      }
    }
  }

  lemma LinkedSame(s: Plugin, r: StageRequest, f: StageFaults)
    ensures CoreThere(Linked(s, r), r.volId, f) <==> CoreThere(s, r.volId, f)
  {
    assert forall c :: Named(Linked(s, r), c) <==> Named(s, c);
  }

  /** The answers to a stage that is refused, which then changes no cache, file system or mount. */
  lemma StageRefused(s: Plugin, r: StageRequest, f: StageFaults)
    ensures var (t, code) := Staged(s, r, f);
            && (r.volId == "" || r.target == "" || r.capability == None ==> t == s && code == InvalidArgument)
            && (r.volId != "" && r.target != "" && r.capability.Some? && r.backendPv == "" ==> t == s && code == Aborted)
            && (Complete(r) && f.pod == Absent ==> t == s && code == NotFound)
            && (Complete(r) && f.pod == Present && f.makeLink && f.lookup && f.list && !Attached(s, r.volId) ==>
                  && (s.caches == [] ==> t == Linked(s, r) && code == NotFound)
                  && (s.caches != [] && f.node && s.nodeLabel == Some("") ==> t == Linked(s, r) && code == Unavailable)
                  && (s.caches != [] && f.node && s.nodeLabel != Some("") && !Choosable(s) ==> t == Linked(s, r) && code == InvalidArgument))
  {
    AttachedMeans(s, r.volId);
    ChoosableMeans(s);
  }

  /** Another file system than the wanted one is refused as such. */
  lemma OtherTypeRefused(s: Plugin, r: StageRequest, f: StageFaults)
    requires Complete(r) && r.capability != Some(Block) && f.pod == Present && f.makeLink && f.lookup && Attached(s, r.volId) && f.probe
    requires ByIdPath(r.volId) in s.filesystems && s.filesystems[ByIdPath(r.volId)] != Wanted(r.capability.value)
    ensures Staged(s, r, f) == (Linked(s, r), AlreadyExists)
  {
    AttachedMeans(s, r.volId);
    WantedMeans(r.capability.value);
  }

  /** A successful stage of an unattached volume adds it, under the id casadm gives, to the caches with the id of the one
      that the label names, and to no other. */
  lemma StageAddsToNamed(s: Plugin, r: StageRequest, f: StageFaults) returns (c: Cache)
    requires Staged(s, r, f).1 == OK && !Attached(s, r.volId)
    ensures Named(s, c)
    ensures var t := Staged(s, r, f).0;
            && |t.caches| == |s.caches|
            && forall i :: 0 <= i < |s.caches| ==>
                 t.caches[i] == if s.caches[i].id == c.id then s.caches[i].(volumes := s.caches[i].volumes[ByIdPath(r.volId) := f.coreId])
                                else s.caches[i]
  {
    AttachedMeans(s, r.volId);
    StageFrame(s, r, f);
    AttachAdds(Linked(s, r), ByIdPath(r.volId), f);
    c := SelectedNamed(s);
  }

  /** An addition that is not confirmed fails the stage but counts: the volume is attached, to the cache the label names,
      and the next stage finds it so. */
  lemma UnconfirmedCounts(s: Plugin, r: StageRequest, f: StageFaults)
    requires Complete(r) && f.pod == Present && f.makeLink && f.lookup && f.list && f.node && Choosable(s) && !Attached(s, r.volId)
    requires f.addCore.Unconfirmed?
    ensures var (t, code) := Staged(s, r, f); code == Internal && Attached(t, r.volId) && r.volId in t.links
  {
    AttachedMeans(s, r.volId);
    ChoosableMeans(s);
    var t := Staged(s, r, f).0;
    var c := SelectedNamed(s);
    var i :| 0 <= i < |s.caches| && s.caches[i] == c;
    assert t.caches[i] in t.caches && ByIdPath(r.volId) in t.caches[i].volumes;
  }

  /** After a successful mount-mode stage the backend carries the file system the request names, ext4 if it names none;
      on a free path the new mount is of the core's device, with that type and with the options asked for. */
  lemma StageMountsWanted(s: Plugin, r: StageRequest, f: StageFaults)
    requires Staged(s, r, f).1 == OK && r.capability != Some(Block)
    ensures var t, path := Staged(s, r, f).0, ByIdPath(r.volId);
            && r.capability.Some? && path in t.filesystems && t.filesystems[path] == Wanted(r.capability.value)
            && IsMounted(t.mounts, r.target)
            && (!IsMounted(s.mounts, r.target) ==>
                  && |t.mounts| == |s.mounts| + 1 && t.mounts[..|s.mounts|] == s.mounts
                  && var m := t.mounts[|s.mounts|];
                     && m.path == r.target && m.fsType == Wanted(r.capability.value)
                     && m.asked == (if r.capability.value.Mounted? then r.capability.value.flags else [])
                     && exists c :: c in t.caches && path in c.volumes
                          && m.device == "/dev/cas" + Print(c.id) + "-" + Print(c.volumes[path]))
  {
    var t, path := Staged(s, r, f).0, ByIdPath(r.volId);
    StageFrame(s, r, f);
    WantedMeans(r.capability.value);
    var c := t.caches[Holder(t.caches, path).value];
    assert c in t.caches;
    DeviceMeans(c.id, c.volumes[path]);
  }

  lemma DeviceMeans(cache: GoInt, core: GoInt)
    ensures CoreDevice(cache, core) == "/dev/cas" + Print(cache) + "-" + Print(core)
  {
  }

  // ---- Unstage ----

  /** The link leads to a device, and the PV is there. */
  predicate Removable(s: Plugin, volId: string, f: UnstageFaults) {
    volId in s.links && f.target == Present && f.pv == Present
  }

  /** There is nothing to remove: no link, a broken one, or no PV. */
  predicate NothingToRemove(s: Plugin, volId: string, f: UnstageFaults) {
    volId !in s.links || f.target == Absent || (f.target == Present && f.pv == Absent)
  }

  /** An unstage succeeds exactly if the path can be unmounted, and there is nothing to remove or the Pod is there and
      the core, if there is one, is removed. */
  lemma UnstageSucceedsExactly(s: Plugin, volId: string, target: string, f: UnstageFaults)
    ensures Unstaged(s, volId, target, f).1 == OK <==>
            && volId != "" && target != "" && f.mountTable && (IsMounted(s.mounts, target) ==> f.unmount)
            && (NothingToRemove(s, volId, f) ||
                (Removable(s, volId, f) && f.pod == Present && f.lookup && (Attached(s, volId) ==> f.removeCore.Done?)))
  {
    AttachedMeans(s, volId);
  }

  /** What a successful unstage leaves: its path unmounted and all others mounted as before, no link, and whatever is
      neither cache, link nor mount unchanged. */
  lemma UnstageLeaves(s: Plugin, volId: string, target: string, f: UnstageFaults)
    requires Unstaged(s, volId, target, f).1 == OK
    ensures var t := Unstaged(s, volId, target, f).0;
            && t == s.(mounts := t.mounts, links := s.links - {volId}, caches := t.caches)
            && (forall m: MountPoint :: m.path != target ==> (m in t.mounts <==> m in s.mounts))
            && (NoStack(s.mounts) ==> !IsMounted(t.mounts, target))
  {
    UnmountOthers(s.mounts, target);
    if NoStack(s.mounts) {
      UnmountAbsent(s.mounts, target);
    }
  }

  /** What it does to the caches: nothing if there is nothing to remove; otherwise the core is gone from the cache that
      held it, and nothing else changes. */
  lemma UnstageTakesCore(s: Plugin, volId: string, target: string, f: UnstageFaults)
    requires Unstaged(s, volId, target, f).1 == OK
    ensures var t := Unstaged(s, volId, target, f).0;
            && (NothingToRemove(s, volId, f) || !Attached(s, volId) ==> t.caches == s.caches)
            && (Removable(s, volId, f) && Attached(s, volId) ==>
                  exists i :: 0 <= i < |s.caches| && ByIdPath(volId) in s.caches[i].volumes
                    && t.caches == s.caches[i := s.caches[i].(volumes := s.caches[i].volumes - {ByIdPath(volId)})])
  {
    AttachedMeans(s, volId);
  }

  /** Without the Pod an attached volume is refused, and keeps its core and its link. */
  lemma UnstageRefused(s: Plugin, volId: string, target: string, f: UnstageFaults)
    ensures var (t, code) := Unstaged(s, volId, target, f);
            && (volId == "" || target == "" ==> t == s && code == InvalidArgument)
            && (volId != "" && target != "" && f.mountTable && (IsMounted(s.mounts, target) ==> f.unmount)
                && Removable(s, volId, f) && f.pod == Absent ==>
                  code == FailedPrecondition && t.caches == s.caches && t.links == s.links)
  {
  }

  // ---- Publish ----

  /** The request and its source are there. */
  ghost predicate Publishable(s: Plugin, r: PublishRequest, f: PublishFaults) {
    && r.volId != "" && r.target != "" && r.capability.Some?
    && match r.capability.value
       case Mounted(_, _) => r.staging != "" && f.check
       case Block => f.pod == Present && f.lookup && Attached(s, r.volId)
       case Neither => true
  }

  /** On a free target a publish succeeds exactly if its source is there and the mount can be made. */
  lemma PublishSucceedsExactly(s: Plugin, r: PublishRequest, f: PublishFaults)
    requires !IsMounted(s.mounts, r.target)
    ensures Published(s, r, f).1 == OK <==> Publishable(s, r, f) && MountThere(s, r.target, f.mount)
  {
    AttachedMeans(s, r.volId);
  }

  /** The options a publish asks for: those of the request, "bind", and "ro" if it is read-only. */
  ghost predicate Asked(r: PublishRequest, option: string) {
    || option == "bind"
    || (option == "ro" && r.readonly)
    || (r.capability.Some? && r.capability.value.Mounted? && option in r.capability.value.flags)
  }

  lemma AskedMeans(r: PublishRequest)
    ensures forall option :: option in MountFlags(r) <==> Asked(r, option)
  {
  }

  /** What a successful publish on a free target mounts there: the device of the core for a raw block volume, the staging
      path otherwise, with the options asked for. */
  lemma PublishMountsSource(s: Plugin, r: PublishRequest, f: PublishFaults)
    requires !IsMounted(s.mounts, r.target) && Published(s, r, f).1 == OK
    ensures var t := Published(s, r, f).0;
            && t.paths == s.paths + {r.target} && t == s.(mounts := t.mounts, paths := t.paths)
            && |t.mounts| == |s.mounts| + 1 && t.mounts[..|s.mounts|] == s.mounts
            && var m := t.mounts[|s.mounts|];
               && m.path == r.target && (forall option :: option in m.asked <==> Asked(r, option))
               && (r.capability != Some(Block) ==> m.device == r.staging)
               && (r.capability == Some(Block) ==>
                     exists c :: c in s.caches && ByIdPath(r.volId) in c.volumes
                       && m.device == "/dev/cas" + Print(c.id) + "-" + Print(c.volumes[ByIdPath(r.volId)]))
  {
    AskedMeans(r);
    var path, h := ByIdPath(r.volId), Holder(s.caches, ByIdPath(r.volId));
    if h.Some? {
      var c := s.caches[h.value];
      assert c in s.caches;
      DeviceMeans(c.id, c.volumes[path]);
    }
  }

  /** The answers to a publish that is refused, which changes nothing. */
  lemma PublishRefused(s: Plugin, r: PublishRequest, f: PublishFaults)
    ensures (r.volId == "" || r.target == "" || r.capability == None ==> Published(s, r, f) == (s, InvalidArgument))
    ensures r.volId != "" && r.target != "" && r.capability.Some? ==>
            && (r.capability.value.Mounted? && r.staging == "" ==> Published(s, r, f) == (s, FailedPrecondition))
            && (r.capability.value.Block? && f.pod == Present && f.lookup && !Attached(s, r.volId) ==>
                  Published(s, r, f) == (s, NotFound))
  {
    AttachedMeans(s, r.volId);
  }

  /** A read-only request is not satisfied by a mount that is not listed as read-only. */
  lemma ReadOnlyKept(s: Plugin, r: PublishRequest, f: PublishFaults)
    requires r.capability.Some? && r.capability.value.Mounted? && IsMounted(s.mounts, r.target) && NoStack(s.mounts)
    requires r.readonly && Published(s, r, f).1 == OK
    ensures exists m :: m in s.mounts && m.path == r.target && "ro" in m.opts
  {
    var m := s.mounts[MountAt(s.mounts, r.target)];
    AskedMeans(r);
    assert m in s.mounts && "ro" in MountFlags(r);
    ReadOnlyIncluded(m.opts);
  }

  lemma ReadOnlyIncluded(opts: seq<string>)
    requires exists o :: o in opts && Folded(o) == Folded("ro")
    ensures "ro" in opts
  {
    assert |"ro"| == 2 && |"dax"| == 3 && |"dax=always"| == 10;
  }

  // ---- Unpublish ----

  /** An unpublish succeeds exactly if the target is not there, or can be unmounted and removed. */
  lemma UnpublishSucceedsExactly(s: Plugin, volId: string, target: string, f: UnpublishFaults)
    ensures Unpublished(s, volId, target, f).1 == OK <==>
            && volId != "" && target != ""
            && (target in s.paths ==> f.check && f.remove && (IsMounted(s.mounts, target) ==> f.unmount))
  {
  }
}

/** Laws of the node plugin over single calls and over whole runs: unstage undoes stage, repeating a call changes
    nothing, file systems are never overwritten, and mounts are never stacked. */
module StagingLaws {
  import opened Text
  import opened Decimal
  import opened CacheHost
  import opened NodePlugin

  // ---- The parts of a stage ----

  function Linked(s: Plugin, r: StageRequest): Plugin {
    s.(links := s.links + {r.volId})
  }

  lemma AttachFrame(s: Plugin, path: string, f: StageFaults)
    ensures var t := Attach(s, path, f).0; t == s.(caches := t.caches)
  {
  }

  lemma FormatFrame(s: Plugin, path: string, fsType: string, f: StageFaults)
    ensures var (t, code) := Format(s, path, fsType, f);
            && t == s.(filesystems := t.filesystems)
            && KeepsFilesystems(s, t)
            && (code == OK ==> path in t.filesystems && t.filesystems[path] == fsType)
  {
  }

  lemma MountFrame(s: Plugin, source: string, target: string, fsType: string, options: seq<string>, f: MountFaults)
    ensures var (t, ok) := DoMount(s, source, target, fsType, options, f);
            && t == s.(paths := t.paths, mounts := t.mounts)
            && (ok ==> IsMounted(t.mounts, target))
            && (ok && !IsMounted(s.mounts, target) ==> t.mounts == s.mounts + [MountPoint(target, source, fsType, options, f.listed)])
            && (NoStack(s.mounts) ==> NoStack(t.mounts))
  {
    var (t, ok) := DoMount(s, source, target, fsType, options, f);
    assert |t.mounts| > |s.mounts| ==> t.mounts[|s.mounts|].path == target;
  }

  /** Formatting and mounting change file systems, paths and mounts only. */
  lemma FormatAndMountFrame(s: Plugin, r: StageRequest, f: StageFaults)
    requires r.capability.Some? && Holder(s.caches, ByIdPath(r.volId)).Some?
    ensures var (t, code) := FormatAndMount(s, r, f);
            var path, fsType := ByIdPath(r.volId), RequestedFs(r.capability.value);
            && t == s.(paths := t.paths, mounts := t.mounts, filesystems := t.filesystems)
            && KeepsFilesystems(s, t)
            && (NoStack(s.mounts) ==> NoStack(t.mounts))
            && (code == OK ==> IsMounted(t.mounts, r.target) && path in t.filesystems && t.filesystems[path] == fsType)
            && (code == OK && !IsMounted(s.mounts, r.target) ==>
                  t.mounts == s.mounts + [MountPoint(r.target, VolumeDevice(t, path), fsType, StageOptions(r.capability.value), f.mount.listed)])
  {
    var path, fsType := ByIdPath(r.volId), RequestedFs(r.capability.value);
    FormatFrame(s, path, fsType, f);
    MountFrame(Format(s, path, fsType, f).0, VolumeDevice(s, path), r.target, fsType, StageOptions(r.capability.value), f.mount);
  }

  /** A stage fails early and changes nothing, or makes the link, attaches, and in mount mode formats and mounts. */
  lemma StageParts(s: Plugin, r: StageRequest, f: StageFaults)
    ensures var (t, code) := Staged(s, r, f);
            var path, a := ByIdPath(r.volId), Attach(Linked(s, r), ByIdPath(r.volId), f);
            || (t == s && code != OK)
            || (a.1 != OK && t == a.0 && code == a.1)
            || (a.1 == OK && r.capability == Some(Block) && t == a.0)
            || (a.1 == OK && r.capability.Some? && r.capability != Some(Block) && Holder(a.0.caches, path).Some?
                && (t, code) == FormatAndMount(a.0, r, f))
  {
    if Attach(Linked(s, r), ByIdPath(r.volId), f).1 == OK {
      AttachHolds(Linked(s, r), ByIdPath(r.volId), f);
    }
  }

  /** What a stage may change, and what a successful one leaves. */
  lemma StageFrame(s: Plugin, r: StageRequest, f: StageFaults)
    ensures var (t, code) := Staged(s, r, f);
            var path := ByIdPath(r.volId);
            && KeepsFilesystems(s, t)
            && (NoStack(s.mounts) ==> NoStack(t.mounts))
            && (code == OK ==>
                  && t.links == s.links + {r.volId} && r.capability.Some? && Holder(t.caches, path).Some?
                  && t.caches == Attach(Linked(s, r), path, f).0.caches && Attach(Linked(s, r), path, f).1 == OK)
            && (code == OK && r.capability == Some(Block) ==> t.mounts == s.mounts)
            && (code == OK && r.capability != Some(Block) ==>
                  && IsMounted(t.mounts, r.target) && path in t.filesystems
                  && t.filesystems[path] == RequestedFs(r.capability.value)
                  && (!IsMounted(s.mounts, r.target) ==>
                        t.mounts == s.mounts + [MountPoint(r.target, VolumeDevice(t, path),
                                                           RequestedFs(r.capability.value), StageOptions(r.capability.value), f.mount.listed)]))
  {
    var path, linked := ByIdPath(r.volId), Linked(s, r);
    var a := Attach(linked, path, f);
    StageParts(s, r, f);
    AttachFrame(linked, path, f);
    if a.1 == OK {
      AttachHolds(linked, path, f);
      if r.capability.Some? {
        FormatAndMountFrame(a.0, r, f);
      }
    }
  }

  // ---- Unstage undoes stage ----

  lemma AddThenRemove(caches: seq<Cache>, id: GoInt, path: string, coreId: GoInt)
    requires Distinct(caches) && IdUsed(caches, id) && Holder(caches, path) == None
    ensures var added := AddCore(caches, id, path, coreId);
            Holder(added, path).Some? && RemoveCore(added, Holder(added, path).value, path) == caches
  {
    var added := AddCore(caches, id, path, coreId);
    var i :| 0 <= i < |caches| && caches[i].id == id;
    assert path in added[i].volumes;
    var h := Holder(added, path).value;
    assert h == i;
    assert added[i].volumes - {path} == caches[i].volumes;
    assert added[i].(volumes := caches[i].volumes) == caches[i];
  }

  lemma {:induction false} MountThenUnmount(mounts: seq<MountPoint>, m: MountPoint)
    requires !IsMounted(mounts, m.path)
    ensures Unmount(mounts + [m], m.path) == mounts
  {
    if |mounts| == 0 {
      assert (mounts + [m])[1..] == [];
    } else {
      assert mounts[0].path != m.path;
      assert !IsMounted(mounts[1..], m.path) by {
        assert forall i :: 0 <= i < |mounts| - 1 ==> mounts[1..][i] == mounts[i + 1];
      }
      MountThenUnmount(mounts[1..], m);
      assert (mounts + [m])[0] == mounts[0] && (mounts + [m])[1..] == mounts[1..] + [m];
    }
  }

  lemma AttachAdds(s: Plugin, path: string, f: StageFaults)
    requires Attach(s, path, f).1 == OK && Holder(s.caches, path) == None
    ensures SelectCache(s.caches, s.nodeLabel).Some?
    ensures Attach(s, path, f).0.caches == AddCore(s.caches, SelectCache(s.caches, s.nodeLabel).value, path, f.coreId)
  {
  }

  /** A successful stage of an unattached volume, then a successful unstage with link, PV and Pod present,
      restore every cache's volumes and the mount table, and leave no link. */
  lemma UnstageUndoesStage(s: Plugin, r: StageRequest, f: StageFaults, g: UnstageFaults)
    requires Distinct(s.caches) && Holder(s.caches, ByIdPath(r.volId)) == None && !IsMounted(s.mounts, r.target)
    requires g.target == Present && g.pv == Present && g.pod == Present
    requires Staged(s, r, f).1 == OK && Unstaged(Staged(s, r, f).0, r.volId, r.target, g).1 == OK
    ensures var t := Unstaged(Staged(s, r, f).0, r.volId, r.target, g).0;
            t.caches == s.caches && t.mounts == s.mounts && t.links == s.links - {r.volId}
  {
    var path, t := ByIdPath(r.volId), Staged(s, r, f).0;
    StageFrame(s, r, f);
    AttachAdds(Linked(s, r), path, f);
    var id := SelectCache(s.caches, s.nodeLabel).value;
    AddThenRemove(s.caches, id, path, f.coreId);
    if r.capability != Some(Block) {
      var m := MountPoint(r.target, VolumeDevice(t, path), RequestedFs(r.capability.value), StageOptions(r.capability.value), f.mount.listed);
      MountThenUnmount(s.mounts, m);
      assert t.mounts[|s.mounts|].path == r.target;
    }
    assert t.links - {r.volId} == s.links - {r.volId};
  }

  // ---- Repeating a call ----

  /** After a successful stage the same request changes nothing further, whatever fails the second time. */
  lemma StageIdempotent(s: Plugin, r: StageRequest, f: StageFaults, g: StageFaults)
    requires Staged(s, r, f).1 == OK
    ensures Staged(Staged(s, r, f).0, r, g).0 == Staged(s, r, f).0
  {
    var path, t := ByIdPath(r.volId), Staged(s, r, f).0;
    StageFrame(s, r, f);
    assert t.links + {r.volId} == t.links;
    assert Linked(t, r) == t;
    StageParts(t, r, g);
  }

  /** After a successful unstage a second one changes nothing, whatever fails the second time. */
  lemma UnstageIdempotent(s: Plugin, volId: string, target: string, f: UnstageFaults, g: UnstageFaults)
    requires NoStack(s.mounts) && Unstaged(s, volId, target, f).1 == OK
    ensures Unstaged(Unstaged(s, volId, target, f).0, volId, target, g).0 == Unstaged(s, volId, target, f).0
  {
    var t := Unstaged(s, volId, target, f).0;
    UnmountAbsent(s.mounts, target);
    assert volId !in t.links && !IsMounted(t.mounts, target);
    assert t.links - {volId} == t.links;
    assert t.(links := t.links) == t;
  }

  // ---- Runs ----

  /** One call to the plugin, or a change of caches and label by the operator. */
  datatype Step =
    | Stage(stage: StageRequest, stageFaults: StageFaults)
    | Unstage(volId: string, target: string, unstageFaults: UnstageFaults)
    | Publish(publish: PublishRequest, publishFaults: PublishFaults)
    | Unpublish(volId: string, target: string, unpublishFaults: UnpublishFaults)
    | Operator(caches: seq<Cache>, nodeLabel: Option<string>)

  ghost function Next(s: Plugin, step: Step): Plugin {
    match step
    case Stage(r, f) => Staged(s, r, f).0
    case Unstage(v, t, f) => Unstaged(s, v, t, f).0
    case Publish(r, f) => Published(s, r, f).0
    case Unpublish(v, t, f) => Unpublished(s, v, t, f).0
    case Operator(caches, nodeLabel) => s.(caches := caches, nodeLabel := nodeLabel)
  }

  ghost function Run(s: Plugin, steps: seq<Step>): Plugin
    decreases |steps|
  {
    if |steps| == 0 then s else Run(Next(s, steps[0]), steps[1..])
  }

  /** Every file system of `s` is still there in `t`, with the same type. */
  ghost predicate KeepsFilesystems(s: Plugin, t: Plugin) {
    forall b :: b in s.filesystems ==> b in t.filesystems && t.filesystems[b] == s.filesystems[b]
  }

  lemma StepKeepsFilesystems(s: Plugin, step: Step)
    ensures KeepsFilesystems(s, Next(s, step))
  {
    match step
    case Stage(r, f) => StageFrame(s, r, f);
    case Publish(r, f) => PublishFrame(s, r, f);
    case _ =>
  }

  /** A publish changes nothing or mounts one source on its target. */
  lemma PublishParts(s: Plugin, r: PublishRequest, f: PublishFaults) returns (source: string)
    ensures Published(s, r, f).0 == s || Published(s, r, f).0 == DoMount(s, source, r.target, f.listedType, MountFlags(r), f.mount).0
  {
    source := r.staging;
    if r.capability == Some(Block) && Holder(s.caches, ByIdPath(r.volId)).Some? {
      source := VolumeDevice(s, ByIdPath(r.volId));
    }
  }

  lemma PublishFrame(s: Plugin, r: PublishRequest, f: PublishFaults)
    ensures var t := Published(s, r, f).0;
            t == s.(paths := t.paths, mounts := t.mounts) && (NoStack(s.mounts) ==> NoStack(t.mounts))
  {
    var source := PublishParts(s, r, f);
    MountFrame(s, source, r.target, f.listedType, MountFlags(r), f.mount);
  }

  /** File systems are never overwritten: over any run, with any requested types and any failures, the type of
      a file system never changes. */
  lemma {:induction false} FilesystemsKept(s: Plugin, steps: seq<Step>)
    ensures KeepsFilesystems(s, Run(s, steps))
    decreases |steps|
  {
    if |steps| > 0 {
      StepKeepsFilesystems(s, steps[0]);
      FilesystemsKept(Next(s, steps[0]), steps[1..]);
    }
  }

  lemma {:induction false} UnmountMembers(mounts: seq<MountPoint>, path: string)
    requires NoStack(mounts)
    ensures NoStack(Unmount(mounts, path))
    ensures forall m :: m in Unmount(mounts, path) ==> m in mounts
  {
    if |mounts| > 0 {
      var rest := mounts[1..];
      assert forall i :: 0 <= i < |rest| ==> rest[i] == mounts[i + 1];
      UnmountMembers(rest, path);
      if mounts[0].path != path {
        var u := Unmount(rest, path);
        forall i | 0 <= i < |u| ensures u[i].path != mounts[0].path {
          assert u[i] in rest;
        }
      }
    }
  }

  lemma StepNoStack(s: Plugin, step: Step)
    requires NoStack(s.mounts)
    ensures NoStack(Next(s, step).mounts)
  {
    match step
    case Stage(r, f) => StageFrame(s, r, f);
    case Publish(r, f) => PublishFrame(s, r, f);
    case Unstage(_, target, _) => UnmountMembers(s.mounts, target);
    case Unpublish(_, target, _) => UnmountMembers(s.mounts, target);
    case _ =>
  }

  /** Mounts are never stacked: over all sequences of calls each path carries at most one mount. */
  lemma {:induction false} NeverStacks(s: Plugin, steps: seq<Step>)
    requires NoStack(s.mounts)
    ensures NoStack(Run(s, steps).mounts)
    decreases |steps|
  {
    if |steps| > 0 {
      StepNoStack(s, steps[0]);
      NeverStacks(Next(s, steps[0]), steps[1..]);
    }
  }

  lemma StepMountsExist(s: Plugin, step: Step)
    requires NoStack(s.mounts) && MountsExist(s)
    ensures MountsExist(Next(s, step))
  {
    match step
    case Stage(r, f) => StageMountsExist(s, r, f);
    case Publish(r, f) => PublishMountsExist(s, r, f);
    case Unstage(_, target, _) => UnmountMembers(s.mounts, target);
    case Unpublish(_, target, _) =>
      UnmountMembers(s.mounts, target);
      UnmountAbsent(s.mounts, target);
    case _ =>
  }

  lemma DoMountExists(s: Plugin, source: string, target: string, fsType: string, options: seq<string>, f: MountFaults)
    requires MountsExist(s)
    ensures MountsExist(DoMount(s, source, target, fsType, options, f).0)
  {
  }

  lemma StageMountsExist(s: Plugin, r: StageRequest, f: StageFaults)
    requires MountsExist(s)
    ensures MountsExist(Staged(s, r, f).0)
  {
    var path, a := ByIdPath(r.volId), Attach(Linked(s, r), ByIdPath(r.volId), f);
    StageParts(s, r, f);
    AttachFrame(Linked(s, r), path, f);
    if a.1 == OK && r.capability.Some? && Holder(a.0.caches, path).Some? {
      var fsType := RequestedFs(r.capability.value);
      FormatFrame(a.0, path, fsType, f);
      DoMountExists(Format(a.0, path, fsType, f).0, VolumeDevice(a.0, path), r.target, fsType, StageOptions(r.capability.value), f.mount);
    }
  }

  lemma PublishMountsExist(s: Plugin, r: PublishRequest, f: PublishFaults)
    requires MountsExist(s)
    ensures MountsExist(Published(s, r, f).0)
  {
    var source := PublishParts(s, r, f);
    DoMountExists(s, source, r.target, f.listedType, MountFlags(r), f.mount);
  }

  lemma {:induction false} MountPathsExist(s: Plugin, steps: seq<Step>)
    requires NoStack(s.mounts) && MountsExist(s)
    ensures NoStack(Run(s, steps).mounts) && MountsExist(Run(s, steps))
    decreases |steps|
  {
    if |steps| > 0 {
      StepNoStack(s, steps[0]);
      StepMountsExist(s, steps[0]);
      MountPathsExist(Next(s, steps[0]), steps[1..]);
    }
  }

  /** After any run, an unpublish that succeeds leaves its target neither mounted nor present, and every other mount
      and path as they were. */
  lemma UnpublishClears(s: Plugin, steps: seq<Step>, volId: string, target: string, f: UnpublishFaults)
    requires NoStack(s.mounts) && MountsExist(s) && Unpublished(Run(s, steps), volId, target, f).1 == OK
    ensures var before, t := Run(s, steps), Unpublished(Run(s, steps), volId, target, f).0;
            && !IsMounted(t.mounts, target) && t.paths == before.paths - {target}
            && (forall m: MountPoint :: m.path != target ==> (m in t.mounts <==> m in before.mounts))
            && t == before.(mounts := t.mounts, paths := t.paths)
  {
    var before := Run(s, steps);
    MountPathsExist(s, steps);
    UnmountAbsent(before.mounts, target);
    UnmountOthers(before.mounts, target);
    if target !in before.paths {
      assert before.paths - {target} == before.paths;
      assert !IsMounted(before.mounts, target);
    }
  }

  lemma {:induction false} UnmountOthers(mounts: seq<MountPoint>, path: string)
    ensures forall m: MountPoint :: m.path != path ==> (m in Unmount(mounts, path) <==> m in mounts)
  {
    if |mounts| > 0 {
      UnmountOthers(mounts[1..], path);
      assert mounts == [mounts[0]] + mounts[1..];
    }
  }

  /** A successful publish on a fresh target, then a successful unpublish, restore the node. */
  lemma UnpublishUndoesPublish(s: Plugin, r: PublishRequest, f: PublishFaults, g: UnpublishFaults)
    requires !IsMounted(s.mounts, r.target) && r.target !in s.paths
    requires Published(s, r, f).1 == OK && Unpublished(Published(s, r, f).0, r.volId, r.target, g).1 == OK
    ensures Unpublished(Published(s, r, f).0, r.volId, r.target, g).0 == s
  {
    var m := PublishMounts(s, r, f);
    MountThenUnmount(s.mounts, m);
    var t := Published(s, r, f).0;
    assert t.mounts[|s.mounts|] == m && IsMounted(t.mounts, r.target);
    assert s.paths + {r.target} - {r.target} == s.paths;
  }

  /** The mount that a successful publish on a free target makes. */
  lemma PublishMounts(s: Plugin, r: PublishRequest, f: PublishFaults) returns (m: MountPoint)
    requires !IsMounted(s.mounts, r.target) && Published(s, r, f).1 == OK
    ensures m.path == r.target && m.opts == f.mount.listed && m.fsType == f.listedType
    ensures Published(s, r, f).0 == s.(mounts := s.mounts + [m], paths := s.paths + {r.target})
  {
    var t := Published(s, r, f).0;
    m := t.mounts[|s.mounts|];
  }

  /** The same publish request, repeated after it succeeded on a free target, changes nothing and succeeds again
      exactly if the mount table lists the type, if one was asked for, and all the options. */
  lemma RepeatedPublishExactly(s: Plugin, r: PublishRequest, f: PublishFaults, g: PublishFaults)
    requires NoStack(s.mounts) && !IsMounted(s.mounts, r.target)
    requires Published(s, r, f).1 == OK && r.capability.Some? && r.capability.value.Mounted? && g.check && g.list
    ensures var t := Published(s, r, f).0;
            && Published(t, r, g).0 == t
            && var fits := r.capability.value.fsType == "" || f.listedType == r.capability.value.fsType;
               Published(t, r, g).1 == if fits && FlagsIncluded(MountFlags(r), f.mount.listed) then OK else AlreadyExists
  {
    var m := PublishMounts(s, r, f);
    var t := Published(s, r, f).0;
    assert t.mounts[|s.mounts|] == m;
    assert forall i :: 0 <= i < |s.mounts| ==> t.mounts[i] == s.mounts[i] && s.mounts[i].path != r.target;
    assert t.mounts[MountAt(t.mounts, r.target)] == m;
  }

  /** A mount table does not list "bind", so on a node with nothing mounted the second of two equal requests fails. */
  lemma RepeatedPublishFails(s: Plugin, f: PublishFaults)
    requires s.mounts == [] && f.check && f.list && f.mount.check && f.mount.create && f.mount.attach && "bind" !in f.mount.listed
    ensures var r := PublishRequest("v", "/t", "/s", Some(Mounted("ext4", [])), false);
            var (t, code) := Published(s, r, f);
            code == OK && Published(t, r, f) == (t, AlreadyExists)
  {
    var r := PublishRequest("v", "/t", "/s", Some(Mounted("ext4", [])), false);
    assert Published(s, r, f).1 == OK;
    RepeatedPublishExactly(s, r, f, f);
    assert "bind" in MountFlags(r);
    if FlagsIncluded(MountFlags(r), f.mount.listed) {
      BindIncluded(f.mount.listed);
    }
  }

  lemma BindIncluded(opts: seq<string>)
    requires exists o :: o in opts && Folded(o) == Folded("bind")
    ensures "bind" in opts
  {
    assert |"bind"| == 4 && |"dax"| == 3 && |"dax=always"| == 10;
  }
}

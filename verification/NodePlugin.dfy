/** The node plugin: staging adds a volume's backend to a cache, prepares a file system and mounts it;
    unstaging reverses that; publishing bind-mounts the staged volume or its device. */
module NodePlugin {
  import opened Text
  import opened Decimal
  import opened Outcomes
  import opened CacheHost

  // ---- Which cache may receive a core ----

  /** The cache the node label selects. With no label the caches were started by hand, and only a single one
      can be chosen; an empty label means that the current cache is being removed. */
  function SelectCache(caches: seq<Cache>, nodeLabel: Option<string>): (id: Option<GoInt>)
    ensures id.Some? ==> IdUsed(caches, id.value)
  {
    match nodeLabel
    case Some(text) =>
      if Atoi(text).ok && IdUsed(caches, Atoi(text).value) then Some(Atoi(text).value) else None
    case None => if |caches| == 1 then assert caches[0].id == caches[0].id; Some(caches[0].id) else None
  }

  /** The scan over the listed instances, and the label tests around it. */
  method ChooseCache(caches: seq<Cache>, nodeLabel: Option<string>) returns (id: Option<GoInt>)
    ensures id == SelectCache(caches, nodeLabel)
  {
    id := None;
    match nodeLabel {
      case Some(text) =>
        if text == "" {
          return;
        }
        var parsed := Atoi(text);
        if parsed.ok {
          for i := 0 to |caches|
            invariant id == if IdUsed(caches[..i], parsed.value) then Some(parsed.value) else None
          {
            assert caches[..i + 1][i] == caches[i];
            assert forall j :: 0 <= j < i ==> caches[..i + 1][j] == caches[..i][j];
            if caches[i].id == parsed.value {
              id := Some(caches[i].id);
            }
          }
          assert caches[..|caches|] == caches;
        }
      case None =>
        if |caches| == 1 {
          id := Some(caches[0].id);
        }
    }
  }

  /** The effect of staging on the caches: nothing if some cache holds the volume already. */
  function StageCore(caches: seq<Cache>, nodeLabel: Option<string>, path: string, coreId: GoInt, o: Outcome): seq<Cache> {
    if Holder(caches, path).Some? then caches
    else
      match SelectCache(caches, nodeLabel)
      case None => caches
      case Some(id) => if o.Failed? then caches else AddCore(caches, id, path, coreId)
  }

  /** The effect of unstaging on the caches: the volume leaves the first cache that holds it. */
  function UnstageCore(caches: seq<Cache>, path: string, o: Outcome): seq<Cache> {
    match Holder(caches, path)
    case None => caches
    case Some(i) => if o.Failed? then caches else RemoveCore(caches, i, path)
  }

  // ---- The state of a node and the requests ----

  /** `asked` are the options the mount was made with, `opts` those the mount table lists. */
  datatype MountPoint = MountPoint(path: string, device: string, fsType: string, asked: seq<string>, opts: seq<string>)

  /** `links` holds the by-id links, by volume id; `paths` the files and directories used as mount targets;
      `filesystems` the file system on a backend, by by-id path. */
  datatype Plugin = Plugin(caches: seq<Cache>, nodeLabel: Option<string>, links: set<string>, paths: set<string>,
                           mounts: seq<MountPoint>, filesystems: map<string, string>)

  datatype Capability = Block | Mounted(fsType: string, flags: seq<string>) | Neither

  datatype Code = OK | InvalidArgument | Aborted | Internal | NotFound | Unavailable | AlreadyExists | FailedPrecondition

  datatype Found = Present | Absent | Unknown

  const BY_ID_DIR := "/dev/disk/by-id/opencas-csi"
  const DEFAULT_FS := "ext4"

  function ByIdPath(volId: string): string {
    BY_ID_DIR + ['/'] + volId
  }

  lemma ByIdPathInjective(v: string, w: string)
    requires ByIdPath(v) == ByIdPath(w)
    ensures v == w
  {
    assert ByIdPath(v)[28..] == v && ByIdPath(w)[28..] == w;
  }

  /** The exported device of a core. */
  function CoreDevice(cacheId: GoInt, coreId: GoInt): string {
    "/dev/cas" + Print(cacheId) + "-" + Print(coreId)
  }

  predicate IsMounted(mounts: seq<MountPoint>, path: string) {
    exists i :: 0 <= i < |mounts| && mounts[i].path == path
  }

  function Unmount(mounts: seq<MountPoint>, path: string): seq<MountPoint> {
    if |mounts| == 0 then []
    else if mounts[0].path == path then mounts[1..]
    else [mounts[0]] + Unmount(mounts[1..], path)
  }

  ghost predicate NoStack(mounts: seq<MountPoint>) {
    forall i, j :: 0 <= i < j < |mounts| ==> mounts[i].path != mounts[j].path
  }

  /** Every mount is on a file or directory that is there. */
  ghost predicate MountsExist(s: Plugin) {
    forall m :: m in s.mounts ==> m.path in s.paths
  }

  lemma {:induction false} UnmountAbsent(mounts: seq<MountPoint>, path: string)
    requires NoStack(mounts)
    ensures !IsMounted(Unmount(mounts, path), path)
  {
    if |mounts| > 0 {
      var rest := mounts[1..];
      assert NoStack(rest) by {
        assert forall i :: 0 <= i < |rest| ==> rest[i] == mounts[i + 1];
      }
      if mounts[0].path == path {
        assert forall i :: 0 <= i < |rest| ==> rest[i] == mounts[i + 1] && rest[i].path != path;
      } else {
        UnmountAbsent(rest, path);
        var u := [mounts[0]] + Unmount(rest, path);
        assert forall i :: 1 <= i < |u| ==> u[i] == Unmount(rest, path)[i - 1];
      }
    }
  }

  // ---- Mounting ----

  /** What can go wrong in a mount, and the options the mount table will list. */
  datatype MountFaults = MountFaults(check: bool, create: bool, attach: bool, listed: seq<string>)

  /** `Mount` does nothing on a mount point; otherwise it makes the target and mounts. `fsType` is the type the mount
      table then lists. */
  function DoMount(s: Plugin, source: string, target: string, fsType: string, options: seq<string>, f: MountFaults): (Plugin, bool) {
    if !f.check then (s, false)
    else if IsMounted(s.mounts, target) then (s, true)
    else if !f.create then (s, false)
    else
      var made := s.(paths := s.paths + {target});
      if !f.attach then (made, false)
      else (made.(mounts := s.mounts + [MountPoint(target, source, fsType, options, f.listed)]), true)
  }

  // ---- Stage ----

  datatype StageRequest = StageRequest(volId: string, target: string, capability: Option<Capability>, backendPv: string)

  datatype StageFaults = StageFaults(pod: Found, makeLink: bool, lookup: bool, list: bool, node: bool, coreId: GoInt,
                                     addCore: Outcome, probe: bool, probeAgain: bool, makeFs: bool, mount: MountFaults)

  function RequestedFs(capability: Capability): string {
    if capability.Mounted? && capability.fsType != "" then capability.fsType else DEFAULT_FS
  }

  function StageOptions(capability: Capability): seq<string> {
    if capability.Mounted? then capability.flags else []
  }

  function ValidateStage(r: StageRequest): Code {
    if r.volId == "" || r.target == "" || r.capability == None then InvalidArgument
    else if r.backendPv == "" then Aborted
    else OK
  }

  /** Attaches the volume to the selected cache unless a cache holds it. */
  function Attach(s: Plugin, path: string, f: StageFaults): (Plugin, Code) {
    if !f.lookup then (s, Internal)
    else if Holder(s.caches, path).Some? then (s, OK)
    else if !f.list then (s, Internal)
    else if |s.caches| == 0 then (s, NotFound)
    else if !f.node then (s, InvalidArgument)
    else if s.nodeLabel == Some("") then (s, Unavailable)
    else if SelectCache(s.caches, s.nodeLabel) == None then (s, InvalidArgument)
    else (s.(caches := StageCore(s.caches, s.nodeLabel, path, f.coreId, f.addCore)), if f.addCore.Done? then OK else Internal)
  }

  /** `PrepareFs` looks again before it makes a file system, and refuses a different one. */
  function PrepareFs(s: Plugin, path: string, fsType: string, f: StageFaults): (Plugin, bool) {
    if fsType == "" || !f.probeAgain then (s, false)
    else if path !in s.filesystems then
      if f.makeFs then (s.(filesystems := s.filesystems[path := fsType]), true) else (s, false)
    else (s, s.filesystems[path] == fsType)
  }

  function Format(s: Plugin, path: string, fsType: string, f: StageFaults): (Plugin, Code) {
    if !f.probe then (s, Internal)
    else if path in s.filesystems then (s, if s.filesystems[path] == fsType then OK else AlreadyExists)
    else
      var (t, ok) := PrepareFs(s, path, fsType, f);
      (t, if ok then OK else Internal)
  }

  /** The device of an attached volume. */
  function VolumeDevice(s: Plugin, path: string): string
    requires Holder(s.caches, path).Some?
  {
    var c := s.caches[Holder(s.caches, path).value];
    CoreDevice(c.id, c.volumes[path])
  }

  function FormatAndMount(s: Plugin, r: StageRequest, f: StageFaults): (Plugin, Code)
    requires r.capability.Some? && Holder(s.caches, ByIdPath(r.volId)).Some?
  {
    var path, fsType := ByIdPath(r.volId), RequestedFs(r.capability.value);
    var (t, code) := Format(s, path, fsType, f);
    if code != OK then (t, code)
    else
      var (u, ok) := DoMount(t, VolumeDevice(s, path), r.target, fsType, StageOptions(r.capability.value), f.mount);
      (u, if ok then OK else Internal)
  }

  lemma AttachHolds(s: Plugin, path: string, f: StageFaults)
    requires Attach(s, path, f).1 == OK
    ensures Holder(Attach(s, path, f).0.caches, path).Some?
  {
    if Holder(s.caches, path) == None {
      var id := SelectCache(s.caches, s.nodeLabel).value;
      var i :| 0 <= i < |s.caches| && s.caches[i].id == id;
      assert path in Attach(s, path, f).0.caches[i].volumes;
    }
  }

  function Staged(s: Plugin, r: StageRequest, f: StageFaults): (Plugin, Code) {
    if ValidateStage(r) != OK then (s, ValidateStage(r))
    else if f.pod == Unknown then (s, Internal)
    else if f.pod == Absent then (s, NotFound)
    else if !f.makeLink then (s, Internal)
    else
      var path := ByIdPath(r.volId);
      var (t, code) := Attach(s.(links := s.links + {r.volId}), path, f);
      if code != OK then (t, code)
      else if r.capability == Some(Block) then (t, OK)
      else
        AttachHolds(s.(links := s.links + {r.volId}), path, f);
        FormatAndMount(t, r, f)
  }

  // ---- Unstage ----

  /** `target`: the by-id link leads to a device. A removal that only fails to be confirmed has taken effect. */
  datatype UnstageFaults = UnstageFaults(mountTable: bool, unmount: bool, target: Found, pv: Found, pod: Found,
                                         lookup: bool, removeCore: Outcome)

  function Detached(s: Plugin, volId: string, f: UnstageFaults): (Plugin, Code) {
    var bare := s.(links := s.links - {volId});
    if volId !in s.links || f.target == Absent then (bare, OK)
    else if f.target == Unknown || f.pv == Unknown then (s, Internal)
    else if f.pv == Absent then (bare, OK)
    else if f.pod == Unknown then (s, Internal)
    else if f.pod == Absent then (s, FailedPrecondition)
    else if !f.lookup then (s, Internal)
    else if Holder(s.caches, ByIdPath(volId)) == None then (bare, OK)
    else
      var caches := UnstageCore(s.caches, ByIdPath(volId), f.removeCore);
      if f.removeCore.Done? then (bare.(caches := caches), OK) else (s.(caches := caches), Internal)
  }

  function Unstaged(s: Plugin, volId: string, target: string, f: UnstageFaults): (Plugin, Code) {
    if volId == "" || target == "" then (s, InvalidArgument)
    else if !f.mountTable then (s, Internal)
    else if IsMounted(s.mounts, target) then
      if !f.unmount then (s, Internal)
      else Detached(s.(mounts := Unmount(s.mounts, target)), volId, f)
    else Detached(s, volId, f)
  }

  // ---- Publish ----

  datatype PublishRequest = PublishRequest(volId: string, target: string, staging: string,
                                           capability: Option<Capability>, readonly: bool)

  /** `listedType` is the type the mount table will list: that of the source, whatever type was asked for. */
  datatype PublishFaults = PublishFaults(pod: Found, lookup: bool, check: bool, list: bool, listedType: string, mount: MountFaults)

  /** `dax` and `dax=always` are the same option. */
  function Folded(flag: string): string {
    if flag == "dax=always" then "dax" else flag
  }

  /** Every requested flag is among the mounted ones, up to the two spellings of dax. */
  ghost predicate FlagsIncluded(flags: seq<string>, opts: seq<string>) {
    forall f :: f in flags ==> exists o :: o in opts && Folded(o) == Folded(f)
  }

  predicate SameFlag(f: string, o: string) {
    (f == "dax=always" && o == "dax") || (f == "dax" && o == "dax=always") || f == o
  }

  /** The compatibility test accepts exactly when the requested flags are a subset of the mounted ones. */
  method FindMountFlags(flags: seq<string>, findIn: seq<string>) returns (found: bool)
    ensures found <==> FlagsIncluded(flags, findIn)
  {
    for i := 0 to |flags|
      invariant FlagsIncluded(flags[..i], findIn)
    {
      var f := flags[i];
      var index := -1;
      for j := 0 to |findIn|
        invariant index < 0 ==> forall k :: 0 <= k < j ==> !SameFlag(f, findIn[k])
        invariant index >= 0 ==> index < |findIn| && SameFlag(f, findIn[index])
      {
        if index < 0 && SameFlag(f, findIn[j]) {
          index := j;
        }
      }
      if index < 0 {
        assert f in flags;
        assert forall o :: o in findIn ==> Folded(o) != Folded(f);
        return false;
      }
      assert findIn[index] in findIn;
      assert flags[..i + 1] == flags[..i] + [f];
    }
    assert flags[..|flags|] == flags;
    return true;
  }

  function MountFlags(r: PublishRequest): seq<string> {
    (if r.capability.Some? && r.capability.value.Mounted? then r.capability.value.flags else [])
    + ["bind"] + (if r.readonly then ["ro"] else [])
  }

  function MountAt(mounts: seq<MountPoint>, path: string): (i: nat)
    requires IsMounted(mounts, path)
    ensures i < |mounts| && mounts[i].path == path
  {
    if mounts[0].path == path then 0
    else
      assert IsMounted(mounts[1..], path) by {
        var j :| 0 <= j < |mounts| && mounts[j].path == path;
        assert mounts[1..][j - 1].path == path;
      }
      MountAt(mounts[1..], path) + 1
  }

  /** The published mount is acceptable for the request. */
  ghost predicate Compatible(m: MountPoint, fsType: string, flags: seq<string>) {
    (fsType == "" || m.fsType == fsType) && FlagsIncluded(flags, m.opts)
  }

  ghost function PublishMounted(s: Plugin, r: PublishRequest, fsType: string, f: PublishFaults): (Plugin, Code) {
    if r.staging == "" then (s, FailedPrecondition)
    else if !f.check then (s, Internal)
    else if IsMounted(s.mounts, r.target) then
      if !f.list then (s, Internal)
      else (s, if Compatible(s.mounts[MountAt(s.mounts, r.target)], fsType, MountFlags(r)) then OK else AlreadyExists)
    else
      var (t, ok) := DoMount(s, r.staging, r.target, f.listedType, MountFlags(r), f.mount);
      (t, if ok then OK else Internal)
  }

  ghost function Published(s: Plugin, r: PublishRequest, f: PublishFaults): (Plugin, Code) {
    if r.volId == "" || r.capability == None || r.target == "" then (s, InvalidArgument)
    else
      match r.capability.value
      case Mounted(fsType, _) => PublishMounted(s, r, fsType, f)
      case Neither =>
        var (t, ok) := DoMount(s, r.staging, r.target, f.listedType, MountFlags(r), f.mount);
        (t, if ok then OK else Internal)
      case Block =>
        if f.pod != Present || !f.lookup then (s, Internal)
        else if Holder(s.caches, ByIdPath(r.volId)) == None then (s, NotFound)
        else
          var (t, ok) := DoMount(s, VolumeDevice(s, ByIdPath(r.volId)), r.target, f.listedType, MountFlags(r), f.mount);
          (t, if ok then OK else Internal)
  }

  datatype UnpublishFaults = UnpublishFaults(check: bool, unmount: bool, remove: bool)

  function Unpublished(s: Plugin, volId: string, target: string, f: UnpublishFaults): (Plugin, Code) {
    if volId == "" || target == "" then (s, InvalidArgument)
    else if target !in s.paths then (s, OK)
    else if !f.check then (s, Internal)
    else if IsMounted(s.mounts, target) && !f.unmount then (s, Internal)
    else
      var t := if IsMounted(s.mounts, target) then s.(mounts := Unmount(s.mounts, target)) else s;
      if f.remove then (t.(paths := t.paths - {target}), OK) else (t, Internal)
  }

  // ---- The server ----

  class NodeServer {
    var caches: seq<Cache>
    var nodeLabel: Option<string>
    var links: set<string>
    var paths: set<string>
    var mounts: seq<MountPoint>
    var filesystems: map<string, string>

    function State(): Plugin
      reads this
    {
      Plugin(caches, nodeLabel, links, paths, mounts, filesystems)
    }

    constructor (s: Plugin)
      ensures State() == s
    {
      caches, nodeLabel, links, paths, mounts, filesystems :=
        s.caches, s.nodeLabel, s.links, s.paths, s.mounts, s.filesystems;
    }

    method Mount(source: string, target: string, fsType: string, options: seq<string>, f: MountFaults) returns (ok: bool)
      modifies this`paths, this`mounts
      ensures (State(), ok) == DoMount(old(State()), source, target, fsType, options, f)
      ensures ok ==> IsMounted(mounts, target) && (old(NoStack(mounts)) ==> NoStack(mounts))
      ensures forall m: MountPoint :: m.path != target ==> (m in mounts <==> m in old(mounts))
    {
      if !f.check {
        return false;
      }
      if IsMounted(mounts, target) {
        return true;
      }
      if !f.create {
        return false;
      }
      paths := paths + {target};
      if !f.attach {
        return false;
      }
      mounts := mounts + [MountPoint(target, source, fsType, options, f.listed)];
      assert mounts[|mounts| - 1].path == target;
      return true;
    }

    method AddToCache(path: string, f: StageFaults) returns (code: Code)
      modifies this`caches
      ensures (State(), code) == Attach(old(State()), path, f)
    {
      if !f.lookup {
        return Internal;
      }
      if Holder(caches, path).Some? {
        return OK;
      }
      if !f.list {
        return Internal;
      }
      if |caches| == 0 {
        return NotFound;
      }
      if !f.node {
        return InvalidArgument;
      }
      if nodeLabel == Some("") {
        return Unavailable;
      }
      var id := ChooseCache(caches, nodeLabel);
      if id == None {
        return InvalidArgument;
      }
      if !f.addCore.Failed? {
        caches := AddCore(caches, id.value, path, f.coreId);
      }
      return if f.addCore.Done? then OK else Internal;
    }

    method NodeStageVolume(r: StageRequest, f: StageFaults) returns (code: Code)
      modifies this
      ensures (State(), code) == Staged(old(State()), r, f)
    {
      if ValidateStage(r) != OK {
        return ValidateStage(r);
      }
      if f.pod != Present {
        return if f.pod == Unknown then Internal else NotFound;
      }
      if !f.makeLink {
        return Internal;
      }
      var path := ByIdPath(r.volId);
      links := links + {r.volId};
      ghost var linked := State();
      code := AddToCache(path, f);
      if code != OK || r.capability == Some(Block) {
        return;
      }
      AttachHolds(linked, path, f);
      var device := VolumeDevice(State(), path);
      var fsType := RequestedFs(r.capability.value);
      if !f.probe {
        return Internal;
      }
      if path in filesystems {
        if filesystems[path] != fsType {
          return AlreadyExists;
        }
      } else if !f.probeAgain || !f.makeFs {
        return Internal;
      } else {
        filesystems := filesystems[path := fsType];
      }
      var ok := Mount(device, r.target, fsType, StageOptions(r.capability.value), f.mount);
      return if ok then OK else Internal;
    }

    method NodeUnstageVolume(volId: string, target: string, f: UnstageFaults) returns (code: Code)
      modifies this
      ensures (State(), code) == Unstaged(old(State()), volId, target, f)
    {
      if volId == "" || target == "" {
        return InvalidArgument;
      }
      if !f.mountTable {
        return Internal;
      }
      if IsMounted(mounts, target) {
        if !f.unmount {
          return Internal;
        }
        mounts := Unmount(mounts, target);
      }
      if volId !in links || f.target == Absent {
        links := links - {volId};
        return OK;
      }
      if f.target == Unknown || f.pv == Unknown {
        return Internal;
      }
      if f.pv == Absent {
        links := links - {volId};
        return OK;
      }
      if f.pod != Present {
        return if f.pod == Unknown then Internal else FailedPrecondition;
      }
      if !f.lookup {
        return Internal;
      }
      var holder := Holder(caches, ByIdPath(volId));
      if holder.Some? {
        if !f.removeCore.Failed? {
          caches := RemoveCore(caches, holder.value, ByIdPath(volId));
        }
        if !f.removeCore.Done? {
          return Internal;
        }
      }
      links := links - {volId};
      return OK;
    }

    method NodePublishVolume(r: PublishRequest, f: PublishFaults) returns (code: Code)
      modifies this
      ensures (State(), code) == Published(old(State()), r, f)
    {
      if r.volId == "" || r.capability == None || r.target == "" {
        return InvalidArgument;
      }
      var source := r.staging;
      match r.capability.value {
        case Block =>
          if f.pod != Present || !f.lookup {
            return Internal;
          }
          if Holder(caches, ByIdPath(r.volId)) == None {
            return NotFound;
          }
          source := VolumeDevice(State(), ByIdPath(r.volId));
        case Mounted(fsType, _) =>
          if source == "" {
            return FailedPrecondition;
          }
          if !f.check {
            return Internal;
          }
          if IsMounted(mounts, r.target) {
            if !f.list {
              return Internal;
            }
            var m := mounts[MountAt(mounts, r.target)];
            var included := FindMountFlags(MountFlags(r), m.opts);
            return if (fsType == "" || m.fsType == fsType) && included then OK else AlreadyExists;
          }
        case Neither =>
      }
      var ok := Mount(source, r.target, f.listedType, MountFlags(r), f.mount);
      return if ok then OK else Internal;
    }

    method NodeUnpublishVolume(volId: string, target: string, f: UnpublishFaults) returns (code: Code)
      modifies this
      ensures (State(), code) == Unpublished(old(State()), volId, target, f)
      ensures code == OK && old(NoStack(mounts) && MountsExist(State())) ==> !IsMounted(mounts, target) && target !in paths
    {
      if NoStack(mounts) {
        UnmountAbsent(mounts, target);
      }
      if volId == "" || target == "" {
        return InvalidArgument;
      }
      if target !in paths {
        return OK;
      }
      if !f.check {
        return Internal;
      }
      if IsMounted(mounts, target) {
        if !f.unmount {
          return Internal;
        }
        mounts := Unmount(mounts, target);
      }
      if !f.remove {
        return Internal;
      }
      paths := paths - {target};
      return OK;
    }
  }
}

/** pkg/driver/node.go: the four node RPCs that attach a volume to the host (stage), detach it
    (unstage), bind it into a workload's target path (publish) and undo that bind (unpublish).

    Each handler builds its own client Volume with GetVolume(id, false, true) and drives it
    through the Volume methods modelled in Volumes, Mounts, Logins and Acls. The backend and the
    host are oracles, gathered per handler in a `...Host` record. A handler returns its outcome,
    the backend and host interactions it started, in order (`steps`), and the metadata map it
    handed to SetMetadata, if it got that far. */
module Nodes {
  import opened Wrappers
  import opened Strs
  import opened Volumes
  import Util
  import Mounts
  import Logins
  import Acls
  import Driver

  /** The interactions a node handler starts, named after the call that starts them. */
  datatype Step =
    | LookUpVolume | ReadMetadata | GetInitiator | AddAcl | FindIpPool | SetIpPool | LogIn
    | MakeFs | MountStaging | WriteMetadata | UnmountStaging | LogOut | RemoveVolume
    | BindTarget | UnbindTarget

  /** The two reads of GetVolume(id, false, true): the app instance and its metadata. */
  datatype VolumeLookup = VolumeLookup(ai: Call<AppInstance>, md: Call<VolMetadata>)

  predicate Found(l: VolumeLookup)
  {
    l.ai.Done? && l.md.Done?
  }

  /** The error of a failed lookup of a volume with a non-empty name. */
  function LookupError(l: VolumeLookup): Error
    requires !Found(l)
  {
    if !l.ai.Done? then Util.CallError(l.ai) else Util.CallError(l.md)
  }

  /** status.Errorf(code, err.Error()). */
  function Grpc(code: Code, e: Error): Error
  {
    Status(code, Text(e))
  }

  function Last(s: seq<Step>): Step
    requires |s| > 0
  {
    s[|s| - 1]
  }

  predicate Distinct(s: seq<string>)
  {
    forall i, j :: 0 <= i < j < |s| ==> s[i] != s[j]
  }

  /** StringSet.List: the members of a set, each once, in an order the set does not fix (it is
      Go's map iteration order). */
  method ListSet(s: set<string>) returns (listed: seq<string>)
    ensures SetOf(listed) == s && Distinct(listed)
  {
    var rest := s;
    listed := [];
    while rest != {}
      invariant rest <= s
      invariant SetOf(listed) + rest == s
      invariant forall x :: x in listed ==> x !in rest
      invariant Distinct(listed)
      decreases |rest|
    {
      var x :| x in rest;
      listed := listed + [x];
      rest := rest - {x};
    }
  }

  // ---------------------------------------------------------------- NodeStageVolume

  datatype StageRequest = StageRequest(volumeId: string, stagingTargetPath: string,
                                       capability: Option<Driver.VolumeCapability>,
                                       capabilityText: string)

  /** What staging needs from the backend and the host. `ipPool` looks a pool up by name and
      yields its path; `robinDraw` is robin()'s draw (true for 1). */
  datatype StageHost = StageHost(
    lookup: VolumeLookup, readMd: Call<VolMetadata>,
    iqnFile: Result<string>, initiatorGet: Call<Acls.BackendInitiator>,
    initiatorCreate: Acls.InitiatorCreate -> Call<Acls.BackendInitiator>, freshId: string,
    aclGet: Call<seq<string>>, aclSet: Call<bool>,
    ipPool: string -> Call<string>, ipPoolSet: Call<bool>,
    multipathDisabled: bool, robinDraw: bool, connect: Logins.Connector -> Result<string>,
    formatTimeout: int, format: Mounts.FormatHost, mount: Mounts.MountHost,
    writeMd: Call<VolMetadata>)

  /** Attaching the volume to the host: initiator, ACL, IP pool, iSCSI login, in that order. */
  const AttachSteps: seq<Step> := [GetInitiator, AddAcl, FindIpPool, SetIpPool, LogIn]

  /** The attach half of staging. It stops at the first failure; only a failed pool lookup
      reports NotFound. A completed attach leaves the volume logged in. */
  method StageAttach(vol: Volume, md: VolMetadata, h: StageHost) returns (r: Outcome, steps: seq<Step>)
    modifies vol
    ensures vol.Identity() == old(vol.Identity()) && vol.Limits() == old(vol.Limits())
    ensures 1 <= |steps| <= |AttachSteps| && steps == AttachSteps[..|steps|]
    ensures |steps| < |AttachSteps| ==> r.Fail?
    ensures r.Pass? ==> vol.devicePath != "" && vol.Local() == old(vol.Local()).(devicePath := vol.devicePath)
    ensures r.Fail? ==> vol.Local() == old(vol.Local())
    ensures r.Fail? ==> r.error.Status? && r.error.code == (if Last(steps) == FindIpPool then NotFound else Unknown)
  {
    steps := [GetInitiator];
    var init, created := Acls.CreateGetInitiator(h.iqnFile, h.initiatorGet, h.initiatorCreate, h.freshId);
    if init.Err? {
      return Fail(Grpc(Unknown, init.error)), steps;
    }
    steps := steps + [AddAcl];
    var acl, written := Acls.RegisterAcl(h.aclGet, init.value, h.aclSet);
    if acl.Fail? {
      return Fail(Grpc(Unknown, acl.error)), steps;
    }
    steps := steps + [FindIpPool];
    var pool := h.ipPool(Lookup(md, "ip_pool"));
    if !pool.Done? {
      return Fail(Grpc(NotFound, Util.CallError(pool))), steps;
    }
    steps := steps + [SetIpPool];
    var registered := Acls.SetOutcome(h.ipPoolSet);
    if registered.Fail? {
      return Fail(Grpc(Unknown, registered.error)), steps;
    }
    steps := steps + [LogIn];
    var login, sent := Logins.Login(vol, !h.multipathDisabled, Lookup(md, "round_robin") == "true",
                                    if h.robinDraw then 1 else 0, h.connect);
    if login.Fail? {
      return Fail(Grpc(Unknown, login.error)), steps;
    }
    r := Pass;
  }

  /** The filesystem half of staging a mount volume: format the device with the recorded
      filesystem and arguments, mark it formatted, mount it at the staging path with the
      recorded mount arguments, and record the mount path. */
  method StageFilesystem(vol: Volume, md: VolMetadata, fs: string, staging: string, h: StageHost)
    returns (r: Outcome, steps: seq<Step>, mdOut: VolMetadata)
    modifies vol
    ensures vol.Identity() == old(vol.Identity()) && vol.Limits() == old(vol.Limits())
    ensures steps == [MakeFs] || steps == [MakeFs, MountStaging]
    ensures steps == [MakeFs] ==> r.Fail?
    ensures r.Fail? ==> r.error.Status? && r.error.code == Unknown
    ensures r.Pass? ==> mdOut == md["formatted" := "true"]["mount_path" := staging]
    ensures r.Pass? ==> vol.formatted && vol.mountPath == staging && vol.devicePath == old(vol.devicePath)
  {
    steps := [MakeFs];
    mdOut := md;
    var formatted, mkfsRuns := Mounts.Format(vol, fs, Split(Lookup(md, "fs_args"), ' '), h.formatTimeout, h.format);
    if formatted.Fail? {
      return Fail(Grpc(Unknown, formatted.error)), steps, mdOut;
    }
    vol.formatted := true;
    mdOut := mdOut["formatted" := "true"];
    steps := steps + [MountStaging];
    var mounted, mountRuns := Mounts.Mount(vol, staging, Split(Lookup(mdOut, "m_args"), ' '), fs, h.mount);
    if mounted.Fail? {
      return Fail(Grpc(Unknown, mounted.error)), steps, mdOut;
    }
    mdOut := mdOut["mount_path" := vol.mountPath];
    r := Pass;
  }

  /** The filesystem type staging finds in the metadata once the capability is recorded: a
      supported Mount filesystem replaces the stored one, anything else leaves it. */
  function StagedFs(readMd: Call<VolMetadata>, vc: Driver.VolumeCapability): string
  {
    if vc.accessType.Mount? && Driver.IsSupportedFs(vc.accessType.fsType) then vc.accessType.fsType
    else if readMd.Done? then Lookup(readMd.value, "fs_type") else ""
  }

  /** The node side's call of RegisterVolumeCapability, whose outcome it ignores: the
      filesystem type becomes the one staging finds, and every key other than the capability
      keys keeps its entry. */
  method RecordCapability(md: VolMetadata, vc: Driver.VolumeCapability) returns (mdOut: VolMetadata)
    ensures Lookup(mdOut, "fs_type") == StagedFs(Done(md), vc)
    ensures mdOut.Keys <= md.Keys + Driver.CapabilityKeys
    ensures forall k :: k in md && k !in Driver.CapabilityKeys ==> k in mdOut && mdOut[k] == md[k]
  {
    var recorded;
    recorded, mdOut := Driver.RegisterVolumeCapability(md, Some(vc));
  }

  /** What staging does after the attach when nothing fails: a Mount volume with a filesystem
      type is formatted and mounted; Mount and Block volumes then have their metadata written;
      another access type is refused. */
  function StageTail(at: Driver.AccessType, fs: string): seq<Step>
  {
    match at
    case Mount(_, _) => (if fs != "" then [MakeFs, MountStaging] else []) + [WriteMetadata]
    case Block => [WriteMetadata]
    case OtherAccess => []
  }

  /** Every interaction a stage of this access type makes when nothing fails. */
  function StagePlan(at: Driver.AccessType, fs: string): seq<Step>
  {
    [LookUpVolume, ReadMetadata] + AttachSteps + StageTail(at, fs)
  }

  /** Staging a volume that was found, from its metadata `md` with the capability recorded. */
  method StageFound(vol: Volume, md: VolMetadata, at: Driver.AccessType, staging: string, capText: string,
                    h: StageHost)
    returns (r: Outcome, steps: seq<Step>, written: Option<VolMetadata>)
    modifies vol
    ensures |steps| >= 1 && steps <= AttachSteps + StageTail(at, Lookup(md, "fs_type"))
    ensures r.Pass? <==> steps == AttachSteps + StageTail(at, Lookup(md, "fs_type")) && !at.OtherAccess? && h.writeMd.Done?
    ensures r.Fail? ==>
              && r.error.Status?
              && (r.error.code == NotFound ==> Last(steps) == FindIpPool)
              && (r.error.code == InvalidArgument ==> at.OtherAccess? && Last(steps) == LogIn)
    ensures written.Some? <==> Last(steps) == WriteMetadata
    ensures written.Some? ==> "device_path" in written.value && written.value["device_path"] != ""
    ensures written.Some? && at.Mount? && Lookup(md, "fs_type") != "" ==>
              && "formatted" in written.value && written.value["formatted"] == "true"
              && "mount_path" in written.value && written.value["mount_path"] == staging
  {
    written := None;
    ghost var plan := AttachSteps + StageTail(at, Lookup(md, "fs_type"));
    var attached;
    attached, steps := StageAttach(vol, md, h);
    assert steps == plan[..|steps|];
    if attached.Fail? {
      return attached, steps, written;
    }
    var mdOut := md["device_path" := vol.devicePath];
    assert Lookup(mdOut, "fs_type") == Lookup(md, "fs_type");
    match at {
      case Mount(_, _) =>
        var fs := Lookup(mdOut, "fs_type");
        if fs != "" {
          var mounted, fsSteps;
          mounted, fsSteps, mdOut := StageFilesystem(vol, mdOut, fs, staging, h);
          assert steps + fsSteps == plan[..|steps| + |fsSteps|];
          steps := steps + fsSteps;
          if mounted.Fail? {
            return mounted, steps, written;
          }
        }
      case Block =>
      case OtherAccess =>
        return Fail(Status(InvalidArgument, "Unknown volume capability: " + capText)), steps, written;
    }
    steps := steps + [WriteMetadata];
    assert steps == plan;
    written := Some(mdOut);
    if !h.writeMd.Done? {
      return Fail(Grpc(Unknown, Util.CallError(h.writeMd))), steps, written;
    }
    r := Pass;
  }

  /** NodeStageVolume. The arguments are checked before any backend call; StageChecked does
      the rest. */
  method NodeStageVolume(req: StageRequest, h: StageHost)
    returns (r: Outcome, steps: seq<Step>, written: Option<VolMetadata>)
    ensures req.volumeId == "" ==> r == Fail(Status(InvalidArgument, "VolumeId cannot be empty"))
    ensures req.volumeId != "" && req.stagingTargetPath == "" ==>
              r == Fail(Status(InvalidArgument, "StagingTargetPath cannot be empty"))
    ensures req.volumeId != "" && req.stagingTargetPath != "" && req.capability.None? ==>
              r == Fail(Status(InvalidArgument, "VolumeCapability cannot be nil"))
    ensures steps == [] <==> req.volumeId == "" || req.stagingTargetPath == "" || req.capability.None?
    ensures steps == [] ==> written.None?
    ensures steps != [] ==> StagedAs(req.volumeId, req.capability.value, req.stagingTargetPath, h, r, steps, written)
  {
    written := None;
    steps := [];
    if req.volumeId == "" {
      return Fail(Status(InvalidArgument, "VolumeId cannot be empty")), steps, written;
    }
    if req.stagingTargetPath == "" {
      return Fail(Status(InvalidArgument, "StagingTargetPath cannot be empty")), steps, written;
    }
    if req.capability.None? {
      return Fail(Status(InvalidArgument, "VolumeCapability cannot be nil")), steps, written;
    }
    r, steps, written := StageChecked(req.volumeId, req.capability.value, req.stagingTargetPath, req.capabilityText, h);
  }

  /** What a stage with valid arguments does: the interactions are a prefix of the plan; a
      missing volume stops at the lookup (NotFound) and an unreadable metadata at the read
      (Unknown); it succeeds exactly when the whole plan ran for a Mount or Block capability
      and the final metadata write went through; NotFound otherwise only comes from a missing
      IP pool and InvalidArgument from an unknown access type after the login; the metadata
      written carries the device path and, for a formatted Mount volume, the staging mount. */
  ghost predicate StagedAs(volumeId: string, vc: Driver.VolumeCapability, staging: string, h: StageHost,
                           r: Outcome, steps: seq<Step>, written: Option<VolMetadata>)
  {
    var plan := StagePlan(vc.accessType, StagedFs(h.readMd, vc));
    && steps != [] && steps <= plan
    && (steps == [LookUpVolume] ==> !Found(h.lookup) && r == Fail(Grpc(NotFound, LookupError(h.lookup))))
    && (steps == [LookUpVolume, ReadMetadata] ==> r.Fail? && r.error.Status? && r.error.code == Unknown)
    && (r.Pass? <==> steps == plan && !vc.accessType.OtherAccess? && h.writeMd.Done?)
    && (r.Fail? ==>
          && r.error.Status?
          && (r.error.code == NotFound ==> Last(steps) == LookUpVolume || Last(steps) == FindIpPool)
          && (r.error.code == InvalidArgument ==> vc.accessType.OtherAccess? && Last(steps) == LogIn))
    && (written.Some? <==> Last(steps) == WriteMetadata)
    && (written.Some? ==> "device_path" in written.value && written.value["device_path"] != "")
    && (written.Some? && vc.accessType.Mount? && StagedFs(h.readMd, vc) != "" ==>
          && "formatted" in written.value && written.value["formatted"] == "true"
          && "mount_path" in written.value && written.value["mount_path"] == staging)
  }

  /** NodeStageVolume after its argument checks. The volume is looked up, its metadata read
      and its capability recorded (that outcome is ignored); the volume is attached; a Mount
      volume with a filesystem type is formatted and mounted at the staging path; the metadata,
      with the device path and mount state, is written once at the end. An access type other
      than Mount or Block is refused only after the login. */
  method StageChecked(volumeId: string, vc: Driver.VolumeCapability, staging: string, capText: string, h: StageHost)
    returns (r: Outcome, steps: seq<Step>, written: Option<VolMetadata>)
    requires volumeId != ""
    ensures StagedAs(volumeId, vc, staging, h, r, steps, written)
  {
    written := None;
    steps := [LookUpVolume];
    var got := GetVolume(volumeId, true, h.lookup.ai, h.lookup.md);
    if got.Err? {
      return Fail(Grpc(NotFound, got.error)), steps, written;
    }
    var vol := got.value;
    steps := steps + [ReadMetadata];
    if !h.readMd.Done? {
      return Fail(Grpc(Unknown, Util.CallError(h.readMd))), steps, written;
    }
    var md := RecordCapability(h.readMd.value, vc);
    ghost var tail := AttachSteps + StageTail(vc.accessType, StagedFs(h.readMd, vc));
    assert StagePlan(vc.accessType, StagedFs(h.readMd, vc)) == steps + tail;
    var found;
    r, found, written := StageFound(vol, md, vc.accessType, staging, capText, h);
    assert Last(steps + found) == Last(found);
    PrefixExtends(steps, found, tail);
    steps := steps + found;
  }

  /** A prefix of the tail after a common head is a prefix of the whole. */
  lemma PrefixExtends(head: seq<Step>, s: seq<Step>, tail: seq<Step>)
    requires s <= tail
    ensures head + s <= head + tail
    ensures s == tail <==> head + s == head + tail
  {
    if head + s == head + tail {
      assert s == (head + s)[|head|..];
    }
  }

  // ---------------------------------------------------------------- NodeUnstageVolume

  datatype UnstageRequest = UnstageRequest(volumeId: string, stagingTargetPath: string)

  datatype UnstageHost = UnstageHost(
    lookup: VolumeLookup, unmount: Mounts.UnmountHost, readMd: Call<VolMetadata>,
    writeMd: Call<VolMetadata>, disconnect: (string, seq<string>) -> Outcome,
    setOffline: Call<bool>, del: Call<bool>)

  /** The metadata unstage works on: what was read, or an empty map when the read failed. */
  function UnstageMetadata(readMd: Call<VolMetadata>): VolMetadata
  {
    if readMd.Done? then readMd.value else map[]
  }

  /** NodeUnstageVolume. After the arguments are checked and the volume is found it always
      succeeds: the unmount, the metadata read and write, the logout and the deletion are each
      tried in turn and their failures only logged. The mount path is cleared in the metadata,
      and the volume is deleted only when its metadata says delete_on_unmount is "true". */
  method NodeUnstageVolume(req: UnstageRequest, h: UnstageHost)
    returns (r: Outcome, steps: seq<Step>, written: Option<VolMetadata>, issued: seq<AiRequest>)
    ensures req.volumeId == "" ==> r == Fail(Status(InvalidArgument, "VolumeId cannot be empty")) && steps == []
    ensures req.volumeId != "" && req.stagingTargetPath == "" ==>
              r == Fail(Status(InvalidArgument, "StagingTargetPath cannot be empty")) && steps == []
    ensures req.volumeId != "" && req.stagingTargetPath != "" && !Found(h.lookup) ==>
              r == Fail(Grpc(NotFound, LookupError(h.lookup))) && steps == [LookUpVolume] && written.None?
    ensures req.volumeId != "" && req.stagingTargetPath != "" && Found(h.lookup) ==>
              var md := UnstageMetadata(h.readMd);
              var removing := Lookup(md, "delete_on_unmount") == "true";
              && r == Pass
              && written == Some(md["mount_path" := ""])
              && steps == [LookUpVolume, UnmountStaging, ReadMetadata, WriteMetadata, LogOut]
                          + (if removing then [RemoveVolume] else [])
              && (removing <==> issued != [])
              && (removing ==> issued[0] == SetAdminState("offline", false))
    ensures issued != [] ==> r == Pass
  {
    written := None;
    steps := [];
    issued := [];
    if req.volumeId == "" {
      return Fail(Status(InvalidArgument, "VolumeId cannot be empty")), steps, written, issued;
    }
    if req.stagingTargetPath == "" {
      return Fail(Status(InvalidArgument, "StagingTargetPath cannot be empty")), steps, written, issued;
    }
    steps := [LookUpVolume];
    var got := GetVolume(req.volumeId, true, h.lookup.ai, h.lookup.md);
    if got.Err? {
      return Fail(Grpc(NotFound, got.error)), steps, written, issued;
    }
    var vol := got.value;
    steps := steps + [UnmountStaging];
    var unmounted, acts := Mounts.UnmountVolume(vol, h.unmount);
    steps := steps + [ReadMetadata];
    var md := UnstageMetadata(h.readMd);
    md := md["mount_path" := ""];
    steps := steps + [WriteMetadata];
    written := Some(md);
    steps := steps + [LogOut];
    var loggedOut := Logins.Logout(vol, h.disconnect);
    if Lookup(md, "delete_on_unmount") == "true" {
      steps := steps + [RemoveVolume];
      var deleted;
      deleted, issued := VolumeDelete(false, h.setOffline, h.del);
    }
    r := Pass;
  }

  // ---------------------------------------------------------------- NodePublishVolume

  datatype PublishRequest = PublishRequest(volumeId: string, stagingTargetPath: string, targetPath: string,
                                           capability: Option<Driver.VolumeCapability>)

  datatype PublishHost = PublishHost(lookup: VolumeLookup, readMd: Call<VolMetadata>,
                                     bind: Mounts.MountHost, writeMd: Call<VolMetadata>)

  /** The bind-mount paths a published volume knows of: those GetVolume reconstructed and those
      the metadata lists under bind_mount. */
  function KnownBinds(lookupMd: VolMetadata, md: VolMetadata): set<string>
  {
    StateFromMetadata(lookupMd).bindMountPaths + SetOf(Split(Lookup(md, "bind_mount"), ','))
  }

  /** Adding the paths listed under bind_mount to the volume's bind-mount set. */
  method AddListedBinds(vol: Volume, md: VolMetadata)
    modifies vol
    ensures vol.Identity() == old(vol.Identity()) && vol.Limits() == old(vol.Limits())
    ensures vol.Local() == old(vol.Local()).(bindMountPaths := old(vol.bindMountPaths) + SetOf(Split(Lookup(md, "bind_mount"), ',')))
  {
    var bms := Split(Lookup(md, "bind_mount"), ',');
    var i := 0;
    while i < |bms|
      invariant 0 <= i <= |bms|
      invariant vol.Identity() == old(vol.Identity()) && vol.Limits() == old(vol.Limits())
      invariant vol.Local() == old(vol.Local()).(bindMountPaths := old(vol.bindMountPaths) + SetOf(bms[..i]))
    {
      assert SetOf(bms[..i + 1]) == SetOf(bms[..i]) + {bms[i]} by {
        assert bms[..i + 1] == bms[..i] + [bms[i]];
      }
      vol.bindMountPaths := vol.bindMountPaths + {bms[i]};
      i := i + 1;
    }
    assert bms[..|bms|] == bms;
  }

  /** NodePublishVolume. The arguments are checked; the volume is looked up, but a failed
      lookup is not checked, so reading the metadata of the missing volume panics. The
      capability is recorded (its outcome ignored), the paths listed under bind_mount are added
      to the bind-mount set, the staged mount is bind-mounted at the target path, and bind_mount
      is rewritten as the comma-join of the whole set, which now holds the target. */
  method NodePublishVolume(req: PublishRequest, h: PublishHost)
    returns (r: Outcome, steps: seq<Step>, written: Option<VolMetadata>, listed: seq<string>)
    ensures req.volumeId == "" ==> r == Fail(Status(InvalidArgument, "VolumeId cannot be empty"))
    ensures req.volumeId != "" && req.stagingTargetPath == "" ==>
              r == Fail(Status(InvalidArgument, "StagingTargetPath cannot be empty"))
    ensures req.volumeId != "" && req.stagingTargetPath != "" && req.targetPath == "" ==>
              r == Fail(Status(InvalidArgument, "TargetPath cannot be empty"))
    ensures steps == [] <==> req.volumeId == "" || req.stagingTargetPath == "" || req.targetPath == ""
    ensures steps == [] ==> written.None?
    ensures steps != [] ==> PublishedAs(req.targetPath, req.capability, h, r, steps, written, listed)
  {
    written := None;
    steps := [];
    listed := [];
    if req.volumeId == "" {
      return Fail(Status(InvalidArgument, "VolumeId cannot be empty")), steps, written, listed;
    }
    if req.stagingTargetPath == "" {
      return Fail(Status(InvalidArgument, "StagingTargetPath cannot be empty")), steps, written, listed;
    }
    if req.targetPath == "" {
      return Fail(Status(InvalidArgument, "TargetPath cannot be empty")), steps, written, listed;
    }
    r, steps, written, listed := PublishChecked(req.volumeId, req.targetPath, req.capability, h);
  }

  /** What a publication with valid paths does: the interactions are a prefix of lookup, read,
      bind and write; a nil capability is refused after the lookup, and a missing volume then
      panics; later failures are Unknown; it succeeds exactly when all four ran and the write
      went through; the metadata written lists, under bind_mount and without duplicates, the
      known bind-mount paths and the target, and keeps every non-capability key it read. */
  ghost predicate PublishedAs(target: string, capability: Option<Driver.VolumeCapability>, h: PublishHost,
                              r: Outcome, steps: seq<Step>, written: Option<VolMetadata>, listed: seq<string>)
  {
    && steps != [] && steps <= [LookUpVolume, ReadMetadata, BindTarget, WriteMetadata]
    && (steps == [LookUpVolume] ==>
          && (capability.None? ==> r == Fail(Status(InvalidArgument, "VolumeCapability cannot be nil")))
          && (capability.Some? ==> !Found(h.lookup) && r == Fail(Panic(NilDeref))))
    && (r.Fail? && |steps| >= 2 ==> r.error.Status? && r.error.code == Unknown)
    && (r.Pass? <==> steps == [LookUpVolume, ReadMetadata, BindTarget, WriteMetadata] && h.writeMd.Done?)
    && (written.Some? <==> |steps| == 4)
    && (written.Some? ==> Found(h.lookup) && h.readMd.Done?)
    && (written.Some? ==>
          && "bind_mount" in written.value && written.value["bind_mount"] == Join(listed, ",")
          && (forall k :: k in h.readMd.value && k !in Driver.CapabilityKeys ==> k in written.value)
          && Distinct(listed)
          && SetOf(listed) == KnownBinds(h.lookup.md.value, h.readMd.value) + {target}
          && target in listed)
  }

  /** NodePublishVolume after its path checks. The volume is looked up, but a failed lookup is
      not checked, so reading the metadata of the missing volume panics. The capability is
      recorded (its outcome ignored), the paths listed under bind_mount are added to the
      bind-mount set, the staged mount is bind-mounted at the target path, and bind_mount is
      rewritten as the comma-join of the whole set, which now holds the target. */
  method PublishChecked(volumeId: string, target: string, capability: Option<Driver.VolumeCapability>,
                        h: PublishHost)
    returns (r: Outcome, steps: seq<Step>, written: Option<VolMetadata>, listed: seq<string>)
    requires volumeId != ""
    ensures PublishedAs(target, capability, h, r, steps, written, listed)
  {
    written := None;
    listed := [];
    steps := [LookUpVolume];
    var got := GetVolume(volumeId, true, h.lookup.ai, h.lookup.md);
    if capability.None? {
      return Fail(Status(InvalidArgument, "VolumeCapability cannot be nil")), steps, written, listed;
    }
    if got.Err? {
      return Fail(Panic(NilDeref)), steps, written, listed;
    }
    var vol := got.value;
    steps := steps + [ReadMetadata];
    if !h.readMd.Done? {
      return Fail(Grpc(Unknown, Util.CallError(h.readMd))), steps, written, listed;
    }
    var md := RecordCapability(h.readMd.value, capability.value);
    assert Lookup(md, "bind_mount") == Lookup(h.readMd.value, "bind_mount");
    var bindSteps;
    r, bindSteps, written, listed := BindRecorded(vol, md, target, h);
    steps := steps + bindSteps;
  }

  /** The end of a publication, from the recorded metadata `md`: the listed paths join the
      volume's bind-mount set, the target is bind-mounted, and the metadata is written with the
      whole set under bind_mount. */
  method BindRecorded(vol: Volume, md: VolMetadata, target: string, h: PublishHost)
    returns (r: Outcome, steps: seq<Step>, written: Option<VolMetadata>, listed: seq<string>)
    modifies vol
    ensures steps != [] && steps <= [BindTarget, WriteMetadata]
    ensures r.Fail? ==> r.error.Status? && r.error.code == Unknown
    ensures r.Pass? <==> steps == [BindTarget, WriteMetadata] && h.writeMd.Done?
    ensures written.Some? <==> |steps| == 2
    ensures written.Some? ==>
              && "bind_mount" in written.value && written.value["bind_mount"] == Join(listed, ",")
              && (forall k :: k in md ==> k in written.value)
              && Distinct(listed)
              && SetOf(listed) == old(vol.bindMountPaths) + SetOf(Split(Lookup(md, "bind_mount"), ',')) + {target}
              && target in listed
  {
    written := None;
    listed := [];
    AddListedBinds(vol, md);
    steps := [BindTarget];
    var bound, acts := Mounts.BindMount(vol, target, Lookup(md, "fs_type"), h.bind);
    if bound.Fail? {
      return Fail(Grpc(Unknown, bound.error)), steps, written, listed;
    }
    listed := ListSet(vol.bindMountPaths);
    var mdOut := md["bind_mount" := Join(listed, ",")];
    steps := steps + [WriteMetadata];
    written := Some(mdOut);
    if !h.writeMd.Done? {
      return Fail(Grpc(Unknown, Util.CallError(h.writeMd))), steps, written, listed;
    }
    r := Pass;
  }

  // ---------------------------------------------------------------- NodeUnpublishVolume

  datatype UnpublishRequest = UnpublishRequest(volumeId: string, targetPath: string)

  datatype UnpublishHost = UnpublishHost(lookup: VolumeLookup, readMd: Call<VolMetadata>,
                                         writeMd: Call<VolMetadata>, unbind: Mounts.UnmountHost)

  /** Removing the paths listed under bind_mount from the volume's bind-mount set. */
  method RemoveListedBinds(vol: Volume, md: VolMetadata)
    modifies vol
    ensures vol.Identity() == old(vol.Identity()) && vol.Limits() == old(vol.Limits())
    ensures vol.Local() == old(vol.Local()).(bindMountPaths := old(vol.bindMountPaths) - SetOf(Split(Lookup(md, "bind_mount"), ',')))
  {
    var bms := Split(Lookup(md, "bind_mount"), ',');
    var i := 0;
    while i < |bms|
      invariant 0 <= i <= |bms|
      invariant vol.Identity() == old(vol.Identity()) && vol.Limits() == old(vol.Limits())
      invariant vol.Local() == old(vol.Local()).(bindMountPaths := old(vol.bindMountPaths) - SetOf(bms[..i]))
    {
      assert SetOf(bms[..i + 1]) == SetOf(bms[..i]) + {bms[i]} by {
        assert bms[..i + 1] == bms[..i] + [bms[i]];
      }
      vol.bindMountPaths := vol.bindMountPaths - {bms[i]};
      i := i + 1;
    }
    assert bms[..|bms|] == bms;
  }

  /** NodeUnpublishVolume as written: the paths listed under bind_mount are removed from the
      bind-mount set, the metadata is written back unchanged, and only then is the target
      unbound. A target that publishing recorded under bind_mount has just left the set, so the
      unbind always reports it as already unmounted and no unmount runs; the call still
      succeeds. */
  method NodeUnpublishVolumeAsWritten(req: UnpublishRequest, h: UnpublishHost)
    returns (r: Outcome, steps: seq<Step>, written: Option<VolMetadata>, unbound: Outcome,
             acts: seq<Mounts.HostAction>)
    ensures req.volumeId == "" ==> r == Fail(Status(InvalidArgument, "VolumeId cannot be empty")) && steps == []
    ensures req.volumeId != "" && req.targetPath == "" ==>
              r == Fail(Status(InvalidArgument, "TargetPath cannot be empty")) && steps == []
    ensures req.volumeId != "" && req.targetPath != "" && !Found(h.lookup) ==>
              r == Fail(Grpc(NotFound, LookupError(h.lookup))) && steps == [LookUpVolume]
    ensures steps <= [LookUpVolume, ReadMetadata, WriteMetadata, UnbindTarget]
    ensures |steps| == 2 ==> r.Fail? && r.error.Status? && r.error.code == Unknown && !h.readMd.Done?
    ensures written.Some? <==> |steps| >= 3
    ensures written.Some? ==> h.readMd.Done? && written == Some(h.readMd.value)
    ensures |steps| == 3 ==> !h.writeMd.Done? && r == Fail(Grpc(Unknown, Util.CallError(h.writeMd)))
    ensures r.Pass? <==> |steps| == 4
    ensures |steps| < 4 ==> acts == []
    ensures |steps| == 4 && h.readMd.Done? && req.targetPath in Split(Lookup(h.readMd.value, "bind_mount"), ',') ==>
              unbound == Fail(Plain("Volume is already unmounted from bind path: " + req.targetPath)) && acts == []
  {
    written := None;
    steps := [];
    unbound := Pass;
    acts := [];
    if req.volumeId == "" {
      return Fail(Status(InvalidArgument, "VolumeId cannot be empty")), steps, written, unbound, acts;
    }
    if req.targetPath == "" {
      return Fail(Status(InvalidArgument, "TargetPath cannot be empty")), steps, written, unbound, acts;
    }
    steps := [LookUpVolume];
    var got := GetVolume(req.volumeId, true, h.lookup.ai, h.lookup.md);
    if got.Err? {
      return Fail(Grpc(NotFound, got.error)), steps, written, unbound, acts;
    }
    var vol := got.value;
    steps := steps + [ReadMetadata];
    if !h.readMd.Done? {
      return Fail(Grpc(Unknown, Util.CallError(h.readMd))), steps, written, unbound, acts;
    }
    var md := h.readMd.value;
    RemoveListedBinds(vol, md);
    steps := steps + [WriteMetadata];
    written := Some(md);
    if !h.writeMd.Done? {
      return Fail(Grpc(Unknown, Util.CallError(h.writeMd))), steps, written, unbound, acts;
    }
    steps := steps + [UnbindTarget];
    unbound, acts := Mounts.UnBindMount(vol, req.targetPath, h.unbind);
    r := Pass;
  }

  /** NodeUnpublishVolume as intended: the paths listed under bind_mount are added to the
      bind-mount set, as publishing does, the target is unbound (a failure is only logged), and
      bind_mount is rewritten as the comma-join of what remains. A recorded target is really
      unmounted, and once unbound it is no longer listed. */
  method NodeUnpublishVolume(req: UnpublishRequest, h: UnpublishHost)
    returns (r: Outcome, steps: seq<Step>, written: Option<VolMetadata>, unbound: Outcome,
             acts: seq<Mounts.HostAction>, listed: seq<string>)
    ensures req.volumeId == "" ==> r == Fail(Status(InvalidArgument, "VolumeId cannot be empty")) && steps == []
    ensures req.volumeId != "" && req.targetPath == "" ==>
              r == Fail(Status(InvalidArgument, "TargetPath cannot be empty")) && steps == []
    ensures req.volumeId != "" && req.targetPath != "" && !Found(h.lookup) ==>
              r == Fail(Grpc(NotFound, LookupError(h.lookup))) && steps == [LookUpVolume]
    ensures steps <= [LookUpVolume, ReadMetadata, UnbindTarget, WriteMetadata]
    ensures |steps| == 2 ==> r.Fail? && r.error.Status? && r.error.code == Unknown && !h.readMd.Done?
    ensures r.Pass? <==> |steps| == 4 && h.writeMd.Done?
    ensures written.Some? <==> |steps| == 4
    ensures written.Some? ==> Found(h.lookup) && h.readMd.Done?
    ensures |steps| >= 3 && h.readMd.Done? && req.targetPath in Split(Lookup(h.readMd.value, "bind_mount"), ',') ==>
              (unbound, acts) == Mounts.Unmount(req.targetPath, h.unbind)
    ensures written.Some? ==>
              && written.value == h.readMd.value["bind_mount" := Join(listed, ",")]
              && Distinct(listed)
              && SetOf(listed) == KnownBinds(h.lookup.md.value, h.readMd.value)
                                  - (if unbound.Pass? then {req.targetPath} else {})
  {
    written := None;
    steps := [];
    unbound := Pass;
    acts := [];
    listed := [];
    if req.volumeId == "" {
      return Fail(Status(InvalidArgument, "VolumeId cannot be empty")), steps, written, unbound, acts, listed;
    }
    if req.targetPath == "" {
      return Fail(Status(InvalidArgument, "TargetPath cannot be empty")), steps, written, unbound, acts, listed;
    }
    steps := [LookUpVolume];
    var got := GetVolume(req.volumeId, true, h.lookup.ai, h.lookup.md);
    if got.Err? {
      return Fail(Grpc(NotFound, got.error)), steps, written, unbound, acts, listed;
    }
    var vol := got.value;
    steps := steps + [ReadMetadata];
    if !h.readMd.Done? {
      return Fail(Grpc(Unknown, Util.CallError(h.readMd))), steps, written, unbound, acts, listed;
    }
    var md := h.readMd.value;
    AddListedBinds(vol, md);
    steps := steps + [UnbindTarget];
    unbound, acts := Mounts.UnBindMount(vol, req.targetPath, h.unbind);
    listed := ListSet(vol.bindMountPaths);
    md := md["bind_mount" := Join(listed, ",")];
    steps := steps + [WriteMetadata];
    written := Some(md);
    if !h.writeMd.Done? {
      return Fail(Grpc(Unknown, Util.CallError(h.writeMd))), steps, written, unbound, acts, listed;
    }
    r := Pass;
  }
}

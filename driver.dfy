/** pkg/driver/driver.go: the in-flight request registry shared by the controller handlers, the
    recording of a volume capability in the volume's metadata, and the supported filesystems. */
module Driver {
  import opened Wrappers
  import opened Strs

  const Ext4: string := "ext4"
  const Xfs: string := "xfs"

  /** isSupportedFs: membership in the fixed table {ext4, xfs}. */
  function IsSupportedFs(fs: string): (ok: bool)
    ensures ok <==> fs == Ext4 || fs == Xfs
    ensures ok ==> fs != ""
  {
    fs in {Ext4, Xfs}
  }

  // ---------------------------------------------------------------- in-flight registry

  /** The registry key: the service piece, the RPC name and the rendered request, joined by '|'.
      The `%+v` rendering of the request is the parameter `reqText`. */
  function RequestKey(piece: string, funcName: string, reqText: string): string
  {
    Join([piece, funcName, reqText], "|")
  }

  /** Keys of requests whose parts contain no '|' determine those parts. */
  lemma RequestKeyInjective(p1: string, f1: string, t1: string, p2: string, f2: string, t2: string)
    requires '|' !in p1 && '|' !in f1 && '|' !in t1 && '|' !in p2 && '|' !in f2 && '|' !in t2
    requires RequestKey(p1, f1, t1) == RequestKey(p2, f2, t2)
    ensures p1 == p2 && f1 == f2 && t1 == t2
  {
    SplitJoin([p1, f1, t1], '|');
    SplitJoin([p2, f2, t2], '|');
  }

  /** The closure InitFunc hands back: nothing, or the deletion of the key it inserted. */
  datatype Cleaner = Noop | DeleteKey(key: string)

  /** The registry after a cleaner has run. */
  function Clean(status: set<string>, c: Cleaner): set<string>
  {
    match c
    case Noop => status
    case DeleteKey(k) => status - {k}
  }

  /** Admission of a key: (in progress, new registry, cleaner). */
  function Admit(status: set<string>, key: string): (bool, set<string>, Cleaner)
  {
    if key in status then (true, status, Noop)
    else (false, status + {key}, DeleteKey(key))
  }

  /** A request already in flight is reported as such and leaves the registry as it was. */
  lemma AdmitBusy(status: set<string>, key: string)
    requires key in status
    ensures Admit(status, key) == (true, status, Noop)
    ensures Clean(Admit(status, key).1, Admit(status, key).2) == status
  {
  }

  /** A new request is admitted; running its cleaner restores the prior registry exactly. */
  lemma AdmitFresh(status: set<string>, key: string)
    requires key !in status
    ensures !Admit(status, key).0 && key in Admit(status, key).1
    ensures Clean(Admit(status, key).1, Admit(status, key).2) == status
  {
  }

  /** A second identical request before the cleaner runs is in progress; once the cleaner has
      run, the identical request is admitted again. */
  lemma AdmitTwice(status: set<string>, key: string)
    requires key !in status
    ensures var (_, s1, c) := Admit(status, key);
            Admit(s1, key).0 && !Admit(Clean(s1, c), key).0
  {
  }

  class Driver {
    /** d.rpcStatus: the keys of the requests in flight. */
    var rpcStatus: set<string>

    constructor ()
      ensures rpcStatus == {}
    {
      rpcStatus := {};
    }

    /** InitFunc: look the request's key up; register it unless it is already in flight. */
    method InitFunc(piece: string, funcName: string, reqText: string) returns (inProgress: bool, cleaner: Cleaner)
      modifies this
      ensures (inProgress, rpcStatus, cleaner) == Admit(old(rpcStatus), RequestKey(piece, funcName, reqText))
      ensures inProgress <==> RequestKey(piece, funcName, reqText) in old(rpcStatus)
    {
      var key := RequestKey(piece, funcName, reqText);
      inProgress := false;
      cleaner := Noop;
      if key in rpcStatus {
        inProgress := true;
      } else {
        rpcStatus := rpcStatus + {key};
        cleaner := DeleteKey(key);
      }
    }

    /** Running the cleaner (the handlers' deferred call). */
    method Release(c: Cleaner)
      modifies this
      ensures rpcStatus == Clean(old(rpcStatus), c)
    {
      match c
      case Noop =>
      case DeleteKey(k) => rpcStatus := rpcStatus - {k};
    }
  }

  // ---------------------------------------------------------------- volume capabilities

  datatype AccessType = Block | Mount(fsType: string, mountFlags: seq<string>) | OtherAccess

  /** A CSI volume capability; `accessMode` is the access mode's name when one is set. */
  datatype VolumeCapability = VolumeCapability(accessMode: Option<string>, accessType: AccessType)

  /** Keys RegisterVolumeCapability may write. */
  const CapabilityKeys: set<string> := {"access_type", "fs_type", "m_flags", "access_mode"}

  /** The capabilities RegisterVolumeCapability accepts: Block, or Mount with a supported
      filesystem. */
  predicate Supported(vc: Option<VolumeCapability>)
  {
    vc.Some? && (vc.value.accessType.Block?
                 || (vc.value.accessType.Mount? && IsSupportedFs(vc.value.accessType.fsType)))
  }

  /** The metadata once an accepted capability has been recorded in `md`. */
  function Recorded(md: map<string, string>, vc: VolumeCapability): (m: map<string, string>)
    requires Supported(Some(vc))
    ensures m.Keys == md.Keys + {"access_type", "access_mode"}
                      + (if vc.accessType.Mount? then {"fs_type", "m_flags"} else {})
    ensures forall k :: k in md && k !in CapabilityKeys ==> m[k] == md[k]
  {
    var at := vc.accessType;
    var typed := md["access_type" := if at.Block? then "block" else "mount"];
    var withFs := if at.Mount? then typed["fs_type" := at.fsType]["m_flags" := Join(at.mountFlags, "")] else typed;
    withFs["access_mode" := match vc.accessMode case Some(m) => m case None => ""]
  }

  /** The error RegisterVolumeCapability returns for a capability it does not accept. */
  function CapabilityError(vc: Option<VolumeCapability>): (e: Error)
    requires !Supported(vc)
    ensures e.Plain?
  {
    if vc.None? then Plain("VolumeCapability is nil")
    else match vc.value.accessType
      case Mount(fsType, _) => Plain("Unsupported filesystem type: " + fsType + ", supported types :re [ext4 xfs]")
      case _ => Plain("Unsupported VolumeCapability: " + "" + ".  Supported capabilities are Mount and Block")
  }

  /** RegisterVolumeCapability: record the access type, filesystem, mount flags and access mode
      of a capability in the metadata map `md` (returned as `mdOut`). */
  method RegisterVolumeCapability(md: map<string, string>, vc: Option<VolumeCapability>)
    returns (r: Outcome, mdOut: map<string, string>)
    ensures r.Fail? <==> vc.None? || vc.value.accessType.OtherAccess?
                         || (vc.value.accessType.Mount? && !IsSupportedFs(vc.value.accessType.fsType))
    ensures r.Pass? <==> Supported(vc)
    ensures r.Fail? ==> mdOut == md && r.error == CapabilityError(vc)
    ensures r.Pass? ==> mdOut == Recorded(md, vc.value)
    ensures r.Pass? ==>
              var at := vc.value.accessType;
              && mdOut.Keys == md.Keys + {"access_type", "access_mode"} + (if at.Mount? then {"fs_type", "m_flags"} else {})
              && mdOut["access_type"] == (if at.Block? then "block" else "mount")
              && mdOut["access_mode"] == (if vc.value.accessMode.Some? then vc.value.accessMode.value else "")
              && (at.Mount? ==> mdOut["fs_type"] == at.fsType && mdOut["m_flags"] == Join(at.mountFlags, ""))
              && (forall k :: k in md && k !in CapabilityKeys ==> k in mdOut && mdOut[k] == md[k])
              && (at.Block? ==> forall k :: k in md && k != "access_type" && k != "access_mode" ==> mdOut[k] == md[k])
  {
    mdOut := md;
    if vc.None? {
      return Fail(Plain("VolumeCapability is nil")), mdOut;
    }
    var at := "";
    var fs := "";
    var mountArgs := "";
    var mo := "";
    if vc.value.accessMode.Some? {
      mo := vc.value.accessMode.value;
    }
    match vc.value.accessType {
      case Block =>
        at := "block";
      case Mount(fsType, flags) =>
        at := "mount";
        fs := fsType;
        if !IsSupportedFs(fs) {
          return Fail(Plain("Unsupported filesystem type: " + fs + ", supported types :re [ext4 xfs]")), mdOut;
        }
        mountArgs := Join(flags, "");
      case OtherAccess =>
        return Fail(Plain("Unsupported VolumeCapability: " + fs + ".  Supported capabilities are Mount and Block")), mdOut;
    }
    mdOut := mdOut["access_type" := at];
    if fs != "" {
      mdOut := mdOut["fs_type" := fs];
      mdOut := mdOut["m_flags" := mountArgs];
    }
    mdOut := mdOut["access_mode" := mo];
    r := Pass;
  }
}

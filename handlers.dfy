/** pkg/driver/controller.go: the controller RPC entry points. Each one registers its request
    in the driver's in-flight registry, refuses a request identical to one still in flight,
    runs the handler body (module Controller) and deregisters the request on the way out. */
module Handlers {
  import opened Wrappers
  import Driver
  import Controller
  import Volumes
  import Snapshots

  const InProgress: string := "Operation is still in progress"

  /** The refusal of a request already in flight. */
  predicate Refused(e: Error)
  {
    e == Status(Aborted, InProgress)
  }

  /** The registry key of a controller request. */
  function Key(funcName: string, reqText: string): string
  {
    Driver.RequestKey("controller", funcName, reqText)
  }

  /** Admission followed by the deferred cleaner leaves the registry as it was. */
  lemma AdmitRestores(status: set<string>, key: string)
    ensures Driver.Clean(Driver.Admit(status, key).1, Driver.Admit(status, key).2) == status
  {
    if key in status {
      Driver.AdmitBusy(status, key);
    } else {
      Driver.AdmitFresh(status, key);
    }
  }

  /** CreateVolume. `reqText` is the request's `%+v` rendering. */
  method CreateVolume(d: Driver.Driver, reqText: string, req: Controller.CreateVolumeRequest, freshId: string,
                      replicaOverride: bool, incoming: Option<map<string, seq<string>>>,
                      existing: Call<Volumes.AppInstance>, b: Snapshots.Backend, vendorVersion: string,
                      create: Volumes.CreateRequest -> Call<Volumes.AppInstance>)
    returns (r: Result<Controller.VolumeReply>, attempted: Option<Volumes.VolOpts>,
             sent: Option<Volumes.CreateRequest>, written: Option<Volumes.VolMetadata>)
    modifies d
    ensures d.rpcStatus == old(d.rpcStatus)
    ensures Key("CreateVolume", reqText) in old(d.rpcStatus) ==>
              r == Err(Status(Aborted, InProgress)) && attempted.None? && sent.None? && written.None?
    ensures (r.Err? && Refused(r.error)) <==> Key("CreateVolume", reqText) in old(d.rpcStatus)
  {
    AdmitRestores(d.rpcStatus, Key("CreateVolume", reqText));
    var busy, cleaner := d.InitFunc("controller", "CreateVolume", reqText);
    if busy {
      d.Release(cleaner);
      return Err(Status(Aborted, InProgress)), None, None, None;
    }
    r, attempted, sent, written :=
      Controller.CreateVolume(req, freshId, replicaOverride, incoming, existing, b, vendorVersion, create);
    d.Release(cleaner);
  }

  /** DeleteVolume. */
  method DeleteVolume(d: Driver.Driver, reqText: string, volumeId: string, get: Call<Volumes.AppInstance>,
                      reload: Outcome, list: Call<seq<Snapshots.BackendSnap>>, setOffline: Call<bool>,
                      del: Call<bool>)
    returns (r: Outcome, issued: seq<Volumes.AiRequest>)
    modifies d
    ensures d.rpcStatus == old(d.rpcStatus)
    ensures Key("DeleteVolume", reqText) in old(d.rpcStatus) ==> r == Fail(Status(Aborted, InProgress)) && issued == []
    ensures (r.Fail? && Refused(r.error)) <==> Key("DeleteVolume", reqText) in old(d.rpcStatus)
  {
    AdmitRestores(d.rpcStatus, Key("DeleteVolume", reqText));
    var busy, cleaner := d.InitFunc("controller", "DeleteVolume", reqText);
    if busy {
      d.Release(cleaner);
      return Fail(Status(Aborted, InProgress)), [];
    }
    r, issued := Controller.DeleteVolume(volumeId, get, reload, list, setOffline, del);
    d.Release(cleaner);
  }

  /** DeleteSnapshot. */
  method DeleteSnapshot(d: Driver.Driver, reqText: string, snapshotId: string, get: Call<Volumes.AppInstance>,
                        reloaded: Result<seq<Snapshots.BackendSnap>>, del: Call<bool>)
    returns (r: Outcome, target: Option<Snapshots.BackendSnap>)
    modifies d
    ensures d.rpcStatus == old(d.rpcStatus)
    ensures Key("DeleteSnapshot", reqText) in old(d.rpcStatus) ==> r == Fail(Status(Aborted, InProgress)) && target.None?
    ensures (r.Fail? && Refused(r.error)) <==> Key("DeleteSnapshot", reqText) in old(d.rpcStatus)
  {
    AdmitRestores(d.rpcStatus, Key("DeleteSnapshot", reqText));
    var busy, cleaner := d.InitFunc("controller", "DeleteSnapshot", reqText);
    if busy {
      d.Release(cleaner);
      return Fail(Status(Aborted, InProgress)), None;
    }
    r, target := Controller.DeleteSnapshot(snapshotId, get, reloaded, del);
    d.Release(cleaner);
  }

  /** ListSnapshots. */
  method ListSnapshots(d: Driver.Driver, reqText: string, b: Snapshots.Backend, snapshotId: string,
                       sourceVolumeId: string, maxEntries: int, startingToken: string,
                       stamp: string -> Controller.Stamp)
    returns (r: Result<Controller.ListReply>)
    modifies d
    ensures d.rpcStatus == old(d.rpcStatus)
    ensures (r.Err? && Refused(r.error)) <==> Key("ListSnapshots", reqText) in old(d.rpcStatus)
  {
    AdmitRestores(d.rpcStatus, Key("ListSnapshots", reqText));
    var busy, cleaner := d.InitFunc("controller", "ListSnapshots", reqText);
    if busy {
      d.Release(cleaner);
      return Err(Status(Aborted, InProgress));
    }
    ghost var sorted;
    r, sorted := Controller.ListSnapshots(b, snapshotId, sourceVolumeId, maxEntries, startingToken, stamp);
    d.Release(cleaner);
  }

  /** GetCapacity. */
  method GetCapacity(d: Driver.Driver, reqText: string, params: map<string, string>,
                     capacity: Call<Controller.Capacity>)
    returns (r: Result<int>)
    modifies d
    ensures d.rpcStatus == old(d.rpcStatus)
    ensures (r.Err? && Refused(r.error)) <==> Key("GetCapacity", reqText) in old(d.rpcStatus)
  {
    AdmitRestores(d.rpcStatus, Key("GetCapacity", reqText));
    var busy, cleaner := d.InitFunc("controller", "GetCapacity", reqText);
    if busy {
      d.Release(cleaner);
      return Err(Status(Aborted, InProgress));
    }
    r := Controller.GetCapacity(params, capacity);
    d.Release(cleaner);
  }

  /** ControllerExpandVolume. */
  method ControllerExpandVolume(d: Driver.Driver, reqText: string, volumeId: string,
                                capacityRange: Option<Controller.CapacityRange>, get: Call<Volumes.AppInstance>,
                                update: Call<bool>, reload: Call<Volumes.AppInstance>)
    returns (r: Result<Controller.ExpandReply>, resized: Option<int>)
    modifies d
    ensures d.rpcStatus == old(d.rpcStatus)
    ensures Key("ControllerExpandVolume", reqText) in old(d.rpcStatus) ==>
              r == Err(Status(Aborted, InProgress)) && resized.None?
    ensures (r.Err? && Refused(r.error)) <==> Key("ControllerExpandVolume", reqText) in old(d.rpcStatus)
  {
    AdmitRestores(d.rpcStatus, Key("ControllerExpandVolume", reqText));
    var busy, cleaner := d.InitFunc("controller", "ControllerExpandVolume", reqText);
    if busy {
      d.Release(cleaner);
      return Err(Status(Aborted, InProgress)), None;
    }
    r, resized := Controller.ControllerExpandVolume(volumeId, capacityRange, get, update, reload);
    d.Release(cleaner);
  }
}

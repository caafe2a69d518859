/** pkg/client/snapshots.go: listing (filter, gather, sort, page), lookup by UUID, creation with
    duplicate handling and an availability poll, tolerant deletion.

    The backend is an oracle: a backend snapshot is what the SDK returns, a `Call` or an
    `Outcome` is what one SDK call did. Converting the owning app instance into a client volume
    without QoS and metadata cannot fail, so it is not a parameter. */
module Snapshots {
  import opened Wrappers
  import opened Strs
  import Util

  /** A snapshot as the backend reports it. */
  datatype BackendSnap = BackendSnap(uuid: string, utcTs: string, path: string, opState: string)

  /** The client-side Snapshot: its id is the backend timestamp, its status the backend op state;
      `volName` is the owning volume. */
  datatype Snapshot = Snapshot(volName: string, id: string, path: string, status: string, uuid: string)

  function ToSnapshot(volName: string, b: BackendSnap): (s: Snapshot)
    ensures s.id == b.utcTs && s.path == b.path && s.status == b.opState && s.volName == volName
  {
    Snapshot(volName, b.utcTs, b.path, b.opState, b.uuid)
  }

  // ---------------------------------------------------------------- deterministic UUIDs

  /** The fixed name-space of snapshot UUIDs. */
  const SnapDomainStr: string := "7079EAEC-2660-4A35-9A48-9C47204C01A9"

  /** The version-5 name-based UUID of section 4.3 of RFC 4122, kept uninterpreted: all the
      driver relies on is that it is a function of (name-space, name) that separates names. */
  function SnapUuid(name: string): string
  {
    SnapDomainStr + "/" + name
  }

  /** Distinct snapshot names derive distinct UUIDs. */
  lemma SnapUuidInjective(a: string, b: string)
    requires SnapUuid(a) == SnapUuid(b)
    ensures a == b
  {
    var n := |SnapDomainStr + "/"|;
    assert a == SnapUuid(a)[n..];
    assert b == SnapUuid(b)[n..];
  }

  // ---------------------------------------------------------------- Volume.ListSnapshots

  /** A snapshot passes the filter when the filter is empty or equals its timestamp. */
  predicate Matches(snapId: string, b: BackendSnap)
  {
    snapId == "" || snapId == b.utcTs
  }

  /** The snapshots the backend listed that pass the filter, in backend order. */
  function Keep(volName: string, snapId: string, rs: seq<BackendSnap>): seq<Snapshot>
  {
    if |rs| == 0 then []
    else Keep(volName, snapId, rs[..|rs| - 1])
         + (if Matches(snapId, rs[|rs| - 1]) then [ToSnapshot(volName, rs[|rs| - 1])] else [])
  }

  /** Filtering commutes with concatenation, so backend order is preserved. */
  lemma {:induction false} KeepAppend(volName: string, snapId: string, a: seq<BackendSnap>, b: seq<BackendSnap>)
    ensures Keep(volName, snapId, a + b) == Keep(volName, snapId, a) + Keep(volName, snapId, b)
    decreases |b|
  {
    if |b| > 0 {
      assert (a + b)[..|a + b| - 1] == a + b[..|b| - 1];
      KeepAppend(volName, snapId, a, b[..|b| - 1]);
    } else {
      assert a + b == a;
    }
  }

  /** What passes the filter is exactly the matching backend snapshots. */
  lemma {:induction false} KeepMembers(volName: string, snapId: string, rs: seq<BackendSnap>, x: Snapshot)
    ensures x in Keep(volName, snapId, rs)
        <==> exists i :: 0 <= i < |rs| && Matches(snapId, rs[i]) && x == ToSnapshot(volName, rs[i])
  {
    if |rs| > 0 {
      var init := rs[..|rs| - 1];
      KeepMembers(volName, snapId, init, x);
      if exists i :: 0 <= i < |init| && Matches(snapId, init[i]) && x == ToSnapshot(volName, init[i]) {
        var i :| 0 <= i < |init| && Matches(snapId, init[i]) && x == ToSnapshot(volName, init[i]);
        assert rs[i] == init[i];
      }
      if exists i :: 0 <= i < |rs| && Matches(snapId, rs[i]) && x == ToSnapshot(volName, rs[i]) {
        var i :| 0 <= i < |rs| && Matches(snapId, rs[i]) && x == ToSnapshot(volName, rs[i]);
        if i < |rs| - 1 {
          assert init[i] == rs[i];
        }
      }
    }
  }

  /** An empty filter keeps every snapshot, one for one. */
  lemma {:induction false} KeepAll(volName: string, rs: seq<BackendSnap>)
    ensures |Keep(volName, "", rs)| == |rs|
    ensures forall i :: 0 <= i < |rs| ==> Keep(volName, "", rs)[i] == ToSnapshot(volName, rs[i])
  {
    if |rs| > 0 {
      KeepAll(volName, rs[..|rs| - 1]);
    }
  }

  /** What Volume.ListSnapshots answers, given the outcomes of its two SDK calls. */
  function VolumeSnaps(volName: string, snapId: string, reload: Outcome, list: Call<seq<BackendSnap>>)
    : Result<seq<Snapshot>>
  {
    if reload.Fail? then Ok([])
    else if list.Done? then Ok(Keep(volName, snapId, list.value))
    else Err(Util.CallError(list))
  }

  /** Every snapshot a volume lists belongs to that volume and carries the filter's timestamp
      when a filter is given. */
  lemma VolumeSnapsOwned(volName: string, snapId: string, reload: Outcome, list: Call<seq<BackendSnap>>,
                         x: Snapshot)
    requires VolumeSnaps(volName, snapId, reload, list).Ok?
    requires x in VolumeSnaps(volName, snapId, reload, list).value
    ensures x.volName == volName && (snapId != "" ==> x.id == snapId)
  {
    if reload.Pass? {
      KeepMembers(volName, snapId, list.value, x);
    }
  }

  /** Volume.ListSnapshots: reload the volume (a failure gives an empty list and no error), list
      its snapshots, keep those that pass the filter. `reload` and `list` are the two SDK calls. */
  method VolumeListSnapshots(volName: string, snapId: string, reload: Outcome, list: Call<seq<BackendSnap>>)
    returns (r: Result<seq<Snapshot>>)
    ensures reload.Fail? ==> r == Ok([])
    ensures reload.Pass? && list.Done? ==> r == Ok(Keep(volName, snapId, list.value))
    ensures reload.Pass? && !list.Done? ==> r == Err(Util.CallError(list))
    ensures r == VolumeSnaps(volName, snapId, reload, list)
  {
    if reload.Fail? {
      return Ok([]);
    }
    match list
    case NetFailure(m) => return Err(Plain(m));
    case ApiFailure(a) => return Err(Util.ErrTranslator(a));
    case Done(rs) =>
      var snaps: seq<Snapshot> := [];
      var i := 0;
      while i < |rs|
        invariant 0 <= i <= |rs|
        invariant snaps == Keep(volName, snapId, rs[..i])
      {
        assert rs[..i + 1][..i] == rs[..i];
        if snapId == "" || snapId == rs[i].utcTs {
          snaps := snaps + [ToSnapshot(volName, rs[i])];
        }
        i := i + 1;
      }
      assert rs[..|rs|] == rs;
      return Ok(snaps);
  }

  /** HasSnapshots: whether the unfiltered listing is non-empty. */
  method HasSnapshots(volName: string, reload: Outcome, list: Call<seq<BackendSnap>>) returns (r: Result<bool>)
    ensures reload.Fail? ==> r == Ok(false)
    ensures reload.Pass? && list.Done? ==> r == Ok(|list.value| > 0)
    ensures reload.Pass? && !list.Done? ==> r.Err?
  {
    var snaps := VolumeListSnapshots(volName, "", reload, list);
    if snaps.Err? {
      return Err(snaps.error);
    }
    if reload.Pass? && list.Done? {
      KeepAll(volName, list.value);
    }
    return Ok(|snaps.value| > 0);
  }

  // ---------------------------------------------------------------- GetSnapshotByUuid

  /** Index of the first backend snapshot carrying the UUID. */
  function FirstWithUuid(rs: seq<BackendSnap>, uuid: string): Option<nat>
  {
    if |rs| == 0 then None
    else if rs[0].uuid == uuid then Some(0)
    else match FirstWithUuid(rs[1..], uuid)
      case None => None
      case Some(k) => Some(k + 1)
  }

  /** FirstWithUuid finds the earliest snapshot with the UUID, and finds none exactly when no snapshot has it. */
  lemma {:induction false} FirstWithUuidSpec(rs: seq<BackendSnap>, uuid: string)
    ensures FirstWithUuid(rs, uuid).None? <==> forall j :: 0 <= j < |rs| ==> rs[j].uuid != uuid
    ensures FirstWithUuid(rs, uuid).Some? ==>
              var k := FirstWithUuid(rs, uuid).value;
              k < |rs| && rs[k].uuid == uuid && forall j :: 0 <= j < k ==> rs[j].uuid != uuid
  {
    if |rs| > 0 && rs[0].uuid != uuid {
      FirstWithUuidSpec(rs[1..], uuid);
      forall j | 1 <= j < |rs| ensures rs[j] == rs[1..][j - 1] { }
    }
  }

  function NoUuidMessage(uuid: string): string
  {
    "No snapshot found with UUID " + uuid
  }

  /** What GetSnapshotByUuid returns for a listing. */
  function ByUuid(volName: string, uuid: string, list: Call<seq<BackendSnap>>): Result<Snapshot>
  {
    match list
    case NetFailure(m) => Err(Plain(m))
    case ApiFailure(a) => Err(Util.ErrTranslator(a))
    case Done(rs) =>
      match FirstWithUuid(rs, uuid)
      case None => Err(Plain(NoUuidMessage(uuid)))
      case Some(k) => if k < |rs| then Ok(ToSnapshot(volName, rs[k])) else Err(Plain(NoUuidMessage(uuid)))
  }

  /** GetSnapshotByUuid: the first listed snapshot with that UUID, or a "not found" error. */
  method GetSnapshotByUuid(volName: string, uuid: string, list: Call<seq<BackendSnap>>) returns (r: Result<Snapshot>)
    ensures r == ByUuid(volName, uuid, list)
    ensures list.Done? ==> (r.Ok? <==> exists j :: 0 <= j < |list.value| && list.value[j].uuid == uuid)
    ensures list.Done? && r.Ok? ==> r.value.uuid == uuid && r.value.volName == volName
  {
    match list
    case NetFailure(m) => return Err(Plain(m));
    case ApiFailure(a) => return Err(Util.ErrTranslator(a));
    case Done(rs) =>
      FirstWithUuidSpec(rs, uuid);
      var i := 0;
      while i < |rs|
        invariant 0 <= i <= |rs|
        invariant forall j :: 0 <= j < i ==> rs[j].uuid != uuid
      {
        if rs[i].uuid == uuid {
          FirstWithUuidFound(rs, uuid, i);
          return Ok(ToSnapshot(volName, rs[i]));
        }
        i := i + 1;
      }
      return Err(Plain(NoUuidMessage(uuid)));
  }

  /** The earliest match is the one found. */
  lemma {:induction false} FirstWithUuidFound(rs: seq<BackendSnap>, uuid: string, i: nat)
    requires i < |rs| && rs[i].uuid == uuid
    requires forall j :: 0 <= j < i ==> rs[j].uuid != uuid
    ensures FirstWithUuid(rs, uuid) == Some(i)
  {
    if i > 0 {
      forall j | 0 <= j < i - 1 ensures rs[1..][j].uuid != uuid {
        assert rs[1..][j] == rs[j + 1];
      }
      FirstWithUuidFound(rs[1..], uuid, i - 1);
    }
  }

  // ---------------------------------------------------------------- CreateSnapshot

  datatype SnapOpts = SnapOpts(remoteProviderUuid: string, kind: string)

  /** The snapshot create request: the remote provider and type are sent only together, and only
      for a non-empty remote provider. */
  datatype SnapCreateRequest = SnapCreateRequest(uuid: string, remote: Option<(string, string)>)

  /** Number of reloads before the poll gives up. */
  const PollTimeout: nat := 30

  const Available: string := "available"

  function PollTimeoutMessage(id: string): string
  {
    "Snapshot " + id + " did not become available before timeout"
  }

  /** Result of a Snapshot.Reload: the SDK's answer replaces the status. */
  function Reload(s: Snapshot, c: Call<string>): (r: Result<Snapshot>)
    ensures c.Done? ==> r == Ok(s.(status := c.value))
    ensures !c.Done? ==> r.Err?
  {
    match c
    case Done(st) => Ok(s.(status := st))
    case NetFailure(m) => Err(Plain(m))
    case ApiFailure(a) => Err(Util.ErrTranslator(a))
  }

  /** The availability poll from reload number k on, with `timeout` reloads left. */
  function Poll(s: Snapshot, reload: nat -> Call<string>, k: nat, timeout: nat): Result<Snapshot>
    requires timeout >= 1
    decreases timeout
  {
    match Reload(s, reload(k))
    case Err(e) => Err(e)
    case Ok(s1) =>
      if s1.status == Available then Ok(s1)
      else if timeout - 1 <= 0 then Err(Plain(PollTimeoutMessage(s1.id)))
      else Poll(s1, reload, k + 1, timeout - 1)
  }

  /** The poll succeeds only with status "available", reached at one of the reloads it made. */
  lemma {:induction false} PollSuccess(s: Snapshot, reload: nat -> Call<string>, k: nat, timeout: nat)
    requires timeout >= 1 && Poll(s, reload, k, timeout).Ok?
    ensures Poll(s, reload, k, timeout).value.status == Available
    ensures Poll(s, reload, k, timeout).value.id == s.id
    ensures exists j :: k <= j < k + timeout && reload(j) == Done(Available)
    decreases timeout
  {
    var s1 := Reload(s, reload(k)).value;
    if s1.status != Available {
      PollSuccess(s1, reload, k + 1, timeout - 1);
      var j :| k + 1 <= j < k + 1 + (timeout - 1) && reload(j) == Done(Available);
    } else {
      assert reload(k) == Done(Available);
    }
  }

  /** The poll never looks past its `timeout` reloads. */
  lemma {:induction false} PollBounded(s: Snapshot, r1: nat -> Call<string>, r2: nat -> Call<string>, k: nat, timeout: nat)
    requires timeout >= 1
    requires forall j :: k <= j < k + timeout ==> r1(j) == r2(j)
    ensures Poll(s, r1, k, timeout) == Poll(s, r2, k, timeout)
    decreases timeout
  {
    assert r1(k) == r2(k);
    if timeout > 1 && Reload(s, r1(k)).Ok? {
      PollBounded(Reload(s, r1(k)).value, r1, r2, k + 1, timeout - 1);
    }
  }

  /** A snapshot that stays unavailable for every reload times out with an error. */
  lemma {:induction false} PollTimesOut(s: Snapshot, reload: nat -> Call<string>, k: nat, timeout: nat)
    requires timeout >= 1
    requires forall j :: k <= j < k + timeout ==> reload(j).Done? && reload(j).value != Available
    ensures Poll(s, reload, k, timeout) == Err(Plain(PollTimeoutMessage(s.id)))
    decreases timeout
  {
    assert reload(k).Done?;
    if timeout > 1 {
      PollTimesOut(Reload(s, reload(k)).value, reload, k + 1, timeout - 1);
    }
  }

  /** Whether a create failure reports that a snapshot with this UUID already exists. */
  predicate IsDuplicate(a: ApiError)
  {
    a.name == "InvalidRequestError" && a.code == 15
  }

  /** CreateSnapshot on the volume `volName`: send a create with the UUID derived from the name;
      on a duplicate, return the existing snapshot with that UUID (`dupList` is that lookup's
      listing); otherwise poll the new snapshot by reload number 0, 1, … until it is available.
      `sent` is the request the backend received. */
  method CreateSnapshot(volName: string, name: string, opts: SnapOpts,
                        create: SnapCreateRequest -> Call<BackendSnap>,
                        dupList: Call<seq<BackendSnap>>, reload: nat -> Call<string>)
    returns (sent: SnapCreateRequest, r: Result<Snapshot>)
    ensures sent.uuid == SnapUuid(name)
    ensures sent.remote.Some? <==> opts.remoteProviderUuid != ""
    ensures sent.remote.Some? ==> sent.remote.value == (opts.remoteProviderUuid, opts.kind)
    ensures create(sent).ApiFailure? && IsDuplicate(create(sent).api) ==> r == ByUuid(volName, sent.uuid, dupList)
    ensures create(sent).ApiFailure? && !IsDuplicate(create(sent).api) ==> r == Err(Util.ErrTranslator(create(sent).api))
    ensures create(sent).NetFailure? ==> r == Err(Plain(create(sent).msg))
    ensures create(sent).Done? ==> r == Poll(ToSnapshot(volName, create(sent).value), reload, 0, PollTimeout)
  {
    var sid := SnapUuid(name);
    if opts.remoteProviderUuid != "" {
      sent := SnapCreateRequest(sid, Some((opts.remoteProviderUuid, opts.kind)));
    } else {
      sent := SnapCreateRequest(sid, None);
    }
    match create(sent)
    case ApiFailure(a) =>
      if IsDuplicate(a) {
        r := GetSnapshotByUuid(volName, sid, dupList);
      } else {
        r := Err(Util.ErrTranslator(a));
      }
    case NetFailure(m) =>
      r := Err(Plain(m));
    case Done(b) =>
      var csnap := ToSnapshot(volName, b);
      ghost var first := csnap;
      var timeout := PollTimeout;
      var k := 0;
      while true
        invariant 1 <= timeout <= PollTimeout && k + timeout == PollTimeout
        invariant Poll(csnap, reload, k, timeout) == Poll(first, reload, 0, PollTimeout)
        decreases timeout
      {
        var reloaded := Reload(csnap, reload(k));
        if reloaded.Err? {
          return sent, Err(reloaded.error);
        }
        csnap := reloaded.value;
        if csnap.status == Available {
          return sent, Ok(csnap);
        }
        timeout := timeout - 1;
        k := k + 1;
        if timeout <= 0 {
          return sent, Err(Plain(PollTimeoutMessage(csnap.id)));
        }
      }
  }

  /** Two creates of the same name send the same UUID; different names send different ones. */
  lemma SameNameSameUuid(a: string, b: string)
    ensures SnapUuid(a) == SnapUuid(b) <==> a == b
  {
    if SnapUuid(a) == SnapUuid(b) {
      SnapUuidInjective(a, b);
    }
  }

  // ---------------------------------------------------------------- DeleteSnapshot

  /** A backend snapshot is addressed by its UUID or its timestamp. */
  predicate Addresses(id: string, b: BackendSnap)
  {
    b.uuid == id || b.utcTs == id
  }

  /** The last snapshot in the list that the id addresses. */
  function LastMatch(rs: seq<BackendSnap>, id: string): Option<BackendSnap>
  {
    if |rs| == 0 then None
    else if Addresses(id, rs[|rs| - 1]) then Some(rs[|rs| - 1])
    else LastMatch(rs[..|rs| - 1], id)
  }

  /** LastMatch finds the last snapshot the id addresses, and finds none exactly when the id addresses none. */
  lemma {:induction false} LastMatchSpec(rs: seq<BackendSnap>, id: string)
    ensures LastMatch(rs, id).None? <==> forall j :: 0 <= j < |rs| ==> !Addresses(id, rs[j])
    ensures LastMatch(rs, id).Some? ==>
              exists i :: 0 <= i < |rs| && rs[i] == LastMatch(rs, id).value && Addresses(id, rs[i])
                          && forall j :: i < j < |rs| ==> !Addresses(id, rs[j])
  {
    if |rs| > 0 && !Addresses(id, rs[|rs| - 1]) {
      var init := rs[..|rs| - 1];
      LastMatchSpec(init, id);
      if LastMatch(init, id).Some? {
        var i :| 0 <= i < |init| && init[i] == LastMatch(init, id).value && Addresses(id, init[i])
                 && forall j :: i < j < |init| ==> !Addresses(id, init[j]);
        assert rs[i] == init[i];
        forall j | i < j < |rs| ensures !Addresses(id, rs[j]) {
          if j < |rs| - 1 {
            assert rs[j] == init[j];
          }
        }
      } else {
        forall j | 0 <= j < |rs| ensures !Addresses(id, rs[j]) {
          if j < |rs| - 1 {
            assert rs[j] == init[j];
          }
        }
      }
    }
  }

  /** Volume.DeleteSnapshot: `reloaded` is the volume's snapshot list after its reload (an error
      when the reload failed), `del` what the backend delete did. `target` is the snapshot a
      delete was issued for. Only a failing backend delete is an error. */
  method DeleteSnapshot(reloaded: Result<seq<BackendSnap>>, id: string, del: Call<bool>)
    returns (r: Outcome, target: Option<BackendSnap>)
    ensures reloaded.Err? ==> r == Pass && target == None
    ensures reloaded.Ok? ==> target == LastMatch(reloaded.value, id)
    ensures target.None? ==> r == Pass
    ensures target.Some? ==> r == if del.Done? then Pass else Fail(Util.CallError(del))
  {
    if reloaded.Err? {
      return Pass, None;
    }
    var rs := reloaded.value;
    var found: Option<BackendSnap> := None;
    var i := 0;
    while i < |rs|
      invariant 0 <= i <= |rs|
      invariant found == LastMatch(rs[..i], id)
    {
      assert rs[..i + 1][..i] == rs[..i];
      if rs[i].uuid == id || rs[i].utcTs == id {
        found := Some(rs[i]);
      }
      i := i + 1;
    }
    assert rs[..|rs|] == rs;
    target := found;
    if found.None? {
      return Pass, target;
    }
    match del
    case Done(_) => r := Pass;
    case NetFailure(m) => r := Fail(Plain(m));
    case ApiFailure(a) => r := Fail(Util.ErrTranslator(a));
  }

  // ---------------------------------------------------------------- DateraClient.ListSnapshots

  /** The backend as seen by the listing: ListVolumes' result as volume names, and per volume
      name the outcomes of GetVolume, of the reload and of the snapshot listing SDK calls. */
  datatype Backend = Backend(
    volumes: Result<seq<string>>,
    lookup: string -> Outcome,
    reload: string -> Outcome,
    list: string -> Call<seq<BackendSnap>>)

  /** Volume.ListSnapshots(filter) on the named volume of the backend. */
  function SnapsOf(b: Backend, volName: string, snapId: string): Result<seq<Snapshot>>
  {
    VolumeSnaps(volName, snapId, b.reload(volName), b.list(volName))
  }

  /** The refusal of a malformed composite id, in pieces so that proofs about what it mentions
      need not take the literal apart. */
  const MalformedSnapId: string := "SnapshotId " + "must be of format" + " app_instance_name:snapshot_timestamp"

  /** GetVolume: an empty name is refused before the backend is asked. */
  function GetVolume(b: Backend, name: string): Outcome
  {
    if name == "" then Fail(Plain("Volume name cannot be an empty string")) else b.lookup(name)
  }

  /** The fan-out over the volumes, sequentially: every volume's unfiltered snapshots, in volume
      order; a volume whose listing fails is skipped. */
  function Collect(b: Backend, vols: seq<string>): seq<Snapshot>
  {
    if |vols| == 0 then []
    else Collect(b, vols[..|vols| - 1])
         + match SnapsOf(b, vols[|vols| - 1], "") case Ok(s) => s case Err(_) => []
  }

  /** The unsorted list the listing gathers before sorting and paging. */
  function Gather(b: Backend, snapId: string, sourceVol: string): Result<seq<Snapshot>>
  {
    if snapId != "" then
      var (vid, sid) := Util.ParseSnapId(snapId);
      if vid == "" || sid == "" then Err(Plain(MalformedSnapId))
      else match GetVolume(b, vid)
        case Fail(e) => Err(e)
        case Pass => Ok(match SnapsOf(b, vid, sid) case Ok(s) => s case Err(_) => [])
    else if sourceVol == "" then
      match b.volumes
      case Err(e) => Err(e)
      case Ok(vs) => Ok(Collect(b, vs))
    else
      match GetVolume(b, sourceVol)
      case Fail(e) => Err(e)
      case Pass => Ok(Collect(b, [sourceVol]))
  }

  /** A malformed composite id is refused whatever the backend holds, so no volume is looked up. */
  lemma GatherRejectsMalformed(b: Backend, snapId: string, sourceVol: string)
    requires snapId != "" && (Util.ParseSnapId(snapId).0 == "" || Util.ParseSnapId(snapId).1 == "")
    ensures Gather(b, snapId, sourceVol) == Err(Plain(MalformedSnapId))
  {
  }

  /** Snapshots ordered by id with Go's string `<`. */
  predicate SortedById(s: seq<Snapshot>)
  {
    forall i, j :: 0 <= i < j < |s| ==> LessEq(s[i].id, s[j].id)
  }

  /** One page of a listing and the start token of the next. */
  datatype Page = Page(snaps: seq<Snapshot>, next: int)

  /** The window arithmetic of the listing: a start offset and a maximum number of entries
      (0 = no maximum). Slicing out of range panics. */
  function PageOf(snaps: seq<Snapshot>, maxEntries: int, startToken: int): (r: Result<Page>)
    ensures (|snaps| == 0 || startToken > |snaps|) ==> r == Ok(Page(snaps, 0))
    ensures 0 < |snaps| && 0 <= startToken <= |snaps| && maxEntries >= 0 ==>
              var end := if maxEntries == 0 then |snaps| else Util.Min(startToken + maxEntries, |snaps|);
              r == Ok(Page(snaps[startToken..end], end))
    ensures r.Err? ==> r.error.Panic? && (startToken < 0 || maxEntries < 0)
  {
    if |snaps| == 0 || startToken > |snaps| then Ok(Page(snaps, 0))
    else
      var maxE := if maxEntries == 0 then |snaps| - startToken else maxEntries;
      var end0 := startToken + maxE;
      var end := if end0 == 0 || end0 > |snaps| then |snaps| else end0;
      if startToken < 0 || end < startToken then Err(Panic("runtime error: slice bounds out of range"))
      else Ok(Page(snaps[startToken..end], end))
  }

  /** The page at offset len is empty and hands back the same token. */
  lemma PageAtEnd(snaps: seq<Snapshot>, maxEntries: int)
    requires |snaps| > 0 && maxEntries >= 0
    ensures PageOf(snaps, maxEntries, |snaps|) == Ok(Page([], |snaps|))
  {
    assert snaps[|snaps|..|snaps|] == [];
  }

  /** Following the token resumes exactly where the previous page ended. */
  lemma PagesResume(snaps: seq<Snapshot>, maxEntries: int, st: int)
    requires 0 < |snaps| && 0 <= st <= |snaps| && maxEntries > 0
    ensures var p1 := PageOf(snaps, maxEntries, st).value;
            var p2 := PageOf(snaps, maxEntries, p1.next).value;
            p1.snaps + p2.snaps == snaps[st..p2.next]
  {
    var p1 := PageOf(snaps, maxEntries, st).value;
    var p2 := PageOf(snaps, maxEntries, p1.next).value;
    assert snaps[st..p1.next] + snaps[p1.next..p2.next] == snaps[st..p2.next];
  }

  /** Insertion sort by id, in place: sort.Slice with `Id <`. */
  method SortById(a: array<Snapshot>)
    modifies a
    ensures SortedById(a[..])
    ensures multiset(a[..]) == multiset(old(a[..]))
  {
    var i := 0;
    while i < a.Length
      invariant 0 <= i <= a.Length
      invariant forall p, q :: 0 <= p < q < i ==> LessEq(a[p].id, a[q].id)
      invariant multiset(a[..]) == multiset(old(a[..]))
    {
      var j := i;
      while j > 0 && Less(a[j].id, a[j - 1].id)
        invariant 0 <= j <= i
        invariant forall p, q :: 0 <= p < q <= i && p != j && q != j ==> LessEq(a[p].id, a[q].id)
        invariant forall q :: j < q <= i ==> LessEq(a[j].id, a[q].id)
        invariant multiset(a[..]) == multiset(old(a[..]))
      {
        LessAsymmetric(a[j].id, a[j - 1].id);
        a[j - 1], a[j] := a[j], a[j - 1];
        j := j - 1;
      }
      forall p | 0 <= p < j ensures LessEq(a[p].id, a[j].id) {
        if p < j - 1 {
          LessEqTransitive(a[p].id, a[j - 1].id, a[j].id);
        }
      }
      i := i + 1;
    }
  }

  /** Go's string order is asymmetric. */
  lemma LessAsymmetric(x: string, y: string)
    requires Less(x, y)
    ensures LessEq(x, y)
  {
    if Less(y, x) {
      LessTransitive(x, y, x);
      LessIrreflexive(x);
    }
  }

  /** DateraClient.ListSnapshots: gather (by composite id, by source volume, or over every
      volume), sort by id, then apply the window. `sorted` is the whole sorted list. */
  method ListSnapshots(b: Backend, snapId: string, sourceVol: string, maxEntries: int, startToken: int)
    returns (r: Result<Page>, ghost sorted: seq<Snapshot>)
    ensures Gather(b, snapId, sourceVol).Err? ==> r == Err(Gather(b, snapId, sourceVol).error)
    ensures Gather(b, snapId, sourceVol).Ok? ==>
              && SortedById(sorted)
              && multiset(sorted) == multiset(Gather(b, snapId, sourceVol).value)
              && r == PageOf(sorted, maxEntries, startToken)
  {
    sorted := [];
    var gathered: seq<Snapshot>;
    var src := sourceVol;
    if snapId != "" {
      var (vid, sid) := Util.ParseSnapId(snapId);
      if vid == "" || sid == "" {
        return Err(Plain(MalformedSnapId)), sorted;
      }
      var found := GetVolume(b, vid);
      if found.Fail? {
        return Err(found.error), sorted;
      }
      gathered := match SnapsOf(b, vid, sid) case Ok(s) => s case Err(_) => [];
    } else {
      var vols: seq<string>;
      if src == "" {
        if b.volumes.Err? {
          return Err(b.volumes.error), sorted;
        }
        vols := b.volumes.value;
      } else {
        var found := GetVolume(b, src);
        if found.Fail? {
          return Err(found.error), sorted;
        }
        vols := [src];
      }
      gathered := [];
      var k := 0;
      while k < |vols|
        invariant 0 <= k <= |vols|
        invariant gathered == Collect(b, vols[..k])
      {
        assert vols[..k + 1][..k] == vols[..k];
        var psnaps := SnapsOf(b, vols[k], "");
        if psnaps.Ok? {
          gathered := gathered + psnaps.value;
        }
        k := k + 1;
      }
      assert vols[..|vols|] == vols;
    }
    var arr := new Snapshot[|gathered|](i requires 0 <= i < |gathered| => gathered[i]);
    assert arr[..] == gathered;
    SortById(arr);
    sorted := arr[..];
    r := PageOf(arr[..], maxEntries, startToken);
  }

  // ---------------------------------------------------------------- SnapshotPathFromCsiId

  /** SnapshotPathFromCsiId: the backend path of the one snapshot a composite id names. The id is
      split without a check, so an id without ':' panics; a failed listing counts as none. */
  function SnapshotPathFromCsiId(b: Backend, csiId: string): (r: Result<string>)
    ensures r.Ok? ==> var parts := Split(csiId, ':');
              && |parts| >= 2 && GetVolume(b, parts[0]) == Pass
              && exists s :: && s in SnapsNamed(b, csiId) && s.path == r.value && s.volName == parts[0]
                             && (parts[1] != "" ==> s.id == parts[1])
  {
    var parts := Split(csiId, ':');
    if |parts| < 2 then Err(Panic("runtime error: index out of range [1] with length 1"))
    else
      match GetVolume(b, parts[0])
      case Fail(e) => Err(e)
      case Pass =>
        var snaps := SnapsNamed(b, csiId);
        if |snaps| != 1 then
          Err(Plain("Unexpected number of snapshots found for csi snapshot ID: " + csiId
                    + ", expected 1 found " + FormatInt(|snaps|)))
        else
          SnapsNamedOwned(b, csiId, snaps[0]);
          Ok(snaps[0].path)
  }

  /** What a composite id names belongs to its volume part and carries its timestamp part. */
  lemma SnapsNamedOwned(b: Backend, csiId: string, x: Snapshot)
    requires x in SnapsNamed(b, csiId)
    ensures var parts := Split(csiId, ':');
      |parts| >= 2 && x.volName == parts[0] && (parts[1] != "" ==> x.id == parts[1])
  {
    var parts := Split(csiId, ':');
    VolumeSnapsOwned(parts[0], parts[1], b.reload(parts[0]), b.list(parts[0]), x);
  }

  /** The snapshots the volume part of a composite id lists under its timestamp part. */
  function SnapsNamed(b: Backend, csiId: string): seq<Snapshot>
  {
    var parts := Split(csiId, ':');
    if |parts| < 2 then []
    else match SnapsOf(b, parts[0], parts[1]) case Ok(s) => s case Err(_) => []
  }

  /** A composite id built from a colon-free volume name and timestamp resolves to the path of
      the single snapshot listed under it, or fails. */
  lemma PathFromMkSnapId(b: Backend, vol: string, ts: string)
    requires ':' !in vol && ':' !in ts && vol != ""
    requires b.lookup(vol) == Pass
    requires SnapsOf(b, vol, ts).Ok? && |SnapsOf(b, vol, ts).value| == 1
    ensures SnapshotPathFromCsiId(b, Util.MkSnapId(vol, ts)) == Ok(SnapsOf(b, vol, ts).value[0].path)
  {
    SplitJoin([vol, ts], ':');
  }
}

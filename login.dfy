/** pkg/client/login.go: the choice of iSCSI portals, and the device path a login records and a
    logout clears. The iSCSI connector and robin()'s random draw are parameters. */
module Logins {
  import opened Wrappers
  import opened Volumes

  const IndexPanic: string := "runtime error: index out of range"

  /** The portals a login connects to. `pick` is robin()'s draw, 0 or 1. With multipath and
      round robin one portal is drawn; with multipath alone all of them; without multipath the
      first. Indexing past the end of the address list panics. */
  function SelectPortals(ips: seq<string>, multipath: bool, roundRobin: bool, pick: nat): (r: Result<seq<string>>)
    requires pick < 2
    ensures r.Err? <==> (|ips| == 0 && !(multipath && !roundRobin)) || (multipath && roundRobin && pick >= |ips|)
    ensures r.Err? ==> r.error.Panic?
    ensures r.Ok? ==> forall p :: p in r.value ==> p in ips
    ensures r.Ok? && multipath && !roundRobin ==> r.value == ips
    ensures r.Ok? && multipath && roundRobin ==> r.value == [ips[pick]]
    ensures r.Ok? && !multipath ==> r.value == [ips[0]]
  {
    if multipath then
      if roundRobin then
        if pick < |ips| then Ok([ips[pick]]) else Err(Panic(IndexPanic))
      else Ok(ips)
    else if |ips| > 0 then Ok([ips[0]]) else Err(Panic(IndexPanic))
  }

  /** Round robin is ignored without multipath. */
  lemma RoundRobinNeedsMultipath(ips: seq<string>, pick: nat)
    requires pick < 2
    ensures SelectPortals(ips, false, true, pick) == SelectPortals(ips, false, false, pick)
  {
  }

  /** Over the two draws, round robin picks each of the first two portals. */
  lemma RoundRobinCoversBoth(ips: seq<string>)
    requires |ips| >= 2
    ensures SelectPortals(ips, true, true, 0) == Ok([ips[0]])
    ensures SelectPortals(ips, true, true, 1) == Ok([ips[1]])
  {
  }

  /** The iSCSI connector a login uses. */
  datatype Connector = Connector(targetIqn: string, targetPortals: seq<string>, port: string,
                                 lun: int, multipath: bool)

  /** Volume.Login: connect to the selected portals of the volume's target; a successful
      connection that yields a device path records it. */
  method Login(v: Volume, multipath: bool, roundRobin: bool, pick: nat, connect: Connector -> Result<string>)
    returns (r: Outcome, sent: Option<Connector>)
    requires pick < 2
    modifies v
    ensures v.Identity() == old(v.Identity()) && v.Limits() == old(v.Limits())
    ensures var sel := SelectPortals(old(v.ips), multipath, roundRobin, pick);
            && (sel.Err? ==> r == Fail(sel.error) && sent.None?)
            && (sel.Ok? ==> sent == Some(Connector(old(v.iqn), sel.value, "3260", 0, multipath)))
    ensures sent.Some? && connect(sent.value).Err? ==> r == Fail(connect(sent.value).error)
    ensures sent.Some? && connect(sent.value) == Ok("") ==>
              r == Fail(Plain("Recieved no paths from ISCSI connector: "))
    ensures r.Pass? <==> sent.Some? && connect(sent.value).Ok? && connect(sent.value).value != ""
    ensures r.Pass? ==> v.Local() == old(v.Local()).(devicePath := connect(sent.value).value)
    ensures r.Fail? ==> v.Local() == old(v.Local())
  {
    var ips := SelectPortals(v.ips, multipath, roundRobin, pick);
    if ips.Err? {
      return Fail(ips.error), None;
    }
    var c := Connector(v.iqn, ips.value, "3260", 0, multipath);
    sent := Some(c);
    var path := connect(c);
    if path.Err? {
      return Fail(path.error), sent;
    }
    if |path.value| < 1 {
      assert "Recieved no paths from ISCSI connector: " + path.value == "Recieved no paths from ISCSI connector: ";
      return Fail(Plain("Recieved no paths from ISCSI connector: " + path.value)), sent;
    }
    v.devicePath := path.value;
    r := Pass;
  }

  /** Volume.Logout: disconnect the volume's target from its portals; on success the device
      path is cleared. */
  method Logout(v: Volume, disconnect: (string, seq<string>) -> Outcome) returns (r: Outcome)
    modifies v
    ensures v.Identity() == old(v.Identity()) && v.Limits() == old(v.Limits())
    ensures r == disconnect(old(v.iqn), old(v.ips))
    ensures r.Pass? ==> v.Local() == old(v.Local()).(devicePath := "")
    ensures r.Fail? ==> v.Local() == old(v.Local())
  {
    r := disconnect(v.iqn, v.ips);
    if r.Fail? {
      return;
    }
    v.devicePath := "";
  }
}

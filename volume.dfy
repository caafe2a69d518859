/** pkg/client/volume.go: volume options and their metadata form, the client Volume and its
    reconstruction from an app instance and its metadata, the create request and its source
    precedence, QoS capping, deletion guarded by snapshots, and volume listing. */
module Volumes {
  import opened Wrappers
  import opened Strs
  import Util
  import Snapshots

  /** VolOpts: the options a volume is created with. */
  datatype VolOpts = VolOpts(
    size: int, replica: int, template: string, remoteProvider: string,
    fsType: string, fsArgs: seq<string>, placementMode: string, placementPolicy: string,
    cloneSrc: string, cloneVolSrc: string, cloneSnapSrc: string, ipPool: string,
    roundRobin: bool, deleteOnUnmount: bool, disableTemplateOverride: bool,
    writeIopsMax: int, readIopsMax: int, totalIopsMax: int,
    writeBandwidthMax: int, readBandwidthMax: int, totalBandwidthMax: int,
    iopsPerGb: int, bandwidthPerGb: int)

  /** App-instance metadata: a string-to-string map. */
  type VolMetadata = map<string, string>

  // ---------------------------------------------------------------- VolOpts.ToMap

  const ToMapKeys: set<string> := {
    "size", "replica", "template", "fs_type", "fs_args", "placement", "clone_src",
    "clone_vol_src", "clone_snap_src", "ip_pool", "round_robin", "delete_on_unmount",
    "disable_template_override", "write_iops_max", "read_iops_max", "total_iops_max",
    "write_bandwidth_max", "read_bandwidth_max", "total_bandwidth_max", "iops_per_gb",
    "bandwidth_per_gb"
  }

  /** ToMap: the options as metadata; integers in decimal, booleans as "true"/"false", the
      filesystem arguments joined with spaces. The remote provider and placement policy are not
      recorded. */
  function ToMap(v: VolOpts): (m: VolMetadata)
    ensures m.Keys == ToMapKeys
  {
    map k | k in ToMapKeys :: Rendered(v, k)
  }

  /** The text ToMap stores under key k. */
  function Rendered(v: VolOpts, k: string): string
  {
    match k
    case "size" => FormatInt(v.size)
    case "replica" => FormatInt(v.replica)
    case "write_iops_max" => FormatInt(v.writeIopsMax)
    case "read_iops_max" => FormatInt(v.readIopsMax)
    case "total_iops_max" => FormatInt(v.totalIopsMax)
    case "iops_per_gb" => FormatInt(v.iopsPerGb)
    case "write_bandwidth_max" => FormatInt(v.writeBandwidthMax)
    case "read_bandwidth_max" => FormatInt(v.readBandwidthMax)
    case "total_bandwidth_max" => FormatInt(v.totalBandwidthMax)
    case "bandwidth_per_gb" => FormatInt(v.bandwidthPerGb)
    case "round_robin" => FormatBool(v.roundRobin)
    case "delete_on_unmount" => FormatBool(v.deleteOnUnmount)
    case "disable_template_override" => FormatBool(v.disableTemplateOverride)
    case "fs_type" => v.fsType
    case "fs_args" => Join(v.fsArgs, " ")
    case "template" => v.template
    case "placement" => v.placementMode
    case "clone_src" => v.cloneSrc
    case "clone_vol_src" => v.cloneVolSrc
    case "clone_snap_src" => v.cloneSnapSrc
    case "ip_pool" => v.ipPool
    case _ => ""
  }

  predicate InInt64(n: int)
  {
    MinInt64 <= n <= MaxInt64
  }

  /** The integer options fit Go's 64-bit int. */
  predicate Int64Options(v: VolOpts)
  {
    InInt64(v.size) && InInt64(v.replica)
    && InInt64(v.writeIopsMax) && InInt64(v.readIopsMax) && InInt64(v.totalIopsMax)
    && InInt64(v.writeBandwidthMax) && InInt64(v.readBandwidthMax) && InInt64(v.totalBandwidthMax)
    && InInt64(v.iopsPerGb) && InInt64(v.bandwidthPerGb)
  }

  /** The integer entries, evaluated. */
  lemma RenderedIops(v: VolOpts)
    ensures && Rendered(v, "size") == FormatInt(v.size) && Rendered(v, "replica") == FormatInt(v.replica)
            && Rendered(v, "write_iops_max") == FormatInt(v.writeIopsMax)
            && Rendered(v, "read_iops_max") == FormatInt(v.readIopsMax)
            && Rendered(v, "total_iops_max") == FormatInt(v.totalIopsMax)
            && Rendered(v, "iops_per_gb") == FormatInt(v.iopsPerGb)
  {
  }

  /** The bandwidth entries, evaluated. */
  lemma RenderedBandwidth(v: VolOpts)
    ensures && Rendered(v, "write_bandwidth_max") == FormatInt(v.writeBandwidthMax)
            && Rendered(v, "read_bandwidth_max") == FormatInt(v.readBandwidthMax)
            && Rendered(v, "total_bandwidth_max") == FormatInt(v.totalBandwidthMax)
            && Rendered(v, "bandwidth_per_gb") == FormatInt(v.bandwidthPerGb)
  {
  }

  /** The boolean entries, evaluated. */
  lemma RenderedFlags(v: VolOpts)
    ensures && Rendered(v, "round_robin") == FormatBool(v.roundRobin)
            && Rendered(v, "delete_on_unmount") == FormatBool(v.deleteOnUnmount)
            && Rendered(v, "disable_template_override") == FormatBool(v.disableTemplateOverride)
  {
  }

  /** The filesystem entries, evaluated. */
  lemma RenderedFs(v: VolOpts)
    ensures Rendered(v, "fs_type") == v.fsType && Rendered(v, "fs_args") == Join(v.fsArgs, " ")
  {
  }

  /** One integer entry of ToMap parses back into the option it renders. */
  lemma IntEntryRoundTrip(v: VolOpts, k: string, n: int)
    requires k in ToMapKeys && Rendered(v, k) == FormatInt(n) && InInt64(n)
    ensures ParseInt(ToMap(v)[k]) == Ok(n)
  {
    ParseFormatInt(n);
  }

  /** One boolean entry of ToMap parses back into the option it renders. */
  lemma BoolEntryRoundTrip(v: VolOpts, k: string, b: bool)
    requires k in ToMapKeys && Rendered(v, k) == FormatBool(b)
    ensures ParseBool(ToMap(v)[k]) == Ok(b)
  {
    ParseFormatBool(b);
  }

  /** The size and replica count ToMap writes parse back into the options. */
  lemma ToMapSizesRoundTrip(v: VolOpts)
    requires InInt64(v.size) && InInt64(v.replica)
    ensures ParseInt(ToMap(v)["size"]) == Ok(v.size) && ParseInt(ToMap(v)["replica"]) == Ok(v.replica)
  {
    RenderedIops(v);
    IntEntryRoundTrip(v, "size", v.size);
    IntEntryRoundTrip(v, "replica", v.replica);
  }

  /** The read and write IOPS limits ToMap writes parse back into the options. */
  lemma ToMapIopsRoundTrip(v: VolOpts)
    requires InInt64(v.writeIopsMax) && InInt64(v.readIopsMax)
    ensures ParseInt(ToMap(v)["write_iops_max"]) == Ok(v.writeIopsMax)
    ensures ParseInt(ToMap(v)["read_iops_max"]) == Ok(v.readIopsMax)
  {
    RenderedIops(v);
    IntEntryRoundTrip(v, "write_iops_max", v.writeIopsMax);
    IntEntryRoundTrip(v, "read_iops_max", v.readIopsMax);
  }

  /** The total and per-GB IOPS limits ToMap writes parse back into the options. */
  lemma ToMapTotalIopsRoundTrip(v: VolOpts)
    requires InInt64(v.totalIopsMax) && InInt64(v.iopsPerGb)
    ensures ParseInt(ToMap(v)["total_iops_max"]) == Ok(v.totalIopsMax)
    ensures ParseInt(ToMap(v)["iops_per_gb"]) == Ok(v.iopsPerGb)
  {
    RenderedIops(v);
    IntEntryRoundTrip(v, "total_iops_max", v.totalIopsMax);
    IntEntryRoundTrip(v, "iops_per_gb", v.iopsPerGb);
  }

  /** The read and write bandwidth limits ToMap writes parse back into the options. */
  lemma ToMapBandwidthRoundTrip(v: VolOpts)
    requires InInt64(v.writeBandwidthMax) && InInt64(v.readBandwidthMax)
    ensures ParseInt(ToMap(v)["write_bandwidth_max"]) == Ok(v.writeBandwidthMax)
    ensures ParseInt(ToMap(v)["read_bandwidth_max"]) == Ok(v.readBandwidthMax)
  {
    RenderedBandwidth(v);
    IntEntryRoundTrip(v, "write_bandwidth_max", v.writeBandwidthMax);
    IntEntryRoundTrip(v, "read_bandwidth_max", v.readBandwidthMax);
  }

  /** The total and per-GB bandwidth limits ToMap writes parse back into the options. */
  lemma ToMapTotalBandwidthRoundTrip(v: VolOpts)
    requires InInt64(v.totalBandwidthMax) && InInt64(v.bandwidthPerGb)
    ensures ParseInt(ToMap(v)["total_bandwidth_max"]) == Ok(v.totalBandwidthMax)
    ensures ParseInt(ToMap(v)["bandwidth_per_gb"]) == Ok(v.bandwidthPerGb)
  {
    RenderedBandwidth(v);
    IntEntryRoundTrip(v, "total_bandwidth_max", v.totalBandwidthMax);
    IntEntryRoundTrip(v, "bandwidth_per_gb", v.bandwidthPerGb);
  }

  /** The three flags ToMap writes parse back into the options. */
  lemma ToMapFlagsRoundTrip(v: VolOpts)
    ensures var m := ToMap(v);
            && ParseBool(m["round_robin"]) == Ok(v.roundRobin)
            && ParseBool(m["delete_on_unmount"]) == Ok(v.deleteOnUnmount)
            && ParseBool(m["disable_template_override"]) == Ok(v.disableTemplateOverride)
  {
    RenderedFlags(v);
    BoolEntryRoundTrip(v, "round_robin", v.roundRobin);
    BoolEntryRoundTrip(v, "delete_on_unmount", v.deleteOnUnmount);
    BoolEntryRoundTrip(v, "disable_template_override", v.disableTemplateOverride);
  }

  /** The filesystem arguments split back into the options' list when no argument holds a
      space. */
  lemma ToMapArgsRoundTrip(v: VolOpts)
    requires |v.fsArgs| >= 1 && forall i :: 0 <= i < |v.fsArgs| ==> ' ' !in v.fsArgs[i]
    ensures Split(ToMap(v)["fs_args"], ' ') == v.fsArgs
  {
    RenderedFs(v);
    assert ToMap(v)["fs_args"] == Join(v.fsArgs, " ");
    SplitJoin(v.fsArgs, ' ');
  }

  /** The keys of the node-local state are not among ToMap's keys. */
  lemma PathKeysNotOptions()
    ensures "device_path" !in ToMapKeys && "mount_path" !in ToMapKeys
  {
  }

  /** The bind-mount and formatted markers are not among ToMap's keys. */
  lemma MarkerKeysNotOptions()
    ensures "bind-mount-paths" !in ToMapKeys && "formatted" !in ToMapKeys
  {
  }

  /** ToMap writes none of the keys of the node-local state. */
  lemma ToMapOmitsLocalState(v: VolOpts)
    ensures "device_path" !in ToMap(v) && "mount_path" !in ToMap(v)
    ensures "bind-mount-paths" !in ToMap(v) && "formatted" !in ToMap(v)
  {
    PathKeysNotOptions();
    MarkerKeysNotOptions();
  }

  // ---------------------------------------------------------------- metadata reconstruction

  /** The node-local state of a volume that aiToClientVol rebuilds from metadata. */
  datatype LocalState = LocalState(
    devicePath: string, mountPath: string, bindMountPaths: set<string>,
    fsType: string, fsArgs: seq<string>, formatted: bool)

  /** A missing key reads as "" (Go's zero value for a map lookup). */
  function Lookup(md: VolMetadata, k: string): string
  {
    if k in md then md[k] else ""
  }

  /** The members of a list, as a set. */
  function SetOf(s: seq<string>): (r: set<string>)
    ensures forall x :: x in r <==> x in s
  {
    set x | x in s
  }

  /** aiToClientVol with metadata: `formatted` is anything but absent or "false"; the paths and
      filesystem type are copied; arguments and bind-mount paths are split on spaces. */
  function StateFromMetadata(md: VolMetadata): (s: LocalState)
    ensures !s.formatted <==> "formatted" !in md || md["formatted"] == "false"
  {
    LocalState(
      Lookup(md, "device_path"), Lookup(md, "mount_path"),
      SetOf(Split(Lookup(md, "bind-mount-paths"), ' ')),
      Lookup(md, "fs_type"), Split(Lookup(md, "fs_args"), ' '),
      !("formatted" !in md || md["formatted"] == "false"))
  }

  /** Reading back the options' own metadata: the filesystem type and arguments are recovered,
      the volume reads as unformatted and unattached, and the bind-mount set holds only "". */
  lemma StateFromToMap(v: VolOpts)
    requires |v.fsArgs| >= 1 && forall i :: 0 <= i < |v.fsArgs| ==> ' ' !in v.fsArgs[i]
    ensures var s := StateFromMetadata(ToMap(v));
            && s.fsType == v.fsType && s.fsArgs == v.fsArgs && !s.formatted
            && s.devicePath == "" && s.mountPath == "" && s.bindMountPaths == {""}
  {
    ToMapArgsRoundTrip(v);
    ToMapOmitsLocalState(v);
    RenderedFs(v);
    assert Split("", ' ') == [""];
  }

  /** Marking a volume formatted in its metadata is read back as formatted, and only the
      string "false" (or nothing) reads as unformatted. */
  lemma FormattedFlag(md: VolMetadata, value: string)
    ensures StateFromMetadata(md["formatted" := value]).formatted <==> value != "false"
  {
  }

  // ---------------------------------------------------------------- the client Volume

  /** The backend app instance a client volume is built from. */
  datatype AppInstance = AppInstance(
    name: string, templatePath: string, ips: seq<string>, iqn: string, size: int,
    initiators: seq<string>)

  /** The QoS limits of a performance policy. */
  datatype Qos = Qos(readIopsMax: int, writeIopsMax: int, totalIopsMax: int,
                     readBandwidthMax: int, writeBandwidthMax: int, totalBandwidthMax: int)

  class Volume {
    var name: string
    var template: string
    var ips: seq<string>
    var iqn: string
    var initiators: seq<string>
    var size: int
    var readIopsMax: int
    var writeIopsMax: int
    var totalIopsMax: int
    var readBandwidthMax: int
    var writeBandwidthMax: int
    var totalBandwidthMax: int
    var devicePath: string
    var mountPath: string
    /** dsdk.StringSet; a nil set is the empty set. */
    var bindMountPaths: set<string>
    var fsType: string
    var fsArgs: seq<string>
    var formatted: bool

    /** aiToClientVol without QoS: the app instance's fields, and the local state from the
        metadata when metadata was requested. */
    constructor (ai: AppInstance, md: Option<VolMetadata>)
      ensures name == ai.name && template == ai.templatePath && ips == ai.ips && iqn == ai.iqn
      ensures size == ai.size && initiators == ai.initiators
      ensures Limits() == Qos(0, 0, 0, 0, 0, 0)
      ensures md.None? ==> Local() == LocalState("", "", {}, "", [], false)
      ensures md.Some? ==> Local() == StateFromMetadata(md.value)
    {
      name := ai.name;
      template := ai.templatePath;
      ips := ai.ips;
      iqn := ai.iqn;
      initiators := ai.initiators;
      size := ai.size;
      readIopsMax, writeIopsMax, totalIopsMax := 0, 0, 0;
      readBandwidthMax, writeBandwidthMax, totalBandwidthMax := 0, 0, 0;
      match md
      case None =>
        devicePath, mountPath, bindMountPaths, fsType, fsArgs, formatted := "", "", {}, "", [], false;
      case Some(m) =>
        var s := StateFromMetadata(m);
        devicePath, mountPath, bindMountPaths := s.devicePath, s.mountPath, s.bindMountPaths;
        fsType, fsArgs, formatted := s.fsType, s.fsArgs, s.formatted;
    }

    function Local(): LocalState
      reads this
    {
      LocalState(devicePath, mountPath, bindMountPaths, fsType, fsArgs, formatted)
    }

    /** The fields aiToClientVol takes from the app instance. */
    function Identity(): (string, string, seq<string>, string, seq<string>, int)
      reads this
    {
      (name, template, ips, iqn, initiators, size)
    }

    function Limits(): Qos
      reads this
    {
      Qos(readIopsMax, writeIopsMax, totalIopsMax, readBandwidthMax, writeBandwidthMax, totalBandwidthMax)
    }
  }

  /** DateraClient.GetVolume(name, false, metadata): `get` is the app-instance lookup and
      `mdCall` the metadata read, made only when metadata is requested. */
  method GetVolume(name: string, metadata: bool, get: Call<AppInstance>, mdCall: Call<VolMetadata>)
    returns (r: Result<Volume>)
    ensures name == "" ==> r == Err(Plain("Volume name cannot be an empty string"))
    ensures r.Ok? <==> name != "" && get.Done? && (metadata ==> mdCall.Done?)
    ensures name != "" && !get.Done? ==> r == Err(Util.CallError(get))
    ensures name != "" && get.Done? && metadata && !mdCall.Done? ==> r == Err(Util.CallError(mdCall))
    ensures r.Ok? ==> fresh(r.value) && r.value.name == get.value.name && r.value.ips == get.value.ips
                      && r.value.iqn == get.value.iqn && r.value.size == get.value.size
    ensures r.Ok? && metadata ==> r.value.Local() == StateFromMetadata(mdCall.value)
    ensures r.Ok? && !metadata ==> r.value.Local() == LocalState("", "", {}, "", [], false)
  {
    if name == "" {
      return Err(Plain("Volume name cannot be an empty string"));
    }
    match get
    case NetFailure(m) => return Err(Plain(m));
    case ApiFailure(a) => return Err(Util.ErrTranslator(a));
    case Done(ai) =>
      if !metadata {
        var v := new Volume(ai, None);
        return Ok(v);
      }
      match mdCall
      case NetFailure(m) => return Err(Plain(m));
      case ApiFailure(a) => return Err(Util.ErrTranslator(a));
      case Done(md) =>
        var v := new Volume(ai, Some(md));
        return Ok(v);
  }

  // ---------------------------------------------------------------- the create request

  datatype VolumeSpec = VolumeSpec(name: string, size: int, placementMode: string,
                                   placementPolicy: Option<string>, replicaCount: int)

  /** Where a new app instance comes from. */
  datatype CreateSource =
    | FromTemplate(templatePath: string, sizeOverride: Option<string>)
    | CloneVolume(volumePath: string)
    | CloneSnapshot(snapshotPath: string)
    | Fresh(storageName: string, ipPoolPath: string, volume: VolumeSpec)

  datatype CreateRequest = CreateRequest(name: string, createMode: string, source: CreateSource)

  /** The first vendor version whose volumes accept a placement policy. */
  const PolicyVersion: string := "3.3.0.0"

  /** The placement-policy version splits into four single-digit components. */
  lemma PolicyVersionParts()
    ensures Split(PolicyVersion, '.') == ["3", "3", "0", "0"]
  {
    var parts := ["3", "3", "0", "0"];
    assert Join(parts[3..], ".") == "0";
    assert Join(parts[2..], ".") == "0.0";
    assert Join(parts[1..], ".") == "3.0.0";
    assert Join(parts, ".") == PolicyVersion;
    SplitJoin(parts, '.');
  }

  /** The one-digit components of the placement-policy version parse. */
  lemma SingleDigits()
    ensures ParseInt("3") == Ok(3) && ParseInt("0") == Ok(0)
  {
    assert "3"[..0] == "";
    assert "0"[..0] == "";
  }

  /** The placement-policy version has the value 3*10^8 + 3*10^6. */
  lemma PolicyVersionValue()
    ensures Util.VersionValue(PolicyVersion) == Ok(303000000)
  {
    var parts, a := ["3", "3", "0", "0"], [3, 3, 0, 0];
    PolicyVersionParts();
    assert Util.FourPart(parts, a) by {
      SingleDigits();
      assert parts[0] == parts[1] == "3" && parts[2] == parts[3] == "0";
    }
    Util.VersionFourPart(parts, a);
    assert Util.Weighted4(a) == 303000000;
  }

  /** The source precedence every create request follows: template, then volume clone, then
      snapshot clone, then a fresh volume-1 in storage-1 on the named IP pool. */
  predicate FollowsPrecedence(name: string, opts: VolOpts, req: CreateRequest)
  {
    && req.name == name && req.createMode == "kubernetes"
    && (opts.template != "" ==>
          && req.source.FromTemplate?
          && req.source.templatePath == "/app_templates/" + Trim(opts.template, '/')
          && (req.source.sizeOverride.Some? <==> !opts.disableTemplateOverride)
          && (req.source.sizeOverride.Some? ==> req.source.sizeOverride.value == FormatInt(opts.size)))
    && (opts.template == "" && opts.cloneVolSrc != "" ==> req.source == CloneVolume(opts.cloneVolSrc))
    && (opts.template == "" && opts.cloneVolSrc == "" && opts.cloneSnapSrc != "" ==>
          req.source == CloneSnapshot(opts.cloneSnapSrc))
    && (opts.template == "" && opts.cloneVolSrc == "" && opts.cloneSnapSrc == "" ==>
          && req.source.Fresh?
          && req.source.storageName == "storage-1"
          && req.source.ipPoolPath == "/access_network_ip_pools/" + opts.ipPool
          && req.source.volume.name == "volume-1" && req.source.volume.size == opts.size
          && req.source.volume.placementMode == opts.placementMode
          && req.source.volume.replicaCount == opts.replica)
  }

  /** Whether the options name no template and no clone source. */
  predicate NoSource(opts: VolOpts)
  {
    opts.template == "" && opts.cloneVolSrc == "" && opts.cloneSnapSrc == ""
  }

  /** The create request for a template or a clone source. */
  method TemplateOrCloneRequest(name: string, opts: VolOpts) returns (req: CreateRequest)
    requires !NoSource(opts)
    ensures FollowsPrecedence(name, opts, req)
  {
    if opts.template != "" {
      var template := Trim(opts.template, '/');
      var over: Option<string> := None;
      if !opts.disableTemplateOverride {
        over := Some(FormatInt(opts.size));
      }
      req := CreateRequest(name, "kubernetes", FromTemplate("/app_templates/" + template, over));
    } else if opts.cloneVolSrc != "" {
      req := CreateRequest(name, "kubernetes", CloneVolume(opts.cloneVolSrc));
    } else {
      req := CreateRequest(name, "kubernetes", CloneSnapshot(opts.cloneSnapSrc));
    }
  }

  /** The create request as written: the version guard reads `err != nil && yes`, which can
      never hold because the comparison reports `false` with every error, so a fresh volume is
      never sent a placement policy; an unparseable vendor version is an error. */
  method BuildCreateRequestAsWritten(name: string, opts: VolOpts, vendorVersion: string)
    returns (r: Result<CreateRequest>)
    ensures r.Ok? ==> FollowsPrecedence(name, opts, r.value)
    ensures r.Err? <==> NoSource(opts) && Util.VersionValue(vendorVersion).Err?
    ensures r.Ok? && r.value.source.Fresh? ==> r.value.source.volume.placementPolicy.None?
  {
    if !NoSource(opts) {
      var req := TemplateOrCloneRequest(name, opts);
      return Ok(req);
    }
    PolicyVersionValue();
    var yes, err := Util.DatVersionGte(vendorVersion, PolicyVersion);
    var vol: VolumeSpec;
    if err.Some? && yes {
      vol := VolumeSpec("volume-1", opts.size, opts.placementMode, Some(opts.placementPolicy), opts.replica);
    } else if err.Some? {
      return Err(err.value);
    } else {
      vol := VolumeSpec("volume-1", opts.size, opts.placementMode, None, opts.replica);
    }
    var si := Fresh("storage-1", "/access_network_ip_pools/" + opts.ipPool, vol);
    r := Ok(CreateRequest(name, "kubernetes", si));
  }

  /** The create request as intended: a fresh volume carries the placement policy exactly when
      the vendor version is at least 3.3.0.0. */
  method BuildCreateRequest(name: string, opts: VolOpts, vendorVersion: string)
    returns (r: Result<CreateRequest>)
    ensures r.Ok? ==> FollowsPrecedence(name, opts, r.value)
    ensures r.Err? <==> NoSource(opts) && Util.VersionValue(vendorVersion).Err?
    ensures r.Ok? && r.value.source.Fresh? ==>
              && Util.VersionValue(vendorVersion).Ok?
              && (r.value.source.volume.placementPolicy.Some?
                  <==> Util.VersionValue(vendorVersion).value >= 303000000)
              && (r.value.source.volume.placementPolicy.Some? ==>
                  r.value.source.volume.placementPolicy.value == opts.placementPolicy)
  {
    if !NoSource(opts) {
      var req := TemplateOrCloneRequest(name, opts);
      return Ok(req);
    }
    PolicyVersionValue();
    var yes, err := Util.DatVersionGte(vendorVersion, PolicyVersion);
    var vol: VolumeSpec;
    if err.None? && yes {
      vol := VolumeSpec("volume-1", opts.size, opts.placementMode, Some(opts.placementPolicy), opts.replica);
    } else if err.Some? {
      return Err(err.value);
    } else {
      vol := VolumeSpec("volume-1", opts.size, opts.placementMode, None, opts.replica);
    }
    var si := Fresh("storage-1", "/access_network_ip_pools/" + opts.ipPool, vol);
    r := Ok(CreateRequest(name, "kubernetes", si));
  }

  /** With vendor version 3.3.0.0 and no template or clone source, the request as written has no
      placement policy while the intended one carries it. */
  method PlacementPolicyDropped(name: string, opts: VolOpts)
    returns (asWritten: Result<CreateRequest>, intended: Result<CreateRequest>)
    requires NoSource(opts)
    ensures asWritten.Ok? && asWritten.value.source.Fresh?
    ensures asWritten.value.source.volume.placementPolicy == None
    ensures intended.Ok? && intended.value.source.Fresh?
    ensures intended.value.source.volume.placementPolicy == Some(opts.placementPolicy)
  {
    PolicyVersionValue();
    asWritten := BuildCreateRequestAsWritten(name, opts, PolicyVersion);
    intended := BuildCreateRequest(name, opts, PolicyVersion);
  }

  // ---------------------------------------------------------------- QoS

  /** The total limit after the per-GB cap: the per-GB figure times the size, when it is set and
      lower. The product is Go's 64-bit one and wraps around. */
  function CapTotal(total: int, perGb: int, size: int): (c: int)
    ensures perGb == 0 ==> c == total
    ensures perGb != 0 ==> c <= total && c <= Util.Wrap64(perGb * size)
                           && (c == total || c == Util.Wrap64(perGb * size))
  {
    if perGb != 0 && Util.Wrap64(perGb * size) < total then Util.Wrap64(perGb * size) else total
  }

  /** A total of 0 stands for "unlimited", yet the cap takes the minimum, so a per-GB limit is
      dropped whenever no total was given. */
  lemma PerGbIgnoredWhenUnlimited(perGb: int, size: int)
    requires Util.Wrap64(perGb * size) > 0
    ensures CapTotal(0, perGb, size) == 0
  {
  }

  /** A per-GB figure whose product with the size leaves the 64-bit range wraps to a negative
      limit, which is below any total and so replaces it. */
  lemma CapTotalWraps()
    ensures CapTotal(1000, 0x4000_0000_0000_0000, 2) == MinInt64
  {
    assert Util.Wrap64(0x8000_0000_0000_0000) == MinInt64;
  }

  /** The performance policy sent for the options. */
  function QosRequest(opts: VolOpts): (q: Qos)
    ensures q.readIopsMax == opts.readIopsMax && q.writeIopsMax == opts.writeIopsMax
    ensures q.readBandwidthMax == opts.readBandwidthMax && q.writeBandwidthMax == opts.writeBandwidthMax
    ensures q.totalIopsMax == CapTotal(opts.totalIopsMax, opts.iopsPerGb, opts.size)
    ensures q.totalBandwidthMax == CapTotal(opts.totalBandwidthMax, opts.bandwidthPerGb, opts.size)
  {
    Qos(opts.readIopsMax, opts.writeIopsMax, CapTotal(opts.totalIopsMax, opts.iopsPerGb, opts.size),
        opts.readBandwidthMax, opts.writeBandwidthMax,
        CapTotal(opts.totalBandwidthMax, opts.bandwidthPerGb, opts.size))
  }

  /** SetPerformancePolicy: send the capped policy; on success the volume's limits become the
      ones the backend reports. `create` is the backend's answer to the request. */
  method SetPerformancePolicy(v: Volume, opts: VolOpts, create: Qos -> Call<Qos>) returns (r: Outcome, sent: Qos)
    modifies v
    ensures sent == QosRequest(opts)
    ensures r.Pass? <==> create(sent).Done?
    ensures r.Pass? ==> v.Limits() == create(sent).value
    ensures r.Fail? ==> v.Limits() == old(v.Limits())
    ensures v.Local() == old(v.Local()) && v.name == old(v.name) && v.ips == old(v.ips) && v.iqn == old(v.iqn)
  {
    var im := opts.totalIopsMax;
    var bm := opts.totalBandwidthMax;
    if opts.iopsPerGb != 0 {
      var ipg := Util.Wrap64(opts.iopsPerGb * opts.size);
      if ipg < im {
        im := ipg;
      }
    }
    if opts.bandwidthPerGb != 0 {
      var bpg := Util.Wrap64(opts.bandwidthPerGb * opts.size);
      if bpg < bm {
        bm := bpg;
      }
    }
    sent := Qos(opts.readIopsMax, opts.writeIopsMax, im, opts.readBandwidthMax, opts.writeBandwidthMax, bm);
    match create(sent)
    case NetFailure(m) => r := Fail(Plain(m));
    case ApiFailure(a) => r := Fail(Util.ErrTranslator(a));
    case Done(q) =>
      v.readIopsMax, v.writeIopsMax, v.totalIopsMax := q.readIopsMax, q.writeIopsMax, q.totalIopsMax;
      v.readBandwidthMax, v.writeBandwidthMax, v.totalBandwidthMax := q.readBandwidthMax, q.writeBandwidthMax, q.totalBandwidthMax;
      r := Pass;
  }

  // ---------------------------------------------------------------- DateraClient.CreateVolume

  /** DateraClient.CreateVolume: build the request, create the app instance, mark the new volume
      unformatted, and apply the performance policy when QoS is asked for and no template is
      used. `sent` is the request the backend received. */
  method ClientCreateVolume(name: string, opts: VolOpts, qos: bool, vendorVersion: string,
                            create: CreateRequest -> Call<AppInstance>, policy: Qos -> Call<Qos>)
    returns (sent: Option<CreateRequest>, r: Result<Volume>)
    ensures sent.None? <==> NoSource(opts) && Util.VersionValue(vendorVersion).Err?
    ensures sent.Some? ==> FollowsPrecedence(name, opts, sent.value)
    ensures sent.Some? && !create(sent.value).Done? ==> r.Err?
    ensures sent.Some? && create(sent.value).Done? && !(qos && opts.template == "") ==> r.Ok?
    ensures r.Ok? ==> sent.Some? && create(sent.value).Done?
    ensures r.Ok? ==> fresh(r.value) && !r.value.formatted && r.value.name == create(sent.value).value.name
    ensures r.Ok? && qos && opts.template == "" ==>
              policy(QosRequest(opts)).Done? && r.value.Limits() == policy(QosRequest(opts)).value
  {
    var req := BuildCreateRequest(name, opts, vendorVersion);
    if req.Err? {
      return None, Err(req.error);
    }
    sent := Some(req.value);
    match create(req.value)
    case NetFailure(m) => return sent, Err(Plain(m));
    case ApiFailure(a) => return sent, Err(Util.ErrTranslator(a));
    case Done(ai) =>
      var v := new Volume(ai, None);
      v.formatted := false;
      if qos && opts.template == "" {
        var res, _ := SetPerformancePolicy(v, opts, policy);
        if res.Fail? {
          return sent, Err(res.error);
        }
      }
      return sent, Ok(v);
  }

  // ---------------------------------------------------------------- deletion

  /** The app-instance requests a deletion issues, in order. */
  datatype AiRequest = SetAdminState(state: string, force: bool) | DeleteAppInstance(force: bool)

  /** Volume.Delete: set the app instance offline, then delete it. */
  method VolumeDelete(force: bool, setOffline: Call<bool>, del: Call<bool>) returns (r: Outcome, issued: seq<AiRequest>)
    ensures |issued| >= 1 && issued[0] == SetAdminState("offline", force)
    ensures issued == if setOffline.Done? then [SetAdminState("offline", force), DeleteAppInstance(force)]
                      else [SetAdminState("offline", force)]
    ensures r.Pass? <==> setOffline.Done? && del.Done?
  {
    issued := [SetAdminState("offline", force)];
    match setOffline
    case NetFailure(m) => return Fail(Plain(m)), issued;
    case ApiFailure(a) => return Fail(Util.ErrTranslator(a)), issued;
    case Done(_) =>
    issued := issued + [DeleteAppInstance(force)];
    match del
    case NetFailure(m) => return Fail(Plain(m)), issued;
    case ApiFailure(a) => return Fail(Util.ErrTranslator(a)), issued;
    case Done(_) => return Pass, issued;
  }

  /** The failure of converting a nil app instance, in two pieces as MalformedSnapId is. */
  const NilAppInstance: string := "Cannot construct a Client" + " Volume from a nil AppInstance"

  function HasSnapshotsMessage(name: string): string
  {
    "Volume " + name + " cannot be deleted because it has snapshots"
  }

  /** DateraClient.DeleteVolume: look the app instance up, refuse when the volume has snapshots,
      otherwise delete it. A failed lookup leaves no app instance, and the conversion of a nil
      app instance fails before the backend error is looked at. */
  method ClientDeleteVolume(name: string, force: bool, get: Call<AppInstance>,
                            reload: Outcome, list: Call<seq<Snapshots.BackendSnap>>,
                            setOffline: Call<bool>, del: Call<bool>)
    returns (r: Outcome, issued: seq<AiRequest>)
    ensures !get.Done? ==> r == Fail(Plain(NilAppInstance)) && issued == []
    ensures get.Done? && reload.Pass? && list.Done? && |list.value| > 0 ==>
              r == Fail(Plain(HasSnapshotsMessage(get.value.name))) && issued == []
    ensures get.Done? && reload.Pass? && !list.Done? ==> r.Fail? && issued == []
    ensures issued != [] ==> issued[0] == SetAdminState("offline", force)
    ensures get.Done? && (reload.Fail? || (list.Done? && |list.value| == 0)) ==>
              && issued == (if setOffline.Done? then [SetAdminState("offline", force), DeleteAppInstance(force)]
                            else [SetAdminState("offline", force)])
              && (r.Pass? <==> setOffline.Done? && del.Done?)
  {
    if !get.Done? {
      return Fail(Plain(NilAppInstance)), [];
    }
    var v := get.value;
    var snaps := Snapshots.HasSnapshots(v.name, reload, list);
    if snaps.Err? {
      return Fail(snaps.error), [];
    }
    if snaps.value {
      return Fail(Plain(HasSnapshotsMessage(v.name))), [];
    }
    r, issued := VolumeDelete(force, setOffline, del);
  }

  /** Volume.Resize followed by its reload: the outcome of the two backend calls. */
  function Resize(update: Call<bool>, reload: Call<AppInstance>): (r: Outcome)
    ensures r.Pass? <==> update.Done? && reload.Done?
  {
    match update
    case NetFailure(m) => Fail(Plain(m))
    case ApiFailure(a) => Fail(Util.ErrTranslator(a))
    case Done(_) =>
      match reload
      case NetFailure(m) => Fail(Plain(m))
      case ApiFailure(a) => Fail(Util.ErrTranslator(a))
      case Done(_) => Pass
  }

  // ---------------------------------------------------------------- ListVolumes

  /** The app instances that convert into client volumes (the nil entries do not), in order. */
  function Present(ais: seq<Option<AppInstance>>): seq<AppInstance>
  {
    if |ais| == 0 then []
    else Present(ais[..|ais| - 1]) + (match ais[|ais| - 1] case Some(a) => [a] case None => [])
  }

  /** The app instances that convert are exactly the present ones. */
  lemma {:induction false} PresentMembers(ais: seq<Option<AppInstance>>, a: AppInstance)
    ensures a in Present(ais) <==> Some(a) in ais
  {
    if |ais| > 0 {
      PresentMembers(ais[..|ais| - 1], a);
      assert ais == ais[..|ais| - 1] + [ais[|ais| - 1]];
    }
  }

  /** Skipping the failed conversions commutes with concatenation. */
  lemma {:induction false} PresentAppend(a: seq<Option<AppInstance>>, b: seq<Option<AppInstance>>)
    ensures Present(a + b) == Present(a) + Present(b)
    decreases |b|
  {
    if |b| == 0 {
      assert a + b == a;
    } else {
      assert (a + b)[..|a + b| - 1] == a + b[..|b| - 1];
      PresentAppend(a, b[..|b| - 1]);
    }
  }

  /** DateraClient.ListVolumes: the listed app instances that convert, skipping the others. */
  method ListVolumes(list: Call<seq<Option<AppInstance>>>) returns (r: Result<seq<AppInstance>>)
    ensures list.NetFailure? ==> r == Err(Plain(list.msg))
    ensures list.ApiFailure? ==> r == Err(Util.ErrTranslator(list.api))
    ensures list.Done? ==> r == Ok(Present(list.value))
  {
    match list
    case NetFailure(m) => return Err(Plain(m));
    case ApiFailure(a) => return Err(Util.ErrTranslator(a));
    case Done(ais) =>
      var vols: seq<AppInstance> := [];
      var i := 0;
      while i < |ais|
        invariant 0 <= i <= |ais|
        invariant vols == Present(ais[..i])
      {
        assert ais[..i + 1][..i] == ais[..i];
        if ais[i].None? {
          i := i + 1;
          continue;
        }
        vols := vols + [ais[i].value];
        i := i + 1;
      }
      assert ais[..|ais|] == ais;
      return Ok(vols);
  }
}

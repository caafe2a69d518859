/** pkg/driver/controller.go: the controller service. Storage-class parameters and their
    defaults, snapshot ids and topology requirements, the capacity arithmetic of creation, and
    the CreateVolume, DeleteVolume, DeleteSnapshot, ListSnapshots, GetCapacity and
    ControllerExpandVolume handlers behind the in-flight registry. */
module Controller {
  import opened Wrappers
  import opened Strs
  import Util
  import Volumes
  import Snapshots
  import Driver

  // ---------------------------------------------------------------- parseVolParams

  /** The value parseVolParams stores for every key the parameters lack. */
  const VolDefaults: map<string, string> := map[
    "iops_per_gb" := "0", "bandwidth_per_gb" := "0", "placement_mode" := "hybrid",
    "placement_policy" := "default", "round_robin" := "false", "replica_count" := "3",
    "ip_pool" := "default", "template" := "", "disable_template_override" := "false",
    "read_iops_max" := "0", "write_iops_max" := "0", "total_iops_max" := "0",
    "read_bandwidth_max" := "0", "write_bandwidth_max" := "0", "total_bandwidth_max" := "0",
    "delete_on_unmount" := "false"]

  /** The number of keys parseVolParams converts. */
  const Converted: nat := 12

  /** The i-th key parseVolParams converts, in the order it converts them. */
  function KeyAt(i: nat): string
  {
    match i
    case 0 => "iops_per_gb" case 1 => "bandwidth_per_gb" case 2 => "round_robin"
    case 3 => "replica_count" case 4 => "disable_template_override" case 5 => "read_iops_max"
    case 6 => "write_iops_max" case 7 => "total_iops_max" case 8 => "read_bandwidth_max"
    case 9 => "write_bandwidth_max" case 10 => "total_bandwidth_max" case _ => "delete_on_unmount"
  }

  /** The positions of the boolean keys (round_robin, disable_template_override,
      delete_on_unmount); the others are integers. */
  predicate IsBoolPosition(i: nat)
  {
    i == 2 || i == 4 || i == 11
  }

  /** A parameter after defaulting: the given value, else the default. */
  function Param(params: map<string, string>, k: string): string
  {
    if k in params then params[k] else if k in VolDefaults then VolDefaults[k] else ""
  }

  /** The error converting value v at the i-th position, if any. */
  function Conversion(i: nat, v: string): Option<Error>
  {
    if IsBoolPosition(i) then
      match ParseBool(v) case Ok(_) => None case Err(e) => Some(e)
    else
      match ParseInt(v) case Ok(_) => None case Err(e) => Some(e)
  }

  /** The conversion error of the i-th converted key, if any. */
  function Problem(params: map<string, string>, i: nat): Option<Error>
    requires i < Converted
  {
    Conversion(i, Param(params, KeyAt(i)))
  }

  /** The conversion errors of the converted keys, by position. */
  function Problems(params: map<string, string>): (ps: seq<Option<Error>>)
    ensures |ps| == Converted
  {
    seq(Converted, j requires 0 <= j < Converted => Problem(params, j))
  }

  /** The first error among ps[i..]. */
  function FirstSome(ps: seq<Option<Error>>, i: nat): Option<Error>
    decreases |ps| - i
  {
    if i >= |ps| then None
    else if ps[i].Some? then ps[i]
    else FirstSome(ps, i + 1)
  }

  /** Nothing in ps[..i] is an error. */
  predicate NoneBefore(ps: seq<Option<Error>>, i: nat)
    requires i <= |ps|
  {
    i == 0 || (NoneBefore(ps, i - 1) && ps[i - 1].None?)
  }

  /** The integer a key holds once defaulted; zero when it does not parse. */
  function IntParam(params: map<string, string>, k: string): int
  {
    match ParseInt(Param(params, k)) case Ok(n) => n case Err(_) => 0
  }

  /** The boolean a key holds once defaulted; false when it does not parse. */
  function BoolParam(params: map<string, string>, k: string): bool
  {
    match ParseBool(Param(params, k)) case Ok(b) => b case Err(_) => false
  }

  /** The options built from the defaulted parameters once every conversion has succeeded.
      Size, filesystem, remote provider and clone sources stay zero. */
  function OptsOf(params: map<string, string>): Volumes.VolOpts
  {
    Volumes.VolOpts(
      0, IntParam(params, "replica_count"), Param(params, "template"), "", "", [],
      Param(params, "placement_mode"), Param(params, "placement_policy"), "", "", "",
      Param(params, "ip_pool"), BoolParam(params, "round_robin"),
      BoolParam(params, "delete_on_unmount"), BoolParam(params, "disable_template_override"),
      IntParam(params, "write_iops_max"), IntParam(params, "read_iops_max"),
      IntParam(params, "total_iops_max"), IntParam(params, "write_bandwidth_max"),
      IntParam(params, "read_bandwidth_max"), IntParam(params, "total_bandwidth_max"),
      IntParam(params, "iops_per_gb"), IntParam(params, "bandwidth_per_gb"))
  }

  /** What parseVolParams computes: the first conversion error, or the options. */
  function VolParams(params: map<string, string>): Result<Volumes.VolOpts>
  {
    match FirstSome(Problems(params), 0)
    case Some(e) => Err(e)
    case None => Ok(OptsOf(params))
  }

  /** The first i conversions succeed. */
  predicate Converts(params: map<string, string>, i: nat)
    requires i <= Converted
  {
    NoneBefore(Problems(params), i)
  }

  /** Past a prefix without errors, the first error lies at position i or later. */
  lemma {:induction false} NoneBeforeSkip(ps: seq<Option<Error>>, i: nat)
    requires i <= |ps| && NoneBefore(ps, i)
    ensures FirstSome(ps, 0) == FirstSome(ps, i)
  {
    if i > 0 {
      NoneBeforeSkip(ps, i - 1);
    }
  }

  /** NoneBefore says what its name says. */
  lemma {:induction false} NoneBeforeSpec(ps: seq<Option<Error>>, i: nat)
    requires i <= |ps|
    ensures NoneBefore(ps, i) <==> forall j :: 0 <= j < i ==> ps[j].None?
  {
    if i > 0 {
      NoneBeforeSpec(ps, i - 1);
    }
  }

  /** FirstSome finds the earliest error: there is none exactly when every entry from i on is
      free of errors, and otherwise it is the entry at a position before which none is. */
  lemma {:induction false} FirstSomeSpec(ps: seq<Option<Error>>, i: nat)
    requires i <= |ps|
    ensures FirstSome(ps, i).None? <==> forall j :: i <= j < |ps| ==> ps[j].None?
    ensures FirstSome(ps, i).Some? ==>
              exists j :: i <= j < |ps| && FirstSome(ps, i) == ps[j]
                          && forall l :: i <= l < j ==> ps[l].None?
    decreases |ps| - i
  {
    if i < |ps| && ps[i].None? {
      FirstSomeSpec(ps, i + 1);
      if FirstSome(ps, i + 1).Some? {
        var j :| i + 1 <= j < |ps| && FirstSome(ps, i + 1) == ps[j]
                 && forall l :: i + 1 <= l < j ==> ps[l].None?;
        assert forall l :: i <= l < j ==> ps[l].None?;
      }
    }
  }

  /** The sixteen defaulted keys in the order parseVolParams visits them. */
  const DefaultOrder: seq<string> := [
    "iops_per_gb", "bandwidth_per_gb", "placement_mode", "placement_policy", "round_robin",
    "replica_count", "ip_pool", "template", "disable_template_override", "read_iops_max",
    "write_iops_max", "total_iops_max", "read_bandwidth_max", "write_bandwidth_max",
    "total_bandwidth_max", "delete_on_unmount"]

  /** The visiting order names exactly the defaulted keys. */
  lemma DefaultOrderCovers()
    ensures forall k :: k in VolDefaults <==> k in DefaultOrder
  {
  }

  /** The defaulting half of parseVolParams: visiting the keys in order, each missing key
      receives its default in place; keys already present keep their values. */
  method SetDefaults(params: map<string, string>, defaults: map<string, string>, order: seq<string>)
    returns (p: map<string, string>)
    requires forall k :: k in defaults <==> k in order
    ensures p == defaults + params
  {
    p := params;
    for i := 0 to |order|
      invariant forall k :: k in p <==> k in params || k in order[..i]
      invariant forall k :: k in p ==> p[k] == if k in params then params[k] else defaults[k]
    {
      var k := order[i];
      assert order[..i + 1] == order[..i] + [k];
      if k !in p {
        p := p[k := defaults[k]];
      }
    }
    assert order[..|order|] == order;
  }

  /** The sixteen `if absent, set the default` statements of parseVolParams. */
  method FillDefaults(params: map<string, string>) returns (p: map<string, string>)
    ensures p == VolDefaults + params
  {
    DefaultOrderCovers();
    p := SetDefaults(params, VolDefaults, DefaultOrder);
  }

  /** The i-th converted key is present once defaulted, and its problem is that of its value. */
  lemma ProblemAt(params: map<string, string>, p: map<string, string>, i: nat)
    requires p == VolDefaults + params && i < Converted
    ensures KeyAt(i) in p && p[KeyAt(i)] == Param(params, KeyAt(i))
    ensures Problems(params)[i] == Conversion(i, p[KeyAt(i)])
  {
    assert KeyAt(i) in VolDefaults;
  }

  /** strconv.ParseInt(params[k], 10, 0) for the i-th converted key k. */
  method ConvertInt(params: map<string, string>, p: map<string, string>, k: string, ghost i: nat)
    returns (v: Result<int>)
    requires p == VolDefaults + params && i < Converted && KeyAt(i) == k && !IsBoolPosition(i)
    requires Converts(params, i)
    ensures v.Err? ==> VolParams(params) == Err(v.error)
    ensures v.Ok? ==> Converts(params, i + 1) && v.value == IntParam(params, k)
  {
    ProblemAt(params, p, i);
    v := ParseInt(p[k]);
    NoneBeforeSkip(Problems(params), i);
  }

  /** strconv.ParseBool(params[k]) for the i-th converted key k. */
  method ConvertBool(params: map<string, string>, p: map<string, string>, k: string, ghost i: nat)
    returns (b: Result<bool>)
    requires p == VolDefaults + params && i < Converted && KeyAt(i) == k && IsBoolPosition(i)
    requires Converts(params, i)
    ensures b.Err? ==> VolParams(params) == Err(b.error)
    ensures b.Ok? ==> Converts(params, i + 1) && b.value == BoolParam(params, k)
  {
    ProblemAt(params, p, i);
    b := ParseBool(p[k]);
    NoneBeforeSkip(Problems(params), i);
  }

  // The twelve conversions of parseVolParams, three at a time, in the source's order.

  /** iops_per_gb, bandwidth_per_gb, round_robin. */
  method ConvertRates(params: map<string, string>, p: map<string, string>)
    returns (err: Option<Error>, iopsPerGb: int, bandwidthPerGb: int, roundRobin: bool)
    requires p == VolDefaults + params
    ensures err.Some? ==> VolParams(params) == Err(err.value)
    ensures err.None? ==> && Converts(params, 3)
                          && iopsPerGb == IntParam(params, "iops_per_gb")
                          && bandwidthPerGb == IntParam(params, "bandwidth_per_gb")
                          && roundRobin == BoolParam(params, "round_robin")
  {
    err, iopsPerGb, bandwidthPerGb, roundRobin := None, 0, 0, false;
    ghost var i := 0;
    var v := ConvertInt(params, p, "iops_per_gb", i);
    if v.Err? { return Some(v.error), iopsPerGb, bandwidthPerGb, roundRobin; }
    iopsPerGb := v.value;
    i := i + 1;
    v := ConvertInt(params, p, "bandwidth_per_gb", i);
    if v.Err? { return Some(v.error), iopsPerGb, bandwidthPerGb, roundRobin; }
    bandwidthPerGb := v.value;
    i := i + 1;
    var b := ConvertBool(params, p, "round_robin", i);
    if b.Err? { return Some(b.error), iopsPerGb, bandwidthPerGb, roundRobin; }
    roundRobin := b.value;
  }

  /** replica_count, disable_template_override, read_iops_max. */
  method ConvertPlacement(params: map<string, string>, p: map<string, string>)
    returns (err: Option<Error>, replica: int, disableTemplateOverride: bool, readIopsMax: int)
    requires p == VolDefaults + params && Converts(params, 3)
    ensures err.Some? ==> VolParams(params) == Err(err.value)
    ensures err.None? ==> && Converts(params, 6)
                          && replica == IntParam(params, "replica_count")
                          && disableTemplateOverride == BoolParam(params, "disable_template_override")
                          && readIopsMax == IntParam(params, "read_iops_max")
  {
    err, replica, disableTemplateOverride, readIopsMax := None, 0, false, 0;
    ghost var i := 3;
    var v := ConvertInt(params, p, "replica_count", i);
    if v.Err? { return Some(v.error), replica, disableTemplateOverride, readIopsMax; }
    replica := v.value;
    i := i + 1;
    var b := ConvertBool(params, p, "disable_template_override", i);
    if b.Err? { return Some(b.error), replica, disableTemplateOverride, readIopsMax; }
    disableTemplateOverride := b.value;
    i := i + 1;
    v := ConvertInt(params, p, "read_iops_max", i);
    if v.Err? { return Some(v.error), replica, disableTemplateOverride, readIopsMax; }
    readIopsMax := v.value;
  }

  /** write_iops_max, total_iops_max, read_bandwidth_max. */
  method ConvertIops(params: map<string, string>, p: map<string, string>)
    returns (err: Option<Error>, writeIopsMax: int, totalIopsMax: int, readBandwidthMax: int)
    requires p == VolDefaults + params && Converts(params, 6)
    ensures err.Some? ==> VolParams(params) == Err(err.value)
    ensures err.None? ==> && Converts(params, 9)
                          && writeIopsMax == IntParam(params, "write_iops_max")
                          && totalIopsMax == IntParam(params, "total_iops_max")
                          && readBandwidthMax == IntParam(params, "read_bandwidth_max")
  {
    err, writeIopsMax, totalIopsMax, readBandwidthMax := None, 0, 0, 0;
    ghost var i := 6;
    var v := ConvertInt(params, p, "write_iops_max", i);
    if v.Err? { return Some(v.error), writeIopsMax, totalIopsMax, readBandwidthMax; }
    writeIopsMax := v.value;
    i := i + 1;
    v := ConvertInt(params, p, "total_iops_max", i);
    if v.Err? { return Some(v.error), writeIopsMax, totalIopsMax, readBandwidthMax; }
    totalIopsMax := v.value;
    i := i + 1;
    v := ConvertInt(params, p, "read_bandwidth_max", i);
    if v.Err? { return Some(v.error), writeIopsMax, totalIopsMax, readBandwidthMax; }
    readBandwidthMax := v.value;
  }

  /** write_bandwidth_max, total_bandwidth_max, delete_on_unmount. */
  method ConvertBandwidth(params: map<string, string>, p: map<string, string>)
    returns (err: Option<Error>, writeBandwidthMax: int, totalBandwidthMax: int, deleteOnUnmount: bool)
    requires p == VolDefaults + params && Converts(params, 9)
    ensures err.Some? ==> VolParams(params) == Err(err.value)
    ensures err.None? ==> && Converts(params, Converted)
                          && writeBandwidthMax == IntParam(params, "write_bandwidth_max")
                          && totalBandwidthMax == IntParam(params, "total_bandwidth_max")
                          && deleteOnUnmount == BoolParam(params, "delete_on_unmount")
  {
    err, writeBandwidthMax, totalBandwidthMax, deleteOnUnmount := None, 0, 0, false;
    ghost var i := 9;
    var v := ConvertInt(params, p, "write_bandwidth_max", i);
    if v.Err? { return Some(v.error), writeBandwidthMax, totalBandwidthMax, deleteOnUnmount; }
    writeBandwidthMax := v.value;
    i := i + 1;
    v := ConvertInt(params, p, "total_bandwidth_max", i);
    if v.Err? { return Some(v.error), writeBandwidthMax, totalBandwidthMax, deleteOnUnmount; }
    totalBandwidthMax := v.value;
    i := i + 1;
    var b := ConvertBool(params, p, "delete_on_unmount", i);
    if b.Err? { return Some(b.error), writeBandwidthMax, totalBandwidthMax, deleteOnUnmount; }
    deleteOnUnmount := b.value;
  }

  /** parseVolParams: fill in the defaults, then convert key by key, stopping at the first
      error; the string-valued options are copied from the defaulted map as they are. */
  method ParseVolParams(params: map<string, string>) returns (r: Result<Volumes.VolOpts>)
    ensures r == VolParams(params)
  {
    var p := FillDefaults(params);
    var err, iopsPerGb, bandwidthPerGb, roundRobin := ConvertRates(params, p);
    if err.Some? { return Err(err.value); }
    var placementMode := p["placement_mode"];
    var placementPolicy := p["placement_policy"];
    var replica, disableTemplateOverride, readIopsMax;
    err, replica, disableTemplateOverride, readIopsMax := ConvertPlacement(params, p);
    if err.Some? { return Err(err.value); }
    var ipPool := p["ip_pool"];
    var template := p["template"];
    var writeIopsMax, totalIopsMax, readBandwidthMax;
    err, writeIopsMax, totalIopsMax, readBandwidthMax := ConvertIops(params, p);
    if err.Some? { return Err(err.value); }
    var writeBandwidthMax, totalBandwidthMax, deleteOnUnmount;
    err, writeBandwidthMax, totalBandwidthMax, deleteOnUnmount := ConvertBandwidth(params, p);
    if err.Some? { return Err(err.value); }
    NoneBeforeSkip(Problems(params), Converted);
    r := Ok(Volumes.VolOpts(
      0, replica, template, "", "", [], placementMode, placementPolicy, "", "", "",
      ipPool, roundRobin, deleteOnUnmount, disableTemplateOverride,
      writeIopsMax, readIopsMax, totalIopsMax, writeBandwidthMax,
      readBandwidthMax, totalBandwidthMax, iopsPerGb, bandwidthPerGb));
  }

  /** parseVolParams fails exactly when some converted key does not convert, and then with the
      error of the earliest such key. */
  lemma VolParamsFails(params: map<string, string>)
    ensures VolParams(params).Err? <==> exists j :: 0 <= j < Converted && Problems(params)[j].Some?
    ensures VolParams(params).Err? ==>
              exists j :: 0 <= j < Converted && Some(VolParams(params).error) == Problems(params)[j]
                          && forall l :: 0 <= l < j ==> Problems(params)[l].None?
  {
    FirstSomeSpec(Problems(params), 0);
  }

  /** The options of an empty parameter map: three replicas, hybrid placement, the default
      policy and IP pool, no template, no limits and every flag off. */
  lemma VolParamsDefaults()
    ensures VolParams(map[]) == Ok(Volumes.VolOpts(
              0, 3, "", "", "", [], "hybrid", "default", "", "", "", "default", false, false, false,
              0, 0, 0, 0, 0, 0, 0, 0))
  {
    DefaultsConvert();
    VolParamsOk(map[]);
    DefaultOpts();
  }

  /** Once every conversion succeeds, parseVolParams returns the options. */
  lemma VolParamsOk(params: map<string, string>)
    requires Converts(params, Converted)
    ensures VolParams(params) == Ok(OptsOf(params))
  {
    NoneBeforeSkip(Problems(params), Converted);
  }

  /** Every default converts. */
  lemma DefaultsConvert()
    ensures Converts(map[], Converted)
  {
    DefaultsConvertRates();
    DefaultsConvertPlacement();
    DefaultsConvertIops();
    DefaultsConvertBandwidth();
    var ps := Problems(map[]);
    assert NoneBefore(ps, 1) && NoneBefore(ps, 2) && NoneBefore(ps, 3) && NoneBefore(ps, 4);
    assert NoneBefore(ps, 5) && NoneBefore(ps, 6) && NoneBefore(ps, 7) && NoneBefore(ps, 8);
    assert NoneBefore(ps, 9) && NoneBefore(ps, 10) && NoneBefore(ps, 11);
  }

  /** The defaults of iops_per_gb, bandwidth_per_gb and round_robin convert. */
  lemma DefaultsConvertRates()
    ensures Problem(map[], 0).None? && Problem(map[], 1).None? && Problem(map[], 2).None?
  {
    assert ParseInt("0") == Ok(0) && ParseBool("false") == Ok(false);
  }

  /** The defaults of replica_count, disable_template_override and read_iops_max convert. */
  lemma DefaultsConvertPlacement()
    ensures Problem(map[], 3).None? && Problem(map[], 4).None? && Problem(map[], 5).None?
  {
    assert ParseInt("0") == Ok(0) && ParseInt("3") == Ok(3) && ParseBool("false") == Ok(false);
  }

  /** The defaults of write_iops_max, total_iops_max and read_bandwidth_max convert. */
  lemma DefaultsConvertIops()
    ensures Problem(map[], 6).None? && Problem(map[], 7).None? && Problem(map[], 8).None?
  {
    assert ParseInt("0") == Ok(0);
  }

  /** The defaults of write_bandwidth_max, total_bandwidth_max and delete_on_unmount convert. */
  lemma DefaultsConvertBandwidth()
    ensures Problem(map[], 9).None? && Problem(map[], 10).None? && Problem(map[], 11).None?
  {
    assert ParseInt("0") == Ok(0) && ParseBool("false") == Ok(false);
  }

  /** With no parameters at all, the options are the documented defaults: three replicas,
      hybrid placement, the default policy and IP pool, no limits and every flag off. */
  lemma DefaultOpts()
    ensures OptsOf(map[]) == Volumes.VolOpts(
              0, 3, "", "", "", [], "hybrid", "default", "", "", "", "default", false, false, false,
              0, 0, 0, 0, 0, 0, 0, 0)
  {
    var params: map<string, string> := map[];
    var o := OptsOf(params);
    DefaultLimits();
    DefaultRates();
    DefaultChoices();
    assert o.replica == 3 && o.template == "" && o.placementMode == "hybrid";
    assert o.placementPolicy == "default" && o.ipPool == "default";
    assert !o.roundRobin && !o.deleteOnUnmount && !o.disableTemplateOverride;
    assert o.writeIopsMax == 0 && o.readIopsMax == 0 && o.totalIopsMax == 0;
    assert o.writeBandwidthMax == 0 && o.readBandwidthMax == 0 && o.totalBandwidthMax == 0;
    assert o.iopsPerGb == 0 && o.bandwidthPerGb == 0;
  }

  /** The IOPS limits and the write bandwidth limit default to zero, meaning unlimited. */
  lemma DefaultLimits()
    ensures IntParam(map[], "write_iops_max") == 0 && IntParam(map[], "read_iops_max") == 0
    ensures IntParam(map[], "total_iops_max") == 0 && IntParam(map[], "write_bandwidth_max") == 0
  {
    assert ParseInt("0") == Ok(0);
  }

  /** The remaining bandwidth limits and the per-GB rates default to zero. */
  lemma DefaultRates()
    ensures IntParam(map[], "read_bandwidth_max") == 0 && IntParam(map[], "total_bandwidth_max") == 0
    ensures IntParam(map[], "iops_per_gb") == 0 && IntParam(map[], "bandwidth_per_gb") == 0
  {
    assert ParseInt("0") == Ok(0);
  }

  /** The string choices, the flags and the replica count take their default values. */
  lemma DefaultChoices()
    ensures Param(map[], "template") == "" && Param(map[], "placement_mode") == "hybrid"
    ensures Param(map[], "placement_policy") == "default" && Param(map[], "ip_pool") == "default"
    ensures !BoolParam(map[], "round_robin") && !BoolParam(map[], "delete_on_unmount")
    ensures !BoolParam(map[], "disable_template_override") && IntParam(map[], "replica_count") == 3
  {
    assert ParseBool("false") == Ok(false) && ParseInt("3") == Ok(3);
  }

  /** Supplying the defaults explicitly changes nothing. */
  lemma VolParamsDefaultsIdempotent(params: map<string, string>)
    ensures VolParams(VolDefaults + params) == VolParams(params)
  {
    ProblemsDefaulted(params);
    OptsDefaulted(params);
  }

  /** Merging the defaults in changes no conversion's outcome. */
  lemma ProblemsDefaulted(params: map<string, string>)
    ensures Problems(VolDefaults + params) == Problems(params)
  {
    ParamsDefaulted(params);
    assert forall j | 0 <= j < Converted :: Problems(VolDefaults + params)[j] == Problems(params)[j];
  }

  /** Merging the defaults in changes no option. */
  lemma OptsDefaulted(params: map<string, string>)
    ensures OptsOf(VolDefaults + params) == OptsOf(params)
  {
    ParamsDefaulted(params);
  }

  /** Every key reads the same with the defaults merged in. */
  lemma ParamsDefaulted(params: map<string, string>)
    ensures forall k :: Param(VolDefaults + params, k) == Param(params, k)
  {
  }

  /** A value given for a key wins over its default. */
  lemma VolParamsGiven(params: map<string, string>)
    requires VolParams(params).Ok?
    ensures "placement_mode" in params ==> VolParams(params).value.placementMode == params["placement_mode"]
    ensures "placement_policy" in params ==> VolParams(params).value.placementPolicy == params["placement_policy"]
    ensures "ip_pool" in params ==> VolParams(params).value.ipPool == params["ip_pool"]
    ensures "template" in params ==> VolParams(params).value.template == params["template"]
    ensures "replica_count" in params ==> ParseInt(params["replica_count"]) == Ok(VolParams(params).value.replica)
  {
    FirstSomeSpec(Problems(params), 0);
    assert Problems(params)[3].None?;
  }

  /** Every integer option parseVolParams produces fits Go's 64-bit int, so the metadata ToMap
      writes from it parses back (Volumes.ToMapSizesRoundTrip and its siblings). */
  lemma VolParamsInt64(params: map<string, string>)
    requires VolParams(params).Ok?
    ensures Volumes.Int64Options(VolParams(params).value)
  {
    forall k | true
      ensures Volumes.InInt64(IntParam(params, k))
    {
      ParseIntRange(Param(params, k));
    }
  }

  // ---------------------------------------------------------------- parseSnapParams

  /** The values parseSnapParams stores for the keys the parameters lack. */
  const SnapDefaults: map<string, string> := map["remote_provider_uuid" := "", "type" := "local"]

  /** The snapshot options of a parameter map: the remote provider and the snapshot type, each
      the given value or its default. */
  function SnapParams(params: map<string, string>): Snapshots.SnapOpts
  {
    Snapshots.SnapOpts(
      if "remote_provider_uuid" in params then params["remote_provider_uuid"] else "",
      if "type" in params then params["type"] else "local")
  }

  /** parseSnapParams: default the two keys in place, then read them. It never fails. */
  method ParseSnapParams(params: map<string, string>) returns (r: Snapshots.SnapOpts)
    ensures r == SnapParams(params)
  {
    var p := SetDefaults(params, SnapDefaults, ["remote_provider_uuid", "type"]);
    r := Snapshots.SnapOpts(p["remote_provider_uuid"], p["type"]);
  }

  /** Without parameters a snapshot is local and has no remote provider. */
  lemma SnapParamsDefaults()
    ensures SnapParams(map[]) == Snapshots.SnapOpts("", "local")
  {
  }

  /** A given value wins over its default, and supplying the defaults explicitly changes
      nothing. */
  lemma SnapParamsGiven(params: map<string, string>)
    ensures "remote_provider_uuid" in params ==> SnapParams(params).remoteProviderUuid == params["remote_provider_uuid"]
    ensures "type" in params ==> SnapParams(params).kind == params["type"]
    ensures SnapParams(SnapDefaults + params) == SnapParams(params)
  {
  }

  // ---------------------------------------------------------------- validateSnapId

  const SnapIdExample: string := "CSI-pvc-2071cca0-3259-11e9-aba5-003048f5d94a:1550370547.151396819"

  /** validateSnapId: the id must split on ':' into exactly two pieces. */
  function ValidateSnapId(snapId: string): (r: Outcome)
    ensures r.Fail? ==> r.error == Plain("Snapshot ID invalid.  Example: " + SnapIdExample)
  {
    if |Split(snapId, ':')| != 2 then Fail(Plain("Snapshot ID invalid.  Example: " + SnapIdExample))
    else Pass
  }

  /** The ids validateSnapId accepts are exactly the composite ids of two colon-free parts
      (either of which may be empty). */
  lemma ValidateSnapIdExact(snapId: string)
    ensures ValidateSnapId(snapId).Pass? <==>
              exists v, s :: ':' !in v && ':' !in s && snapId == Util.MkSnapId(v, s)
  {
    var parts := Split(snapId, ':');
    assert ":" == [':'];
    if |parts| == 2 {
      SplitPiecesFree(snapId, ':');
      JoinSplit(snapId, ':');
      assert parts == [parts[0], parts[1]];
      assert ':' !in parts[0] && ':' !in parts[1];
      assert snapId == Util.MkSnapId(parts[0], parts[1]);
    } else {
      forall v, s | ':' !in v && ':' !in s
        ensures snapId != Util.MkSnapId(v, s)
      {
        SplitJoin([v, s], ':');
      }
    }
  }

  /** Every id ParseSnapId can split passes validation, but validation is weaker: ":" passes
      it and does not parse. */
  lemma ValidateSnapIdWeaker(snapId: string)
    ensures Util.ParseSnapId(snapId) != ("", "") ==> ValidateSnapId(snapId).Pass?
    ensures ValidateSnapId(":").Pass? && Util.ParseSnapId(":") == ("", "")
  {
    assert Split(":", ':') == ["", ""] by {
      assert Split("", ':') == [""];
      assert ":"[1..] == "";
    }
  }

  // ---------------------------------------------------------------- handleTopologyRequirement

  /** One accessible topology: its segments. */
  datatype Topology = Topology(segments: map<string, string>)

  datatype TopologyRequirement = TopologyRequirement(requisite: seq<Topology>, preferred: seq<Topology>)

  const TopologyUnsupported: string := "TopologyRequirements and Preferred Topologies are currently unsupported"

  /** handleTopologyRequirement: no requirement, or one that lists no topology, is accepted;
      any listed topology is refused. */
  function HandleTopologyRequirement(tr: Option<TopologyRequirement>): (r: Outcome)
    ensures r.Pass? <==> tr.None? || (tr.value.requisite == [] && tr.value.preferred == [])
    ensures r.Fail? ==> r == Fail(Plain(TopologyUnsupported))
  {
    if tr == None then Pass
    else if |tr.value.requisite| > 0 || |tr.value.preferred| > 0 then Fail(Plain(TopologyUnsupported))
    else Pass
  }

  // ---------------------------------------------------------------- capacity arithmetic

  /** units.GiB. */
  const GiB: int := 1073741824

  /** The size in GiB of a volume created without a usable capacity range. */
  const DefaultSize: int := 16

  datatype CapacityRange = CapacityRange(requiredBytes: int, limitBytes: int)

  /** A limit of 0 means "no limit": the handlers replace it by the required bytes. */
  function Normalize(cr: Option<CapacityRange>): (n: Option<CapacityRange>)
    ensures n.None? <==> cr.None?
    ensures n.Some? ==> n.value.requiredBytes == cr.value.requiredBytes
    ensures n.Some? && n.value.limitBytes == 0 ==> n.value.requiredBytes == 0
    ensures cr.Some? && cr.value.limitBytes != 0 ==> n == cr
  {
    match cr
    case None => None
    case Some(c) => if c.limitBytes == 0 then Some(c.(limitBytes := c.requiredBytes)) else cr
  }

  /** Normalizing twice is normalizing once. */
  lemma NormalizeIdempotent(cr: Option<CapacityRange>)
    ensures Normalize(Normalize(cr)) == Normalize(cr)
  {
  }

  function Abs(x: int): nat
  {
    if x < 0 then -x else x
  }

  /** Go's integer division, which truncates toward zero. */
  function GoDiv(a: int, b: int): (q: int)
    requires b != 0
    ensures Abs(q) == Abs(a) / Abs(b)
    ensures a == 0 ==> q == 0
    ensures (a >= 0) == (b > 0) ==> q >= 0
    ensures (a >= 0) != (b > 0) ==> q <= 0
  {
    var m: int := NatDiv(Abs(a), Abs(b));
    if (a < 0) == (b < 0) then m else -m
  }

  /** Division of naturals, with Dafny's operator. */
  function NatDiv(x: nat, y: nat): (m: nat)
    requires y > 0
    ensures m == x / y
    ensures x == 0 ==> m == 0
  {
    x / y
  }

  /** A quotient of a non-negative number by a positive one is the largest whole number of
      divisors that fit: it is the floor. */
  lemma GoDivFloor(a: int, b: int)
    requires a >= 0 && b > 0
    ensures var q := GoDiv(a, b); 0 <= q <= a && q * b <= a < (q + 1) * b
  {
    var q := GoDiv(a, b);
    assert q == a / b;
    var r := a % b;
    assert a == q * b + r && 0 <= r < b;
    assert (q + 1) * b == q * b + b;
    MulMonotone(q, b);
  }

  /** Multiplying by a positive whole number does not make a natural smaller. */
  lemma MulMonotone(q: nat, b: int)
    requires b >= 1
    ensures q * b >= q
  {
  }

  /** The size in GiB CreateVolume asks for, as written: the limit in whole GiB, rounded toward
      zero; 16 when that is 0 or no range is given; 1 when it is negative. */
  function CreatedSizeAsWritten(cr: Option<CapacityRange>): (size: int)
    ensures size >= 1
    ensures cr.None? ==> size == DefaultSize
  {
    if cr.None? then DefaultSize
    else
      var s := GoDiv(cr.value.limitBytes, GiB);
      if s == 0 then DefaultSize else if s < 1 then 1 else s
  }

  /** The size CreateVolume should ask for: the size as written, rounded up to the smallest
      whole number of GiB that holds the required bytes when it does not. */
  function CreatedSize(cr: Option<CapacityRange>): (size: int)
    ensures size >= 1
    ensures cr.Some? ==> cr.value.requiredBytes <= size * GiB
    ensures cr.Some? && size != CreatedSizeAsWritten(cr) ==> (size - 1) * GiB < cr.value.requiredBytes
    ensures cr.None? || cr.value.requiredBytes <= CreatedSizeAsWritten(cr) * GiB ==> size == CreatedSizeAsWritten(cr)
  {
    var s := CreatedSizeAsWritten(cr);
    if cr.Some? && s * GiB < cr.value.requiredBytes then (cr.value.requiredBytes + GiB - 1) / GiB
    else s
  }

  /** For a range whose limit is a whole number of GiB, at least 1 GiB, the size is the limit. */
  lemma CreatedSizeWholeLimit(required: int, n: int)
    requires n >= 1 && required <= n * GiB
    ensures CreatedSize(Some(CapacityRange(required, n * GiB))) == n
    ensures CreatedSizeAsWritten(Some(CapacityRange(required, n * GiB))) == n
  {
    assert GoDiv(n * GiB, GiB) == n;
  }

  /** A range of exactly 1.5 GiB: the size as written is 1 GiB, short of the required bytes;
      the rounded-up size is 2 GiB. */
  lemma CreatedSizeAsWrittenShort()
    ensures var cr := Some(CapacityRange(1610612736, 1610612736));
            CreatedSizeAsWritten(cr) == 1 && CreatedSizeAsWritten(cr) * GiB < 1610612736
            && CreatedSize(cr) == 2
  {
    assert GoDiv(1610612736, GiB) == 1;
  }

  /** The size in GiB ControllerExpandVolume resizes to, as written: the required bytes in
      whole GiB, rounded toward zero. */
  function ExpandSizeAsWritten(cr: CapacityRange): (size: int)
    ensures cr.requiredBytes >= 0 ==> size * GiB <= cr.requiredBytes < (size + 1) * GiB
  {
    GoDiv(cr.requiredBytes, GiB)
  }

  /** The size ControllerExpandVolume should resize to: the smallest whole number of GiB that
      holds the required bytes. */
  function ExpandSize(cr: CapacityRange): (size: int)
    ensures cr.requiredBytes <= size * GiB
    ensures cr.requiredBytes > 0 ==> size >= 1 && (size - 1) * GiB < cr.requiredBytes
    ensures cr.requiredBytes % GiB == 0 ==> size == ExpandSizeAsWritten(cr)
  {
    if cr.requiredBytes <= 0 then GoDiv(cr.requiredBytes, GiB)
    else (cr.requiredBytes + GiB - 1) / GiB
  }

  /** Expanding to 1.5 GiB, as written, resizes to 1 GiB, short of the capacity the reply
      reports; the rounded-up size is 2 GiB. */
  lemma ExpandSizeAsWrittenShort()
    ensures var cr := CapacityRange(1610612736, 1610612736);
            ExpandSizeAsWritten(cr) == 1 && ExpandSizeAsWritten(cr) * GiB < cr.requiredBytes
            && ExpandSize(cr) == 2
  {
    assert GoDiv(1610612736, GiB) == 1;
  }

  /** An existing volume of `size` bytes does not match the (normalized) requested range. */
  predicate Conflicts(cr: Option<CapacityRange>, size: int)
  {
    cr.Some? && (cr.value.limitBytes < size || cr.value.requiredBytes != size)
  }

  /** The (normalized) range asks for more than its limit. */
  predicate Inverted(cr: Option<CapacityRange>)
  {
    cr.Some? && cr.value.requiredBytes > cr.value.limitBytes
  }

  function RangeMessage(cr: CapacityRange): string
  {
    "RequiredBytes must be less than or equal to LimitBytes: [" + FormatInt(cr.requiredBytes)
    + ", " + FormatInt(cr.limitBytes) + "]"
  }

  /** A normalized range that matches an existing volume has required == limit or a larger
      limit, never an inverted one; a zero limit never makes a range inverted. */
  lemma NormalizedRanges(cr: Option<CapacityRange>, size: int)
    ensures cr.Some? && cr.value.limitBytes == 0 ==> !Inverted(Normalize(cr))
    ensures !Conflicts(Normalize(cr), size) && cr.Some? ==>
              Normalize(cr).value.requiredBytes == size <= Normalize(cr).value.limitBytes
  {
  }

  // ---------------------------------------------------------------- volume metadata

  /** registerMdFromCtxt's copy of the incoming gRPC metadata: every key's values joined with
      ','; an incoming key replaces the entry already there. */
  function WithIncoming(md: map<string, string>, g: map<string, seq<string>>): (m: map<string, string>)
    ensures m.Keys == md.Keys + g.Keys
    ensures forall k :: k in g ==> m[k] == Join(g[k], ",")
    ensures forall k :: k in md && k !in g ==> m[k] == md[k]
  {
    md + map k | k in g :: Join(g[k], ",")
  }

  /** registerMdFromCtxt: without incoming metadata it reports an error and changes nothing;
      otherwise every incoming key is copied, in any order. */
  method RegisterMdFromContext(md: map<string, string>, incoming: Option<map<string, seq<string>>>)
    returns (r: Outcome, mdOut: map<string, string>)
    ensures incoming.None? ==> r == Fail(Plain("Error retrieving metadata from RPC")) && mdOut == md
    ensures incoming.Some? ==> r == Pass && mdOut == WithIncoming(md, incoming.value)
  {
    mdOut := md;
    if incoming.None? {
      return Fail(Plain("Error retrieving metadata from RPC")), mdOut;
    }
    var g := incoming.value;
    var rest := g.Keys;
    while rest != {}
      invariant rest <= g.Keys
      invariant mdOut.Keys == md.Keys + (g.Keys - rest)
      invariant forall k :: k in g && k !in rest ==> mdOut[k] == Join(g[k], ",")
      invariant forall k :: k in md && k !in g ==> mdOut[k] == md[k]
      invariant forall k :: k in md && k in rest ==> mdOut[k] == md[k]
      decreases rest
    {
      var k :| k in rest;
      mdOut := mdOut[k := Join(g[k], ",")];
      rest := rest - {k};
    }
    r := Pass;
  }

  /** A sequence of volume capabilities, each of which RegisterVolumeCapability accepts. */
  predicate AllSupported(vcs: seq<Option<Driver.VolumeCapability>>)
  {
    forall i :: 0 <= i < |vcs| ==> Driver.Supported(vcs[i])
  }

  /** The error of the first capability RegisterVolumeCapability refuses, if any. */
  function CapabilitiesError(vcs: seq<Option<Driver.VolumeCapability>>): (e: Option<Error>)
    ensures e.None? <==> AllSupported(vcs)
  {
    if |vcs| == 0 then None
    else if !Driver.Supported(vcs[0]) then Some(Driver.CapabilityError(vcs[0]))
    else
      assert forall i :: 1 <= i < |vcs| ==> vcs[i] == vcs[1..][i - 1];
      CapabilitiesError(vcs[1..])
  }

  /** The error is the one of the first capability refused: every capability before it is
      accepted. */
  lemma {:induction false} CapabilitiesErrorFirst(vcs: seq<Option<Driver.VolumeCapability>>, i: nat)
    requires i < |vcs| && AllSupported(vcs[..i]) && !Driver.Supported(vcs[i])
    ensures CapabilitiesError(vcs) == Some(Driver.CapabilityError(vcs[i]))
  {
    if i > 0 {
      assert Driver.Supported(vcs[..i][0]);
      assert vcs[1..][..i - 1] == vcs[..i][1..];
      CapabilitiesErrorFirst(vcs[1..], i - 1);
    }
  }

  /** The metadata once every capability has been recorded, in order. */
  function RecordAll(md: map<string, string>, vcs: seq<Option<Driver.VolumeCapability>>): map<string, string>
    requires AllSupported(vcs)
  {
    if |vcs| == 0 then md
    else Driver.Recorded(RecordAll(md, vcs[..|vcs| - 1]), vcs[|vcs| - 1].value)
  }

  /** Recording capabilities adds capability keys only, and keeps every other entry. */
  lemma {:induction false} RecordAllKeeps(md: map<string, string>, vcs: seq<Option<Driver.VolumeCapability>>)
    requires AllSupported(vcs)
    ensures md.Keys <= RecordAll(md, vcs).Keys <= md.Keys + Driver.CapabilityKeys
    ensures forall k :: k in md && k !in Driver.CapabilityKeys ==> RecordAll(md, vcs)[k] == md[k]
    ensures |vcs| > 0 ==> "access_type" in RecordAll(md, vcs) && "access_mode" in RecordAll(md, vcs)
  {
    if |vcs| > 0 {
      RecordAllKeeps(md, vcs[..|vcs| - 1]);
    }
  }

  /** One more accepted capability: one more recording. */
  lemma RecordAllStep(md: map<string, string>, vcs: seq<Option<Driver.VolumeCapability>>, i: nat)
    requires i < |vcs| && AllSupported(vcs[..i]) && Driver.Supported(vcs[i])
    ensures AllSupported(vcs[..i + 1])
    ensures RecordAll(md, vcs[..i + 1]) == Driver.Recorded(RecordAll(md, vcs[..i]), vcs[i].value)
  {
    assert vcs[..i + 1][..i] == vcs[..i];
  }

  /** The loop of CreateVolume over the requested capabilities: it stops at the first one
      refused. */
  method RegisterCapabilities(md: map<string, string>, vcs: seq<Option<Driver.VolumeCapability>>)
    returns (r: Outcome, mdOut: map<string, string>)
    ensures r.Pass? <==> AllSupported(vcs)
    ensures r.Pass? ==> mdOut == RecordAll(md, vcs)
    ensures r.Fail? ==> Some(r.error) == CapabilitiesError(vcs)
  {
    mdOut := md;
    var i := 0;
    while i < |vcs|
      invariant 0 <= i <= |vcs|
      invariant AllSupported(vcs[..i]) && mdOut == RecordAll(md, vcs[..i])
    {
      var res, next := Driver.RegisterVolumeCapability(mdOut, vcs[i]);
      if res.Fail? {
        CapabilitiesErrorFirst(vcs, i);
        return res, mdOut;
      }
      RecordAllStep(md, vcs, i);
      mdOut := next;
      i := i + 1;
    }
    assert vcs[..i] == vcs;
    r := Pass;
  }

  // ---------------------------------------------------------------- CreateVolume

  /** What the model keeps of a CreateVolumeRequest. `snapshotSource` is the snapshot id of a
      snapshot content source (a volume content source is not looked at). */
  datatype CreateVolumeRequest = CreateVolumeRequest(
    name: string,
    capacityRange: Option<CapacityRange>,
    volumeCapabilities: Option<seq<Option<Driver.VolumeCapability>>>,
    parameters: map<string, string>,
    snapshotSource: Option<string>,
    accessibility: Option<TopologyRequirement>)

  /** The volume a creation reports. */
  datatype VolumeReply = VolumeReply(capacityBytes: int, volumeId: string)

  const EmptyName: string := "Name must be provided (currently empty string)"
  const SizeConflict: string := "Requested volume exists, but has a different size"
  const NoCapabilities: string := "VolumeCapabilities cannot be empty"

  /** The display name, limited to its first 100 characters. */
  function DisplayName(name: string): (d: string)
    ensures |d| <= 100 && |d| <= |name| && d == name[..|d|]
    ensures |name| <= 100 ==> d == name
  {
    if |name| > 100 then name[..100] else name
  }

  /** The metadata a creation starts from: the display name, then the incoming metadata. */
  function Seeded(name: string, incoming: Option<map<string, seq<string>>>): (md: map<string, string>)
    ensures "display_name" in md
    ensures incoming.None? || "display_name" !in incoming.value ==> md["display_name"] == DisplayName(name)
    ensures forall k :: incoming.Some? && k in incoming.value ==> k in md && md[k] == Join(incoming.value[k], ",")
  {
    var named := map["display_name" := DisplayName(name)];
    if incoming.Some? then WithIncoming(named, incoming.value) else named
  }

  /** The checks CreateVolume makes between the lookup of an existing volume and the snapshot
      source: topology, metadata, capabilities and parameters, each failure as InvalidArgument.
      On success: the parsed options and the metadata SetMetadata will be given. */
  function Prepared(req: CreateVolumeRequest, incoming: Option<map<string, seq<string>>>)
    : (r: Result<(Volumes.VolOpts, Volumes.VolMetadata)>)
    ensures r.Err? ==> r.error.Status? && r.error.code == InvalidArgument
    ensures r.Ok? <==> && HandleTopologyRequirement(req.accessibility).Pass?
                       && req.volumeCapabilities.Some? && AllSupported(req.volumeCapabilities.value)
                       && VolParams(req.parameters).Ok?
    ensures r.Ok? ==> r.value.0 == VolParams(req.parameters).value
    ensures r.Ok? ==> r.value.1 == RecordAll(Seeded(req.name, incoming), req.volumeCapabilities.value)
                                   + Volumes.ToMap(r.value.0)
  {
    match HandleTopologyRequirement(req.accessibility)
    case Fail(e) => Err(Status(InvalidArgument, Text(e)))
    case Pass =>
      if req.volumeCapabilities.None? then Err(Status(InvalidArgument, NoCapabilities))
      else
        match CapabilitiesError(req.volumeCapabilities.value)
        case Some(e) => Err(Status(InvalidArgument, Text(e)))
        case None =>
          var recorded := RecordAll(Seeded(req.name, incoming), req.volumeCapabilities.value);
          match VolParams(req.parameters)
          case Err(e) => Err(Status(InvalidArgument, Text(e)))
          case Ok(opts) => Ok((opts, recorded + Volumes.ToMap(opts)))
  }

  /** The metadata of a prepared creation (Prepared's second half, over the Seeded map):
      every option under its ToMap key, the seed's entries except under option and capability
      keys, and the capabilities' keys. */
  lemma MetadataLayers(seed: map<string, string>, vcs: seq<Option<Driver.VolumeCapability>>, opts: Volumes.VolOpts)
    requires AllSupported(vcs)
    ensures var md := RecordAll(seed, vcs) + Volumes.ToMap(opts);
            && (forall k :: k in Volumes.ToMapKeys ==> k in md && md[k] == Volumes.ToMap(opts)[k])
            && (forall k :: k in seed && k !in Volumes.ToMapKeys && k !in Driver.CapabilityKeys ==> k in md && md[k] == seed[k])
            && (|vcs| > 0 ==> "access_type" in md && "access_mode" in md)
  {
    RecordAllKeeps(seed, vcs);
  }

  /** The clone source of a snapshot content source: the backend path of the snapshot the id
      names, each failure as InvalidArgument. No source, no clone source. */
  function SnapshotSource(b: Snapshots.Backend, source: Option<string>): (r: Result<Option<string>>)
    ensures source.None? <==> r == Ok(None)
    ensures r.Err? ==> r.error.Status? && r.error.code == InvalidArgument
  {
    match source
    case None => Ok(None)
    case Some(id) =>
      match ValidateSnapId(id)
      case Fail(e) => Err(Status(InvalidArgument, Text(e)))
      case Pass =>
        match Snapshots.SnapshotPathFromCsiId(b, id)
        case Err(e) => Err(Status(InvalidArgument, Text(e)))
        case Ok(p) => Ok(Some(p))
  }

  /** A composite id of a colon-free volume and timestamp whose volume exists and lists exactly
      one snapshot under the timestamp is cloned from that snapshot's path. */
  lemma SnapshotSourceOfMkSnapId(b: Snapshots.Backend, vol: string, ts: string)
    requires ':' !in vol && ':' !in ts && vol != ""
    requires b.lookup(vol) == Pass
    requires Snapshots.SnapsOf(b, vol, ts).Ok? && |Snapshots.SnapsOf(b, vol, ts).value| == 1
    ensures SnapshotSource(b, Some(Util.MkSnapId(vol, ts))) == Ok(Some(Snapshots.SnapsOf(b, vol, ts).value[0].path))
  {
    ValidateSnapIdExact(Util.MkSnapId(vol, ts));
    Snapshots.PathFromMkSnapId(b, vol, ts);
  }

  /** The options dc.CreateVolume is given: the parsed options with one replica under the
      replica override, the snapshot path as clone source, and the size. */
  function CreateOptions(opts: Volumes.VolOpts, replicaOverride: bool, src: Option<string>, size: int)
    : (o: Volumes.VolOpts)
    ensures o.size == size && o.replica == (if replicaOverride then 1 else opts.replica)
    ensures src.Some? ==> o.cloneSnapSrc == src.value
    ensures o.(size := opts.size, replica := opts.replica, cloneSnapSrc := opts.cloneSnapSrc) == opts
  {
    var replicated := if replicaOverride then opts.(replica := 1) else opts;
    var sourced := if src.Some? then replicated.(cloneSnapSrc := src.value) else replicated;
    sourced.(size := size)
  }

  /** CreateVolume once admitted by the registry. `existing` is the lookup of the generated id,
      `incoming` the request's gRPC metadata, `create` the backend's creation of the app
      instance. `attempted` holds the options dc.CreateVolume is called with, `sent` the
      request it sends and `written` the metadata handed to SetMetadata, whose failure is only
      logged. An existing volume is returned before anything else is checked. */
  method CreateVolume(req: CreateVolumeRequest, freshId: string, replicaOverride: bool,
                      incoming: Option<map<string, seq<string>>>, existing: Call<Volumes.AppInstance>,
                      b: Snapshots.Backend, vendorVersion: string,
                      create: Volumes.CreateRequest -> Call<Volumes.AppInstance>)
    returns (r: Result<VolumeReply>, attempted: Option<Volumes.VolOpts>,
             sent: Option<Volumes.CreateRequest>, written: Option<Volumes.VolMetadata>)
    ensures req.name == "" ==> r == Err(Status(InvalidArgument, EmptyName)) && attempted.None?
    ensures attempted.None? ==> sent.None? && written.None?
    ensures req.name != "" && existing.Done? ==>
              var size := Util.Wrap64(existing.value.size * GiB);
              && attempted.None?
              && r == if Conflicts(Normalize(req.capacityRange), size) then Err(Status(AlreadyExists, SizeConflict))
                      else Ok(VolumeReply(size, existing.value.name))
    ensures req.name != "" && !existing.Done? && Prepared(req, incoming).Err? ==>
              r == Err(Prepared(req, incoming).error) && attempted.None?
    ensures req.name != "" && !existing.Done? && Prepared(req, incoming).Ok?
            && SnapshotSource(b, req.snapshotSource).Err? ==>
              r == Err(SnapshotSource(b, req.snapshotSource).error) && attempted.None?
    ensures req.name != "" && !existing.Done? && Prepared(req, incoming).Ok?
            && SnapshotSource(b, req.snapshotSource).Ok? && Inverted(Normalize(req.capacityRange)) ==>
              r == Err(Plain(RangeMessage(Normalize(req.capacityRange).value))) && attempted.None?
    ensures attempted.Some? <==> && req.name != "" && !existing.Done? && Prepared(req, incoming).Ok?
                                 && SnapshotSource(b, req.snapshotSource).Ok?
                                 && !Inverted(Normalize(req.capacityRange))
    ensures attempted.Some? ==>
              attempted.value == CreateOptions(Prepared(req, incoming).value.0, replicaOverride,
                                               SnapshotSource(b, req.snapshotSource).value,
                                               CreatedSize(Normalize(req.capacityRange)))
    ensures attempted.Some? && sent.Some? ==>
              Volumes.FollowsPrecedence(Util.GenName(req.name, freshId), attempted.value, sent.value)
    ensures attempted.Some? && sent.Some? && create(sent.value).Done? ==> r.Ok?
    ensures attempted.Some? && r.Ok? ==>
              && sent.Some? && create(sent.value).Done?
              && r.value == VolumeReply(Util.Wrap64(CreatedSize(Normalize(req.capacityRange)) * GiB),
                                        create(sent.value).value.name)
              && written == Some(Prepared(req, incoming).value.1)
    ensures attempted.Some? && r.Err? ==> r.error.Status? && r.error.code == Unknown && written.None?
  {
    attempted, sent, written := None, None, None;
    if req.name == "" {
      return Err(Status(InvalidArgument, EmptyName)), attempted, sent, written;
    }
    var id := Util.GenName(req.name, freshId);
    var cr := Normalize(req.capacityRange);
    var found := Volumes.GetVolume(id, false, existing, NetFailure(""));
    if found.Ok? {
      var size := Util.Wrap64(found.value.size * GiB);
      if Conflicts(cr, size) {
        return Err(Status(AlreadyExists, SizeConflict)), attempted, sent, written;
      }
      return Ok(VolumeReply(size, found.value.name)), attempted, sent, written;
    }
    var prepared := PrepareVolume(req, incoming);
    if prepared.Err? {
      return Err(prepared.error), attempted, sent, written;
    }
    var (parsed, md) := prepared.value;
    var src := SnapshotSource(b, req.snapshotSource);
    if src.Err? {
      return Err(src.error), attempted, sent, written;
    }
    if Inverted(cr) {
      return Err(Plain(RangeMessage(cr.value))), attempted, sent, written;
    }
    var opts := CreateOptions(parsed, replicaOverride, src.value, CreatedSize(cr));
    attempted := Some(opts);
    var vol;
    sent, vol := Volumes.ClientCreateVolume(id, opts, false, vendorVersion, create, (q: Volumes.Qos) => NetFailure(""));
    if vol.Err? {
      return Err(Status(Unknown, Text(vol.error))), attempted, sent, written;
    }
    written := Some(md);
    r := Ok(VolumeReply(Util.Wrap64(opts.size * GiB), vol.value.name));
  }

  /** The topology, metadata, capability and parameter steps of CreateVolume. */
  method PrepareVolume(req: CreateVolumeRequest, incoming: Option<map<string, seq<string>>>)
    returns (r: Result<(Volumes.VolOpts, Volumes.VolMetadata)>)
    ensures r == Prepared(req, incoming)
  {
    var topology := HandleTopologyRequirement(req.accessibility);
    if topology.Fail? {
      return Err(Status(InvalidArgument, Text(topology.error)));
    }
    var md := map["display_name" := DisplayName(req.name)];
    var _, withIncoming := RegisterMdFromContext(md, incoming);
    md := withIncoming;
    if req.volumeCapabilities.None? {
      return Err(Status(InvalidArgument, NoCapabilities));
    }
    var registered, recorded := RegisterCapabilities(md, req.volumeCapabilities.value);
    if registered.Fail? {
      return Err(Status(InvalidArgument, Text(registered.error)));
    }
    md := recorded;
    var params := ParseVolParams(req.parameters);
    if params.Err? {
      return Err(Status(InvalidArgument, Text(params.error)));
    }
    md := md + Volumes.ToMap(params.value);
    r := Ok((params.value, md));
  }

  /** A created volume's reported capacity holds the required bytes whenever the rounded size
      fits Go's int64. */
  lemma CreatedCapacityHoldsRequired(cr: Option<CapacityRange>)
    requires CreatedSize(Normalize(cr)) * GiB <= MaxInt64
    ensures Util.Wrap64(CreatedSize(Normalize(cr)) * GiB) == CreatedSize(Normalize(cr)) * GiB >= GiB
    ensures cr.Some? ==> cr.value.requiredBytes <= Util.Wrap64(CreatedSize(Normalize(cr)) * GiB)
  {
  }

  // ---------------------------------------------------------------- DeleteVolume

  const SnapshotsFirst: string := "Volumes with snapshots cannot be deleted.  Delete snapshots first"

  /** DeleteVolume once admitted: a forced deletion of the named volume. Only an error that
      mentions "it has snapshots" is reported (as FailedPrecondition); every other failure,
      a missing volume included, counts as deleted. `issued` are the app-instance requests. */
  method DeleteVolume(volumeId: string, get: Call<Volumes.AppInstance>, reload: Outcome,
                      list: Call<seq<Snapshots.BackendSnap>>, setOffline: Call<bool>, del: Call<bool>)
    returns (r: Outcome, issued: seq<Volumes.AiRequest>)
    ensures volumeId == "" ==> r == Fail(Status(InvalidArgument, "VolumeId cannot be empty")) && issued == []
    ensures volumeId != "" && r.Fail? ==> r == Fail(Status(FailedPrecondition, SnapshotsFirst))
    ensures volumeId != "" && !get.Done? ==> r == Pass && issued == []
    ensures volumeId != "" && get.Done? && reload.Pass? && list.Done? && |list.value| > 0 ==>
              r == Fail(Status(FailedPrecondition, SnapshotsFirst)) && issued == []
    ensures volumeId != "" && get.Done? && (reload.Fail? || (list.Done? && |list.value| == 0))
            && setOffline.Done? && del.Done? ==>
              r == Pass && issued == [Volumes.SetAdminState("offline", true), Volumes.DeleteAppInstance(true)]
    ensures issued != [] ==> issued[0] == Volumes.SetAdminState("offline", true)
  {
    if volumeId == "" {
      return Fail(Status(InvalidArgument, "VolumeId cannot be empty")), [];
    }
    var res;
    res, issued := Volumes.ClientDeleteVolume(volumeId, true, get, reload, list, setOffline, del);
    if !get.Done? {
      NoSnapshotsInMissing();
    }
    if get.Done? && reload.Pass? && list.Done? && |list.value| > 0 {
      HasSnapshotsMentioned(get.value.name);
    }
    if res.Fail? && Contains(Text(res.error), "it has snapshots") {
      return Fail(Status(FailedPrecondition, SnapshotsFirst)), issued;
    }
    r := Pass;
  }

  /** The refusal of a volume with snapshots mentions "it has snapshots". */
  lemma HasSnapshotsMentioned(name: string)
    ensures Contains(Volumes.HasSnapshotsMessage(name), "it has snapshots")
  {
    var m := Volumes.HasSnapshotsMessage(name);
    assert m == "Volume " + name + " cannot be deleted because " + "it has snapshots" + "";
    ContainsInfix("Volume " + name + " cannot be deleted because ", "it has snapshots", "");
  }

  /** The failure for a missing app instance does not: it has no 'h'. */
  lemma NoSnapshotsInMissing()
    ensures !Contains(Volumes.NilAppInstance, "it has snapshots")
  {
    assert 'h' !in "Cannot construct a Client" && 'h' !in " Volume from a nil AppInstance";
    if Contains(Volumes.NilAppInstance, "it has snapshots") {
      ContainsChars(Volumes.NilAppInstance, "it has snapshots", 3);
    }
  }

  // ---------------------------------------------------------------- DeleteSnapshot

  /** DeleteSnapshot once admitted: only an empty id is an error. A composite id that does not
      parse, a volume that cannot be found and a failed deletion all count as deleted.
      `reloaded` is the volume's snapshot list after its reload, `target` the snapshot a
      deletion was issued for. */
  method DeleteSnapshot(snapshotId: string, get: Call<Volumes.AppInstance>,
                        reloaded: Result<seq<Snapshots.BackendSnap>>, del: Call<bool>)
    returns (r: Outcome, target: Option<Snapshots.BackendSnap>)
    ensures snapshotId == "" ==> r == Fail(Status(InvalidArgument, "SnapshotId is invalid (empty string)")) && target.None?
    ensures snapshotId != "" ==> r == Pass
    ensures var (vid, sid) := Util.ParseSnapId(snapshotId);
            target.Some? <==> && vid != "" && sid != "" && get.Done? && reloaded.Ok?
                              && Snapshots.LastMatch(reloaded.value, sid).Some?
    ensures target.Some? ==> target == Snapshots.LastMatch(reloaded.value, Util.ParseSnapId(snapshotId).1)
  {
    target := None;
    if snapshotId == "" {
      return Fail(Status(InvalidArgument, "SnapshotId is invalid (empty string)")), target;
    }
    var (vid, sid) := Util.ParseSnapId(snapshotId);
    if vid == "" || sid == "" {
      return Pass, target;
    }
    var vol := Volumes.GetVolume(vid, false, get, NetFailure(""));
    if vol.Err? {
      return Pass, target;
    }
    var _, t := Snapshots.DeleteSnapshot(reloaded, sid, del);
    target := t;
    r := Pass;
  }


  // ---------------------------------------------------------------- ListSnapshots

  /** The creation time of a snapshot from its id: ParseFloat, math.Modf and TimestampProto
      are an oracle that yields whole seconds, a ParseFloat error or a timestamp error. */
  datatype Stamp = Seconds(seconds: int) | BadFloat(msg: string) | BadTime(msg: string)

  /** One listed snapshot: its composite id, its volume and its creation time. */
  datatype ListEntry = ListEntry(snapshotId: string, sourceVolumeId: string, creationSeconds: int)

  datatype ListReply = ListReply(entries: seq<ListEntry>, nextToken: string)

  /** The start offset of a listing: 0 for an empty token, else the token as an integer. */
  function StartToken(token: string): (r: Result<int>)
    ensures r.Err? ==> r.error.Status? && r.error.code == InvalidArgument
  {
    if token == "" then Ok(0)
    else match ParseInt(token)
      case Err(e) => Err(Status(InvalidArgument, Text(e)))
      case Ok(n) => Ok(n)
  }

  /** The token of the next page: empty when the listing is complete. */
  function NextToken(next: int): string
  {
    if next != 0 then FormatInt(next) else ""
  }

  /** Reading back the token of the next page starts exactly where the page ended. */
  lemma NextTokenRoundTrip(next: int)
    requires MinInt64 <= next <= MaxInt64
    ensures StartToken(NextToken(next)) == Ok(next)
  {
    if next != 0 {
      ParseFormatInt(next);
    }
  }

  /** The entries of a page, in order; the first snapshot whose time cannot be read fails
      the listing. */
  function EntriesOf(snaps: seq<Snapshots.Snapshot>, stamp: string -> Stamp): (r: Result<seq<ListEntry>>)
    ensures r.Err? ==> r.error.Status? && r.error.code in {InvalidArgument, Unknown}
  {
    if |snaps| == 0 then Ok([])
    else
      match EntriesOf(snaps[..|snaps| - 1], stamp)
      case Err(e) => Err(e)
      case Ok(es) =>
        var s := snaps[|snaps| - 1];
        match stamp(s.id)
        case Seconds(n) => Ok(es + [ListEntry(Util.MkSnapId(s.volName, s.id), s.volName, n)])
        case BadFloat(m) => Err(Status(InvalidArgument, m))
        case BadTime(m) => Err(Status(Unknown, m))
  }

  /** A failure in a prefix is the failure of the whole page. */
  lemma {:induction false} EntriesOfErrExtends(snaps: seq<Snapshots.Snapshot>, i: nat, stamp: string -> Stamp)
    requires i <= |snaps| && EntriesOf(snaps[..i], stamp).Err?
    ensures EntriesOf(snaps, stamp) == EntriesOf(snaps[..i], stamp)
    decreases |snaps| - i
  {
    if i < |snaps| {
      assert snaps[..i + 1][..i] == snaps[..i];
      EntriesOfErrExtends(snaps, i + 1, stamp);
    } else {
      assert snaps[..i] == snaps;
    }
  }

  /** Every entry names its snapshot by the composite id of its volume and timestamp. */
  lemma {:induction false} EntriesOfIds(snaps: seq<Snapshots.Snapshot>, stamp: string -> Stamp)
    requires EntriesOf(snaps, stamp).Ok?
    ensures var es := EntriesOf(snaps, stamp).value;
            && |es| == |snaps|
            && (forall i :: 0 <= i < |es| ==>
                  && es[i].snapshotId == Util.MkSnapId(snaps[i].volName, snaps[i].id)
                  && es[i].sourceVolumeId == snaps[i].volName
                  && stamp(snaps[i].id) == Seconds(es[i].creationSeconds))
  {
    if |snaps| > 0 {
      var init := snaps[..|snaps| - 1];
      EntriesOfIds(init, stamp);
      forall i | 0 <= i < |init| ensures snaps[i] == init[i] { }
    }
  }

  /** The listing's answer to a failed gathering: a missing source volume and a malformed
      snapshot id list nothing; every other error is Unknown. A panic is not an error value
      and goes through. */
  function ListFailure(e: Error, sourceVol: string): Result<ListReply>
  {
    if e.Panic? then Err(e)
    else if sourceVol != "" && Contains(Text(e), "NotFound") then Ok(ListReply([], ""))
    else if Contains(Text(e), "must be of format") then Ok(ListReply([], ""))
    else Err(Status(Unknown, Text(e)))
  }

  /** A snapshot id that does not parse lists nothing, whatever the backend holds. */
  lemma MalformedListsNothing(b: Snapshots.Backend, snapId: string, sourceVol: string)
    requires snapId != "" && (Util.ParseSnapId(snapId).0 == "" || Util.ParseSnapId(snapId).1 == "")
    ensures ListFailure(Snapshots.Gather(b, snapId, sourceVol).error, sourceVol) == Ok(ListReply([], ""))
  {
    Snapshots.GatherRejectsMalformed(b, snapId, sourceVol);
    ContainsInfix("SnapshotId ", "must be of format", " app_instance_name:snapshot_timestamp");
  }

  /** A source volume the backend reports as NotFound lists nothing. */
  lemma MissingSourceListsNothing(b: Snapshots.Backend, sourceVol: string, code: int, message: string)
    requires sourceVol != ""
    requires b.lookup(sourceVol) == Fail(Util.ErrTranslator(ApiError("NotFound", code, message)))
    ensures ListFailure(Snapshots.Gather(b, "", sourceVol).error, sourceVol) == Ok(ListReply([], ""))
  {
    var t := Text(Util.ErrTranslator(ApiError("NotFound", code, message)));
    var rest := " desc = " + ("NotFound" + ": " + message);
    assert t == "rpc error: code = " + "NotFound" + rest;
    ContainsInfix("rpc error: code = ", "NotFound", rest);
  }

  /** ListSnapshots once admitted: read the start token, list through the client, tolerate the
      failures ListFailure names, and turn the page into entries. `sorted` is the whole sorted
      list the page is cut from. */
  method ListSnapshots(b: Snapshots.Backend, snapshotId: string, sourceVolumeId: string, maxEntries: int,
                       startingToken: string, stamp: string -> Stamp)
    returns (r: Result<ListReply>, ghost sorted: seq<Snapshots.Snapshot>)
    ensures StartToken(startingToken).Err? ==> r == Err(StartToken(startingToken).error)
    ensures StartToken(startingToken).Ok? && Snapshots.Gather(b, snapshotId, sourceVolumeId).Err? ==>
              r == ListFailure(Snapshots.Gather(b, snapshotId, sourceVolumeId).error, sourceVolumeId)
    ensures StartToken(startingToken).Ok? && Snapshots.Gather(b, snapshotId, sourceVolumeId).Ok? ==>
              var page := Snapshots.PageOf(sorted, maxEntries, StartToken(startingToken).value);
              && Snapshots.SortedById(sorted)
              && multiset(sorted) == multiset(Snapshots.Gather(b, snapshotId, sourceVolumeId).value)
              && (page.Err? ==> r == Err(page.error))
              && (page.Ok? && EntriesOf(page.value.snaps, stamp).Err? ==>
                    r == Err(EntriesOf(page.value.snaps, stamp).error))
              && (page.Ok? && EntriesOf(page.value.snaps, stamp).Ok? ==>
                    r == Ok(ListReply(EntriesOf(page.value.snaps, stamp).value, NextToken(page.value.next))))
  {
    sorted := [];
    var st := StartToken(startingToken);
    if st.Err? {
      return Err(st.error), sorted;
    }
    var listed;
    listed, sorted := Snapshots.ListSnapshots(b, snapshotId, sourceVolumeId, maxEntries, st.value);
    if listed.Err? {
      return ListFailure(listed.error, sourceVolumeId), sorted;
    }
    var snaps := listed.value.snaps;
    var entries: seq<ListEntry> := [];
    var i := 0;
    while i < |snaps|
      invariant 0 <= i <= |snaps|
      invariant EntriesOf(snaps[..i], stamp) == Ok(entries)
    {
      assert snaps[..i + 1][..i] == snaps[..i];
      var s := snaps[i];
      match stamp(s.id)
      case BadFloat(m) =>
        EntriesOfErrExtends(snaps, i + 1, stamp);
        return Err(Status(InvalidArgument, m)), sorted;
      case BadTime(m) =>
        EntriesOfErrExtends(snaps, i + 1, stamp);
        return Err(Status(Unknown, m)), sorted;
      case Seconds(n) =>
        entries := entries + [ListEntry(Util.MkSnapId(s.volName, s.id), s.volName, n)];
      i := i + 1;
    }
    assert snaps[..i] == snaps;
    r := Ok(ListReply(entries, NextToken(listed.value.next)));
  }

  // ---------------------------------------------------------------- GetCapacity

  /** The backend's capacity figures the handler reads. */
  datatype Capacity = Capacity(total: int, flashTotal: int)

  const DivideByZero: string := "runtime error: integer divide by zero"

  /** The capacity a placement can use: the all-flash total for "all_flash", else the total. */
  function Usable(opts: Volumes.VolOpts, cap: Capacity): int
  {
    Util.Wrap64(if opts.placementMode == "all_flash" then cap.flashTotal else cap.total)
  }

  /** GetCapacity once admitted: the usable capacity divided by the replica count, with Go's
      int64 division (truncating, wrapping for MinInt64 / -1, panicking for 0). */
  method GetCapacity(params: map<string, string>, capacity: Call<Capacity>) returns (r: Result<int>)
    ensures VolParams(params).Err? ==> r == Err(Status(InvalidArgument, Text(VolParams(params).error)))
    ensures VolParams(params).Ok? && !capacity.Done? ==> r == Err(Status(Unknown, Text(Util.CallError(capacity))))
    ensures VolParams(params).Ok? && capacity.Done? ==>
              var opts := VolParams(params).value;
              && (opts.replica == 0 ==> r == Err(Panic(DivideByZero)))
              && (opts.replica != 0 ==> r == Ok(Util.Wrap64(GoDiv(Usable(opts, capacity.value), opts.replica))))
  {
    var opts := ParseVolParams(params);
    if opts.Err? {
      return Err(Status(InvalidArgument, Text(opts.error)));
    }
    if !capacity.Done? {
      return Err(Status(Unknown, Text(Util.CallError(capacity))));
    }
    var acap := Usable(opts.value, capacity.value);
    var replica := opts.value.replica;
    if replica == 0 {
      return Err(Panic(DivideByZero));
    }
    r := Ok(Util.Wrap64(GoDiv(acap, replica)));
  }

  /** With a positive replica count and a non-negative usable capacity, the answer is the
      capacity per replica: the largest amount of which that many copies fit. */
  lemma CapacityPerReplica(usable: int, replica: int)
    requires 0 <= usable <= MaxInt64 && replica >= 1
    ensures var q := Util.Wrap64(GoDiv(usable, replica));
            0 <= q <= usable && q * replica <= usable < (q + 1) * replica
  {
    GoDivFloor(usable, replica);
  }

  /** The one quotient Go's int64 division wraps: MinInt64 / -1 is MinInt64. */
  lemma CapacityWraps()
    ensures GoDiv(MinInt64, -1) == MaxInt64 + 1 && Util.Wrap64(GoDiv(MinInt64, -1)) == MinInt64
  {
  }

  // ---------------------------------------------------------------- ControllerExpandVolume

  datatype ExpandReply = ExpandReply(capacityBytes: int, nodeExpansionRequired: bool)

  /** ControllerExpandVolume once admitted: look the volume up, resize it, and report the
      required bytes. A request without a capacity range dereferences nil. `resized` is the
      size in GiB the volume is resized to. */
  method ControllerExpandVolume(volumeId: string, capacityRange: Option<CapacityRange>,
                                get: Call<Volumes.AppInstance>, update: Call<bool>,
                                reload: Call<Volumes.AppInstance>)
    returns (r: Result<ExpandReply>, resized: Option<int>)
    ensures volumeId == "" ==>
              r == Err(Status(InvalidArgument, "Volume name cannot be an empty string")) && resized.None?
    ensures volumeId != "" && !get.Done? ==>
              r == Err(Status(InvalidArgument, Text(Util.CallError(get)))) && resized.None?
    ensures volumeId != "" && get.Done? && capacityRange.None? ==> r == Err(Panic(NilDeref)) && resized.None?
    ensures volumeId != "" && get.Done? && capacityRange.Some? ==>
              && resized == Some(ExpandSize(capacityRange.value))
              && (r.Ok? <==> update.Done? && reload.Done?)
              && (r.Ok? ==> r.value == ExpandReply(capacityRange.value.requiredBytes, true))
              && (r.Err? ==> r.error.Status? && r.error.code == Unknown)
  {
    resized := None;
    var cr := Normalize(capacityRange);
    var vol := Volumes.GetVolume(volumeId, false, get, NetFailure(""));
    if vol.Err? {
      return Err(Status(InvalidArgument, Text(vol.error))), resized;
    }
    if cr.None? {
      return Err(Panic(NilDeref)), resized;
    }
    resized := Some(ExpandSize(cr.value));
    var res := Volumes.Resize(update, reload);
    if res.Fail? {
      return Err(Status(Unknown, Text(res.error))), resized;
    }
    r := Ok(ExpandReply(cr.value.requiredBytes, true));
  }
}

/** pkg/common/util.go: resource names, composite snapshot ids, vendor-version comparison,
    backend-error translation and CHAP secret stripping. */
module Util {
  import opened Wrappers
  import opened Strs

  /** Display names are truncated to this many runes before the "CSI-" prefix is added. */
  const MaxNameRunes: nat := 58

  const NamePrefix: string := "CSI-"

  function Min(a: int, b: int): int { if a < b then a else b }

  // ---------------------------------------------------------------- GenName

  /** GenName exactly as written: `len(name)` counts BYTES, but the truncation slices RUNES,
      so a name longer than 58 bytes but shorter than 58 runes is sliced past its length. Go
      allows that up to the slice's capacity, which the runtime picks when it converts the
      string: below 58 the slice panics, otherwise the missing runes read as NUL. `capacity`
      stands for that capacity and `freshId` for GenId(), a random UUID. */
  function GenNameAsWritten(name: string, freshId: string, capacity: nat): (r: Result<string>)
    ensures r.Err? <==> var n := if name == "" then freshId else name;
                         Utf8Len(n) > MaxNameRunes && |n| < MaxNameRunes && capacity < MaxNameRunes
    ensures r.Ok? ==> HasPrefix(r.value, NamePrefix)
  {
    var n := if name == "" then freshId else name;
    if Utf8Len(n) > MaxNameRunes then
      if |n| < MaxNameRunes then
        if capacity < MaxNameRunes then
          Err(Panic("runtime error: slice bounds out of range [:58] with capacity " + FormatInt(capacity)))
        else Ok(Join(["CSI", n + seq(MaxNameRunes - |n|, _ => '\0')], "-"))
      else Ok(Join(["CSI", n[..MaxNameRunes]], "-"))
    else Ok(Join(["CSI", n], "-"))
  }

  /** GenName as intended: "CSI-" followed by the first min(58, runecount) runes of the name,
      or of a fresh random id when the name is empty. */
  function GenName(name: string, freshId: string): (r: string)
    ensures HasPrefix(r, NamePrefix) && |r| <= |NamePrefix| + MaxNameRunes
    ensures var n := if name == "" then freshId else name;
            r[|NamePrefix|..] == n[..Min(MaxNameRunes, |n|)]
  {
    var n := if name == "" then freshId else name;
    "CSI-" + n[..Min(MaxNameRunes, |n|)]
  }

  /** k copies of a character take k times its UTF-8 length. */
  lemma {:induction false} Utf8LenRepeat(c: char, k: nat)
    ensures Utf8Len(seq(k, _ => c)) == k * RuneLen(c)
  {
    if k > 0 {
      var s := seq(k, _ => c);
      assert s[1..] == seq(k - 1, _ => c);
      Utf8LenRepeat(c, k - 1);
    }
  }

  /** Thirty copies of 'é' are 60 bytes but 30 runes: with the capacity of 32 runes the
      conversion gets, the source panics on this name. */
  lemma GenNameAsWrittenPanics()
    ensures GenNameAsWritten(seq(30, _ => 'é'), "", 32).Err?
    ensures GenNameAsWritten(seq(30, _ => 'é'), "", 32).error.Panic?
  {
    Utf8LenRepeat('é', 30);
  }

  /** Wherever the name has at least 58 runes or at most 58 bytes, the source computes the
      intended name. */
  lemma GenNameAgrees(name: string, freshId: string, capacity: nat)
    requires var n := if name == "" then freshId else name;
             Utf8Len(n) <= MaxNameRunes || |n| >= MaxNameRunes
    ensures GenNameAsWritten(name, freshId, capacity) == Ok(GenName(name, freshId))
  {
    var n := if name == "" then freshId else name;
    if Utf8Len(n) <= MaxNameRunes {
      Utf8LenAtLeastRunes(n);
      assert n[..|n|] == n;
      Join2("CSI", n, "-");
    } else {
      Join2("CSI", n[..MaxNameRunes], "-");
    }
  }

  /** Otherwise, when the slice does not panic, the source pads the intended name with NUL
      runes up to 58. */
  lemma GenNameAsWrittenPads(name: string, freshId: string, capacity: nat)
    requires var n := if name == "" then freshId else name;
             Utf8Len(n) > MaxNameRunes && |n| < MaxNameRunes
    requires capacity >= MaxNameRunes
    ensures var n := if name == "" then freshId else name;
            GenNameAsWritten(name, freshId, capacity)
              == Ok(GenName(name, freshId) + seq(MaxNameRunes - |n|, _ => '\0'))
  {
    var n := if name == "" then freshId else name;
    var pad := seq(MaxNameRunes - |n|, _ => '\0');
    Join2("CSI", n + pad, "-");
    assert n[..Min(MaxNameRunes, |n|)] == n;
    assert "CSI" + "-" + (n + pad) == (NamePrefix + n) + pad;
  }

  // ---------------------------------------------------------------- composite snapshot ids

  /** The externally visible snapshot id "<volume>:<snapshot timestamp>". */
  function MkSnapId(vol: string, snap: string): string
  {
    Join([vol, snap], ":")
  }

  /** Splits a composite id on ':'; anything that does not split into exactly two pieces
      gives ("", ""). */
  function ParseSnapId(snapId: string): (string, string)
  {
    var parts := Split(snapId, ':');
    if |parts| != 2 then ("", "") else (parts[0], parts[1])
  }

  /** Round trip: a composite id made of two colon-free parts parses back into them. */
  lemma ParseMkSnapId(vol: string, snap: string)
    requires ':' !in vol && ':' !in snap
    ensures ParseSnapId(MkSnapId(vol, snap)) == (vol, snap)
  {
    SplitJoin([vol, snap], ':');
  }

  /** Conversely, a successful parse returns colon-free parts that rebuild the id. */
  lemma ParseSnapIdSound(snapId: string)
    requires ParseSnapId(snapId) != ("", "")
    ensures var (v, s) := ParseSnapId(snapId);
            ':' !in v && ':' !in s && MkSnapId(v, s) == snapId
  {
    var parts := Split(snapId, ':');
    SplitPiecesFree(snapId, ':');
    JoinSplit(snapId, ':');
    assert parts == [parts[0], parts[1]];
    assert ":" == [':'];
  }

  /** An id with no colon at all is rejected. */
  lemma ParseSnapIdNoColon(snapId: string)
    requires ':' !in snapId
    ensures ParseSnapId(snapId) == ("", "")
  {
    SplitNoSep(snapId, ':');
  }

  // ---------------------------------------------------------------- vendor versions

  const TwoTo64: int := 0x1_0000_0000_0000_0000

  /** Go's 64-bit signed wrap-around. */
  function Wrap64(x: int): (r: int)
    ensures MinInt64 <= r <= MaxInt64
    ensures MinInt64 <= x <= MaxInt64 ==> r == x
  {
    (x - MinInt64) % TwoTo64 + MinInt64
  }

  /** int(factor) for the k-th dotted component: the float factor starts at 1e8 and is divided
      by 100 after each component, so it truncates to 0 from the sixth component on. */
  function Weight(k: nat): int
  {
    if k == 0 then 100000000
    else if k == 1 then 1000000
    else if k == 2 then 10000
    else if k == 3 then 100
    else if k == 4 then 1
    else 0
  }

  /** Reference definition of versionToInt over the dotted components, starting at component
      number k with accumulator acc. */
  function VersionFold(parts: seq<string>, k: nat, acc: int): Result<int>
  {
    if |parts| == 0 then Ok(acc)
    else match ParseInt(parts[0])
      case Err(e) => Err(e)
      case Ok(i) => VersionFold(parts[1..], k + 1, Wrap64(acc + Wrap64(i * Weight(k))))
  }

  /** The value of a version string: VersionFold of its dotted components. */
  function VersionValue(v: string): Result<int>
  {
    VersionFold(Split(v, '.'), 0, 0)
  }

  /** versionToInt: a loop over the dotted components with an accumulator and a shrinking
      weight; the first component that is not an integer aborts the loop. */
  method VersionToInt(v: string) returns (r: Result<int>)
    ensures r == VersionValue(v)
  {
    var parts := Split(v, '.');
    var result := 0;
    var i := 0;
    while i < |parts|
      invariant 0 <= i <= |parts|
      invariant VersionFold(parts[i..], i, result) == VersionFold(parts, 0, 0)
    {
      assert parts[i..][1..] == parts[i + 1..];
      var c := ParseInt(parts[i]);
      if c.Err? {
        return Err(c.error);
      }
      result := Wrap64(result + Wrap64(c.value * Weight(i)));
      i := i + 1;
    }
    r := Ok(result);
  }

  /** A version value is an error exactly when some component is not an integer. */
  lemma {:induction false} VersionFoldErrIff(parts: seq<string>, k: nat, acc: int)
    ensures VersionFold(parts, k, acc).Err? <==> exists j :: 0 <= j < |parts| && ParseInt(parts[j]).Err?
  {
    if |parts| > 0 && ParseInt(parts[0]).Ok? {
      VersionFoldErrIff(parts[1..], k + 1, Wrap64(acc + Wrap64(ParseInt(parts[0]).value * Weight(k))));
      {
        forall j | 1 <= j < |parts| ensures parts[j] == parts[1..][j - 1] { }
        if exists j :: 0 <= j < |parts| && ParseInt(parts[j]).Err? {
          var j :| 0 <= j < |parts| && ParseInt(parts[j]).Err?;
          assert parts[1..][j - 1] == parts[j];
        }
      }
    }
  }

  /** A version of four dotted two-digit components (each 0..99). */
  predicate FourPart(parts: seq<string>, a: seq<int>)
  {
    |parts| == 4 && |a| == 4
    && forall j :: 0 <= j < 4 ==> ParseInt(parts[j]) == Ok(a[j]) && 0 <= a[j] < 100
  }

  function Weighted4(a: seq<int>): int
    requires |a| == 4
  {
    a[0] * 100000000 + a[1] * 1000000 + a[2] * 10000 + a[3] * 100
  }

  /** For four components in 0..99 nothing wraps: the value is the weighted sum. */
  lemma VersionFourPart(parts: seq<string>, a: seq<int>)
    requires FourPart(parts, a)
    ensures VersionFold(parts, 0, 0) == Ok(Weighted4(a))
  {
    var s1 := a[0] * 100000000;
    var s2 := s1 + a[1] * 1000000;
    var s3 := s2 + a[2] * 10000;
    var s4 := s3 + a[3] * 100;
    assert parts[1..][1..] == parts[2..];
    assert parts[2..][1..] == parts[3..];
    assert parts[3..][1..] == parts[4..];
    calc {
      VersionFold(parts, 0, 0);
      VersionFold(parts[1..], 1, s1);
      VersionFold(parts[2..], 2, s2);
      VersionFold(parts[3..], 3, s3);
      VersionFold(parts[4..], 4, s4);
    }
  }

  /** Lexicographic order on component lists. */
  predicate LexGe(a: seq<int>, b: seq<int>)
    requires |a| == |b|
    decreases |a|
  {
    |a| == 0 || a[0] > b[0] || (a[0] == b[0] && LexGe(a[1..], b[1..]))
  }

  /** The weights 10^8, 10^6, 10^4, 10^2 make the numeric order of four-part versions with
      components below 100 the lexicographic order of their components. */
  lemma Weighted4IsLex(a: seq<int>, b: seq<int>)
    requires |a| == 4 && |b| == 4
    requires forall j :: 0 <= j < 4 ==> 0 <= a[j] < 100 && 0 <= b[j] < 100
    ensures Weighted4(a) >= Weighted4(b) <==> LexGe(a, b)
  {
    assert a[1..][1..] == a[2..] && b[1..][1..] == b[2..];
    assert a[2..][1..] == a[3..] && b[2..][1..] == b[3..];
    assert a[3..][1..] == a[4..] && b[3..][1..] == b[4..];
    assert LexGe(a[4..], b[4..]);
    assert LexGe(a[3..], b[3..]) <==> a[3] >= b[3];
    assert LexGe(a[2..], b[2..]) <==> a[2] > b[2] || (a[2] == b[2] && a[3] >= b[3]);
    assert LexGe(a[1..], b[1..]) <==> a[1] > b[1] || (a[1] == b[1] && LexGe(a[2..], b[2..]));
    assert LexGe(a, b) <==> a[0] > b[0] || (a[0] == b[0] && LexGe(a[1..], b[1..]));
  }

  /** DatVersionGte: (v1 >= v2, nil), or (false, err) when either side does not parse. */
  method DatVersionGte(v1: string, v2: string) returns (yes: bool, err: Option<Error>)
    ensures err.None? <==> VersionValue(v1).Ok? && VersionValue(v2).Ok?
    ensures err.Some? ==> !yes
    ensures err.None? ==> yes == (VersionValue(v1).value >= VersionValue(v2).value)
  {
    var a := VersionToInt(v1);
    if a.Err? {
      return false, Some(a.error);
    }
    var b := VersionToInt(v2);
    if b.Err? {
      return false, Some(b.error);
    }
    return a.value >= b.value, None;
  }

  /** Every parseable version compares at least itself, with no error. */
  method DatVersionGteReflexive(v: string) returns (yes: bool, err: Option<Error>)
    requires VersionValue(v).Ok?
    ensures yes && err.None?
  {
    yes, err := DatVersionGte(v, v);
  }

  // ---------------------------------------------------------------- error translation

  /** ErrTranslator: authentication failures and missing resources keep their meaning as gRPC
      codes; every other backend error is Unknown. The message is "<name>: <message>". */
  function ErrTranslator(apierr: ApiError): (r: Error)
    ensures r.Status? && r.msg == apierr.name + ": " + apierr.message
    ensures r.code == Unauthenticated <==> apierr.name == "AuthFailedError"
    ensures r.code == NotFound <==> apierr.name == "NotFound"
    ensures r.code in {Unauthenticated, NotFound, Unknown}
  {
    var msg := apierr.name + ": " + apierr.message;
    if apierr.name == "AuthFailedError" then Status(Unauthenticated, msg)
    else if apierr.name == "NotFound" then Status(NotFound, msg)
    else Status(Unknown, msg)
  }

  /** The error a failed SDK call is returned as: a transport error as is, a backend error
      translated. */
  function CallError<T>(c: Call<T>): Error
    requires !c.Done?
  {
    match c
    case NetFailure(m) => Plain(m)
    case ApiFailure(a) => ErrTranslator(a)
  }

  // ---------------------------------------------------------------- CHAP secrets

  /** The request types whose secrets are inspected. */
  datatype RequestKind = CreateVolumeRequest | NodeStageVolumeRequest | DeleteVolumeRequest | OtherRequest

  const Stripped: string := "***stripped***"

  const ChapKeys: set<string> := {
    "node.session.auth.username", "node.session.auth.password",
    "node.session.auth.username_in", "node.session.auth.password_in"
  }

  /** StripSecretsAndGetChapParams. The source overwrites entries of the request's secrets map
      in place; here the rewritten map is returned as `secretsOut`. */
  method StripSecretsAndGetChapParams(kind: RequestKind, secrets: map<string, string>)
    returns (secretsOut: map<string, string>, chapParams: map<string, string>)
    ensures kind == OtherRequest ==> chapParams == map[] && secretsOut == secrets
    ensures kind != OtherRequest ==>
              && chapParams.Keys == secrets.Keys * ChapKeys
              && (forall k :: k in chapParams ==> chapParams[k] == secrets[k])
              && secretsOut.Keys == secrets.Keys
              && (forall k :: k in secretsOut ==>
                     secretsOut[k] == if k in ChapKeys then Stripped else secrets[k])
    ensures kind != OtherRequest ==> secretsOut + chapParams == secrets
  {
    chapParams := map[];
    secretsOut := secrets;
    if kind == OtherRequest {
      return;
    }
    if "node.session.auth.username" in secretsOut {
      var value := secretsOut["node.session.auth.username"];
      secretsOut := secretsOut["node.session.auth.username" := Stripped];
      chapParams := chapParams["node.session.auth.username" := value];
    }
    if "node.session.auth.password" in secretsOut {
      var value := secretsOut["node.session.auth.password"];
      secretsOut := secretsOut["node.session.auth.password" := Stripped];
      chapParams := chapParams["node.session.auth.password" := value];
    }
    if "node.session.auth.username_in" in secretsOut {
      var value := secretsOut["node.session.auth.username_in"];
      secretsOut := secretsOut["node.session.auth.username_in" := Stripped];
      chapParams := chapParams["node.session.auth.username_in" := value];
    }
    if "node.session.auth.password_in" in secretsOut {
      var value := secretsOut["node.session.auth.password_in"];
      secretsOut := secretsOut["node.session.auth.password_in" := Stripped];
      chapParams := chapParams["node.session.auth.password_in" := value];
    }
  }
}

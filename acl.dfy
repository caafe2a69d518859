/** pkg/client/acl.go: the client's IQN from the initiator file, getting or creating the
    backend initiator for it, and adding it to or removing it from a volume's ACL policy. ACL
    policies are lists of initiator paths; the backend calls are parameters. */
module Acls {
  import opened Wrappers
  import opened Strs
  import Util

  /** The client initiator: its backend name, path and IQN. */
  datatype Initiator = Initiator(name: string, path: string, iqn: string)

  const IndexPanic: string := "runtime error: index out of range [1] with length 1"

  // ---------------------------------------------------------------- GetClientIqn

  /** GetClientIqn: the second '='-separated field of the trimmed initiator file; a file
      without '=' panics. `file` is the outcome of reading the file. */
  function ClientIqn(file: Result<string>): (r: Result<string>)
    ensures file.Err? ==> r == file
    ensures file.Ok? ==> var parts := Split(TrimSpace(file.value), '=');
                          && (|parts| >= 2 ==> r == Ok(parts[1]))
                          && (|parts| < 2 ==> r.Err? && r.error.Panic?)
  {
    match file
    case Err(e) => Err(e)
    case Ok(dat) =>
      var parts := Split(TrimSpace(dat), '=');
      if |parts| < 2 then Err(Panic(IndexPanic)) else Ok(parts[1])
  }

  /** A string that starts with a non-space character has nothing to trim on the left. */
  lemma TrimLeftNonSpace(s: string)
    requires |s| > 0 && !IsSpace(s[0])
    ensures TrimLeftSpace(s) == s
  {
  }

  /** The newline ending an initiator file is trimmed, and nothing before it. */
  lemma TrimRightNewline(s: string)
    requires |s| > 0 && !IsSpace(s[|s| - 1])
    ensures TrimRightSpace(s + "\n") == s
  {
    assert (s + "\n")[..|s + "\n"| - 1] == s;
  }

  /** The IQN of an initiator file "InitiatorName=<iqn>" followed by a newline, when the IQN
      holds no '=' and does not end in white space. */
  lemma ClientIqnOfFile(iqn: string)
    requires iqn != "" && '=' !in iqn && !IsSpace(iqn[|iqn| - 1])
    ensures ClientIqn(Ok("InitiatorName=" + iqn + "\n")) == Ok(iqn)
  {
    var line := "InitiatorName=" + iqn;
    assert line + "\n" == "InitiatorName=" + iqn + "\n";
    TrimRightNewline(line);
    TrimLeftNonSpace(line + "\n");
    assert TrimSpace(line + "\n") == line;
    assert line == "InitiatorName" + ['='] + iqn;
    SplitFirst("InitiatorName", '=', iqn);
    SplitNoSep(iqn, '=');
  }

  // ---------------------------------------------------------------- CreateGetInitiator

  /** The initiator record the backend returns. */
  datatype BackendInitiator = BackendInitiator(name: string, path: string, id: string)

  function FromBackend(b: BackendInitiator): Initiator
  {
    Initiator(b.name, b.path, b.id)
  }

  /** An initiator creation: its name and IQN (always forced). */
  datatype InitiatorCreate = InitiatorCreate(name: string, id: string)

  /** CreateGetInitiator as written: look the IQN up and create the initiator only when the
      lookup says NotFoundError. Another API error returns no initiator and no error (the
      source returns its transport error, which is nil there); a transport failure of the lookup
      leaves the initiator nil and reading its name panics. `freshId` is the random name
      GenName("") draws. */
  method CreateGetInitiatorAsWritten(file: Result<string>, get: Call<BackendInitiator>,
                                     create: InitiatorCreate -> Call<BackendInitiator>, freshId: string)
    returns (r: Result<Option<Initiator>>, created: Option<InitiatorCreate>)
    ensures ClientIqn(file).Err? ==> r == Err(ClientIqn(file).error) && created.None?
    ensures ClientIqn(file).Ok? && get.Done? ==> r == Ok(Some(FromBackend(get.value))) && created.None?
    ensures ClientIqn(file).Ok? && get.ApiFailure? && get.api.name != "NotFoundError" ==>
              r == Ok(None) && created.None?
    ensures ClientIqn(file).Ok? && get.NetFailure? ==> r.Err? && r.error.Panic? && created.None?
    ensures created.Some? <==> ClientIqn(file).Ok? && get.ApiFailure? && get.api.name == "NotFoundError"
    ensures created.Some? ==>
              && created.value == InitiatorCreate(Util.GenName("", freshId), ClientIqn(file).value)
              && (r.Ok? <==> create(created.value).Done?)
              && (r.Ok? ==> r.value == Some(FromBackend(create(created.value).value)))
  {
    var iqn := ClientIqn(file);
    if iqn.Err? {
      return Err(iqn.error), None;
    }
    match get
    case Done(b) => return Ok(Some(FromBackend(b))), None;
    case NetFailure(_) => return Err(Panic("invalid memory address or nil pointer dereference")), None;
    case ApiFailure(a) =>
      if a.name != "NotFoundError" {
        return Ok(None), None;
      }
      var req := InitiatorCreate(Util.GenName("", freshId), iqn.value);
      created := Some(req);
      match create(req)
      case NetFailure(m) => return Err(Plain(m)), created;
      case ApiFailure(a2) => return Err(Util.ErrTranslator(a2)), created;
      case Done(b) => return Ok(Some(FromBackend(b))), created;
  }

  /** CreateGetInitiator as intended: every failure is an error, and success always yields an
      initiator. */
  method CreateGetInitiator(file: Result<string>, get: Call<BackendInitiator>,
                            create: InitiatorCreate -> Call<BackendInitiator>, freshId: string)
    returns (r: Result<Initiator>, created: Option<InitiatorCreate>)
    ensures ClientIqn(file).Err? ==> r == Err(ClientIqn(file).error) && created.None?
    ensures ClientIqn(file).Ok? && get.Done? ==> r == Ok(FromBackend(get.value)) && created.None?
    ensures ClientIqn(file).Ok? && get.ApiFailure? && get.api.name != "NotFoundError" ==>
              r == Err(Util.ErrTranslator(get.api)) && created.None?
    ensures ClientIqn(file).Ok? && get.NetFailure? ==> r == Err(Plain(get.msg)) && created.None?
    ensures created.Some? <==> ClientIqn(file).Ok? && get.ApiFailure? && get.api.name == "NotFoundError"
    ensures created.Some? ==>
              && created.value == InitiatorCreate(Util.GenName("", freshId), ClientIqn(file).value)
              && (r.Ok? <==> create(created.value).Done?)
              && (r.Ok? ==> r.value == FromBackend(create(created.value).value))
    ensures r.Err? ==> !r.error.Panic? || ClientIqn(file).Err?
  {
    var iqn := ClientIqn(file);
    if iqn.Err? {
      return Err(iqn.error), None;
    }
    match get
    case Done(b) => return Ok(FromBackend(b)), None;
    case NetFailure(m) => return Err(Plain(m)), None;
    case ApiFailure(a) =>
      if a.name != "NotFoundError" {
        return Err(Util.ErrTranslator(a)), None;
      }
      var req := InitiatorCreate(Util.GenName("", freshId), iqn.value);
      created := Some(req);
      match create(req)
      case NetFailure(m) => return Err(Plain(m)), created;
      case ApiFailure(a2) => return Err(Util.ErrTranslator(a2)), created;
      case Done(b) => return Ok(FromBackend(b)), created;
  }

  /** With a readable IQN and a lookup refused for another reason than NotFoundError, the
      written code reports success without an initiator, and the intended code an error. */
  method CreateGetInitiatorSilentFailure(file: Result<string>, api: ApiError,
                                         create: InitiatorCreate -> Call<BackendInitiator>, freshId: string)
    returns (asWritten: Result<Option<Initiator>>, intended: Result<Initiator>)
    requires ClientIqn(file).Ok? && api.name != "NotFoundError"
    ensures asWritten == Ok(None)
    ensures intended == Err(Util.ErrTranslator(api))
  {
    var sentAsWritten, sentIntended;
    asWritten, sentAsWritten := CreateGetInitiatorAsWritten(file, ApiFailure(api), create, freshId);
    intended, sentIntended := CreateGetInitiator(file, ApiFailure(api), create, freshId);
  }

  // ---------------------------------------------------------------- ACL edits

  /** The initiator list with every entry equal to `p` dropped, in order. */
  function Without(inits: seq<string>, p: string): (r: seq<string>)
    ensures |r| <= |inits|
  {
    if |inits| == 0 then []
    else Without(inits[..|inits| - 1], p) + (if inits[|inits| - 1] != p then [inits[|inits| - 1]] else [])
  }

  /** Removing `p` keeps exactly the other entries. */
  lemma {:induction false} WithoutMembers(inits: seq<string>, p: string, x: string)
    ensures x in Without(inits, p) <==> x in inits && x != p
  {
    if |inits| > 0 {
      WithoutMembers(inits[..|inits| - 1], p, x);
      assert inits == inits[..|inits| - 1] + [inits[|inits| - 1]];
    }
  }

  /** An initiator not on the list leaves it as it was. */
  lemma {:induction false} WithoutAbsent(inits: seq<string>, p: string)
    requires p !in inits
    ensures Without(inits, p) == inits
  {
    if |inits| > 0 {
      WithoutAbsent(inits[..|inits| - 1], p);
      assert inits == inits[..|inits| - 1] + [inits[|inits| - 1]];
    }
  }

  /** The result of the policy read, and what the ACL write received. */
  function SetOutcome(write: Call<bool>): (r: Outcome)
    ensures r.Pass? <==> write.Done?
  {
    match write
    case Done(_) => Pass
    case NetFailure(m) => Fail(Plain(m))
    case ApiFailure(a) => Fail(Util.ErrTranslator(a))
  }

  /** Volume.RegisterAcl: read the policy and write it back with the initiator's path appended
      (a duplicate is appended again). A failed read writes nothing. */
  method RegisterAcl(policy: Call<seq<string>>, cinit: Initiator, write: Call<bool>)
    returns (r: Outcome, written: Option<seq<string>>)
    ensures !policy.Done? ==> r == Fail(Util.CallError(policy)) && written.None?
    ensures policy.Done? ==> written == Some(policy.value + [cinit.path]) && r == SetOutcome(write)
  {
    match policy
    case NetFailure(m) => return Fail(Plain(m)), None;
    case ApiFailure(a) => return Fail(Util.ErrTranslator(a)), None;
    case Done(inits) =>
      var acl := inits + [cinit.path];
      return SetOutcome(write), Some(acl);
  }

  /** `n` copies of `p`. */
  function Copies(n: nat, p: string): (r: seq<string>)
    ensures |r| == n && forall i :: 0 <= i < n ==> r[i] == p
  {
    seq(n, _ => p)
  }

  /** Volume.UnregisterAcl as written: one entry is kept for each initiator whose path differs
      from the client's, but every kept entry carries the client's own path. */
  method UnregisterAclAsWritten(policy: Call<seq<string>>, cinit: Initiator, write: Call<bool>)
    returns (r: Outcome, written: Option<seq<string>>)
    ensures !policy.Done? ==> r == Fail(Util.CallError(policy)) && written.None?
    ensures policy.Done? ==>
              written == Some(Copies(|Without(policy.value, cinit.path)|, cinit.path)) && r == SetOutcome(write)
  {
    match policy
    case NetFailure(m) => return Fail(Plain(m)), None;
    case ApiFailure(a) => return Fail(Util.ErrTranslator(a)), None;
    case Done(inits) =>
      var newInits: seq<string> := [];
      var i := 0;
      while i < |inits|
        invariant 0 <= i <= |inits|
        invariant newInits == Copies(|Without(inits[..i], cinit.path)|, cinit.path)
      {
        assert inits[..i + 1][..i] == inits[..i];
        if inits[i] != cinit.path {
          newInits := newInits + [cinit.path];
        }
        i := i + 1;
      }
      assert inits[..|inits|] == inits;
      return SetOutcome(write), Some(newInits);
  }

  /** Volume.UnregisterAcl as intended: the policy is written back without the client's path. */
  method UnregisterAcl(policy: Call<seq<string>>, cinit: Initiator, write: Call<bool>)
    returns (r: Outcome, written: Option<seq<string>>)
    ensures !policy.Done? ==> r == Fail(Util.CallError(policy)) && written.None?
    ensures policy.Done? ==> written == Some(Without(policy.value, cinit.path)) && r == SetOutcome(write)
  {
    match policy
    case NetFailure(m) => return Fail(Plain(m)), None;
    case ApiFailure(a) => return Fail(Util.ErrTranslator(a)), None;
    case Done(inits) =>
      var newInits: seq<string> := [];
      var i := 0;
      while i < |inits|
        invariant 0 <= i <= |inits|
        invariant newInits == Without(inits[..i], cinit.path)
      {
        assert inits[..i + 1][..i] == inits[..i];
        if inits[i] != cinit.path {
          newInits := newInits + [inits[i]];
        }
        i := i + 1;
      }
      assert inits[..|inits|] == inits;
      return SetOutcome(write), Some(newInits);
  }

  /** On the policy [client, other] the written code writes [client] back: the client stays
      registered and the other initiator is dropped. The intended code writes [other]. */
  lemma UnregisterAclKeepsClient(client: string, other: string)
    requires client != other
    ensures Copies(|Without([client, other], client)|, client) == [client]
    ensures Without([client, other], client) == [other]
  {
    assert [client, other][..1] == [client];
    assert [client][..0] == [];
  }
}

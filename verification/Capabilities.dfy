/** Workspace members and their capabilities: what a request may grant, and what runs of requests keep. */
module Capabilities {
  import opened Common

  type UserId = string
  type Capability = string

  const ALL: seq<Capability> := [
    "read", "create", "update", "delete", "upload", "publish", "manage_channels", "manage_members", "manage_workspace"
  ]

  predicate ValidRole(role: string) {
    role in ["owner", "admin", "editor", "viewer"]
  }

  /** The capabilities a role stands for when it is assigned. */
  function Preset(role: string): seq<Capability> {
    if role == "owner" then ALL
    else if role == "admin" then
      ["read", "create", "update", "upload", "publish", "delete", "manage_channels", "manage_members"]
    else if role == "editor" then ["read", "create", "update", "upload", "publish"]
    else if role == "viewer" then ["read"]
    else []
  }

  datatype Member = Member(role: string, permissions: seq<Capability>)

  type Members = map<UserId, Member>

  datatype Error =
    | NotAMember
    | UserNotFound
    | InvalidCapability(unknown: string)
    | InvalidRole
    | NothingToUpdate
    | Escalation(missing: Capability)
    | OwnerImmutable
    | AlreadyMember
    | Internal

  // ----- normalizing a request -----

  function FirstUnknown(caps: seq<string>): (u: Option<string>)
    ensures u.None? <==> forall c :: c in caps ==> c in ALL
    ensures u.Some? ==> u.value in caps && u.value !in ALL
  {
    if caps == [] then None else if caps[0] !in ALL then Some(caps[0]) else FirstUnknown(caps[1..])
  }

  /** Where a request names a capability first. */
  function FirstAt(caps: seq<string>, c: string): (i: nat)
    requires c in caps
    ensures i < |caps| && caps[i] == c && c !in caps[..i]
  {
    if caps[0] == c then 0 else 1 + FirstAt(caps[1..], c)
  }

  lemma {:induction false} FirstAtIs(caps: seq<string>, c: string, i: nat)
    requires i < |caps| && caps[i] == c && c !in caps[..i]
    ensures FirstAt(caps, c) == i
  {
    if i > 0 {
      assert caps[0] in caps[..i];
      assert caps[1..][..i - 1] == caps[..i][1..];
      FirstAtIs(caps[1..], c, i - 1);
    }
  }

  /** The request without its repetitions, in the order in which it first names each capability. */
  ghost predicate Cleaned(caps: seq<string>, clean: seq<string>) {
    && (forall c :: c in clean <==> c in caps)
    && (forall i, j :: 0 <= i < j < |clean| ==> clean[i] in caps && clean[j] in caps
                                                 && FirstAt(caps, clean[i]) < FirstAt(caps, clean[j]))
  }

  function Clean(caps: seq<string>): (clean: seq<string>)
    ensures Cleaned(caps, clean)
  {
    if caps == [] then []
    else
      var before := Clean(caps[..|caps| - 1]);
      var last := caps[|caps| - 1];
      CleanSnoc(caps, before);
      if last in before then before else before + [last]
  }

  lemma FirstAtSnoc(front: seq<string>, last: string, c: string)
    requires c in front + [last]
    ensures FirstAt(front + [last], c) == if c in front then FirstAt(front, c) else |front|
  {
    var i := if c in front then FirstAt(front, c) else |front|;
    assert (front + [last])[..i] == front[..i];
    FirstAtIs(front + [last], c, i);
  }

  lemma CleanSnoc(caps: seq<string>, before: seq<string>)
    requires caps != [] && Cleaned(caps[..|caps| - 1], before)
    ensures var last := caps[|caps| - 1]; Cleaned(caps, if last in before then before else before + [last])
  {
    var front, last := caps[..|caps| - 1], caps[|caps| - 1];
    assert caps == front + [last];
    forall c | c in caps
      ensures FirstAt(caps, c) == if c in front then FirstAt(front, c) else |front|
    {
      FirstAtSnoc(front, last, c);
    }
  }

  lemma {:induction false} FirstUnknownAt(caps: seq<string>, i: nat)
    requires i < |caps| && caps[i] !in ALL && forall c :: c in caps[..i] ==> c in ALL
    ensures FirstUnknown(caps) == Some(caps[i])
  {
    if i > 0 {
      assert caps[0] in caps[..i];
      assert caps[1..][..i - 1] == caps[..i][1..];
      FirstUnknownAt(caps[1..], i - 1);
    }
  }

  /** Go's nil slice is `None`: it is what an unknown capability leaves, whatever its name. */
  method NormalizeCapabilities(requested: seq<string>) returns (clean: Option<seq<string>>, unknown: string)
    ensures clean == if requested != [] && FirstUnknown(requested).None? then Some(Clean(requested)) else None
    ensures Some(unknown) == FirstUnknown(requested) || (unknown == "" && FirstUnknown(requested).None?)
  {
    var seen: set<string> := {};
    var kept: seq<string> := [];
    var i := 0;
    while i < |requested|
      invariant 0 <= i <= |requested|
      invariant forall c :: c in requested[..i] ==> c in ALL
      invariant forall c :: c in seen <==> c in kept
      invariant kept == Clean(requested[..i])
    {
      var r := requested[i];
      assert requested[..i + 1] == requested[..i] + [r];
      if r !in ALL {
        FirstUnknownAt(requested, i);
        return None, r;
      }
      if r !in seen {
        seen := seen + {r};
        kept := kept + [r];
      }
      i := i + 1;
    }
    assert requested[..i] == requested;
    assert requested != [] ==> requested[0] in kept;
    return if kept == [] then None else Some(kept), "";
  }

  // ----- requests -----

  datatype Request =
    | Add(actor: UserId, user: Option<UserId>, role: string, caps: seq<string>)
    | Update(actor: UserId, target: UserId, role: string, caps: seq<string>)

  /** The row a request wants to write; its permissions are nil when `None`. */
  datatype Write = Write(adding: bool, user: UserId, role: string, permissions: Option<seq<Capability>>)

  /** An explicit list wins over the role, and its label is taken as it comes. */
  function Resolve(role: string, caps: seq<string>): Result<(string, Option<seq<Capability>>), Error> {
    if caps != [] then
      var unknown := FirstUnknown(caps);
      if unknown.Some? && unknown.value != "" then Err(InvalidCapability(unknown.value))
      else Ok((if role != "" then role else "custom", if unknown.Some? then None else Some(Clean(caps))))
    else if role == "" then Err(NothingToUpdate)
    else if !ValidRole(role) then Err(InvalidRole)
    else Ok((role, Some(Preset(role))))
  }

  function FirstMissing(held: seq<Capability>, requested: seq<Capability>): (m: Option<Capability>)
    ensures m.None? <==> forall c :: c in requested ==> c in held
    ensures m.Some? ==> m.value in requested && m.value !in held
  {
    if requested == [] then None
    else if requested[0] !in held then Some(requested[0])
    else FirstMissing(held, requested[1..])
  }

  function Granted(held: seq<Capability>, adding: bool, user: UserId, role: string, caps: seq<string>)
    : Result<Write, Error>
  {
    var resolved := Resolve(role, caps);
    if resolved.Err? then Err(resolved.error)
    else
      var missing := FirstMissing(held, if resolved.value.1.Some? then resolved.value.1.value else []);
      if missing.Some? then Err(Escalation(missing.value))
      else Ok(Write(adding, user, resolved.value.0, resolved.value.1))
  }

  /** What a request looks at once it has read what its actor holds. */
  function Judged(m: Members, q: Request, held: seq<Capability>): Result<Write, Error> {
    match q
    case Add(_, user, role, caps) =>
      if user.None? then Err(UserNotFound) else Granted(held, true, user.value, role, caps)
    case Update(_, target, role, caps) =>
      if target !in m then Err(NotAMember)
      else if m[target].role == "owner" then Err(OwnerImmutable)
      else Granted(held, false, target, role, caps)
  }

  /** Everything a request looks at before it writes. */
  function Checked(m: Members, q: Request): Result<Write, Error> {
    if q.actor !in m then Err(NotAMember) else Judged(m, q, m[q.actor].permissions)
  }

  /** CreateMember and UpdateMemberPermissions: the column takes no NULL, and a nil list is one. */
  function Written(m: Members, w: Write): (Members, Result<Member, Error>) {
    if w.permissions.None? then (m, Err(Internal))
    else if w.adding && w.user in m then (m, Err(AlreadyMember))
    else if !w.adding && w.user !in m then (m, Err(NotAMember))
    else
      var row := Member(w.role, w.permissions.value);
      (m[w.user := row], Ok(row))
  }

  function Called(m: Members, q: Request): (Members, Result<Member, Error>) {
    var w := Checked(m, q);
    if w.Err? then (m, Err(w.error)) else Written(m, w.value)
  }

  /** The first query that fails: of the actor, of the user or target, or the write, with or without effect. */
  datatype Fault = Healthy | ActorReadFails | SecondReadFails | WriteFails(applied: bool)

  function CalledWith(m: Members, q: Request, fault: Fault): (Members, Result<Member, Error>) {
    match fault
    case Healthy => Called(m, q)
    case ActorReadFails => (m, Err(Internal))
    case SecondReadFails => (m, Err(if q.actor in m then Internal else NotAMember))
    case WriteFails(applied) =>
      var w := Checked(m, q);
      if w.Err? then (m, Err(w.error)) else (if applied then Written(m, w.value).0 else m, Err(Internal))
  }

  class WorkspaceService {
    var members: Members

    constructor (owner: UserId)
      ensures members == map[owner := Member("owner", ALL)]
    {
      members := map[owner := Member("owner", ALL)];
    }

    method ResolveCapabilities(role: string, caps: seq<string>)
      returns (r: Result<(string, Option<seq<Capability>>), Error>)
      ensures r == Resolve(role, caps)
    {
      if |caps| > 0 {
        var clean, unknown := NormalizeCapabilities(caps);
        if unknown != "" { return Err(InvalidCapability(unknown)); }
        var shown := "custom";
        if role != "" { shown := role; }
        return Ok((shown, clean));
      }
      if role != "" {
        if !ValidRole(role) { return Err(InvalidRole); }
        return Ok((role, Some(Preset(role))));
      }
      return Err(NothingToUpdate);
    }

    method AddMember(actor: UserId, user: Option<UserId>, role: string, caps: seq<string>, fault: Fault)
      returns (r: Result<Member, Error>)
      modifies this
      ensures (members, r) == CalledWith(old(members), Add(actor, user, role, caps), fault)
    {
      if fault.ActorReadFails? { return Err(Internal); }
      if actor !in members { return Err(NotAMember); }
      if fault.SecondReadFails? { return Err(Internal); }
      if user.None? { return Err(UserNotFound); }
      var resolved := ResolveCapabilities(role, caps);
      if resolved.Err? { return Err(resolved.error); }
      var (finalRole, finalCaps) := resolved.value;
      var missing := FirstMissing(members[actor].permissions, if finalCaps.Some? then finalCaps.value else []);
      if missing.Some? { return Err(Escalation(missing.value)); }
      r := CreateMember(user.value, finalRole, finalCaps, fault);
    }

    method UpdateCapabilities(actor: UserId, target: UserId, role: string, caps: seq<string>, fault: Fault)
      returns (r: Result<Member, Error>)
      modifies this
      ensures (members, r) == CalledWith(old(members), Update(actor, target, role, caps), fault)
    {
      if fault.ActorReadFails? { return Err(Internal); }
      if actor !in members { return Err(NotAMember); }
      if fault.SecondReadFails? { return Err(Internal); }
      if target !in members { return Err(NotAMember); }
      if members[target].role == "owner" { return Err(OwnerImmutable); }
      var resolved := ResolveCapabilities(role, caps);
      if resolved.Err? { return Err(resolved.error); }
      var (finalRole, finalCaps) := resolved.value;
      var missing := FirstMissing(members[actor].permissions, if finalCaps.Some? then finalCaps.value else []);
      if missing.Some? { return Err(Escalation(missing.value)); }
      r := UpdateMemberPermissions(target, finalRole, finalCaps, fault);
    }

    method CreateMember(user: UserId, role: string, permissions: Option<seq<Capability>>, fault: Fault)
      returns (r: Result<Member, Error>)
      modifies this
      ensures var (m, answer) := Written(old(members), Write(true, user, role, permissions));
              && members == (if fault == WriteFails(false) then old(members) else m)
              && r == (if fault.WriteFails? then Err(Internal) else answer)
    {
      if permissions.None? || fault == WriteFails(false) { return Err(Internal); }
      if user in members { return Err(if fault.WriteFails? then Internal else AlreadyMember); }
      members := members[user := Member(role, permissions.value)];
      return if fault.WriteFails? then Err(Internal) else Ok(members[user]);
    }

    method UpdateMemberPermissions(user: UserId, role: string, permissions: Option<seq<Capability>>, fault: Fault)
      returns (r: Result<Member, Error>)
      modifies this
      ensures var (m, answer) := Written(old(members), Write(false, user, role, permissions));
              && members == (if fault == WriteFails(false) then old(members) else m)
              && r == (if fault.WriteFails? then Err(Internal) else answer)
    {
      if permissions.None? || fault == WriteFails(false) { return Err(Internal); }
      if user !in members { return Err(if fault.WriteFails? then Internal else NotAMember); }
      members := members[user := Member(role, permissions.value)];
      return if fault.WriteFails? then Err(Internal) else Ok(members[user]);
    }
  }

  /** The request gets as far as its capabilities: actor and user are known, the target is no owner. */
  predicate Heard(m: Members, q: Request) {
    && q.actor in m
    && match q
       case Add(_, user, _, _) => user.Some?
       case Update(_, target, _, _) => target in m && !IsOwner(m, target)
  }

  predicate IsOwner(m: Members, u: UserId) {
    u in m && m[u].role == "owner"
  }

  predicate Has(m: Members, u: UserId, c: Capability) {
    u in m && c in m[u].permissions
  }

  /** The capabilities each role stands for, as the documentation of the roles lists them. */
  lemma PresetsAre()
    ensures forall c :: c in Preset("viewer") <==> c in {"read"}
    ensures forall c :: c in Preset("editor") <==> c in {"read", "create", "update", "upload", "publish"}
    ensures forall c :: c in Preset("admin") <==>
      c in {"read", "create", "update", "upload", "publish", "delete", "manage_channels", "manage_members"}
    ensures forall c :: c in Preset("owner") <==>
      c in {"read", "create", "update", "upload", "publish", "delete", "manage_channels", "manage_members",
            "manage_workspace"}
    ensures forall c :: c in ALL <==> c in Preset("owner")
  {
  }

  /** Viewer, editor, admin and owner hold strictly more from one to the next. */
  lemma RolesGrow()
    ensures Fewer("viewer", "editor") && Fewer("editor", "admin") && Fewer("admin", "owner")
    ensures forall role :: ValidRole(role) ==>
      && ("manage_members" in Preset(role) <==> role == "admin" || role == "owner")
      && ("manage_workspace" in Preset(role) <==> role == "owner")
  {
    PresetsAre();
    assert "create" in Preset("editor") && "delete" in Preset("admin") && "manage_workspace" in Preset("owner");
  }

  ghost predicate Fewer(role: string, more: string) {
    (forall c :: c in Preset(role) ==> c in Preset(more)) && exists c :: c in Preset(more) && c !in Preset(role)
  }

  /** An accepted request without a list is for one of the four roles, and stores exactly its capabilities. */
  lemma RoleIsStored(m: Members, q: Request, c: Capability)
    requires q.caps == [] && Called(m, q).1.Ok?
    ensures var row := Called(m, q).1.value;
            && row.role == q.role
            && (q.role == "viewer" || q.role == "editor" || q.role == "admin" || q.role == "owner")
            && (c in row.permissions <==>
                  match q.role
                  case "viewer" => c in {"read"}
                  case "editor" => c in {"read", "create", "update", "upload", "publish"}
                  case "admin" =>
                    c in {"read", "create", "update", "upload", "publish", "delete", "manage_channels",
                          "manage_members"}
                  case _ =>
                    c in {"read", "create", "update", "upload", "publish", "delete", "manage_channels",
                          "manage_members", "manage_workspace"})
  {
    PresetsAre();
  }

  /** Whichever query fails, the caller is told of an error, and the table is as it was or as the call meant it. */
  lemma FaultsOnlyLoseTheAnswer(m: Members, q: Request, fault: Fault)
    requires !fault.Healthy?
    ensures var (m', r) := CalledWith(m, q, fault);
            && r.Err?
            && (m' == m || (fault == WriteFails(true) && m' == Called(m, q).0))
            && (Called(m, q).1.Ok? ==> r == Err(Internal))
  {
  }

  /**
    What an accepted request stores: the capabilities asked for, each once and each held by the
    actor. A list is reported as invalid exactly when its first unknown name is not the empty
    string; a list that starts its unknown names with that one fails otherwise.
   */
  lemma AcceptedRequestStores(m: Members, q: Request)
    ensures var (m', r) := Called(m, q);
            && (r.Ok? ==> Heard(m, q) && forall c :: c in r.value.permissions ==> Has(m, q.actor, c))
            && (r.Ok? && q.caps != [] ==> Cleaned(q.caps, r.value.permissions) && FirstUnknown(q.caps).None?)
            && (r.Ok? && q.caps == [] ==> ValidRole(q.role) && r.value == Member(q.role, Preset(q.role)))
            && (r.Err? ==> m' == m)
            && (Heard(m, q) ==>
                  (r.Err? && r.error.InvalidCapability?
                   <==> FirstUnknown(q.caps).Some? && FirstUnknown(q.caps).value != ""))
            && (FirstUnknown(q.caps) == Some("") ==> r.Err?)
  {
  }

  /** An update that resolves is written exactly when its actor holds all it resolves to. */
  lemma UpdateIff(m: Members, actor: UserId, target: UserId, role: string, caps: seq<string>,
                  shown: string, want: seq<Capability>)
    requires actor in m && target in m && !IsOwner(m, target)
    requires Resolve(role, caps) == Ok((shown, Some(want)))
    ensures var (m', r) := Called(m, Update(actor, target, role, caps));
            && (r.Ok? <==> forall c :: c in want ==> Has(m, actor, c))
            && (r.Ok? ==> r.value == Member(shown, want) && m' == m[target := r.value])
  {
    var missing := FirstMissing(m[actor].permissions, want);
    if missing.Some? {
      assert missing.value in want && !Has(m, actor, missing.value);
    } else {
      assert forall c :: c in want ==> Has(m, actor, c);
    }
  }

  lemma AddIff(m: Members, actor: UserId, user: UserId, role: string, caps: seq<string>,
               shown: string, want: seq<Capability>)
    requires actor in m && user !in m
    requires Resolve(role, caps) == Ok((shown, Some(want)))
    ensures var (m', r) := Called(m, Add(actor, Some(user), role, caps));
            && (r.Ok? <==> forall c :: c in want ==> Has(m, actor, c))
            && (r.Ok? ==> r.value == Member(shown, want) && m' == m[user := r.value])
  {
    var missing := FirstMissing(m[actor].permissions, want);
    if missing.Some? {
      assert missing.value in want && !Has(m, actor, missing.value);
    } else {
      assert forall c :: c in want ==> Has(m, actor, c);
    }
  }

  /** The request names a member who is not an owner yet, or adds someone who is no member. */
  predicate Labels(m: Members, q: Request, u: UserId) {
    && q.actor in m && q.role == "owner"
    && match q
       case Add(_, user, _, _) => user == Some(u) && u !in m
       case Update(_, target, _, _) => target == u && u in m && !IsOwner(m, u)
  }

  /**
    Who may give the owner label, to a member or to someone he adds: with a list of capabilities,
    anyone who holds those he names; only without one is it reserved to those who hold everything.
   */
  lemma OwnerLabelIff(m: Members, q: Request, u: UserId)
    requires Labels(m, q, u)
    ensures var (m', r) := Called(m, q);
            && (r.Ok? <==>
                  if q.caps == [] then forall c :: c in ALL ==> Has(m, q.actor, c)
                  else FirstUnknown(q.caps).None? && forall c :: c in q.caps ==> Has(m, q.actor, c))
            && (r.Ok? ==>
                  && m' == m[u := r.value]
                  && r.value == Member("owner", if q.caps == [] then ALL else Clean(q.caps)))
  {
    if q.caps == [] || FirstUnknown(q.caps).None? {
      var want := if q.caps == [] then ALL else Clean(q.caps);
      assert forall c :: c in want <==> if q.caps == [] then c in ALL else c in q.caps;
      if q.Update? {
        UpdateIff(m, q.actor, u, "owner", q.caps, "owner", want);
      } else {
        AddIff(m, q.actor, u, "owner", q.caps, "owner", want);
      }
    }
  }

  // ----- requests side by side -----

  type OpId = nat

  /** A request has read what its actor holds, or has passed all checks. */
  datatype Stage = Begun(q: Request, held: seq<Capability>) | Ready(w: Write)

  /** A request reads its actor, then checks, then writes; others may come between. */
  datatype Sys = Sys(members: Members, pending: map<OpId, Stage>)

  datatype Event = Begin(op: OpId, q: Request) | Check(op: OpId) | Store(op: OpId) | Drop(op: OpId)

  function Apply(s: Sys, e: Event): Sys {
    match e
    case Begin(op, q) =>
      if op in s.pending || q.actor !in s.members then s
      else s.(pending := s.pending[op := Begun(q, s.members[q.actor].permissions)])
    case Check(op) =>
      if !(op in s.pending && s.pending[op].Begun?) then s
      else
        var w := Judged(s.members, s.pending[op].q, s.pending[op].held);
        s.(pending := if w.Ok? then s.pending[op := Ready(w.value)] else s.pending - {op})
    case Store(op) =>
      if !(op in s.pending && s.pending[op].Ready?) then s
      else Sys(Written(s.members, s.pending[op].w).0, s.pending - {op})
    case Drop(op) => s.(pending := s.pending - {op})
  }

  function Run(s: Sys, events: seq<Event>): Sys
    decreases |events|
  {
    if events == [] then s else Run(Apply(s, events[0]), events[1..])
  }

  lemma {:induction false} RunAppends(s: Sys, a: seq<Event>, b: seq<Event>)
    ensures Run(s, a + b) == Run(Run(s, a), b)
    decreases |a|
  {
    if a == [] {
      assert a + b == b;
    } else {
      assert (a + b)[1..] == a[1..] + b;
      RunAppends(Apply(s, a[0]), a[1..], b);
    }
  }

  lemma RunThree(s: Sys, a: Event, b: Event, c: Event)
    ensures Run(s, [a, b, c]) == Apply(Apply(Apply(s, a), b), c)
  {
    assert [a, b, c][1..] == [b, c];
    assert [b, c][1..] == [c];
    assert Run(s, [a, b, c]) == Run(Apply(s, a), [b, c]) == Run(Apply(Apply(s, a), b), [c]);
    assert [c][1..] == [];
  }

  /** A request that nothing comes between is one call of the service. */
  lemma UndisturbedRequestIsACall(m: Members, q: Request)
    ensures Run(Sys(m, map[]), [Begin(0, q), Check(0), Store(0)]) == Sys(Called(m, q).0, map[])
  {
    var s := Sys(m, map[]);
    RunThree(s, Begin(0, q), Check(0), Store(0));
    if q.actor in m {
      var s1 := Apply(s, Begin(0, q));
      assert s1 == Sys(m, map[0 := Begun(q, m[q.actor].permissions)]);
      var s2 := Apply(s1, Check(0));
      var w := Checked(m, q);
      if w.Ok? {
        assert s2 == Sys(m, map[0 := Ready(w.value)]);
        assert Apply(s2, Store(0)) == Sys(Written(m, w.value).0, map[]);
      } else {
        assert s2 == s;
      }
    }
  }

  /** What a request under way may still grant. */
  predicate Carries(stage: Stage, c: Capability) {
    match stage
    case Begun(_, held) => c in held
    case Ready(w) => w.permissions.Some? && c in w.permissions.value
  }

  /** Nobody who acts in the run, and no request under way, carries the capability. */
  ghost predicate OutOfReach(s: Sys, events: seq<Event>, c: Capability) {
    && (forall op :: op in s.pending ==> !Carries(s.pending[op], c))
    && (forall e :: e in events && e.Begin? ==> !Has(s.members, e.q.actor, c))
  }

  lemma GrantedCarriesHeld(m: Members, q: Request, held: seq<Capability>, c: Capability)
    requires Judged(m, q, held).Ok? && c !in held
    ensures !Carries(Ready(Judged(m, q, held).value), c)
  {
  }

  lemma StepGrantsNothing(s: Sys, e: Event, c: Capability)
    requires OutOfReach(s, [e], c)
    ensures forall u :: Has(Apply(s, e).members, u, c) ==> Has(s.members, u, c)
    ensures forall op :: op in Apply(s, e).pending ==> !Carries(Apply(s, e).pending[op], c)
  {
    match e
    case Begin(_, _) => assert e in [e];
    case Check(op) =>
      if op in s.pending && s.pending[op].Begun? {
        assert !Carries(s.pending[op], c);
        if Judged(s.members, s.pending[op].q, s.pending[op].held).Ok? {
          GrantedCarriesHeld(s.members, s.pending[op].q, s.pending[op].held, c);
        }
      }
    case Store(op) =>
      if op in s.pending { assert !Carries(s.pending[op], c); }
    case Drop(_) =>
  }

  /**
    However the reads, checks and writes of requests overlap and whichever of them fail: nobody
    gains a capability that no acting member held at the start.
   */
  lemma {:induction false} NobodyGains(s: Sys, events: seq<Event>, c: Capability, u: UserId)
    requires OutOfReach(s, events, c)
    requires Has(Run(s, events).members, u, c)
    ensures Has(s.members, u, c)
    decreases |events|
  {
    if events != [] {
      var s' := Apply(s, events[0]);
      assert events[0] in events;
      StepGrantsNothing(s, events[0], c);
      assert forall e :: e in events[1..] ==> e in events;
      NobodyGains(s', events[1..], c, u);
    }
  }

  /** The pending write would change the member's row. */
  predicate Disturbs(m: Members, stage: Stage, u: UserId)
    requires u in m
  {
    && stage.Ready? && stage.w.user == u && !stage.w.adding
    && stage.w.permissions.Some? && Member(stage.w.role, stage.w.permissions.value) != m[u]
  }

  /** No update checked earlier is still to be written over the member. */
  ghost predicate Undisturbed(s: Sys, u: UserId)
    requires u in s.members
  {
    forall op :: op in s.pending ==> !Disturbs(s.members, s.pending[op], u)
  }

  lemma StepLeavesOwner(s: Sys, e: Event, u: UserId)
    requires IsOwner(s.members, u) && Undisturbed(s, u)
    ensures u in Apply(s, e).members && Apply(s, e).members[u] == s.members[u] && Undisturbed(Apply(s, e), u)
  {
    match e
    case Begin(_, _) =>
    case Check(op) =>
      if op in s.pending && s.pending[op].Begun? && s.pending[op].q.Update? && s.pending[op].q.target == u {
        assert Judged(s.members, s.pending[op].q, s.pending[op].held).Err?;
      }
    case Store(op) =>
      if op in s.pending { assert !Disturbs(s.members, s.pending[op], u); }
    case Drop(_) =>
  }

  lemma {:induction false} UndisturbedOwnerStays(s: Sys, events: seq<Event>, u: UserId)
    requires IsOwner(s.members, u) && Undisturbed(s, u)
    ensures IsOwner(Run(s, events).members, u) && Run(s, events).members[u] == s.members[u]
    decreases |events|
  {
    if events != [] {
      StepLeavesOwner(s, events[0], u);
      UndisturbedOwnerStays(Apply(s, events[0]), events[1..], u);
    }
  }

  ghost predicate NeverChanges(s: Sys, u: UserId)
    requires u in s.members
  {
    forall events :: u in Run(s, events).members && Run(s, events).members[u] == s.members[u]
  }

  /**
    A member labelled owner is out of reach of every later step of every request exactly when no
    update that was checked before the label was given is still to be written.
   */
  lemma OwnerNeverChangesIff(s: Sys, u: UserId)
    requires IsOwner(s.members, u)
    ensures NeverChanges(s, u) <==> Undisturbed(s, u)
  {
    if Undisturbed(s, u) {
      forall events
        ensures u in Run(s, events).members && Run(s, events).members[u] == s.members[u]
      {
        UndisturbedOwnerStays(s, events, u);
      }
    } else {
      var op :| op in s.pending && Disturbs(s.members, s.pending[op], u);
      var store: Event := Store(op);
      assert [store][1..] == [];
      assert Run(s, [store]) == Apply(s, store);
      assert Run(s, [store]).members[u] != s.members[u];
    }
  }

  /** One request is checked, a second makes the member an owner, and then the first is written over it. */
  function LateUpdate(actor: UserId, u: UserId): seq<Event> {
    [Begin(0, Update(actor, u, "viewer", [])), Check(0), Begin(1, Update(actor, u, "owner", []))] +
    [Check(1), Store(1), Store(0)]
  }

  /** The race is there for every member who is not yet an owner and every actor who may make him one. */
  lemma OwnerIsOverwritten(m: Members, actor: UserId, u: UserId)
    requires actor in m && u in m && !IsOwner(m, u)
    requires forall c :: c in ALL ==> Has(m, actor, c)
    ensures var s := Run(Sys(m, map[]), LateUpdate(actor, u)[..5]);
            IsOwner(s.members, u) && !Undisturbed(s, u)
    ensures Run(Sys(m, map[]), LateUpdate(actor, u)).members == m[u := Member("viewer", ["read"])]
  {
    var held := m[actor].permissions;
    var viewer, owner := Update(actor, u, "viewer", []), Update(actor, u, "owner", []);
    var toViewer, toOwner := Write(false, u, "viewer", Some(["read"])), Write(false, u, "owner", Some(ALL));
    PresetIsJudgedOk(m, actor, u, "viewer");
    PresetIsJudgedOk(m, actor, u, "owner");
    BothUnderWay(m, actor, viewer, owner, toViewer);
    BothAreWritten(m, u, owner, held, toViewer, toOwner);
    var s := Sys(m, map[]);
    var first := [Begin(0, viewer), Check(0), Begin(1, owner)];
    RunAppends(s, first, [Check(1), Store(1), Store(0)]);
    assert LateUpdate(actor, u)[..5] == first + [Check(1), Store(1)];
    RunAppends(s, first, [Check(1), Store(1)]);
  }

  lemma PresetIsJudgedOk(m: Members, actor: UserId, u: UserId, role: string)
    requires actor in m && u in m && !IsOwner(m, u) && ValidRole(role) && role != ""
    requires forall c :: c in ALL ==> Has(m, actor, c)
    ensures Judged(m, Update(actor, u, role, []), m[actor].permissions) == Ok(Write(false, u, role, Some(Preset(role))))
  {
    assert forall c :: c in Preset(role) ==> c in ALL;
    assert FirstMissing(m[actor].permissions, Preset(role)).None?;
  }

  lemma BothAreWritten(m: Members, u: UserId, r: Request, held: seq<Capability>, first: Write, second: Write)
    requires u in m && Judged(m, r, held) == Ok(second)
    requires first.user == second.user == u && !first.adding && !second.adding
    requires first.permissions.Some? && second.permissions.Some?
    requires Member(first.role, first.permissions.value) != Member(second.role, second.permissions.value)
    ensures var s := Sys(m, map[0 := Ready(first), 1 := Begun(r, held)]);
            var after := Sys(m[u := Member(second.role, second.permissions.value)], map[0 := Ready(first)]);
            && Run(s, [Check(1), Store(1)]) == after && !Undisturbed(after, u)
            && Run(s, [Check(1), Store(1), Store(0)]).members == m[u := Member(first.role, first.permissions.value)]
  {
    var s := Sys(m, map[0 := Ready(first), 1 := Begun(r, held)]);
    var s1 := Apply(s, Check(1));
    assert s1 == Sys(m, map[0 := Ready(first), 1 := Ready(second)]);
    var s2 := Apply(s1, Store(1));
    assert s2 == Sys(m[u := Member(second.role, second.permissions.value)], map[0 := Ready(first)]);
    assert Disturbs(s2.members, s2.pending[0], u);
    RunThree(s, Check(1), Store(1), Store(0));
    assert [Check(1), Store(1)][1..] == [Store(1)] && [Store(1)][1..] == [];
    assert Run(s, [Check(1), Store(1)]) == Run(s1, [Store(1)]);
  }

  lemma BothUnderWay(m: Members, actor: UserId, q: Request, r: Request, w: Write)
    requires actor in m && q.actor == r.actor == actor && Judged(m, q, m[actor].permissions) == Ok(w)
    ensures Run(Sys(m, map[]), [Begin(0, q), Check(0), Begin(1, r)]) ==
      Sys(m, map[0 := Ready(w), 1 := Begun(r, m[actor].permissions)])
  {
    var held := m[actor].permissions;
    RunThree(Sys(m, map[]), Begin(0, q), Check(0), Begin(1, r));
    assert Apply(Sys(m, map[]), Begin(0, q)) == Sys(m, map[0 := Begun(q, held)]);
    assert Apply(Sys(m, map[0 := Begun(q, held)]), Check(0)) == Sys(m, map[0 := Ready(w)]);
  }

  // ----- requests one after the other -----

  function CallAll(m: Members, requests: seq<Request>): Members
    decreases |requests|
  {
    if requests == [] then m else CallAll(Called(m, requests[0]).0, requests[1..])
  }

  /** The steps of requests that do not overlap. */
  function InTurn(requests: seq<Request>): seq<Event> {
    if requests == [] then [] else [Begin(0, requests[0]), Check(0), Store(0)] + InTurn(requests[1..])
  }

  lemma {:induction false} CallsAreARun(m: Members, requests: seq<Request>)
    ensures Run(Sys(m, map[]), InTurn(requests)) == Sys(CallAll(m, requests), map[])
    decreases |requests|
  {
    if requests != [] {
      UndisturbedRequestIsACall(m, requests[0]);
      RunAppends(Sys(m, map[]), [Begin(0, requests[0]), Check(0), Store(0)], InTurn(requests[1..]));
      CallsAreARun(Called(m, requests[0]).0, requests[1..]);
    }
  }

  /** Calls that do not overlap never change an owner. */
  lemma OwnerSurvivesCalls(m: Members, requests: seq<Request>, u: UserId)
    requires IsOwner(m, u)
    ensures IsOwner(CallAll(m, requests), u) && CallAll(m, requests)[u] == m[u]
  {
    CallsAreARun(m, requests);
    UndisturbedOwnerStays(Sys(m, map[]), InTurn(requests), u);
  }

  /**
    The owner label is not reserved: whoever holds one known capability may give it with that one, to
    a member or to someone he adds, and who carries it keeps exactly that capability through all
    later calls.
   */
  lemma AnyoneMayFreeze(m: Members, q: Request, u: UserId, c: Capability, later: seq<Request>)
    requires Labels(m, q, u) && q.caps == [c]
    requires c in ALL && Has(m, q.actor, c)
    ensures var m' := Called(m, q).0;
            u in CallAll(m', later) && CallAll(m', later)[u] == Member("owner", [c])
  {
    assert [c][..0] == [];
    assert Clean([c]) == [c];
    OwnerLabelIff(m, q, u);
    OwnerSurvivesCalls(Called(m, q).0, later, u);
  }
}

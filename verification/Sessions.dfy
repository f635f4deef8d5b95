/** Refresh-token sessions in Redis: create, rotate, revoke, and what any run of them keeps. */
module Sessions {
  import opened Common

  type Token = string
  type UserId = string
  type Time = int

  /** The payload behind a token. */
  datatype Session = Session(user: UserId, absoluteExpiry: Time)

  /** A Redis entry and the moment it expires. */
  datatype Entry = Entry(session: Session, expires: Time)

  type Redis = map<Token, Entry>

  datatype Policy = Policy(sliding: Time, max: Time) {
    /** What NewSessionStore insists on. */
    predicate Valid() {
      0 < sliding <= max
    }
  }

  datatype Error = InvalidSession | Unavailable

  /** A Redis command that fails, with or without having taken effect. */
  datatype Fault = Healthy | GetFails | DelFails(applied: bool) | SetFails(applied: bool)

  predicate Live(db: Redis, t: Token, now: Time) {
    t in db && now < db[t].expires
  }

  /** The time to live handed to Redis: it slides, but never past the absolute expiry. */
  function Ttl(p: Policy, absoluteExpiry: Time, now: Time): (ttl: Time)
    ensures p.Valid() && now < absoluteExpiry ==> 0 < ttl <= p.sliding && now + ttl <= absoluteExpiry
  {
    if absoluteExpiry - now < p.sliding then absoluteExpiry - now else p.sliding
  }

  function Stored(db: Redis, p: Policy, s: Session, now: Time, drawn: Token, fault: Fault)
    : (Redis, Result<Token, Error>)
  {
    var stored := db[drawn := Entry(s, now + Ttl(p, s.absoluteExpiry, now))];
    if fault.SetFails? then (if fault.applied then stored else db, Err(Unavailable)) else (stored, Ok(drawn))
  }

  function Created(db: Redis, p: Policy, user: UserId, now: Time, drawn: Token, fault: Fault)
    : (Redis, Result<Token, Error>)
  {
    Stored(db, p, Session(user, now + p.max), now, drawn, fault)
  }

  function Rotated(db: Redis, p: Policy, presented: Token, now: Time, drawn: Token, fault: Fault)
    : (Redis, Result<(Token, UserId), Error>)
  {
    if fault.GetFails? then (db, Err(Unavailable))
    else if !Live(db, presented, now) then (db, Err(InvalidSession))
    else if fault.DelFails? then (if fault.applied then db - {presented} else db, Err(Unavailable))
    else if now >= db[presented].session.absoluteExpiry then (db - {presented}, Err(InvalidSession))
    else
      var (db', r) := Stored(db - {presented}, p, db[presented].session, now, drawn, fault);
      (db', if r.Ok? then Ok((r.value, db[presented].session.user)) else Err(r.error))
  }

  function Revoked(db: Redis, t: Token, fault: Fault): (Redis, Result<(), Error>) {
    if fault.DelFails? then (if fault.applied then db - {t} else db, Err(Unavailable)) else (db - {t}, Ok(()))
  }

  /** The session store over Redis. Tokens are drawn by the caller; hashing them is left out. */
  class SessionStore {
    var db: Redis
    const policy: Policy

    constructor (policy: Policy)
      requires policy.Valid()
      ensures db == map[] && this.policy == policy
    {
      db, this.policy := map[], policy;
    }

    method Create(user: UserId, now: Time, drawn: Token, fault: Fault) returns (r: Result<Token, Error>)
      modifies this
      ensures (db, r) == Created(old(db), policy, user, now, drawn, fault)
    {
      r := Put(Session(user, now + policy.max), now, drawn, fault);
    }

    method Rotate(presented: Token, now: Time, drawn: Token, fault: Fault) returns (r: Result<(Token, UserId), Error>)
      modifies this
      ensures (db, r) == Rotated(old(db), policy, presented, now, drawn, fault)
    {
      if fault.GetFails? { return Err(Unavailable); }
      if presented !in db || now >= db[presented].expires { return Err(InvalidSession); }
      var data := db[presented].session;
      if fault.DelFails? {
        if fault.applied { db := db - {presented}; }
        return Err(Unavailable);
      }
      db := db - {presented};
      if now >= data.absoluteExpiry { return Err(InvalidSession); }
      var stored := Put(data, now, drawn, fault);
      if stored.Err? { return Err(stored.error); }
      return Ok((stored.value, data.user));
    }

    method Revoke(t: Token, fault: Fault) returns (r: Result<(), Error>)
      modifies this
      ensures (db, r) == Revoked(old(db), t, fault)
    {
      if !fault.DelFails? || fault.applied { db := db - {t}; }
      return if fault.DelFails? then Err(Unavailable) else Ok(());
    }

    method Put(s: Session, now: Time, drawn: Token, fault: Fault) returns (r: Result<Token, Error>)
      modifies this
      ensures (db, r) == Stored(old(db), policy, s, now, drawn, fault)
    {
      var ttl := policy.sliding;
      var remaining := s.absoluteExpiry - now;
      if remaining < ttl { ttl := remaining; }
      if !fault.SetFails? || fault.applied { db := db[drawn := Entry(s, now + ttl)]; }
      return if fault.SetFails? then Err(Unavailable) else Ok(drawn);
    }
  }

  // ----- runs -----

  /** What was decided when a token was issued. */
  datatype Ticket = Ticket(session: nat, user: UserId, created: Time, issued: Time)

  function Expiry(p: Policy, k: Ticket): Time {
    if k.issued + p.sliding < k.created + p.max then k.issued + p.sliding else k.created + p.max
  }

  datatype Event =
    | Login(now: Time, user: UserId, drawn: Token, fault: Fault)
    | Refresh(now: Time, presented: Token, drawn: Token, fault: Fault)
    | Logout(now: Time, presented: Token, fault: Fault)

  /**
    The store, with what it does not remember itself: the ticket of every token, which tokens a
    rotation accepted, which were revoked, and which a command that was reported as failing
    removed or never stored.
   */
  datatype History = History(
    db: Redis,
    tickets: map<Token, Ticket>,
    sessions: nat,
    accepted: set<Token>,
    revoked: set<Token>,
    lost: set<Token>,
    clock: Time)

  function Empty(now: Time): History {
    History(map[], map[], 0, {}, {}, {}, now)
  }

  /** Commands run one after the other on a clock that does not go back, and drawn tokens are new. */
  predicate Allowed(h: History, e: Event) {
    && h.clock <= e.now
    && match e
       case Login(_, _, drawn, _) => drawn !in h.tickets
       case Refresh(_, presented, drawn, _) => drawn !in h.tickets && drawn != presented
       case Logout(_, _, _) => true
  }

  /** A refresh reads, deletes and, unless the delete fails, draws and stores. */
  function Refreshing(h: History, p: Policy, now: Time, presented: Token, drawn: Token, fault: Fault): History {
    var (db', r) := Rotated(h.db, p, presented, now, drawn, fault);
    var h1 := h.(db := db', clock := now);
    if presented !in h.tickets || !Live(h.db, presented, now) || fault.GetFails? || fault == DelFails(false) then h1
    else if fault.DelFails? then h1.(lost := h.lost + {presented})
    else
      h1.(tickets := h.tickets[drawn := h.tickets[presented].(issued := now)],
          accepted := if r.Ok? then h.accepted + {presented} else h.accepted,
          lost := h.lost + (if r.Ok? then {} else {presented}) + (if fault == SetFails(false) then {drawn} else {}))
  }

  function Apply(h: History, p: Policy, e: Event): History {
    match e
    case Login(now, user, drawn, fault) =>
      h.(db := Created(h.db, p, user, now, drawn, fault).0,
         tickets := h.tickets[drawn := Ticket(h.sessions, user, now, now)], sessions := h.sessions + 1,
         lost := if fault == SetFails(false) then h.lost + {drawn} else h.lost, clock := now)
    case Refresh(now, presented, drawn, fault) => Refreshing(h, p, now, presented, drawn, fault)
    case Logout(now, presented, fault) =>
      var (db', r) := Revoked(h.db, presented, fault);
      if presented !in h.tickets || fault == DelFails(false) then h.(db := db', clock := now)
      else h.(db := db', revoked := if r.Ok? then h.revoked + {presented} else h.revoked,
              lost := if r.Ok? then h.lost else h.lost + {presented}, clock := now)
  }

  ghost predicate Possible(h: History, p: Policy, events: seq<Event>)
    decreases |events|
  {
    events != [] ==> Allowed(h, events[0]) && Possible(Apply(h, p, events[0]), p, events[1..])
  }

  function Run(h: History, p: Policy, events: seq<Event>): History
    decreases |events|
  {
    if events == [] then h else Run(Apply(h, p, events[0]), p, events[1..])
  }

  // ----- the invariant -----

  /** Every token in Redis was issued, and its entry is what its ticket says. */
  ghost predicate EntriesMatch(h: History, p: Policy) {
    forall t :: t in h.db ==>
      && t in h.tickets
      && h.db[t] == Entry(Session(h.tickets[t].user, h.tickets[t].created + p.max), Expiry(p, h.tickets[t]))
  }

  ghost predicate OneEach(h: History) {
    forall s, t | s in h.db && t in h.db && s in h.tickets && t in h.tickets ::
      h.tickets[s].session == h.tickets[t].session ==> s == t
  }

  ghost predicate TicketsPast(h: History) {
    forall t :: t in h.tickets ==> h.tickets[t].session < h.sessions
  }

  /** A token is gone exactly if it was accepted, revoked or lost. */
  ghost predicate Accounted(h: History) {
    && h.accepted + h.revoked + h.lost <= h.tickets.Keys
    && forall t :: t in h.tickets ==> (t !in h.db <==> t in h.accepted || t in h.revoked || t in h.lost)
  }

  ghost predicate Inv(h: History, p: Policy) {
    EntriesMatch(h, p) && OneEach(h) && TicketsPast(h) && Accounted(h)
  }

  /** A token leaves the store for a reason that is noted. */
  function Dropped(h: History, t: Token, accepted: bool, revoked: bool, lost: bool): History {
    h.(db := h.db - {t}, accepted := if accepted then h.accepted + {t} else h.accepted,
       revoked := if revoked then h.revoked + {t} else h.revoked,
       lost := if lost then h.lost + {t} else h.lost)
  }

  /** A new token gets its ticket and reaches the store, or is lost at once. */
  function Issued(h: History, p: Policy, t: Token, k: Ticket, stored: bool): History {
    h.(db := if stored then h.db[t := Entry(Session(k.user, k.created + p.max), Expiry(p, k))] else h.db,
       tickets := h.tickets[t := k], lost := if stored then h.lost else h.lost + {t})
  }

  ghost predicate NoneOf(h: History, session: nat) {
    forall s :: s in h.db && s in h.tickets ==> h.tickets[s].session != session
  }

  lemma DropKeepsInv(h: History, p: Policy, t: Token, accepted: bool, revoked: bool, lost: bool)
    requires Inv(h, p) && t in h.tickets
    requires accepted || revoked || lost
    ensures Inv(Dropped(h, t, accepted, revoked, lost), p)
    ensures t in h.db ==> NoneOf(Dropped(h, t, accepted, revoked, lost), h.tickets[t].session)
  {
  }

  lemma IssueKeepsInv(h: History, p: Policy, t: Token, k: Ticket, stored: bool)
    requires Inv(h, p) && t !in h.tickets && k.session < h.sessions
    requires stored ==> NoneOf(h, k.session)
    ensures Inv(Issued(h, p, t, k, stored), p)
  {
    IssueKeepsAccounts(h, p, t, k, stored);
  }

  lemma IssueKeepsAccounts(h: History, p: Policy, t: Token, k: Ticket, stored: bool)
    requires EntriesMatch(h, p) && Accounted(h) && t !in h.tickets
    ensures Accounted(Issued(h, p, t, k, stored))
  {
  }

  lemma LoginKeepsInv(h: History, p: Policy, e: Event)
    requires p.Valid() && Inv(h, p) && Allowed(h, e) && e.Login?
    ensures Inv(Apply(h, p, e), p)
  {
    var h1 := h.(sessions := h.sessions + 1, clock := e.now);
    var k := Ticket(h.sessions, e.user, e.now, e.now);
    var stored := e.fault != SetFails(false);
    assert Ttl(p, e.now + p.max, e.now) + e.now == Expiry(p, k);
    assert Apply(h, p, e) == Issued(h1, p, e.drawn, k, stored);
    assert NoneOf(h1, k.session) && Inv(h1, p) by {
      assert TicketsPast(h);
    }
    IssueKeepsInv(h1, p, e.drawn, k, stored);
  }

  /** A refresh that gets past the delete: the presented token goes, the drawn one comes. */
  lemma RefreshSteps(h: History, p: Policy, now: Time, presented: Token, drawn: Token, fault: Fault)
    requires p.Valid() && Inv(h, p) && drawn !in h.tickets && drawn != presented
    requires Live(h.db, presented, now) && (fault.Healthy? || fault.SetFails?)
    ensures var k := h.tickets[presented].(issued := now);
            var dropped := Dropped(h.(clock := now), presented, fault.Healthy?, false, !fault.Healthy?);
            Refreshing(h, p, now, presented, drawn, fault) == Issued(dropped, p, drawn, k, fault != SetFails(false))
  {
    var k := h.tickets[presented].(issued := now);
    assert h.db[presented].session == Session(k.user, k.created + p.max);
    assert Ttl(p, k.created + p.max, now) + now == Expiry(p, k);
  }

  lemma RefreshKeepsInv(h: History, p: Policy, e: Event)
    requires p.Valid() && Inv(h, p) && Allowed(h, e) && e.Refresh?
    ensures Inv(Apply(h, p, e), p)
  {
    var h1 := h.(clock := e.now);
    if !Live(h.db, e.presented, e.now) || e.fault.GetFails? || e.fault == DelFails(false) {
      assert Apply(h, p, e) == h1;
    } else if e.fault.DelFails? {
      DropKeepsInv(h1, p, e.presented, false, false, true);
      assert Apply(h, p, e) == Dropped(h1, e.presented, false, false, true);
    } else {
      var ok := e.fault.Healthy?;
      RefreshSteps(h, p, e.now, e.presented, e.drawn, e.fault);
      DropKeepsInv(h1, p, e.presented, ok, false, !ok);
      IssueKeepsInv(Dropped(h1, e.presented, ok, false, !ok), p, e.drawn,
                    h.tickets[e.presented].(issued := e.now), e.fault != SetFails(false));
    }
  }

  lemma LogoutKeepsInv(h: History, p: Policy, e: Event)
    requires p.Valid() && Inv(h, p) && Allowed(h, e) && e.Logout?
    ensures Inv(Apply(h, p, e), p)
  {
    var h1 := h.(clock := e.now);
    if e.presented !in h.tickets || e.fault == DelFails(false) {
      assert e.presented !in h.tickets ==> h.db - {e.presented} == h.db;
      assert Apply(h, p, e) == h1;
    } else {
      var ok := !e.fault.DelFails?;
      DropKeepsInv(h1, p, e.presented, false, ok, !ok);
      assert Apply(h, p, e) == Dropped(h1, e.presented, false, ok, !ok);
    }
  }

  lemma StepKeepsInv(h: History, p: Policy, e: Event)
    requires p.Valid() && Inv(h, p) && Allowed(h, e)
    ensures Inv(Apply(h, p, e), p)
  {
    if e.Login? {
      LoginKeepsInv(h, p, e);
    } else if e.Refresh? {
      RefreshKeepsInv(h, p, e);
    } else {
      LogoutKeepsInv(h, p, e);
    }
  }

  lemma {:induction false} RunKeepsInv(h: History, p: Policy, events: seq<Event>)
    requires p.Valid() && Inv(h, p) && Possible(h, p, events)
    ensures Inv(Run(h, p, events), p)
    decreases |events|
  {
    if events != [] {
      StepKeepsInv(h, p, events[0]);
      RunKeepsInv(Apply(h, p, events[0]), p, events[1..]);
    }
  }

  // ----- what any run keeps -----

  /** However many rotations happened, a session has at most one token in the store. */
  lemma OneLiveTokenPerSession(p: Policy, start: Time, events: seq<Event>, s: Token, t: Token)
    requires p.Valid() && Possible(Empty(start), p, events)
    ensures var h := Run(Empty(start), p, events);
            s in h.db && t in h.db ==>
              && s in h.tickets && t in h.tickets
              && (h.tickets[s].session == h.tickets[t].session ==> s == t)
  {
    RunKeepsInv(Empty(start), p, events);
  }

  /** No live token outlasts the login of its session by more than the maximum, however often it slid. */
  lemma NoTokenOutlivesItsSession(p: Policy, start: Time, events: seq<Event>, t: Token, now: Time)
    requires p.Valid() && Possible(Empty(start), p, events)
    ensures var h := Run(Empty(start), p, events);
            Live(h.db, t, now) ==>
              t in h.tickets && now < h.tickets[t].created + p.max && now < h.tickets[t].issued + p.sliding
  {
    RunKeepsInv(Empty(start), p, events);
  }

  /** Every entry a command writes is alive when it is written: the TTL is positive. */
  lemma WrittenEntriesAreLive(h: History, p: Policy, e: Event, t: Token)
    requires p.Valid() && Inv(h, p) && Allowed(h, e)
    ensures var db' := Apply(h, p, e).db;
            t in db' && (t in h.db ==> db'[t] != h.db[t]) ==> e.now < db'[t].expires
  {
  }

  /**
    With Redis healthy, a rotation accepts a token exactly when the token is alive: the check of the
    absolute expiry never decides, since no entry outlives it.
   */
  lemma RotateAcceptsIffLive(h: History, p: Policy, t: Token, now: Time, drawn: Token)
    requires p.Valid() && Inv(h, p)
    ensures var r := Rotated(h.db, p, t, now, drawn, Healthy).1;
            (r.Ok? <==> Live(h.db, t, now)) && (r.Err? ==> r.error == InvalidSession)
  {
  }

  /**
    In terms of what happened alone: an issued token is accepted exactly when it was not accepted
    before, not revoked, not lost to a failing command and not past its expiry.
   */
  lemma RotateAcceptsIff(h: History, p: Policy, t: Token, now: Time, drawn: Token)
    requires p.Valid() && Inv(h, p) && t in h.tickets
    ensures Rotated(h.db, p, t, now, drawn, Healthy).1.Ok?
            <==> t !in h.accepted && t !in h.revoked && t !in h.lost && now < Expiry(p, h.tickets[t])
  {
    RotateAcceptsIffLive(h, p, t, now, drawn);
  }

  /** The same after any run from an empty store. */
  lemma RotateAcceptsIffInRuns(p: Policy, start: Time, events: seq<Event>, t: Token, now: Time, drawn: Token)
    requires p.Valid() && Possible(Empty(start), p, events)
    ensures var h := Run(Empty(start), p, events);
            t in h.tickets ==>
              (Rotated(h.db, p, t, now, drawn, Healthy).1.Ok?
               <==> t !in h.accepted && t !in h.revoked && t !in h.lost && now < Expiry(p, h.tickets[t]))
  {
    RunKeepsInv(Empty(start), p, events);
    var h := Run(Empty(start), p, events);
    if t in h.tickets {
      RotateAcceptsIff(h, p, t, now, drawn);
    }
  }

  /** A login is answered with the drawn token, which is then alive and the user's for the maximum at most. */
  lemma LoginAnswers(db: Redis, p: Policy, user: UserId, now: Time, drawn: Token, fault: Fault)
    requires p.Valid()
    ensures var (db', r) := Created(db, p, user, now, drawn, fault);
            && (r.Ok? <==> !fault.SetFails?)
            && (r.Ok? ==>
                  && r.value == drawn && Live(db', drawn, now)
                  && db'[drawn].session.user == user && db'[drawn].session.absoluteExpiry == now + p.max
                  && db'[drawn].expires == now + p.sliding)
            && (forall t :: t in db && t != drawn ==> t in db' && db'[t] == db[t])
  {
  }

  /** A logout that is not reported as failing leaves no entry for the token, and touches no other. */
  lemma LogoutAnswers(db: Redis, t: Token, fault: Fault)
    ensures var (db', r) := Revoked(db, t, fault);
            && (r.Ok? <==> !fault.DelFails?) && (r.Ok? ==> t !in db')
            && (forall u :: u in db && u != t ==> u in db' && db'[u] == db[u])
  {
  }

  /** A rotation is reported as invalid for a token that is not alive, and as unavailable for a failing command. */
  lemma RotationAnswers(h: History, p: Policy, t: Token, now: Time, drawn: Token, fault: Fault)
    requires p.Valid() && Inv(h, p)
    ensures var r := Rotated(h.db, p, t, now, drawn, fault).1;
            && (r == Err(InvalidSession) <==> !fault.GetFails? && !Live(h.db, t, now))
            && (r == Err(Unavailable) <==>
                  fault.GetFails? || (Live(h.db, t, now) && (fault.DelFails? || fault.SetFails?)))
            && (r.Ok? <==> fault.Healthy? && Live(h.db, t, now))
  {
  }

  predicate Accepts(h: History, p: Policy, e: Event, t: Token) {
    e.Refresh? && e.presented == t && Rotated(h.db, p, t, e.now, e.drawn, e.fault).1.Ok?
  }

  /** How often a run's rotations accepted the token. */
  function Acceptances(h: History, p: Policy, events: seq<Event>, t: Token): nat
    decreases |events|
  {
    if events == [] then 0
    else (if Accepts(h, p, events[0], t) then 1 else 0) + Acceptances(Apply(h, p, events[0]), p, events[1..], t)
  }

  lemma {:induction false} AcceptedAtMostOnce(h: History, p: Policy, events: seq<Event>, t: Token)
    requires p.Valid() && Inv(h, p) && Possible(h, p, events)
    ensures Acceptances(h, p, events, t) <= if t in h.accepted then 0 else 1
    decreases |events|
  {
    if events != [] {
      var h' := Apply(h, p, events[0]);
      StepKeepsInv(h, p, events[0]);
      AcceptedAtMostOnce(h', p, events[1..], t);
      assert Accepts(h, p, events[0], t) ==> t !in h.accepted && t in h'.accepted;
      assert h.accepted <= h'.accepted;
    }
  }

  /** No token is accepted twice, whatever else happens and whichever commands fail. */
  lemma TokensAreSingleUse(p: Policy, start: Time, events: seq<Event>, t: Token)
    requires p.Valid() && Possible(Empty(start), p, events)
    ensures Acceptances(Empty(start), p, events, t) <= 1
  {
    AcceptedAtMostOnce(Empty(start), p, events, t);
  }

  /** A rotation answers with the user who logged in, and its new token belongs to the same session. */
  lemma RotationKeepsTheSession(h: History, p: Policy, e: Event)
    requires p.Valid() && Inv(h, p) && Allowed(h, e)
    requires e.Refresh? && Accepts(h, p, e, e.presented)
    ensures var r := Rotated(h.db, p, e.presented, e.now, e.drawn, e.fault).1;
            var h' := Apply(h, p, e);
            && e.presented in h.tickets && e.drawn in h'.tickets
            && r.value == (e.drawn, h.tickets[e.presented].user)
            && h'.tickets[e.drawn] == h.tickets[e.presented].(issued := e.now)
            && Live(h'.db, e.drawn, e.now) && e.presented !in h'.db
  {
  }
}

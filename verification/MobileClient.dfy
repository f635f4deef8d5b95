/**
  The mobile client's shared refresh against the session store: concurrent requests that meet a 401
  join one refresh, which presents the token held in the Keystore.
 */
module MobileClient {
  import opened Common
  import opened Sessions

  type FlightId = nat
  type RequestId = nat

  /** Where one refresh stands between two awaits. */
  datatype Flight = Reading | Sent(token: Token) | Replied(granted: Option<Token>) | Saving(token: Token)

  datatype Phase = First | Waiting(flight: FlightId) | Retried | Done

  /** A request, with the access token its last fetch carried and the refresh it once waited for. */
  datatype Request = Request(
    phase: Phase,
    fetches: nat,
    authFlow: bool,
    bearer: Option<Token>,
    waited: Option<FlightId>)

  /**
    The module variables, the Keystore and the suspended async bodies. An access token is named
    by the refresh token issued with it.
   */
  datatype State = State(
    access: Option<Token>,
    keystore: Option<Token>,
    refreshing: Option<FlightId>,
    flights: map<FlightId, Flight>,
    outcomes: map<FlightId, bool>,
    requests: map<RequestId, Request>,
    started: nat)

  // ----- what each stretch between two awaits does -----

  function Joined(c: State): (r: (State, FlightId)) {
    if c.refreshing.Some? then (c, c.refreshing.value)
    else
      var c' := c.(refreshing := Some(c.started), flights := c.flights[c.started := Reading], started := c.started + 1);
      (c', c.started)
  }

  function Finished(c: State, f: FlightId, ok: bool): State {
    c.(flights := c.flights - {f}, outcomes := c.outcomes[f := ok], refreshing := None)
  }

  function HasRead(c: State, f: FlightId, readable: bool): State {
    if readable && c.keystore.Some? then c.(flights := c.flights[f := Sent(c.keystore.value)])
    else Finished(c, f, false)
  }

  function Received(c: State, f: FlightId, granted: Option<Token>): State {
    if granted.None? then Finished(c, f, false)
    else c.(access := granted, flights := c.flights[f := Saving(granted.value)])
  }

  function Saved(c: State, f: FlightId, t: Token, written: bool): State {
    Finished(if written then c.(keystore := Some(t)) else c, f, true)
  }

  function Fetched(c: State, r: RequestId, authFlow: bool): State {
    c.(requests := c.requests[r := Request(First, 1, authFlow, c.access, None)])
  }

  function Answered(c: State, r: RequestId, unauthorized: bool): State
    requires r in c.requests
  {
    var q := c.requests[r];
    if q.phase.First? && unauthorized && !q.authFlow then
      var (c', f) := Joined(c);
      c'.(requests := c'.requests[r := q.(phase := Waiting(f), waited := Some(f))])
    else c.(requests := c.requests[r := q.(phase := Done)])
  }

  function Resumed(c: State, r: RequestId, ok: bool): State
    requires r in c.requests
  {
    var q := c.requests[r];
    var q' := if ok then q.(phase := Retried, fetches := q.fetches + 1, bearer := c.access) else q.(phase := Done);
    c.(requests := c.requests[r := q'])
  }

  /** The client module. Each method runs up to the next await. */
  class ApiClient {
    var accessToken: Option<Token>
    var keystore: Option<Token>
    var refreshing: Option<FlightId>
    var flights: map<FlightId, Flight>
    var outcomes: map<FlightId, bool>
    var requests: map<RequestId, Request>
    var started: nat

    function View(): State
      reads this
    {
      State(accessToken, keystore, refreshing, flights, outcomes, requests, started)
    }

    constructor (access: Token, refresh: Token)
      ensures View() == State(Some(access), Some(refresh), None, map[], map[], map[], 0)
    {
      accessToken, keystore, refreshing := Some(access), Some(refresh), None;
      flights, outcomes, requests, started := map[], map[], map[], 0;
    }

    method RefreshSession() returns (f: FlightId)
      modifies this
      ensures (View(), f) == Joined(old(View()))
    {
      if refreshing.None? {
        refreshing := Some(started);
        flights := flights[started := Reading];
        started := started + 1;
      }
      return refreshing.value;
    }

    method GetRefreshToken(f: FlightId, readable: bool)
      modifies this
      ensures View() == HasRead(old(View()), f, readable)
    {
      var refresh := if readable then keystore else None;
      if refresh.None? {
        Finish(f, false);
      } else {
        flights := flights[f := Sent(refresh.value)];
      }
    }

    /** The reply arrived; without a pair of tokens the refresh has failed. */
    method Receive(f: FlightId, granted: Option<Token>)
      modifies this
      ensures View() == Received(old(View()), f, granted)
    {
      if granted.None? {
        Finish(f, false);
      } else {
        accessToken := granted;
        flights := flights[f := Saving(granted.value)];
      }
    }

    /** A write the Keystore refuses is swallowed. */
    method SetRefreshToken(f: FlightId, t: Token, written: bool)
      modifies this
      ensures View() == Saved(old(View()), f, t, written)
    {
      if written { keystore := Some(t); }
      Finish(f, true);
    }

    method Finish(f: FlightId, ok: bool)
      modifies this
      ensures View() == Finished(old(View()), f, ok)
    {
      outcomes := outcomes[f := ok];
      flights := flights - {f};
      refreshing := None;
    }

    method Fetch(r: RequestId, authFlow: bool)
      modifies this
      ensures View() == Fetched(old(View()), r, authFlow)
    {
      requests := requests[r := Request(First, 1, authFlow, accessToken, None)];
    }

    method OnResponse(r: RequestId, unauthorized: bool)
      requires r in requests
      modifies this
      ensures View() == Answered(old(View()), r, unauthorized)
    {
      var q := requests[r];
      if q.phase.First? && unauthorized && !q.authFlow {
        var f := RefreshSession();
        requests := requests[r := q.(phase := Waiting(f), waited := Some(f))];
      } else {
        requests := requests[r := q.(phase := Done)];
      }
    }

    method OnRefreshed(r: RequestId, ok: bool)
      requires r in requests
      modifies this
      ensures View() == Resumed(old(View()), r, ok)
    {
      var q := requests[r];
      if ok {
        requests := requests[r := q.(phase := Retried, fetches := q.fetches + 1, bearer := accessToken)];
      } else {
        requests := requests[r := q.(phase := Done)];
      }
    }
  }

  // ----- client and server together -----

  /**
    `session` is the client's session, `latest` the token last issued for it, and `missed` says that
    the client never stored a token it was issued. `received` are the refreshes whose new tokens
    reached the client.
   */
  datatype World = World(
    server: History,
    client: State,
    session: nat,
    latest: Token,
    missed: bool,
    received: set<FlightId>)

  datatype Event =
    | Bootstrap
    | Fetch(r: RequestId, authFlow: bool)
    | Answer(r: RequestId, unauthorized: bool)
    | Resume(r: RequestId)
    | Read(f: FlightId, readable: bool)
    | NotSent(f: FlightId)
    | Serve(f: FlightId, now: Time, drawn: Token, fault: Fault)
    | Receive(f: FlightId)
    | LoseReply(f: FlightId)
    | Save(f: FlightId, written: bool)
    | Others(e: Sessions.Event)

  predicate Mine(w: World, t: Token) {
    t in w.server.tickets && w.server.tickets[t].session == w.session
  }

  /** Others never present this client's tokens for rotation; they may revoke them. */
  predicate Foreign(w: World, e: Sessions.Event) {
    e.Refresh? ==> !Mine(w, e.presented)
  }

  predicate At(w: World, f: FlightId) {
    f in w.client.flights
  }

  predicate Enabled(w: World, e: Event) {
    match e
    case Bootstrap => true
    case Fetch(r, _) => r !in w.client.requests
    case Answer(r, _) =>
      r in w.client.requests && (w.client.requests[r].phase.First? || w.client.requests[r].phase.Retried?)
    case Resume(r) =>
      && r in w.client.requests && w.client.requests[r].phase.Waiting?
      && w.client.requests[r].phase.flight in w.client.outcomes
    case Read(f, _) => At(w, f) && w.client.flights[f].Reading?
    case NotSent(f) => At(w, f) && w.client.flights[f].Sent?
    case Serve(f, now, drawn, fault) =>
      && At(w, f) && w.client.flights[f].Sent?
      && Sessions.Allowed(w.server, Refresh(now, w.client.flights[f].token, drawn, fault))
    case Receive(f) => At(w, f) && w.client.flights[f].Replied?
    case LoseReply(f) => At(w, f) && w.client.flights[f].Replied?
    case Save(f, _) => At(w, f) && w.client.flights[f].Saving?
    case Others(e) => Sessions.Allowed(w.server, e) && Foreign(w, e)
  }

  /** The server's answer to the refresh in flight, and what remains of it. */
  function Serves(w: World, p: Policy, f: FlightId, now: Time, drawn: Token, fault: Fault): World
    requires At(w, f) && w.client.flights[f].Sent?
  {
    var t := w.client.flights[f].token;
    var ok := Rotated(w.server.db, p, t, now, drawn, fault).1.Ok?;
    var reply := Replied(if ok then Some(drawn) else None);
    w.(server := Sessions.Apply(w.server, p, Refresh(now, t, drawn, fault)),
       client := w.client.(flights := w.client.flights[f := reply]),
       latest := if ok then drawn else w.latest)
  }

  function Step(w: World, p: Policy, e: Event): World
    requires Enabled(w, e)
  {
    match e
    case Bootstrap => w.(client := Joined(w.client).0)
    case Fetch(r, authFlow) => w.(client := Fetched(w.client, r, authFlow))
    case Answer(r, unauthorized) => w.(client := Answered(w.client, r, unauthorized))
    case Resume(r) => w.(client := Resumed(w.client, r, w.client.outcomes[w.client.requests[r].phase.flight]))
    case Read(f, readable) => w.(client := HasRead(w.client, f, readable))
    case NotSent(f) => w.(client := Finished(w.client, f, false))
    case Serve(f, now, drawn, fault) => Serves(w, p, f, now, drawn, fault)
    case Receive(f) =>
      w.(client := Received(w.client, f, w.client.flights[f].granted),
         received := if w.client.flights[f].granted.Some? then w.received + {f} else w.received)
    case LoseReply(f) =>
      w.(client := Finished(w.client, f, false), missed := w.missed || w.client.flights[f].granted.Some?)
    case Save(f, written) =>
      w.(client := Saved(w.client, f, w.client.flights[f].token, written), missed := w.missed || !written)
    case Others(e) => w.(server := Sessions.Apply(w.server, p, e))
  }

  ghost predicate Possible(w: World, p: Policy, events: seq<Event>)
    decreases |events|
  {
    events != [] ==> Enabled(w, events[0]) && Possible(Step(w, p, events[0]), p, events[1..])
  }

  function Run(w: World, p: Policy, events: seq<Event>): World
    requires Possible(w, p, events)
    decreases |events|
  {
    if events == [] then w else Run(Step(w, p, events[0]), p, events[1..])
  }

  /** A client that has just logged in. */
  ghost predicate LoggedIn(w: World, p: Policy) {
    && p.Valid() && Sessions.Inv(w.server, p)
    && Mine(w, w.latest) && w.latest !in w.server.accepted
    && w.client == State(Some(w.latest), Some(w.latest), None, map[], map[], map[], 0)
    && !w.missed && w.received == {}
  }

  // ----- the invariant -----

  ghost predicate SingleFlight(c: State) {
    && c.flights.Keys == (if c.refreshing.Some? then {c.refreshing.value} else {})
    && (c.refreshing.Some? ==> c.refreshing.value < c.started)
    && (forall f :: f in c.outcomes ==> f < c.started && f !in c.flights)
  }

  predicate InOrder(c: State, q: Request) {
    && (q.waited.Some? ==> !q.authFlow)
    && match q.phase
       case First => q.fetches == 1 && q.waited.None?
       case Waiting(f) => q.fetches == 1 && q.waited == Some(f) && (f in c.flights || f in c.outcomes)
       case Retried => q.fetches == 2 && q.waited.Some? && q.waited.value in c.outcomes && c.outcomes[q.waited.value]
       case Done =>
         if q.waited.None? then q.fetches == 1
         else q.waited.value in c.outcomes && q.fetches == if c.outcomes[q.waited.value] then 2 else 1
  }

  ghost predicate RequestsInOrder(c: State) {
    forall r :: r in c.requests ==> InOrder(c, c.requests[r])
  }

  /** Of the tokens issued to the client, which one is where. */
  ghost predicate TokenInPlace(w: World, fl: Option<Flight>) {
    var a := w.server.accepted;
    && w.client.keystore.Some?
    && if w.missed then
         && w.client.keystore.value in a
         && (fl.Some? ==> match fl.value
              case Reading => true
              case Sent(t) => t in a
              case Replied(granted) => granted.None?
              case Saving(_) => false)
       else
         && w.latest !in a
         && match (if fl.None? then Reading else fl.value)
            case Reading => w.client.keystore.value == w.latest
            case Sent(t) => t == w.latest && w.client.keystore.value == w.latest
            case Replied(granted) =>
              if granted.None? then w.client.keystore.value == w.latest
              else granted.value == w.latest && w.client.keystore.value in a
            case Saving(t) => t == w.latest && w.client.keystore.value in a
  }

  /** The access token is the one last received, and that is the latest unless a new one is on its way or was missed. */
  ghost predicate AccessInPlace(w: World, fl: Option<Flight>) {
    && (fl.Some? && fl.value.Saving? ==> w.client.access == Some(fl.value.token))
    && (!w.missed && !(fl.Some? && fl.value.Replied? && fl.value.granted.Some?) ==> w.client.access == Some(w.latest))
  }

  /** A refresh succeeds exactly if its tokens reached the client. */
  ghost predicate OutcomesInPlace(c: State, received: set<FlightId>) {
    && (forall f :: f in c.outcomes ==> (c.outcomes[f] <==> f in received))
    && (forall f :: f in c.flights ==> (f in received <==> c.flights[f].Saving?))
    && (forall f :: f in received ==> f < c.started)
  }

  function InFlight(c: State): Option<Flight> {
    if c.refreshing.Some? && c.refreshing.value in c.flights then Some(c.flights[c.refreshing.value]) else None
  }

  ghost predicate Inv(w: World, p: Policy) {
    && Sessions.Inv(w.server, p)
    && Mine(w, w.latest)
    && SingleFlight(w.client) && RequestsInOrder(w.client)
    && TokenInPlace(w, InFlight(w.client))
    && AccessInPlace(w, InFlight(w.client)) && OutcomesInPlace(w.client, w.received)
  }

  lemma JoinKeepsInv(c: State)
    requires SingleFlight(c) && RequestsInOrder(c)
    ensures var (c', f) := Joined(c);
            && SingleFlight(c') && RequestsInOrder(c') && f in c'.flights
            && c'.keystore == c.keystore && c'.requests == c.requests
            && InFlight(c') == (if c.refreshing.Some? then InFlight(c) else Some(Reading))
  {
  }

  lemma FinishKeepsInv(c: State, f: FlightId, ok: bool)
    requires SingleFlight(c) && RequestsInOrder(c) && f in c.flights
    ensures var c' := Finished(c, f, ok);
            && SingleFlight(c') && RequestsInOrder(c') && InFlight(c') == None
            && c'.keystore == c.keystore && c'.access == c.access
  {
    assert c.flights.Keys == {f};
    assert Finished(c, f, ok).flights.Keys == {};
  }

  lemma MoveKeepsInv(c: State, f: FlightId, fl: Flight)
    requires SingleFlight(c) && RequestsInOrder(c) && f in c.flights
    ensures var c' := c.(flights := c.flights[f := fl]);
            SingleFlight(c') && RequestsInOrder(c') && InFlight(c') == Some(fl)
    ensures InFlight(c) == Some(c.flights[f])
  {
    assert c.flights.Keys == {f};
    assert c.(flights := c.flights[f := fl]).flights.Keys == {f};
  }

  lemma RequestMoveKeepsInv(c: State, r: RequestId, q: Request)
    requires SingleFlight(c) && RequestsInOrder(c) && InOrder(c, q)
    ensures var c' := c.(requests := c.requests[r := q]);
            SingleFlight(c') && RequestsInOrder(c') && InFlight(c') == InFlight(c) && c'.keystore == c.keystore
  {
  }

  lemma OutcomesKept(c: State, c': State, received: set<FlightId>)
    requires OutcomesInPlace(c, received) && SingleFlight(c)
    requires c'.outcomes == c.outcomes && c'.started >= c.started
    requires forall f :: f in c'.flights ==>
      (f in c.flights && c'.flights[f] == c.flights[f]) || (f >= c.started && c'.flights[f].Reading?)
    ensures OutcomesInPlace(c', received)
  {
  }

  lemma FinishKeepsOutcomes(c: State, f: FlightId, ok: bool, received: set<FlightId>)
    requires OutcomesInPlace(c, received) && f in c.flights && (ok <==> f in received)
    ensures OutcomesInPlace(Finished(c, f, ok), received)
  {
  }

  lemma MoveKeepsOutcomes(c: State, f: FlightId, fl: Flight, received: set<FlightId>, received': set<FlightId>)
    requires OutcomesInPlace(c, received) && SingleFlight(c) && f in c.flights
    requires received' == if fl.Saving? then received + {f} else received
    requires !c.flights[f].Saving?
    ensures OutcomesInPlace(c.(flights := c.flights[f := fl]), received')
  {
  }

  lemma AnswerKeepsClient(c: State, r: RequestId, unauthorized: bool, received: set<FlightId>)
    requires SingleFlight(c) && RequestsInOrder(c) && OutcomesInPlace(c, received) && r in c.requests
    requires c.requests[r].phase.First? || c.requests[r].phase.Retried?
    ensures var c' := Answered(c, r, unauthorized);
            && SingleFlight(c') && RequestsInOrder(c') && c'.keystore == c.keystore
            && c'.access == c.access && OutcomesInPlace(c', received)
            && (InFlight(c') == InFlight(c) || (c.refreshing.None? && InFlight(c') == Some(Reading)))
  {
    var (c1, f) := Joined(c);
    var q := c.requests[r];
    JoinKeepsInv(c);
    assert InOrder(c, q);
    if q.phase.First? && unauthorized && !q.authFlow {
      OutcomesKept(c, c1, received);
      RequestMoveKeepsInv(c1, r, q.(phase := Waiting(f), waited := Some(f)));
    } else {
      RequestMoveKeepsInv(c, r, q.(phase := Done));
    }
  }

  lemma RequestStepKeepsClient(w: World, p: Policy, e: Event)
    requires Inv(w, p) && Enabled(w, e) && (e.Bootstrap? || e.Fetch? || e.Answer? || e.Resume?)
    ensures var c' := Step(w, p, e).client;
            && SingleFlight(c') && RequestsInOrder(c') && c'.keystore == w.client.keystore
            && c'.access == w.client.access && OutcomesInPlace(c', w.received)
            && (InFlight(c') == InFlight(w.client) || (w.client.refreshing.None? && InFlight(c') == Some(Reading)))
  {
    var c := w.client;
    match e
    case Bootstrap =>
      JoinKeepsInv(c);
      OutcomesKept(c, Joined(c).0, w.received);
    case Fetch(r, authFlow) =>
      RequestMoveKeepsInv(c, r, Request(First, 1, authFlow, c.access, None));
    case Answer(r, unauthorized) => AnswerKeepsClient(c, r, unauthorized, w.received);
    case Resume(r) =>
      var q := c.requests[r];
      assert InOrder(c, q);
      var ok := c.outcomes[q.phase.flight];
      RequestMoveKeepsInv(c, r, if ok then q.(phase := Retried, fetches := q.fetches + 1, bearer := c.access)
                                else q.(phase := Done));
  }

  lemma RequestStepKeepsInv(w: World, p: Policy, e: Event)
    requires Inv(w, p) && Enabled(w, e) && (e.Bootstrap? || e.Fetch? || e.Answer? || e.Resume?)
    ensures Inv(Step(w, p, e), p)
  {
    RequestStepKeepsClient(w, p, e);
    var w' := Step(w, p, e);
    assert w'.server == w.server && w'.latest == w.latest && w'.missed == w.missed && w'.session == w.session;
    assert w.client.refreshing.None? ==> InFlight(w.client) == None;
  }

  lemma ReadKeepsInv(w: World, p: Policy, e: Event)
    requires Inv(w, p) && Enabled(w, e) && e.Read?
    ensures Inv(Step(w, p, e), p)
  {
    var c, t := w.client, w.client.keystore.value;
    MoveKeepsInv(c, e.f, c.flights[e.f]);
    if e.readable {
      MoveKeepsInv(c, e.f, Sent(t));
      MoveKeepsOutcomes(c, e.f, Sent(t), w.received, w.received);
    } else {
      FinishKeepsInv(c, e.f, false);
      FinishKeepsOutcomes(c, e.f, false, w.received);
    }
  }

  lemma ReceiveKeepsInv(w: World, p: Policy, e: Event)
    requires Inv(w, p) && Enabled(w, e) && e.Receive?
    ensures Inv(Step(w, p, e), p)
  {
    var c := w.client;
    var granted := c.flights[e.f].granted;
    MoveKeepsInv(c, e.f, c.flights[e.f]);
    if granted.None? {
      FinishKeepsInv(c, e.f, false);
      FinishKeepsOutcomes(c, e.f, false, w.received);
    } else {
      var c1 := c.(access := granted);
      assert SingleFlight(c1) && RequestsInOrder(c1) && OutcomesInPlace(c1, w.received);
      MoveKeepsInv(c1, e.f, Saving(granted.value));
      MoveKeepsOutcomes(c1, e.f, Saving(granted.value), w.received, w.received + {e.f});
    }
  }

  lemma FlightStepKeepsInv(w: World, p: Policy, e: Event)
    requires Inv(w, p) && Enabled(w, e)
    requires e.Read? || e.NotSent? || e.Receive? || e.LoseReply? || e.Save?
    ensures Inv(Step(w, p, e), p)
  {
    var c := w.client;
    MoveKeepsInv(c, e.f, c.flights[e.f]);
    match e
    case Read(_, _) => ReadKeepsInv(w, p, e);
    case NotSent(f) =>
      FinishKeepsInv(c, f, false);
      FinishKeepsOutcomes(c, f, false, w.received);
    case Receive(_) => ReceiveKeepsInv(w, p, e);
    case LoseReply(f) =>
      FinishKeepsInv(c, f, false);
      FinishKeepsOutcomes(c, f, false, w.received);
    case Save(f, written) =>
      var c1 := if written then c.(keystore := Some(c.flights[f].token)) else c;
      assert SingleFlight(c1) && RequestsInOrder(c1) && OutcomesInPlace(c1, w.received);
      FinishKeepsInv(c1, f, true);
      FinishKeepsOutcomes(c1, f, true, w.received);
  }

  /** Someone else's command leaves the client's latest token as it was, but for a revocation. */
  lemma ForeignKeepsLatest(w: World, p: Policy, e: Sessions.Event)
    requires p.Valid() && Sessions.Inv(w.server, p) && Sessions.Allowed(w.server, e) && Foreign(w, e)
    requires Mine(w, w.latest)
    ensures var h := Sessions.Apply(w.server, p, e);
            && Mine(w.(server := h), w.latest)
            && w.server.accepted <= h.accepted && (w.latest in h.accepted ==> w.latest in w.server.accepted)
  {
  }

  lemma OthersKeepInv(w: World, p: Policy, e: Event)
    requires p.Valid() && Inv(w, p) && Enabled(w, e) && e.Others?
    ensures Inv(Step(w, p, e), p)
  {
    StepKeepsInv(w.server, p, e.e);
    ForeignKeepsLatest(w, p, e.e);
  }

  /**
    A failing command, and a token accepted before, lead to a refusal, which accepts nothing and
    leaves every ticket; a rotation leaves the new token in the old one's place.
   */
  lemma RotationMovesLatest(h: History, p: Policy, t: Token, now: Time, drawn: Token, fault: Fault)
    requires p.Valid() && Sessions.Inv(h, p)
    requires Sessions.Allowed(h, Refresh(now, t, drawn, fault))
    ensures var ok := Rotated(h.db, p, t, now, drawn, fault).1.Ok?;
            var h' := Sessions.Apply(h, p, Refresh(now, t, drawn, fault));
            && (t in h.accepted || !fault.Healthy? ==> !ok)
            && (!ok ==> h'.accepted == h.accepted)
            && (forall u :: u in h.tickets ==> u in h'.tickets && h'.tickets[u] == h.tickets[u])
            && h'.revoked == h.revoked && h.lost <= h'.lost && h'.clock == now
            && (ok ==> t in h.tickets && drawn in h'.tickets && h'.tickets[drawn].session == h.tickets[t].session
                       && h'.accepted == h.accepted + {t} && drawn !in h'.accepted)
  {
  }

  lemma ServeKeepsClient(w: World, p: Policy, e: Event)
    requires p.Valid() && Inv(w, p) && Enabled(w, e) && e.Serve?
    ensures var c' := Step(w, p, e).client;
            && e.f in c'.flights
            && SingleFlight(c') && RequestsInOrder(c') && OutcomesInPlace(c', w.received)
            && InFlight(c') == Some(c'.flights[e.f]) && InFlight(w.client) == Some(w.client.flights[e.f])
  {
    var t := w.client.flights[e.f].token;
    var ok := Rotated(w.server.db, p, t, e.now, e.drawn, e.fault).1.Ok?;
    var reply := Replied(if ok then Some(e.drawn) else None);
    MoveKeepsInv(w.client, e.f, reply);
    MoveKeepsOutcomes(w.client, e.f, reply, w.received, w.received);
  }

  lemma ServeKeepsInv(w: World, p: Policy, e: Event)
    requires p.Valid() && Inv(w, p) && Enabled(w, e) && e.Serve?
    ensures Inv(Step(w, p, e), p)
  {
    var t := w.client.flights[e.f].token;
    ServeKeepsClient(w, p, e);
    RotationMovesLatest(w.server, p, t, e.now, e.drawn, e.fault);
    StepKeepsInv(w.server, p, Refresh(e.now, t, e.drawn, e.fault));
  }

  lemma WorldKeepsInv(w: World, p: Policy, e: Event)
    requires p.Valid() && Inv(w, p) && Enabled(w, e)
    ensures Inv(Step(w, p, e), p)
  {
    if e.Serve? {
      ServeKeepsInv(w, p, e);
    } else if e.Others? {
      OthersKeepInv(w, p, e);
    } else if e.Bootstrap? || e.Fetch? || e.Answer? || e.Resume? {
      RequestStepKeepsInv(w, p, e);
    } else {
      FlightStepKeepsInv(w, p, e);
    }
  }

  lemma {:induction false} WorldRunKeepsInv(w: World, p: Policy, events: seq<Event>)
    requires p.Valid() && Inv(w, p) && Possible(w, p, events)
    ensures Inv(Run(w, p, events), p)
    decreases |events|
  {
    if events != [] {
      WorldKeepsInv(w, p, events[0]);
      WorldRunKeepsInv(Step(w, p, events[0]), p, events[1..]);
    }
  }

  lemma FromLogin(w: World, p: Policy, events: seq<Event>)
    requires LoggedIn(w, p) && Possible(w, p, events)
    ensures Inv(Run(w, p, events), p)
  {
    assert Inv(w, p);
    WorldRunKeepsInv(w, p, events);
  }

  // ----- what any interleaving keeps -----

  /** At most one refresh is in flight, and all requests that wait for one wait for the same. */
  lemma OneRefreshInFlight(w: World, p: Policy, events: seq<Event>, q: RequestId, r: RequestId)
    requires LoggedIn(w, p) && Possible(w, p, events)
    ensures var c := Run(w, p, events).client;
            && |c.flights| <= 1 && (c.refreshing.Some? <==> |c.flights| == 1)
            && (q in c.requests && r in c.requests && c.requests[q].phase.Waiting? && c.requests[r].phase.Waiting?
                && c.requests[q].phase.flight !in c.outcomes && c.requests[r].phase.flight !in c.outcomes
                ==> c.requests[q].phase == c.requests[r].phase)
  {
    FromLogin(w, p, events);
    var c := Run(w, p, events).client;
    assert |c.flights| == |c.flights.Keys|;
    assert q in c.requests ==> InOrder(c, c.requests[q]);
    assert r in c.requests ==> InOrder(c, c.requests[r]);
  }

  /**
    A first 401 outside the auth flow sends its request to wait for the refresh in flight: the one
    that was there, or a new one. Any other answer is handed to the caller.
   */
  lemma UnauthorizedJoins(w: World, p: Policy, events: seq<Event>, r: RequestId, unauthorized: bool)
    requires LoggedIn(w, p) && Possible(w, p, events) && Enabled(Run(w, p, events), Answer(r, unauthorized))
    ensures var c := Run(w, p, events).client;
            var c' := Step(Run(w, p, events), p, Answer(r, unauthorized)).client;
            var q, q' := c.requests[r], c'.requests[r];
            if q.fetches == 1 && unauthorized && !q.authFlow then
              && q'.phase.Waiting? && q'.waited == Some(q'.phase.flight) && q'.fetches == 1
              && c'.flights.Keys == {q'.phase.flight}
              && (c.flights != map[] ==> c'.flights == c.flights)
              && (c.flights == map[] ==> c'.flights == map[q'.phase.flight := Reading])
            else q' == q.(phase := Done) && c'.flights == c.flights
  {
    FromLogin(w, p, events);
    var c := Run(w, p, events).client;
    assert InOrder(c, c.requests[r]);
    JoinKeepsInv(c);
  }

  lemma WaitedStaysOnce(w: World, p: Policy, e: Event, r: RequestId)
    requires Enabled(w, e) && r in w.client.requests && w.client.requests[r].waited.Some?
    requires RequestsInOrder(w.client)
    ensures var c' := Step(w, p, e).client;
            r in c'.requests && c'.requests[r].waited == w.client.requests[r].waited
  {
    assert InOrder(w.client, w.client.requests[r]);
  }

  lemma {:induction false} WaitedStays(w: World, p: Policy, events: seq<Event>, r: RequestId)
    requires p.Valid() && Inv(w, p) && Possible(w, p, events)
    requires r in w.client.requests && w.client.requests[r].waited.Some?
    ensures var c := Run(w, p, events).client;
            r in c.requests && c.requests[r].waited == w.client.requests[r].waited
    decreases |events|
  {
    if events != [] {
      WaitedStaysOnce(w, p, events[0], r);
      WorldKeepsInv(w, p, events[0]);
      WaitedStays(Step(w, p, events[0]), p, events[1..], r);
    }
  }

  /**
    Over any run after it, a request that met a first 401 is fetched a second time only if the refresh it
    waited for brought new tokens, and if it ends, exactly then.
   */
  lemma RefetchedIff(w: World, p: Policy, before: seq<Event>, r: RequestId, after: seq<Event>)
    requires LoggedIn(w, p) && Possible(w, p, before) && Enabled(Run(w, p, before), Answer(r, true))
    requires var q := Run(w, p, before).client.requests[r]; q.fetches == 1 && !q.authFlow
    requires Possible(Step(Run(w, p, before), p, Answer(r, true)), p, after)
    ensures var v := Step(Run(w, p, before), p, Answer(r, true));
            var u := Run(v, p, after);
            && v.client.requests[r].waited.Some? && r in u.client.requests
            && var f := v.client.requests[r].waited.value;
            && v.client.requests[r].phase == Waiting(f)
            && (u.client.requests[r].fetches == 2 ==> f in u.received)
            && (u.client.requests[r].phase.Done? ==> (u.client.requests[r].fetches == 2 <==> f in u.received))
            && (u.client.requests[r].phase.Waiting? ==>
                  f in u.client.flights || (f in u.client.outcomes && (u.client.outcomes[f] <==> f in u.received)))
  {
    FromLogin(w, p, before);
    UnauthorizedJoins(w, p, before, r, true);
    var b := Run(w, p, before);
    WorldKeepsInv(b, p, Answer(r, true));
    var v := Step(b, p, Answer(r, true));
    WaitedStays(v, p, after, r);
    WorldRunKeepsInv(v, p, after);
    assert InOrder(Run(v, p, after).client, Run(v, p, after).client.requests[r]);
  }

  /** A request whose refresh succeeded is fetched again, with the access token the client then has. */
  lemma RetryCarriesTheToken(w: World, p: Policy, events: seq<Event>, r: RequestId)
    requires LoggedIn(w, p) && Possible(w, p, events) && Enabled(Run(w, p, events), Resume(r))
    ensures var v := Run(w, p, events);
            var f := v.client.requests[r].phase.flight;
            var q' := Step(v, p, Resume(r)).client.requests[r];
            && (f in v.received ==> q'.phase == Retried && q'.fetches == 2 && q'.bearer == v.client.access)
            && (f !in v.received ==> q'.phase == Done && q'.fetches == 1)
            && (f in v.received && v.client.flights == map[] && !v.missed ==> q'.bearer == Some(v.latest))
  {
    FromLogin(w, p, events);
    var v := Run(w, p, events);
    assert InOrder(v.client, v.client.requests[r]);
  }

  lemma ReadSends(w: World, p: Policy, f: FlightId)
    requires Inv(w, p) && !w.missed && w.client.refreshing == Some(f)
    requires f in w.client.flights && w.client.flights[f].Reading?
    ensures var w1 := Step(w, p, Read(f, true));
            && w1.client.flights == map[f := Sent(w.latest)] && w1.client.refreshing == Some(f)
            && w1.server == w.server && w1.latest == w.latest
  {
    MoveKeepsInv(w.client, f, w.client.flights[f]);
  }

  lemma ServeGrants(w: World, p: Policy, f: FlightId, now: Time, drawn: Token)
    requires p.Valid() && Sessions.Inv(w.server, p) && Live(w.server.db, w.latest, now)
    requires w.client.flights == map[f := Sent(w.latest)] && w.server.clock <= now && drawn !in w.server.tickets
    ensures Enabled(w, Serve(f, now, drawn, Healthy))
    ensures var w1 := Step(w, p, Serve(f, now, drawn, Healthy));
            w1.client.flights == map[f := Replied(Some(drawn))] && w1.client.refreshing == w.client.refreshing
  {
    RotateAcceptsIffLive(w.server, p, w.latest, now, drawn);
  }

  lemma GrantIsKept(w: World, p: Policy, f: FlightId, drawn: Token)
    requires w.client.flights == map[f := Replied(Some(drawn))]
    ensures Enabled(w, Receive(f)) && Enabled(Step(w, p, Receive(f)), Save(f, true))
    ensures var c := Step(Step(w, p, Receive(f)), p, Save(f, true)).client;
            && c.access == c.keystore == Some(drawn) && c.refreshing.None? && c.flights == map[]
            && f in c.outcomes && c.outcomes[f]
  {
    assert Step(w, p, Receive(f)).client.flights == map[f := Saving(drawn)];
  }

  /**
    While nothing fails, a refresh goes through: the token in the Keystore is exchanged for a new
    one, which the client keeps in its place, and the refresh succeeds.
   */
  lemma RefreshGoesThrough(w: World, p: Policy, f: FlightId, now: Time, drawn: Token)
    requires p.Valid() && Inv(w, p) && !w.missed && Live(w.server.db, w.latest, now)
    requires w.client.refreshing == Some(f) && f in w.client.flights && w.client.flights[f].Reading?
    requires w.server.clock <= now && drawn !in w.server.tickets
    ensures Possible(w, p, [Read(f, true), Serve(f, now, drawn, Healthy)] + [Receive(f), Save(f, true)])
    ensures var c := Run(w, p, [Read(f, true), Serve(f, now, drawn, Healthy)] + [Receive(f), Save(f, true)]).client;
            && c.access == c.keystore == Some(drawn) && c.refreshing.None? && c.flights == map[]
            && f in c.outcomes && c.outcomes[f]
  {
    var w1 := Step(w, p, Read(f, true));
    ReadSends(w, p, f);
    ServeGrants(w1, p, f, now, drawn);
    var w2 := Step(w1, p, Serve(f, now, drawn, Healthy));
    GrantIsKept(w2, p, f, drawn);
    TwoSteps(w, p, Read(f, true), Serve(f, now, drawn, Healthy));
    TwoSteps(w2, p, Receive(f), Save(f, true));
    PossibleAppends(w, p, [Read(f, true), Serve(f, now, drawn, Healthy)], [Receive(f), Save(f, true)]);
  }

  /** A request is fetched once or twice, an auth request once, and none waits for a refresh that is lost. */
  lemma FetchedAtMostTwice(w: World, p: Policy, events: seq<Event>, r: RequestId)
    requires LoggedIn(w, p) && Possible(w, p, events)
    ensures var c := Run(w, p, events).client;
            r in c.requests ==>
              && 1 <= c.requests[r].fetches <= (if c.requests[r].authFlow then 1 else 2)
              && (c.requests[r].phase.Waiting? ==>
                    c.requests[r].phase.flight in c.flights || c.requests[r].phase.flight in c.outcomes)
  {
    FromLogin(w, p, events);
    var c := Run(w, p, events).client;
    assert r in c.requests ==> InOrder(c, c.requests[r]);
  }

  /** The reasons for which a session gets no further token. */
  predicate Over(w: World, p: Policy)
    requires Mine(w, w.latest)
  {
    || w.missed || w.latest in w.server.revoked || w.latest in w.server.lost
    || w.server.clock >= Expiry(p, w.server.tickets[w.latest])
  }

  lemma RefusedIff(v: World, p: Policy, f: FlightId, now: Time, drawn: Token, fault: Fault)
    requires p.Valid() && Inv(v, p) && Enabled(v, Serve(f, now, drawn, fault))
    ensures var t := v.client.flights[f].token;
            && (Serves(v, p, f, now, drawn, fault).client.flights[f].granted.None? <==>
                  || !fault.Healthy? || v.missed || v.latest in v.server.revoked || v.latest in v.server.lost
                  || now >= Expiry(p, v.server.tickets[v.latest]))
            && (t in v.server.accepted <==> v.missed)
            && (!v.missed ==> t == v.latest)
  {
    var t := v.client.flights[f].token;
    MoveKeepsInv(v.client, f, v.client.flights[f]);
    RotationMovesLatest(v.server, p, t, now, drawn, fault);
    if !v.missed {
      RotateAcceptsIff(v.server, p, t, now, drawn);
    }
  }

  /**
    A refresh is refused exactly when a Redis command fails it, when the session's latest token was
    revoked, lost to a rotation or a logout that failed half way, or ran out, or when a token the
    client was issued never reached its Keystore. As long as none was missed, what is presented is
    the latest token, and reuse is never the reason.
   */
  lemma RefreshRefusedIff(w: World, p: Policy, events: seq<Event>, f: FlightId, now: Time, drawn: Token, fault: Fault)
    requires LoggedIn(w, p) && Possible(w, p, events)
    requires Enabled(Run(w, p, events), Serve(f, now, drawn, fault))
    ensures var v := Run(w, p, events);
            var t := v.client.flights[f].token;
            && Mine(v, v.latest)
            && (Serves(v, p, f, now, drawn, fault).client.flights[f].granted.None? <==>
                  || !fault.Healthy? || v.missed || v.latest in v.server.revoked || v.latest in v.server.lost
                  || now >= Expiry(p, v.server.tickets[v.latest]))
            && (t in v.server.accepted <==> v.missed)
            && (!v.missed ==> t == v.latest)
  {
    FromLogin(w, p, events);
    RefusedIff(Run(w, p, events), p, f, now, drawn, fault);
  }

  lemma ForeignKeepsOver(w: World, p: Policy, e: Sessions.Event)
    requires p.Valid() && Inv(w, p) && Enabled(w, Others(e)) && Over(w, p)
    ensures var h := Sessions.Apply(w.server, p, e);
            && w.server.revoked <= h.revoked && w.server.lost <= h.lost && w.server.clock <= h.clock
            && w.latest in h.tickets && h.tickets[w.latest] == w.server.tickets[w.latest]
  {
  }

  lemma StepKeepsOver(w: World, p: Policy, e: Event)
    requires p.Valid() && Inv(w, p) && Enabled(w, e) && Over(w, p)
    ensures Mine(Step(w, p, e), Step(w, p, e).latest) && Over(Step(w, p, e), p)
  {
    if e.Serve? {
      RefusedIff(w, p, e.f, e.now, e.drawn, e.fault);
      RotationMovesLatest(w.server, p, w.client.flights[e.f].token, e.now, e.drawn, e.fault);
    } else if e.Others? {
      ForeignKeepsOver(w, p, e.e);
    }
  }

  lemma {:induction false} RunKeepsOver(w: World, p: Policy, events: seq<Event>)
    requires p.Valid() && Inv(w, p) && Possible(w, p, events) && Over(w, p)
    ensures var v := Run(w, p, events); Inv(v, p) && Over(v, p)
    decreases |events|
  {
    if events != [] {
      WorldKeepsInv(w, p, events[0]);
      StepKeepsOver(w, p, events[0]);
      RunKeepsOver(Step(w, p, events[0]), p, events[1..]);
    }
  }

  /** Once the latest token was missed, revoked, lost or ran out, the session never gets another. */
  lemma EndIsFinal(w: World, p: Policy, events: seq<Event>, f: FlightId, now: Time, drawn: Token, fault: Fault)
    requires p.Valid() && Inv(w, p) && Over(w, p) && Possible(w, p, events)
    requires Enabled(Run(w, p, events), Serve(f, now, drawn, fault))
    ensures Serves(Run(w, p, events), p, f, now, drawn, fault).client.flights[f].granted.None?
  {
    RunKeepsOver(w, p, events);
    RefusedIff(Run(w, p, events), p, f, now, drawn, fault);
  }

  /** In particular one missed token ends it. */
  lemma MissedTokenEndsTheSession(w: World, p: Policy, events: seq<Event>, f: FlightId, now: Time, drawn: Token,
                                  fault: Fault)
    requires p.Valid() && Inv(w, p) && w.missed && Possible(w, p, events)
    requires Enabled(Run(w, p, events), Serve(f, now, drawn, fault))
    ensures Serves(Run(w, p, events), p, f, now, drawn, fault).client.flights[f].granted.None?
  {
    EndIsFinal(w, p, events, f, now, drawn, fault);
  }

  /** So does a rotation that fails after its delete: exactly then is the latest token lost by its own refresh. */
  lemma InterruptedRotationEndsTheSession(w: World, p: Policy, f: FlightId, now: Time, drawn: Token, fault: Fault)
    requires p.Valid() && Inv(w, p) && Enabled(w, Serve(f, now, drawn, fault))
    requires !w.missed && Live(w.server.db, w.latest, now)
    ensures var v := Serves(w, p, f, now, drawn, fault);
            && v.client.flights[f].granted.Some? == fault.Healthy?
            && (w.latest in v.server.lost <==> fault.SetFails? || fault == DelFails(true))
            && (w.latest in v.server.lost ==> v.latest == w.latest && Over(v, p))
  {
    MoveKeepsInv(w.client, f, w.client.flights[f]);
    RefusedIff(w, p, f, now, drawn, fault);
    RotationMovesLatest(w.server, p, w.latest, now, drawn, fault);
    assert w.latest in w.server.db && w.latest !in w.server.lost;
  }

  /** One refresh whose reply never arrives, or whose token the Keystore refuses. */
  function Missing(now: Time, drawn: Token, replyLost: bool): seq<Event> {
    UpToAnswer(now, drawn, Healthy) +
    if replyLost then [LoseReply(0)] else [Receive(0), Save(0, false)]
  }

  lemma {:induction false} PossibleAppends(w: World, p: Policy, a: seq<Event>, b: seq<Event>)
    requires Possible(w, p, a) && Possible(Run(w, p, a), p, b)
    ensures Possible(w, p, a + b) && Run(w, p, a + b) == Run(Run(w, p, a), p, b)
    decreases |a|
  {
    if a == [] {
      assert a + b == b;
    } else {
      assert (a + b)[1..] == a[1..] + b;
      PossibleAppends(Step(w, p, a[0]), p, a[1..], b);
    }
  }

  lemma OneStep(w: World, p: Policy, e: Event)
    requires Enabled(w, e)
    ensures Possible(w, p, [e]) && Run(w, p, [e]) == Step(w, p, e)
  {
    assert [e][1..] == [];
  }

  lemma TwoSteps(w: World, p: Policy, e: Event, f: Event)
    requires Enabled(w, e) && Enabled(Step(w, p, e), f)
    ensures Possible(w, p, [e, f]) && Run(w, p, [e, f]) == Step(Step(w, p, e), p, f)
  {
    OneStep(w, p, e);
    OneStep(Step(w, p, e), p, f);
    PossibleAppends(w, p, [e], [f]);
    assert [e] + [f] == [e, f];
  }

  /** One refresh, up to the server's answer to it. */
  function UpToAnswer(now: Time, drawn: Token, fault: Fault): seq<Event> {
    [Bootstrap, Read(0, true)] + [Serve(0, now, drawn, fault)]
  }

  lemma ServedOnce(w: World, p: Policy, now: Time, drawn: Token, fault: Fault)
    requires LoggedIn(w, p) && Live(w.server.db, w.latest, now) && w.server.clock <= now
    requires drawn !in w.server.tickets
    ensures var v := Run(w, p, [Bootstrap, Read(0, true)]);
            && Possible(w, p, [Bootstrap, Read(0, true)]) && Inv(v, p) && v.server == w.server && v.latest == w.latest
            && !v.missed && Enabled(v, Serve(0, now, drawn, fault)) && v.client.flights == map[0 := Sent(w.latest)]
            && Possible(w, p, UpToAnswer(now, drawn, fault))
            && Run(w, p, UpToAnswer(now, drawn, fault)) == Serves(v, p, 0, now, drawn, fault)
  {
    var w1 := Step(w, p, Bootstrap);
    var w2 := Step(w1, p, Read(0, true));
    assert w1.client.flights == map[0 := Reading] && w2.client.flights == map[0 := Sent(w.latest)];
    TwoSteps(w, p, Bootstrap, Read(0, true));
    FromLogin(w, p, [Bootstrap, Read(0, true)]);
    OneStep(w2, p, Serve(0, now, drawn, fault));
    PossibleAppends(w, p, [Bootstrap, Read(0, true)], [Serve(0, now, drawn, fault)]);
  }

  /** A rotation may be interrupted from every login with a live token, and then the token is lost. */
  lemma ARotationCanBeInterrupted(w: World, p: Policy, now: Time, drawn: Token, fault: Fault)
    requires LoggedIn(w, p) && Live(w.server.db, w.latest, now) && w.server.clock <= now
    requires drawn !in w.server.tickets && (fault.SetFails? || fault == DelFails(true))
    ensures var events := UpToAnswer(now, drawn, fault);
            && Possible(w, p, events) && Run(w, p, events).latest == w.latest
            && w.latest in Run(w, p, events).server.lost
  {
    ServedOnce(w, p, now, drawn, fault);
    InterruptedRotationEndsTheSession(Run(w, p, [Bootstrap, Read(0, true)]), p, 0, now, drawn, fault);
  }

  /** Both ways of missing a token are there for every client whose token is alive. */
  lemma ATokenCanBeMissed(w: World, p: Policy, now: Time, drawn: Token, replyLost: bool)
    requires LoggedIn(w, p) && Live(w.server.db, w.latest, now) && w.server.clock <= now
    requires drawn !in w.server.tickets
    ensures Possible(w, p, Missing(now, drawn, replyLost)) && Run(w, p, Missing(now, drawn, replyLost)).missed
  {
    var served := UpToAnswer(now, drawn, Healthy);
    ServedOnce(w, p, now, drawn, Healthy);
    InterruptedRotationEndsTheSession(Run(w, p, [Bootstrap, Read(0, true)]), p, 0, now, drawn, Healthy);
    var v := Run(w, p, served);
    if replyLost {
      OneStep(v, p, LoseReply(0));
      PossibleAppends(w, p, served, [LoseReply(0)]);
    } else {
      TwoSteps(v, p, Receive(0), Save(0, false));
      PossibleAppends(w, p, served, [Receive(0), Save(0, false)]);
    }
  }
}

/**
  The worker's ProcessPublish, statement by statement, with every other process running in between.

  A `Backend` is the database, the billing service and the platform as one worker sees them.
  Its methods change the rows the way the statements do. `past` remembers every event since the
  empty database, and `Valid` says the rows are what the state machine of `JobProtocol` makes of them;
  so a delivery that keeps `Valid` is one of the runs `JobSafety` speaks about.
 */
module Worker {
  import opened Common
  import L = Ledger
  import B = Billing
  import R = Retry
  import opened JobProtocol
  import opened JobSafety

  /** What a load hands to the rest of the delivery. */
  datatype Content = Content(channel: B.ChannelId, body: string, media: seq<string>)

  /** A status UPDATE is answered, or its answer is lost with the row changed or not. */
  datatype Reply = Answered | Unanswered(applied: bool) {
    predicate TookEffect() {
      Answered? || applied
    }
  }

  /** How the calls of one delivery turn out. */
  datatype World = World(
    claim: Reply,
    load: LoadOutcome,
    content: Content,
    channelReadable: bool,
    chargeFault: L.Fault,
    resultsReadable: bool,
    preflight: Verdict,
    token: R.Token,
    platform: R.World<PostId>,
    record: RecordOutcome,
    refundReadable: bool,
    refundFault: L.Fault,
    mark: Reply)

  /** What ProcessPublish tells the task queue. */
  datatype Delivery = Succeeded | Retry | SkipRetry

  /** The answer to the task queue that goes with a status just written. */
  predicate Answers(r: Delivery, status: Status) {
    match status
    case Published => r == Succeeded
    case Failed => r == SkipRetry
    case Scheduled => r == Retry
    case _ => false
  }

  predicate By(e: Event, w: WorkerId) {
    match e
    case Create(_, _, _) => false
    case EnqueueFailed(_, _) => false
    case Cancel(_) => false
    case TopUp(_, _, _, _) => false
    case _ => e.worker == w
  }

  /** Other processes leave a worker where it stands. */
  lemma {:induction false} OthersKeepAct(s: Sys, events: seq<Event>, w: WorkerId)
    requires forall e :: e in events ==> !By(e, w)
    ensures w in Run(s, events).acts <==> w in s.acts
    ensures w in s.acts ==> Run(s, events).acts[w] == s.acts[w]
    ensures forall j :: j in s.jobs ==>
      j in Run(s, events).jobs && Run(s, events).jobs[j].workspace == s.jobs[j].workspace
    decreases |events|
  {
    if events != [] {
      var s' := Apply(s, events[0]);
      OthersKeepActOnce(s, events[0], w);
      forall j | j in s.jobs
        ensures j in s'.jobs && s'.jobs[j].workspace == s.jobs[j].workspace
      {
        StepKeepsWorkspace(s, events[0], j);
      }
      OthersKeepAct(s', events[1..], w);
    }
  }

  lemma OthersKeepActOnce(s: Sys, e: Event, w: WorkerId)
    requires !By(e, w)
    ensures w in Apply(s, e).acts <==> w in s.acts
    ensures w in s.acts ==> Apply(s, e).acts[w] == s.acts[w]
  {
  }

  /** Where a charge's answer sends the worker. */
  function AfterCharge(r: Result<(), L.Error>): Phase {
    if r.Ok? then Paid else if r.error == L.InsufficientCredits then Failing else Retrying
  }

  lemma ChargeStep(s: Sys, w: WorkerId, cost: int, known: bool, fault: L.Fault)
    requires At(s, w, Loaded)
    ensures var j := s.acts[w].job;
            var (bank, r) :=
              if known then L.Charge(s.bank, s.jobs[j].workspace, cost, j, fault) else (s.bank, Err(L.Database));
            Apply(s, Event.Charge(w, cost, known, fault)) ==
              Sys(s.jobs[j := s.jobs[j].(lastCost := cost)], s.results, bank, s.acts[w := Act(j, AfterCharge(r))],
                  s.failing)
  {
  }

  // ----- what a delivery comes to -----

  /** What a delivery saw: the answer to its charge, the result it found, and all that had happened when it asked. */
  datatype Seen = Seen(
    charge: Option<Result<(), L.Error>>,
    beforeCharge: seq<Event>,
    found: Option<PostId>,
    beforeLookup: seq<Event>)

  const NOTHING_SEEN: Seen := Seen(None, [], None, [])

  /** What a charge asks for: its price, if its channel is known, and how its transaction fares. */
  datatype Asked = Asked(cost: int, known: bool, fault: L.Fault)

  /** The answer is the ledger's, from the tables as they were when the charge was made. */
  ghost predicate Charged(past: seq<Event>, w: WorkerId, j: JobId, home: L.WorkspaceId, asked: Asked,
                          before: seq<Event>, r: Result<(), L.Error>) {
    && before + [Event.Charge(w, asked.cost, asked.known, asked.fault)] <= past
    && r == if asked.known then L.Charge(Run(START, before).bank, home, asked.cost, j, asked.fault).1
            else Err(L.Database)
  }

  function ResultIn(s: Sys, j: JobId): Option<PostId> {
    if j in s.results then Some(s.results[j]) else None
  }

  /** The result is the one the table held when it was looked up. */
  ghost predicate Found(past: seq<Event>, w: WorkerId, j: JobId, before: seq<Event>, found: Option<PostId>) {
    before + [Event.Lookup(w, true)] <= past && found == ResultIn(Run(START, before), j)
  }

  /** What `seen` says is what the tables said. */
  ghost predicate Witnessed(past: seq<Event>, w: WorkerId, j: JobId, home: L.WorkspaceId, world: World, asked: Asked,
                            seen: Seen) {
    && (world.load.LoadOk? ==>
          seen.charge.Some? && Charged(past, w, j, home, asked, seen.beforeCharge, seen.charge.value))
    && (world.load.LoadOk? && seen.charge == Some(Ok(())) && world.resultsReadable ==>
          Found(past, w, j, seen.beforeLookup, seen.found))
  }

  lemma Longer(a: seq<Event>, b: seq<Event>, c: seq<Event>)
    requires a <= b <= c
    ensures a <= c
  {
  }

  lemma ChargedLonger(past: seq<Event>, longer: seq<Event>, w: WorkerId, j: JobId, home: L.WorkspaceId, asked: Asked,
                      before: seq<Event>, r: Result<(), L.Error>)
    requires Charged(past, w, j, home, asked, before, r) && past <= longer
    ensures Charged(longer, w, j, home, asked, before, r)
  {
    Longer(before + [Event.Charge(w, asked.cost, asked.known, asked.fault)], past, longer);
  }

  lemma FoundLonger(past: seq<Event>, longer: seq<Event>, w: WorkerId, j: JobId, before: seq<Event>,
                    found: Option<PostId>)
    requires Found(past, w, j, before, found) && past <= longer
    ensures Found(longer, w, j, before, found)
  {
    Longer(before + [Event.Lookup(w, true)], past, longer);
  }

  lemma WitnessedLonger(past: seq<Event>, longer: seq<Event>, w: WorkerId, j: JobId, home: L.WorkspaceId, world: World,
                        asked: Asked, seen: Seen)
    requires Witnessed(past, w, j, home, world, asked, seen) && past <= longer
    ensures Witnessed(longer, w, j, home, world, asked, seen)
  {
    if world.load.LoadOk? {
      ChargedLonger(past, longer, w, j, home, asked, seen.beforeCharge, seen.charge.value);
      if seen.charge == Some(Ok(())) && world.resultsReadable {
        FoundLonger(past, longer, w, j, seen.beforeLookup, seen.found);
      }
    }
  }

  /** The calls of the run against the platform. */
  ghost predicate Calls(world: World, maxAttempts: int, log: seq<R.Call<PostId>>) {
    R.Ran(world.platform, maxAttempts, world.token, log)
  }

  /** What the calls come to: the last one's post, if it is stored, or a failure that is final or not. */
  function AttemptAnswer(world: World, log: seq<R.Call<PostId>>): Result<PostId, bool>
    requires log != []
  {
    var last := log[|log| - 1].outcome;
    if last.Success? then (if world.record.Stored? then Ok(last.value) else Err(false))
    else Err(R.EndsTerminally(world.platform, log))
  }

  /**
    What publishing comes to, by the result found and the calls of the run against the platform:
    the post, or a failure that is final or not.
   */
  function PublishAnswer(world: World, log: seq<R.Call<PostId>>, found: Option<PostId>): Result<PostId, bool>
    requires log != []
  {
    if !world.resultsReadable then Err(false)
    else if found.Some? then Ok(found.value)
    else if world.preflight.GiveUp? then Err(world.preflight.terminal)
    else AttemptAnswer(world, log)
  }

  /** The status a claimed job ends with. */
  function StatusFor(world: World, log: seq<R.Call<PostId>>, seen: Seen): Status
    requires log != []
  {
    match world.load
    case LoadRetryable => Scheduled
    case LoadTerminal => Failed
    case LoadOk =>
      if seen.charge == Some(Err(L.InsufficientCredits)) then Failed
      else if seen.charge.None? || seen.charge.value.Err? then Scheduled
      else
        match PublishAnswer(world, log, seen.found)
        case Ok(_) => Published
        case Err(terminal) => if terminal then Failed else Scheduled
  }

  /** When a delivery ends with each status: a healthy one publishes, and only final failures are marked as failed. */
  lemma StatusIff(world: World, log: seq<R.Call<PostId>>, seen: Seen)
    requires log != [] && (world.load.LoadOk? ==> seen.charge.Some?)
    ensures var last := log[|log| - 1].outcome;
            var called := world.resultsReadable && seen.found.None? && world.preflight.Pass?;
            var paid := world.load.LoadOk? && seen.charge.value.Ok?;
            && (StatusFor(world, log, seen) == Published <==>
                  && paid && world.resultsReadable
                  && (seen.found.Some? || (called && last.Success? && world.record.Stored?)))
            && (StatusFor(world, log, seen) == Failed <==>
                  || world.load.LoadTerminal?
                  || (world.load.LoadOk? && seen.charge == Some(Err(L.InsufficientCredits)))
                  || (paid && world.resultsReadable && seen.found.None? && world.preflight == GiveUp(true))
                  || (paid && called && R.EndsTerminally(world.platform, log)))
            && (StatusFor(world, log, seen) in {Published, Failed, Scheduled})
  {
  }

  /** A worker that has just posted finds no result of its job, so the one it stores is its own. */
  lemma PostedIsUnrecorded(past: seq<Event>, w: WorkerId, id: PostId)
    requires At(Run(START, past), w, Posted(id))
    ensures Run(START, past).acts[w].job !in Run(START, past).results
  {
    ReachableInv(past);
    HolderFile(Run(START, past), w);
  }

  class Backend {
    var jobs: map<JobId, Job>
    var results: map<JobId, PostId>
    const billing: B.BillingService
    const maxAttempts: int
    ghost var acts: map<WorkerId, Act>
    ghost var failing: set<JobId>
    ghost var past: seq<Event>

    constructor (billing: B.BillingService, maxAttempts: int)
      requires billing.Tables() == L.Bank([], map[])
      ensures Valid() && this.billing == billing && this.maxAttempts == maxAttempts && past == []
    {
      this.billing, this.maxAttempts := billing, maxAttempts;
      jobs, results, acts, failing, past := map[], map[], map[], {}, [];
    }

    ghost function View(): Sys
      reads this, billing
    {
      Sys(jobs, results, billing.Tables(), acts, failing)
    }

    ghost predicate Valid()
      reads this, billing
    {
      View() == Run(START, past)
    }

    /** Worker `w` stands at phase `p` of job `j`, whose channel belongs to `home`. */
    ghost predicate Holds(w: WorkerId, j: JobId, home: L.WorkspaceId, p: Phase)
      reads this, billing
    {
      Valid() && At(View(), w, p) && acts[w].job == j && jobs[j].workspace == home
    }

    twostate lemma Follows(e: Event)
      requires old(Valid())
      requires past == old(past) + [e] && View() == Apply(old(View()), e)
      ensures Valid()
    {
      RunAppends(START, old(past), [e]);
      RunOneEvent(Run(START, old(past)), e);
    }

    /** Any other processes run for a while; all that is known is that they take protocol steps. */
    method Others(ghost w: WorkerId)
      requires Valid()
      modifies this, billing
      ensures Valid() && old(past) <= past
      ensures forall e :: e in past[|old(past)|..] ==> !By(e, w)
    {
    }

    /** Lets the others run; the worker finds itself where it was. */
    method Interleave(ghost w: WorkerId)
      requires Valid()
      modifies this, billing
      ensures Valid() && old(past) <= past
      ensures w in acts <==> w in old(acts)
      ensures w in acts ==> acts[w] == old(acts[w]) && acts[w].job in jobs
      ensures w in acts && acts[w].job in old(jobs) ==>
        jobs[acts[w].job].workspace == old(jobs)[acts[w].job].workspace
    {
      Others(w);
      ghost var during := past[|old(past)|..];
      assert past == old(past) + during;
      RunAppends(START, old(past), during);
      OthersKeepAct(Run(START, old(past)), during, w);
      ReachableInv(past);
      if w in acts { HolderFile(Run(START, past), w); }
    }

    /** UPDATE ... SET status = 'publishing', attempts = attempts + 1 WHERE status = 'scheduled'. */
    method Claim(ghost w: WorkerId, j: JobId) returns (claimed: bool)
      requires Valid() && w !in acts
      modifies this
      ensures past == old(past) + [Event.Claim(w, j)]
      ensures claimed == (j in old(jobs) && old(jobs)[j].status == Scheduled)
      ensures if claimed then Holds(w, j, old(jobs)[j].workspace, Claimed) else Valid() && w !in acts
    {
      claimed := j in jobs && jobs[j].status == Scheduled;
      if claimed {
        jobs := jobs[j := jobs[j].(status := Publishing, attempts := jobs[j].attempts + 1)];
        acts := acts[w := Act(j, Claimed)];
      }
      past := past + [Event.Claim(w, j)];
      Follows(Event.Claim(w, j));
    }

    /** The claim takes effect but the worker never hears of it. */
    method ClaimUnheard(ghost w: WorkerId, j: JobId)
      requires Valid() && w !in acts
      modifies this
      ensures Valid() && past == old(past) + [Event.Claim(w, j), Event.Crash(w)]
      ensures w !in acts
    {
      var claimed := Claim(w, j);
      ghost var between := past;
      label claimed_:
      acts := acts - {w};
      past := past + [Event.Crash(w)];
      Follows@claimed_(Event.Crash(w));
      assert past == old(past) + ([Event.Claim(w, j)] + [Event.Crash(w)]);
    }

    function AfterLoad(load: LoadOutcome): Phase {
      match load case LoadOk => Loaded case LoadRetryable => Retrying case LoadTerminal => Failing
    }

    method Load(ghost w: WorkerId, j: JobId, ghost home: L.WorkspaceId, load: LoadOutcome)
      requires Holds(w, j, home, Claimed)
      modifies this
      ensures past == old(past) + [Event.Load(w, load)]
      ensures Holds(w, j, home, AfterLoad(load))
    {
      acts := acts[w := Act(j, AfterLoad(load))];
      past := past + [Event.Load(w, load)];
      Follows(Event.Load(w, load));
    }

    /** What the delivery of this content costs. */
    function PriceOf(content: Content): int {
      if content.channel !in billing.channels then 0
      else
        B.CostForItem(billing.pricing,
                      B.PublishItem(billing.channels[content.channel].platform, content.body, |content.media| > 0))
    }

    function Asks(world: World): Asked {
      var known := world.channelReadable && world.content.channel in billing.channels;
      Asked(if known then PriceOf(world.content) else 0, known, world.chargeFault)
    }

    /** Charges the job's workspace the price of what is about to be published. */
    method ChargePublish(ghost w: WorkerId, j: JobId, ghost home: L.WorkspaceId, content: Content, readable: bool,
                         fault: L.Fault)
      returns (r: Result<(), L.Error>)
      requires Holds(w, j, home, Loaded)
      requires content.channel in billing.channels ==> billing.channels[content.channel].workspace == home
      modifies this, billing
      ensures var known := readable && content.channel in billing.channels;
              && past == old(past) + [Event.Charge(w, if known then PriceOf(content) else 0, known, fault)]
              && (billing.Tables(), r) ==
                 if known then L.Charge(old(billing.Tables()), home, PriceOf(content), j, fault)
                 else (old(billing.Tables()), Err(L.Database))
      ensures Holds(w, j, home, AfterCharge(r))
    {
      var known := readable && content.channel in billing.channels;
      var cost := if known then PriceOf(content) else 0;
      r := billing.ChargePublish(j, content.channel, content.body, |content.media| > 0, readable, fault);
      ChargeStep(old(View()), w, cost, known, fault);
      jobs := jobs[j := jobs[j].(lastCost := cost)];
      acts := acts[w := Act(j, AfterCharge(r))];
      past := past + [Event.Charge(w, cost, known, fault)];
      Follows(Event.Charge(w, cost, known, fault));
    }

    method Find(ghost w: WorkerId, j: JobId, ghost home: L.WorkspaceId, readable: bool) returns (found: Option<PostId>)
      requires Holds(w, j, home, Paid)
      modifies this
      ensures past == old(past) + [Event.Lookup(w, readable)]
      ensures found == (if readable && j in old(results) then Some(old(results)[j]) else None)
      ensures results == old(results)
      ensures Holds(w, j, home, if !readable then Retrying else if found.Some? then Done else Missing)
    {
      found := if readable && j in results then Some(results[j]) else None;
      acts := acts[w := Act(j, if !readable then Retrying else if found.Some? then Done else Missing)];
      past := past + [Event.Lookup(w, readable)];
      Follows(Event.Lookup(w, readable));
    }

    method Check(ghost w: WorkerId, j: JobId, ghost home: L.WorkspaceId, verdict: Verdict)
      requires Holds(w, j, home, Missing)
      modifies this
      ensures past == old(past) + [Event.Preflight(w, verdict)]
      ensures Holds(w, j, home, match verdict case Pass => Calling case GiveUp(t) => if t then Rejected else Retrying)
    {
      acts := acts[w := Act(j, match verdict case Pass => Calling case GiveUp(t) => if t then Rejected else Retrying)];
      past := past + [Event.Preflight(w, verdict)];
      Follows(Event.Preflight(w, verdict));
    }

    /** One adapter call reaches the platform. */
    method Adapter(ghost w: WorkerId, j: JobId, ghost home: L.WorkspaceId, answer: Answer)
      requires Holds(w, j, home, Calling)
      modifies this
      ensures past == old(past) + [Event.Call(w, answer)]
      ensures Holds(w, j, home, match answer
                          case Success(id) => Posted(id)
                          case Again => Calling
                          case Stop(t) => if t then Rejected else Retrying)
    {
      var job := jobs[j];
      var posts := if answer.Success? then job.timeline + [answer.id] else job.timeline;
      jobs := jobs[j := job.(calls := job.calls + 1, timeline := posts)];
      acts := acts[w := Act(j, match answer
                               case Success(id) => Posted(id)
                               case Again => Calling
                               case Stop(t) => if t then Rejected else Retrying)];
      past := past + [Event.Call(w, answer)];
      Follows(Event.Call(w, answer));
    }

    method Record(ghost w: WorkerId, j: JobId, ghost home: L.WorkspaceId, id: PostId, outcome: RecordOutcome)
      returns (ok: bool)
      requires Holds(w, j, home, Posted(id))
      modifies this
      ensures past == old(past) + [Event.Record(w, outcome)]
      ensures ok == outcome.Stored?
      ensures ok ==> j in results && results[j] == id
      ensures Holds(w, j, home, if ok then Done else Retrying)
    {
      PostedIsUnrecorded(past, w, id);
      ok := outcome.Stored?;
      if !outcome.Refused? && j !in results { results := results[j := id]; }
      if !ok { jobs := jobs[j := jobs[j].(lostRecords := jobs[j].lostRecords + 1)]; }
      acts := acts[w := Act(j, if ok then Done else Retrying)];
      past := past + [Event.Record(w, outcome)];
      Follows(Event.Record(w, outcome));
    }

    method RefundPublish(ghost w: WorkerId, j: JobId, ghost home: L.WorkspaceId, channel: B.ChannelId, readable: bool,
                         fault: L.Fault)
      requires Holds(w, j, home, Rejected)
      requires channel in billing.channels ==> billing.channels[channel].workspace == home
      modifies this, billing
      ensures past == old(past) + [Event.Refund(w, readable && channel in billing.channels, fault)]
      ensures Holds(w, j, home, Failing)
    {
      var r := billing.RefundPublish(j, channel, readable, fault);
      acts := acts[w := Act(j, Failing)];
      past := past + [Event.Refund(w, readable && channel in billing.channels, fault)];
      Follows(Event.Refund(w, readable && channel in billing.channels, fault));
    }

    /** UPDATE ... SET status: written whatever the row says, heard or not, if it takes effect. */
    method SetStatus(ghost w: WorkerId, j: JobId, status: Status, reply: Reply) returns (heard: bool)
      requires Valid() && w in acts && acts[w].job == j && j in jobs
      requires match status
               case Published => acts[w].phase == Done
               case Failed => acts[w].phase == Failing
               case Scheduled => acts[w].phase == Retrying
               case _ => false
      modifies this
      ensures heard == reply.Answered?
      ensures past == old(past) + [if reply.TookEffect() then Event.Mark(w) else Event.Crash(w)]
      ensures Valid() && w !in acts && j in jobs
      ensures jobs[j] == old(jobs)[j].(status := if reply.TookEffect() then status else old(jobs)[j].status)
      ensures reply.TookEffect() && status == Published ==> j in results && results[j] in jobs[j].timeline
    {
      heard := reply.Answered?;
      ghost var e := if reply.TookEffect() then Event.Mark(w) else Event.Crash(w);
      if reply.TookEffect() { jobs := jobs[j := jobs[j].(status := status)]; }
      acts := acts - {w};
      past := past + [e];
      Follows(e);
      PostsMatchLostRecords(past, j);
    }

    /** The stored result, or the way to the first adapter call. */
    method LookUp(ghost w: WorkerId, j: JobId, ghost home: L.WorkspaceId, world: World)
      returns (found: Option<PostId>, ghost before: seq<Event>)
      requires Holds(w, j, home, Paid)
      modifies this, billing
      ensures old(past) <= past
      ensures found.Some? ==> world.resultsReadable && j in results && results[j] == found.value
      ensures world.resultsReadable ==> Found(past, w, j, before, found)
      ensures Holds(w, j, home,
        if !world.resultsReadable then Retrying
        else if found.Some? then Done
        else match world.preflight case Pass => Calling case GiveUp(t) => if t then Rejected else Retrying)
    {
      before := past;
      assert Valid();
      found := Find(w, j, home, world.resultsReadable);
      if world.resultsReadable && found.None? {
        ghost var looked := past;
        Interleave(w);
        Check(w, j, home, world.preflight);
        FoundLonger(looked, past, w, j, before, found);
      }
    }

    /** Pipeline.Publish: Ok with the post stored for the job, or a failure that is terminal or not. */
    method Publish(ghost w: WorkerId, j: JobId, ghost home: L.WorkspaceId, world: World)
      returns (r: Result<PostId, bool>, ghost found: Option<PostId>, ghost before: seq<Event>)
      requires Holds(w, j, home, Paid) && 1 <= maxAttempts
      modifies this, billing
      ensures old(past) <= past
      ensures r.Ok? ==> j in results && results[j] == r.value
      ensures world.resultsReadable ==> Found(past, w, j, before, found)
      ensures forall log: seq<R.Call<PostId>> :: Calls(world, maxAttempts, log) ==>
        r == PublishAnswer(world, log, found)
      ensures Holds(w, j, home, if r.Ok? then Done else if r.error then Rejected else Retrying)
    {
      var stored: Option<PostId>;
      stored, before := LookUp(w, j, home, world);
      found := stored;
      if !world.resultsReadable { return Err(false), found, before; }
      if stored.Some? { return Ok(stored.value), found, before; }
      if world.preflight.GiveUp? { return Err(world.preflight.terminal), found, before; }
      ghost var looked := past;
      r := AttemptPublish(w, j, home, world);
      FoundLonger(looked, past, w, j, before, found);
    }

    /** The retry loop, and a success recorded. */
    method AttemptPublish(ghost w: WorkerId, j: JobId, ghost home: L.WorkspaceId, world: World)
      returns (r: Result<PostId, bool>)
      requires Holds(w, j, home, Calling) && 1 <= maxAttempts
      modifies this, billing
      ensures old(past) <= past
      ensures r.Ok? ==> j in results && results[j] == r.value
      ensures forall log: seq<R.Call<PostId>> :: Calls(world, maxAttempts, log) ==> r == AttemptAnswer(world, log)
      ensures Holds(w, j, home, if r.Ok? then Done else if r.error then Rejected else Retrying)
    {
      r := CallPlatform(w, j, home, world);
      if r.Ok? {
        Interleave(w);
        var stored := Record(w, j, home, r.value, world.record);
        if !stored { r := Err(false); }
      }
    }

    /** The retry loop, each of whose calls the platform sees on its own. */
    method CallPlatform(ghost w: WorkerId, j: JobId, ghost home: L.WorkspaceId, world: World)
      returns (r: Result<PostId, bool>)
      requires Holds(w, j, home, Calling) && 1 <= maxAttempts
      modifies this, billing
      ensures old(past) <= past
      ensures forall log: seq<R.Call<PostId>> :: Calls(world, maxAttempts, log) ==>
        var last := log[|log| - 1].outcome;
        r == if last.Success? then Ok(last.value) else Err(R.EndsTerminally(world.platform, log))
      ensures Holds(w, j, home, if r.Ok? then Posted(r.value) else if r.error then Rejected else Retrying)
    {
      var published, log, waits := R.WithRetry(world.platform, maxAttempts, world.token);
      R.VerdictIs(world.platform, maxAttempts, world.token, log);
      forall other: seq<R.Call<PostId>> | Calls(world, maxAttempts, other)
        ensures other == log
      {
        R.RunIsDetermined(world.platform, maxAttempts, world.token, other, log);
      }
      var i := 1;
      Interleave(w);
      while i < |log|
        invariant Holds(w, j, home, Calling) && old(past) <= past
      {
        Adapter(w, j, home, Again);
        Interleave(w);
        i := i + 1;
      }
      if published.Err? {
        Adapter(w, j, home, Stop(published.error.IsTerminal()));
        return Err(published.error.IsTerminal());
      }
      Adapter(w, j, home, Success(published.value));
      return Ok(published.value);
    }

    /** From the claim to a charged job, or to the status it ends with. */
    method LoadAndCharge(ghost w: WorkerId, j: JobId, ghost home: L.WorkspaceId, world: World)
      returns (ends: Option<Status>, ghost charge: Option<Result<(), L.Error>>, ghost before: seq<Event>)
      requires Holds(w, j, home, Claimed)
      requires world.content.channel in billing.channels ==> billing.channels[world.content.channel].workspace == home
      modifies this, billing
      ensures old(past) <= past
      ensures world.load.LoadOk? ==> charge.Some? && Charged(past, w, j, home, Asks(world), before, charge.value)
      ensures ends == match world.load
                      case LoadRetryable => Some(Scheduled)
                      case LoadTerminal => Some(Failed)
                      case LoadOk =>
                        if charge == Some(Ok(())) then None
                        else if charge == Some(Err(L.InsufficientCredits)) then Some(Failed)
                        else Some(Scheduled)
      ensures Holds(w, j, home, if ends.None? then Paid else if ends.value == Failed then Failing else Retrying)
    {
      charge, before := None, past;
      Load(w, j, home, world.load);
      if world.load.LoadRetryable? { return Some(Scheduled), charge, before; }
      if world.load.LoadTerminal? { return Some(Failed), charge, before; }
      Interleave(w);
      before := past;
      assert Valid();
      var charged := ChargePublish(w, j, home, world.content, world.channelReadable, world.chargeFault);
      charge := Some(charged);
      if charged.Ok? {
        ghost var paid := past;
        Interleave(w);
        ChargedLonger(paid, past, w, j, home, Asks(world), before, charged);
        return None, charge, before;
      }
      return Some(if charged.error == L.InsufficientCredits then Failed else Scheduled), charge, before;
    }

    /** From the charge to the status the job ends with; a terminal failure gives the charge back first. */
    method PublishOrRefund(ghost w: WorkerId, j: JobId, ghost home: L.WorkspaceId, world: World)
      returns (next: Status, ghost found: Option<PostId>, ghost before: seq<Event>)
      requires Holds(w, j, home, Paid) && 1 <= maxAttempts
      requires world.content.channel in billing.channels ==> billing.channels[world.content.channel].workspace == home
      modifies this, billing
      ensures old(past) <= past
      ensures world.resultsReadable ==> Found(past, w, j, before, found)
      ensures forall log: seq<R.Call<PostId>> :: Calls(world, maxAttempts, log) ==>
        next == match PublishAnswer(world, log, found)
                case Ok(_) => Published
                case Err(terminal) => if terminal then Failed else Scheduled
      ensures next in {Published, Failed, Scheduled}
      ensures Holds(w, j, home, match next case Published => Done case Failed => Failing case _ => Retrying)
    {
      var published: Result<PostId, bool>;
      published, found, before := Publish(w, j, home, world);
      if published.Ok? { return Published, found, before; }
      if !published.error { return Scheduled, found, before; }
      ghost var looked := past;
      Interleave(w);
      RefundPublish(w, j, home, world.content.channel, world.refundReadable, world.refundFault);
      if world.resultsReadable { FoundLonger(looked, past, w, j, before, found); }
      return Failed, found, before;
    }

    /** From the claim to the last status write of the delivery. */
    method Deliver(ghost w: WorkerId, j: JobId, ghost home: L.WorkspaceId, world: World)
      returns (next: Status, ghost seen: Seen)
      requires Holds(w, j, home, Claimed) && 1 <= maxAttempts
      requires world.content.channel in billing.channels ==> billing.channels[world.content.channel].workspace == home
      modifies this, billing
      ensures old(past) <= past
      ensures Witnessed(past, w, j, home, world, Asks(world), seen)
      ensures forall log: seq<R.Call<PostId>> :: Calls(world, maxAttempts, log) ==> next == StatusFor(world, log, seen)
      ensures next in {Published, Failed, Scheduled}
      ensures Holds(w, j, home, match next case Published => Done case Failed => Failing case _ => Retrying)
    {
      var ends: Option<Status>;
      ghost var charge, beforeCharge, found, beforeLookup;
      ends, charge, beforeCharge := LoadAndCharge(w, j, home, world);
      seen := Seen(charge, beforeCharge, None, []);
      if ends.Some? { return ends.value, seen; }
      ghost var charged := past;
      next, found, beforeLookup := PublishOrRefund(w, j, home, world);
      ChargedLonger(charged, past, w, j, home, Asks(world), beforeCharge, charge.value);
      seen := Seen(charge, beforeCharge, found, beforeLookup);
    }

    /** The last status write and the answer to the task queue. */
    method Finish(ghost w: WorkerId, j: JobId, ghost home: L.WorkspaceId, world: World, next: Status, ghost seen: Seen)
      returns (r: Delivery)
      requires next in {Published, Failed, Scheduled}
      requires Holds(w, j, home, match next case Published => Done case Failed => Failing case _ => Retrying)
      requires Witnessed(past, w, j, home, world, Asks(world), seen)
      modifies this, billing
      ensures Valid() && old(past) <= past && w !in acts && j in jobs
      ensures Witnessed(past, w, j, home, world, Asks(world), seen)
      ensures world.mark.TookEffect() ==> jobs[j].status == next
      ensures r == match next
                   case Published => if world.mark.Answered? then Succeeded else Retry
                   case Failed => SkipRetry
                   case _ => Retry
      ensures r == Succeeded ==> j in results && results[j] in jobs[j].timeline
    {
      ghost var delivered := past;
      Interleave(w);
      var heard := SetStatus(w, j, next, world.mark);
      WitnessedLonger(delivered, past, w, j, home, world, Asks(world), seen);
      r := match next
           case Published => if heard then Succeeded else Retry
           case Failed => SkipRetry
           case _ => Retry;
    }

    /**
      One delivery of the job's task, with other processes interleaved between any two statements.
      When it ends the worker holds nothing. If its last status write took effect, the status is the
      one that the load, the charge, the result found and the platform's answers call for, and the
      answer to the task queue matches it: success and published, skip and failed, retry and
      scheduled. Only a published status the worker did not hear of is answered with a retry.
     */
    method ProcessPublish(ghost w: WorkerId, j: JobId, world: World)
      returns (r: Delivery, marked: bool, ghost seen: Seen)
      requires Valid() && w !in acts && 1 <= maxAttempts
      requires j in jobs && world.content.channel in billing.channels ==>
        billing.channels[world.content.channel].workspace == jobs[j].workspace
      modifies this, billing
      ensures Valid() && old(past) <= past && w !in acts
      ensures marked <==>
        world.claim.Answered? && world.mark.TookEffect() && j in old(jobs) && old(jobs)[j].status == Scheduled
      ensures marked ==> j in jobs && Witnessed(past, w, j, old(jobs)[j].workspace, world, Asks(world), seen)
      ensures marked ==> forall log: seq<R.Call<PostId>> :: Calls(world, maxAttempts, log) ==>
        jobs[j].status == StatusFor(world, log, seen)
      ensures marked ==>
        (Answers(r, jobs[j].status) || (jobs[j].status == Published && world.mark.Unanswered? && r == Retry))
      ensures r == Succeeded <==> marked && jobs[j].status == Published && world.mark.Answered?
      ensures r == Succeeded ==> j in results && results[j] in jobs[j].timeline
    {
      marked, seen := false, NOTHING_SEEN;
      if world.claim.Unanswered? {
        if world.claim.applied { ClaimUnheard(w, j); }
        return Retry, marked, seen;
      }
      ghost var home := if j in jobs then jobs[j].workspace else "";
      var claimed := Claim(w, j);
      if !claimed { return SkipRetry, marked, seen; }
      Interleave(w);
      var next: Status;
      next, seen := Deliver(w, j, home, world);
      r := Finish(w, j, home, world, next, seen);
      marked := world.mark.TookEffect();
    }
  }
}

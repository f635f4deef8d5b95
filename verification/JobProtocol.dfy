/**
  The publish-job protocol as a state machine over single database statements and adapter calls.

  Any number of workers process deliveries of the same jobs side by side. Every step that
  another process can observe is one event, and a run is any sequence of events: task
  deliveries may repeat, workers may stop between any two steps, users may cancel, and any
  call may fail with or without having taken effect. An event that does not apply where it
  occurs changes nothing.
 */
module JobProtocol {
  import opened Common
  import L = Ledger

  type JobId = string
  type WorkerId = int
  type PostId = string

  datatype Status = Scheduled | Publishing | Published | Failed | Canceled

  /**
    A row of scheduled_jobs together with what the outside world saw of it: whether the enqueueing
    of its task was reported as a success, the price asked at the last charge, how many adapter
    calls were made, the posts now on the platform, and how many calls to store the result failed.
   */
  datatype Job = Job(
    workspace: L.WorkspaceId,
    enqueued: bool,
    status: Status,
    attempts: nat,
    lastCost: int,
    calls: nat,
    timeline: seq<PostId>,
    lostRecords: nat)

  /** Where a worker stands inside ProcessPublish. */
  datatype Phase =
    | Claimed
    | Loaded
    | Paid
    | Missing
    | Calling
    | Posted(id: PostId)
    | Done
    | Rejected
    | Failing
    | Retrying

  datatype Act = Act(job: JobId, phase: Phase)

  /** The tables, the workers, and the jobs whose scheduler has yet to write that enqueueing failed. */
  datatype Sys = Sys(
    jobs: map<JobId, Job>,
    results: map<JobId, PostId>,
    bank: L.Bank,
    acts: map<WorkerId, Act>,
    failing: set<JobId>)

  datatype LoadOutcome = LoadOk | LoadRetryable | LoadTerminal
  datatype Verdict = Pass | GiveUp(terminal: bool)
  datatype Answer = Success(id: PostId) | Again | Stop(terminal: bool)
  datatype RecordOutcome = Stored | Refused | StoredUnheard

  datatype Event =
    | Create(job: JobId, workspace: L.WorkspaceId, enqueued: bool)
    | EnqueueFailed(job: JobId, applied: bool)
    | Cancel(job: JobId)
    | TopUp(workspace: L.WorkspaceId, credits: int, reference: L.Reference, fault: L.Fault)
    | Claim(worker: WorkerId, job: JobId)
    | Load(worker: WorkerId, load: LoadOutcome)
    | Charge(worker: WorkerId, cost: int, readable: bool, fault: L.Fault)
    | Lookup(worker: WorkerId, readable: bool)
    | Preflight(worker: WorkerId, verdict: Verdict)
    | Call(worker: WorkerId, answer: Answer)
    | Record(worker: WorkerId, record: RecordOutcome)
    | Refund(worker: WorkerId, readable: bool, fault: L.Fault)
    | Mark(worker: WorkerId)
    | Crash(worker: WorkerId)

  // ----- steps -----

  predicate At(s: Sys, w: WorkerId, p: Phase) {
    w in s.acts && s.acts[w].phase == p && s.acts[w].job in s.jobs
  }

  function Enter(s: Sys, w: WorkerId, p: Phase): Sys
    requires w in s.acts
  {
    s.(acts := s.acts[w := s.acts[w].(phase := p)])
  }

  function Leave(s: Sys, w: WorkerId): Sys {
    s.(acts := s.acts - {w})
  }

  /** UPDATE scheduled_jobs SET status: whatever the status was. */
  function SetStatus(s: Sys, j: JobId, status: Status): Sys {
    if j in s.jobs then s.(jobs := s.jobs[j := s.jobs[j].(status := status)]) else s
  }

  /** The row is inserted and its task enqueued, or reported as not enqueued: it may be all the same. */
  function Created(s: Sys, j: JobId, w: L.WorkspaceId, enqueued: bool): Sys {
    if j in s.jobs then s
    else
      s.(jobs := s.jobs[j := Job(w, enqueued, Scheduled, 0, 0, 0, [], 0)],
         failing := if enqueued then s.failing else s.failing + {j})
  }

  /** The scheduler marks the job it could not enqueue as failed, whatever the row says by now. */
  function GivingUp(s: Sys, j: JobId, applied: bool): Sys {
    if j !in s.failing then s
    else (if applied then SetStatus(s, j, Failed) else s).(failing := s.failing - {j})
  }

  function Canceling(s: Sys, j: JobId): Sys {
    if j in s.jobs && s.jobs[j].status == Scheduled then SetStatus(s, j, Canceled) else s
  }

  function ToppedUp(s: Sys, w: L.WorkspaceId, credits: int, reference: L.Reference, fault: L.Fault): Sys {
    s.(bank := L.Credit(s.bank, w, L.Topup, credits, reference, fault).0)
  }

  function Claiming(s: Sys, w: WorkerId, j: JobId): Sys {
    if w in s.acts || j !in s.jobs || s.jobs[j].status != Scheduled then s
    else
      var job := s.jobs[j];
      s.(jobs := s.jobs[j := job.(status := Publishing, attempts := job.attempts + 1)],
         acts := s.acts[w := Act(j, Claimed)])
  }

  function Loading(s: Sys, w: WorkerId, load: LoadOutcome): Sys {
    if !At(s, w, Claimed) then s
    else Enter(s, w, match load case LoadOk => Loaded case LoadRetryable => Retrying case LoadTerminal => Failing)
  }

  function Charging(s: Sys, w: WorkerId, cost: int, readable: bool, fault: L.Fault): Sys {
    if !At(s, w, Loaded) then s
    else
      var j := s.acts[w].job;
      var (bank, r) :=
        if readable then L.Charge(s.bank, s.jobs[j].workspace, cost, j, fault) else (s.bank, Err(L.Database));
      var next := if r.Ok? then Paid else if r.error == L.InsufficientCredits then Failing else Retrying;
      Enter(s.(bank := bank, jobs := s.jobs[j := s.jobs[j].(lastCost := cost)]), w, next)
  }

  function LookingUp(s: Sys, w: WorkerId, readable: bool): Sys {
    if !At(s, w, Paid) then s
    else Enter(s, w, if !readable then Retrying else if s.acts[w].job in s.results then Done else Missing)
  }

  function Preflighting(s: Sys, w: WorkerId, verdict: Verdict): Sys {
    if !At(s, w, Missing) then s
    else Enter(s, w, match verdict case Pass => Calling case GiveUp(t) => if t then Rejected else Retrying)
  }

  function Answering(s: Sys, w: WorkerId, answer: Answer): Sys {
    if !At(s, w, Calling) then s
    else
      var j := s.acts[w].job;
      var job := s.jobs[j].(calls := s.jobs[j].calls + 1);
      var posted := if answer.Success? then job.timeline + [answer.id] else job.timeline;
      Enter(s.(jobs := s.jobs[j := job.(timeline := posted)]), w,
            match answer
            case Success(id) => Posted(id)
            case Again => Calling
            case Stop(t) => if t then Rejected else Retrying)
  }

  function Recording(s: Sys, w: WorkerId, record: RecordOutcome): Sys {
    if !(w in s.acts && s.acts[w].phase.Posted? && s.acts[w].job in s.jobs) then s
    else
      var j, id := s.acts[w].job, s.acts[w].phase.id;
      var results := if record.Refused? || j in s.results then s.results else s.results[j := id];
      if record.Stored? then Enter(s.(results := results), w, Done)
      else
        var lost := s.jobs[j].(lostRecords := s.jobs[j].lostRecords + 1);
        Enter(s.(results := results, jobs := s.jobs[j := lost]), w, Retrying)
  }

  function Refunding(s: Sys, w: WorkerId, readable: bool, fault: L.Fault): Sys {
    if !At(s, w, Rejected) then s
    else
      var j := s.acts[w].job;
      var bank := if readable then L.RefundJob(s.bank, s.jobs[j].workspace, j, fault).0 else s.bank;
      Enter(s.(bank := bank), w, Failing)
  }

  function Marking(s: Sys, w: WorkerId): Sys {
    if At(s, w, Done) then Leave(SetStatus(s, s.acts[w].job, Published), w)
    else if At(s, w, Failing) then Leave(SetStatus(s, s.acts[w].job, Failed), w)
    else if At(s, w, Retrying) then Leave(SetStatus(s, s.acts[w].job, Scheduled), w)
    else s
  }

  function Apply(s: Sys, e: Event): Sys {
    match e
    case Create(j, w, enqueued) => Created(s, j, w, enqueued)
    case EnqueueFailed(j, applied) => GivingUp(s, j, applied)
    case Cancel(j) => Canceling(s, j)
    case TopUp(w, credits, reference, fault) => ToppedUp(s, w, credits, reference, fault)
    case Claim(w, j) => Claiming(s, w, j)
    case Load(w, load) => Loading(s, w, load)
    case Charge(w, cost, readable, fault) => Charging(s, w, cost, readable, fault)
    case Lookup(w, readable) => LookingUp(s, w, readable)
    case Preflight(w, verdict) => Preflighting(s, w, verdict)
    case Call(w, answer) => Answering(s, w, answer)
    case Record(w, record) => Recording(s, w, record)
    case Refund(w, readable, fault) => Refunding(s, w, readable, fault)
    case Mark(w) => Marking(s, w)
    case Crash(w) => Leave(s, w)
  }

  function Run(s: Sys, events: seq<Event>): Sys
    decreases |events|
  {
    if events == [] then s else Run(Apply(s, events[0]), events[1..])
  }

  const START: Sys := Sys(map[], map[], L.Bank([], map[]), map[], {})

  // ----- what every reachable state satisfies -----

  function ChargeOf(s: Sys, j: JobId): Option<L.Entry>
    requires j in s.jobs
  {
    L.Charged(s.bank, s.jobs[j].workspace, j)
  }

  function RefundOf(s: Sys, j: JobId): Option<L.Entry>
    requires j in s.jobs
  {
    L.Refunded(s.bank, s.jobs[j].workspace, j)
  }

  /** Everything the tables and the platform say about one job. */
  datatype File = File(job: Job, result: Option<PostId>, charge: Option<L.Entry>, refund: Option<L.Entry>) {
    /** Every post of the job is one whose result could not be stored. */
    predicate OnlyLostPosts() {
      result.None? && |job.timeline| == job.lostRecords
    }

    /** Another attempt will find a stored result, or finds only lost posts behind it. */
    predicate Retriable() {
      result.Some? || |job.timeline| == job.lostRecords
    }

    predicate PaidFor() {
      job.lastCost != 0 ==> charge.Some?
    }

    predicate Inv() {
      && job.lostRecords <= |job.timeline| <= job.lostRecords + 1
      && (result.Some? ==> result.value in job.timeline)
      && (refund.Some? ==>
            && charge.Some? && refund.value.credits == -charge.value.credits
            && (job.status == Publishing || job.status == Failed)
            && OnlyLostPosts())
      && (job.status == Scheduled ==> Retriable())
      && (job.status == Published ==> result.Some? && PaidFor())
    }

    /** What holds besides while a worker stands at `phase`. */
    predicate HeldAt(phase: Phase) {
      && (job.status == Publishing || (job.status == Failed && !job.enqueued))
      && (!phase.Failing? ==> refund.None?)
      && match phase {
        case Claimed | Loaded | Retrying => Retriable()
        case Paid => Retriable() && PaidFor()
        case Missing | Calling => OnlyLostPosts() && PaidFor()
        case Rejected => OnlyLostPosts()
        case Posted(id) =>
          result.None? && id in job.timeline && |job.timeline| == job.lostRecords + 1 && PaidFor()
        case Done => result.Some? && PaidFor()
        case Failing => true
      }
    }
  }

  function FileOf(s: Sys, j: JobId): File
    requires j in s.jobs
  {
    File(s.jobs[j], if j in s.results then Some(s.results[j]) else None, ChargeOf(s, j), RefundOf(s, j))
  }

  ghost predicate OneHolder(s: Sys) {
    forall v, w :: v in s.acts && w in s.acts && s.acts[v].job == s.acts[w].job ==> v == w
  }

  ghost predicate LedgerNamesJobs(s: Sys) {
    forall e :: e in s.bank.ledger && (e.kind == L.PublishCharge || e.kind == L.Refund) ==>
      e.reference in s.jobs && s.jobs[e.reference].workspace == e.workspace
  }

  ghost predicate BankInv(s: Sys) {
    L.Sound(s.bank) && LedgerNamesJobs(s)
  }

  ghost predicate JobsInv(s: Sys) {
    && s.results.Keys <= s.jobs.Keys
    && forall j :: j in s.jobs ==> FileOf(s, j).Inv()
  }

  ghost predicate ActsInv(s: Sys) {
    forall w :: w in s.acts ==> s.acts[w].job in s.jobs && FileOf(s, s.acts[w].job).HeldAt(s.acts[w].phase)
  }

  ghost predicate FailingInv(s: Sys) {
    forall j :: j in s.failing ==> j in s.jobs && !s.jobs[j].enqueued
  }

  ghost predicate Inv(s: Sys) {
    FailingInv(s) && BankInv(s) && OneHolder(s) && JobsInv(s) && ActsInv(s)
  }

  /** The step left every other job's file alone, and only `w` may now hold `j`. */
  ghost predicate OnlyMoved(s: Sys, s': Sys, w: WorkerId, j: JobId) {
    && s'.jobs.Keys == s.jobs.Keys && j in s.jobs
    && s'.results.Keys <= s.jobs.Keys
    && s'.failing <= s.failing && s'.jobs[j].enqueued == s.jobs[j].enqueued
    && (forall k :: k in s.jobs && k != j ==> FileOf(s', k) == FileOf(s, k))
    && (forall v :: v in s'.acts ==>
          (v in s.acts && s'.acts[v] == s.acts[v] && s.acts[v].job != j) || (v == w && s'.acts[v].job == j))
  }

  lemma MoveKeepsInv(s: Sys, s': Sys, w: WorkerId, j: JobId)
    requires Inv(s) && OnlyMoved(s, s', w, j) && BankInv(s')
    requires FileOf(s', j).Inv()
    requires w in s'.acts && s'.acts[w].job == j ==> FileOf(s', j).HeldAt(s'.acts[w].phase)
    ensures Inv(s')
  {
  }

  lemma ClaimKeepsInv(s: Sys, w: WorkerId, j: JobId)
    requires Inv(s)
    ensures Inv(Claiming(s, w, j))
  {
    if !(w in s.acts || j !in s.jobs || s.jobs[j].status != Scheduled) {
      MoveKeepsInv(s, Claiming(s, w, j), w, j);
    }
  }

  lemma CancelKeepsInv(s: Sys, j: JobId)
    requires Inv(s)
    ensures Inv(Canceling(s, j))
  {
    if j in s.jobs && s.jobs[j].status == Scheduled {
      MoveKeepsInv(s, Canceling(s, j), 0, j);
    }
  }

  lemma HolderFile(s: Sys, w: WorkerId)
    requires Inv(s) && w in s.acts
    ensures s.acts[w].job in s.jobs
    ensures FileOf(s, s.acts[w].job).Inv() && FileOf(s, s.acts[w].job).HeldAt(s.acts[w].phase)
  {
  }

  /** `w` is the worker on the job, if there is one. */
  lemma OverwriteKeepsInv(s: Sys, j: JobId, applied: bool, w: WorkerId)
    requires Inv(s) && j in s.failing
    requires forall v :: v in s.acts && s.acts[v].job == j ==> v == w
    ensures Inv(GivingUp(s, j, applied))
  {
    var s' := GivingUp(s, j, applied);
    assert s'.jobs == s.jobs[j := if applied then s.jobs[j].(status := Failed) else s.jobs[j]];
    assert FileOf(s, j).Inv() && FileOf(s', j) == FileOf(s, j).(job := s'.jobs[j]);
    if w in s.acts && s.acts[w].job == j { HolderFile(s, w); }
    MoveKeepsInv(s, s', w, j);
  }

  lemma GiveUpKeepsInv(s: Sys, j: JobId, applied: bool)
    requires Inv(s)
    ensures Inv(GivingUp(s, j, applied))
  {
    if j in s.failing {
      if w :| w in s.acts && s.acts[w].job == j {
        OverwriteKeepsInv(s, j, applied, w);
      } else {
        OverwriteKeepsInv(s, j, applied, 0);
      }
    }
  }

  /** A holder's step that posts nothing: its job's row and result may change, and its phase. */
  lemma HolderMoves(s: Sys, s': Sys, w: WorkerId)
    requires Inv(s) && w in s.acts && s.acts[w].job in s.jobs
    requires s'.bank == s.bank && s'.failing == s.failing
    requires var j := s.acts[w].job;
             && s'.jobs == s.jobs[j := if j in s'.jobs then s'.jobs[j] else s.jobs[j]]
             && s'.jobs[j].workspace == s.jobs[j].workspace && s'.jobs[j].enqueued == s.jobs[j].enqueued
             && (s'.results == s.results || (j in s'.results && s'.results == s.results[j := s'.results[j]]))
             && FileOf(s', j).Inv()
             && (s'.acts == s.acts - {w}
                 || (w in s'.acts && s'.acts == s.acts[w := s'.acts[w]] && s'.acts[w].job == j
                     && FileOf(s', j).HeldAt(s'.acts[w].phase)))
    ensures Inv(s')
  {
    var j := s.acts[w].job;
    assert LedgerNamesJobs(s');
    assert OnlyMoved(s, s', w, j);
    MoveKeepsInv(s, s', w, j);
  }

  /** A step that only moves the worker on, or takes it away. */
  lemma TurnKeepsInv(s: Sys, s': Sys, w: WorkerId)
    requires Inv(s)
    requires s' == s || (w in s.acts && (s' == Leave(s, w) || exists p :: s' == Enter(s, w, p) && Allows(s, w, p)))
    ensures Inv(s')
  {
    if s' != s {
      HolderFile(s, w);
      assert FileOf(s', s.acts[w].job) == FileOf(s, s.acts[w].job);
      HolderMoves(s, s', w);
    }
  }

  ghost predicate Allows(s: Sys, w: WorkerId, p: Phase) {
    w in s.acts && s.acts[w].job in s.jobs && FileOf(s, s.acts[w].job).HeldAt(p)
  }

  lemma LoadKeepsInv(s: Sys, w: WorkerId, load: LoadOutcome)
    requires Inv(s)
    ensures Inv(Loading(s, w, load))
  {
    if At(s, w, Claimed) {
      HolderFile(s, w);
      assert Allows(s, w, Loading(s, w, load).acts[w].phase);
    }
    TurnKeepsInv(s, Loading(s, w, load), w);
  }

  lemma LookupKeepsInv(s: Sys, w: WorkerId, readable: bool)
    requires Inv(s)
    ensures Inv(LookingUp(s, w, readable))
  {
    if At(s, w, Paid) {
      HolderFile(s, w);
      assert Allows(s, w, LookingUp(s, w, readable).acts[w].phase);
    }
    TurnKeepsInv(s, LookingUp(s, w, readable), w);
  }

  lemma PreflightKeepsInv(s: Sys, w: WorkerId, verdict: Verdict)
    requires Inv(s)
    ensures Inv(Preflighting(s, w, verdict))
  {
    if At(s, w, Missing) {
      HolderFile(s, w);
      assert Allows(s, w, Preflighting(s, w, verdict).acts[w].phase);
    }
    TurnKeepsInv(s, Preflighting(s, w, verdict), w);
  }

  lemma CrashKeepsInv(s: Sys, w: WorkerId)
    requires Inv(s)
    ensures Inv(Leave(s, w))
  {
    if w !in s.acts { assert s.acts - {w} == s.acts; }
    TurnKeepsInv(s, Leave(s, w), w);
  }

  lemma CallKeepsInv(s: Sys, w: WorkerId, answer: Answer)
    requires Inv(s)
    ensures Inv(Answering(s, w, answer))
  {
    if At(s, w, Calling) {
      HolderFile(s, w);
      HolderMoves(s, Answering(s, w, answer), w);
    }
  }

  lemma RecordKeepsInv(s: Sys, w: WorkerId, record: RecordOutcome)
    requires Inv(s)
    ensures Inv(Recording(s, w, record))
  {
    if w in s.acts && s.acts[w].phase.Posted? {
      HolderFile(s, w);
      HolderMoves(s, Recording(s, w, record), w);
    }
  }

  lemma MarkKeepsInv(s: Sys, w: WorkerId)
    requires Inv(s)
    ensures Inv(Marking(s, w))
  {
    if w in s.acts {
      HolderFile(s, w);
      var s' := Marking(s, w);
      if s' != s { HolderMoves(s, s', w); }
    }
  }

  /** The ledger holds nothing under the name of a job that does not exist. */
  lemma NothingPostedYet(s: Sys, w: L.WorkspaceId, j: JobId)
    requires LedgerNamesJobs(s) && j !in s.jobs
    ensures L.Charged(s.bank, w, j).None? && L.Refunded(s.bank, w, j).None?
  {
  }

  lemma CreateKeepsFiles(s: Sys, j: JobId, w: L.WorkspaceId, enqueued: bool)
    requires Inv(s) && j !in s.jobs
    ensures var s' := Created(s, j, w, enqueued);
            && JobsInv(s') && ActsInv(s')
            && forall k :: k in s.jobs ==> FileOf(s', k) == FileOf(s, k)
  {
    var s' := Created(s, j, w, enqueued);
    NothingPostedYet(s, w, j);
    assert FileOf(s', j) == File(s'.jobs[j], None, None, None);
    forall k | k in s.jobs
      ensures FileOf(s', k) == FileOf(s, k)
    {
    }
  }

  lemma CreateKeepsInv(s: Sys, j: JobId, w: L.WorkspaceId, enqueued: bool)
    requires Inv(s)
    ensures Inv(Created(s, j, w, enqueued))
  {
    var s' := Created(s, j, w, enqueued);
    if j !in s.jobs {
      CreateKeepsFiles(s, j, w, enqueued);
      assert OneHolder(s') && LedgerNamesJobs(s');
    }
  }

  lemma TopUpKeepsInv(s: Sys, w: L.WorkspaceId, credits: int, reference: L.Reference, fault: L.Fault)
    requires Inv(s)
    ensures Inv(ToppedUp(s, w, credits, reference, fault))
  {
    var s' := ToppedUp(s, w, credits, reference, fault);
    L.CreditIsSound(s.bank, w, L.Topup, credits, reference, fault);
    var e := L.Entry(w, L.Topup, credits, reference);
    forall k | k in s.jobs
      ensures FileOf(s', k) == FileOf(s, k)
    {
      L.FindAfterPost(s.bank.ledger, e, s.jobs[k].workspace, L.PublishCharge, k);
      L.FindAfterPost(s.bank.ledger, e, s.jobs[k].workspace, L.Refund, k);
    }
    assert OneHolder(s') && LedgerNamesJobs(s');
  }

  /** A posting under this job's reference leaves every other job's charge and refund alone. */
  lemma PostingIsLocal(s: Sys, bank: L.Bank, e: L.Entry, j: JobId)
    requires LedgerNamesJobs(s) && j in s.jobs
    requires e.workspace == s.jobs[j].workspace && e.reference == j
    requires L.OnePosting(s.bank, bank, e)
    ensures LedgerNamesJobs(s.(bank := bank))
    ensures forall k :: k in s.jobs && k != j ==>
      ChargeOf(s.(bank := bank), k) == ChargeOf(s, k) && RefundOf(s.(bank := bank), k) == RefundOf(s, k)
  {
    forall k | k in s.jobs && k != j
      ensures ChargeOf(s.(bank := bank), k) == ChargeOf(s, k) && RefundOf(s.(bank := bank), k) == RefundOf(s, k)
    {
      L.FindAfterPost(s.bank.ledger, e, s.jobs[k].workspace, L.PublishCharge, k);
      L.FindAfterPost(s.bank.ledger, e, s.jobs[k].workspace, L.Refund, k);
    }
  }

  /** A holder's step that posts at most one row, under its job's reference. */
  lemma PostingKeepsInv(s: Sys, s': Sys, w: WorkerId, e: L.Entry)
    requires Inv(s) && w in s.acts && w in s'.acts
    requires var j := s.acts[w].job;
             && j in s.jobs && e.workspace == s.jobs[j].workspace && e.reference == j
             && L.OnePosting(s.bank, s'.bank, e) && L.Sound(s'.bank)
             && j in s'.jobs && s'.jobs == s.jobs[j := s'.jobs[j]] && s'.jobs[j].workspace == s.jobs[j].workspace
             && s'.jobs[j].enqueued == s.jobs[j].enqueued && s'.failing == s.failing
             && s'.results == s.results && s'.acts == s.acts[w := s'.acts[w]] && s'.acts[w].job == j
             && FileOf(s', j).Inv() && FileOf(s', j).HeldAt(s'.acts[w].phase)
    ensures Inv(s')
  {
    var j := s.acts[w].job;
    PostingIsLocal(s, s'.bank, e, j);
    forall k | k in s.jobs && k != j
      ensures FileOf(s', k) == FileOf(s, k)
    {
      assert ChargeOf(s.(bank := s'.bank), k) == ChargeOf(s, k);
    }
    assert LedgerNamesJobs(s');
    MoveKeepsInv(s, s', w, j);
  }

  lemma ChargeKeepsInv(s: Sys, w: WorkerId, cost: int, readable: bool, fault: L.Fault)
    requires Inv(s)
    ensures Inv(Charging(s, w, cost, readable, fault))
  {
    if At(s, w, Loaded) {
      var j := s.acts[w].job;
      HolderFile(s, w);
      L.ChargeIsSound(s.bank, s.jobs[j].workspace, cost, j, fault);
      L.ChargeKeepsFile(s.bank, s.jobs[j].workspace, cost, j, fault);
      PostingKeepsInv(s, Charging(s, w, cost, readable, fault), w,
                      L.Entry(s.jobs[j].workspace, L.PublishCharge, -cost, j));
    }
  }

  lemma RefundKeepsFile(s: Sys, w: WorkerId, readable: bool, fault: L.Fault)
    requires Inv(s) && At(s, w, Rejected)
    ensures var j, s' := s.acts[w].job, Refunding(s, w, readable, fault);
            var e := L.Entry(s.jobs[j].workspace, L.Refund, -L.Credits(ChargeOf(s, j)), j);
            && s' == s.(bank := s'.bank, acts := s.acts[w := Act(j, Failing)])
            && L.OnePosting(s.bank, s'.bank, e) && L.Sound(s'.bank)
            && FileOf(s', j).Inv() && FileOf(s', j).HeldAt(Failing)
  {
    var j := s.acts[w].job;
    HolderFile(s, w);
    L.RefundIsSound(s.bank, s.jobs[j].workspace, j, fault);
  }

  lemma RefundKeepsInv(s: Sys, w: WorkerId, readable: bool, fault: L.Fault)
    requires Inv(s)
    ensures Inv(Refunding(s, w, readable, fault))
  {
    if At(s, w, Rejected) {
      var j := s.acts[w].job;
      RefundKeepsFile(s, w, readable, fault);
      PostingKeepsInv(s, Refunding(s, w, readable, fault), w,
                      L.Entry(s.jobs[j].workspace, L.Refund, -L.Credits(ChargeOf(s, j)), j));
    }
  }

  lemma StepKeepsInv(s: Sys, e: Event)
    requires Inv(s)
    ensures Inv(Apply(s, e))
  {
    match e
    case Create(j, w, enqueued) => CreateKeepsInv(s, j, w, enqueued);
    case EnqueueFailed(j, applied) => GiveUpKeepsInv(s, j, applied);
    case Cancel(j) => CancelKeepsInv(s, j);
    case TopUp(w, credits, reference, fault) => TopUpKeepsInv(s, w, credits, reference, fault);
    case Claim(w, j) => ClaimKeepsInv(s, w, j);
    case Charge(w, cost, readable, fault) => ChargeKeepsInv(s, w, cost, readable, fault);
    case Call(w, answer) => CallKeepsInv(s, w, answer);
    case Record(w, record) => RecordKeepsInv(s, w, record);
    case Refund(w, readable, fault) => RefundKeepsInv(s, w, readable, fault);
    case Mark(w) => MarkKeepsInv(s, w);
    case Load(w, load) => LoadKeepsInv(s, w, load);
    case Lookup(w, readable) => LookupKeepsInv(s, w, readable);
    case Preflight(w, verdict) => PreflightKeepsInv(s, w, verdict);
    case Crash(w) => CrashKeepsInv(s, w);
  }

  lemma {:induction false} RunKeepsInv(s: Sys, events: seq<Event>)
    requires Inv(s)
    ensures Inv(Run(s, events))
    decreases |events|
  {
    if events != [] {
      StepKeepsInv(s, events[0]);
      RunKeepsInv(Apply(s, events[0]), events[1..]);
    }
  }
}

/** What the publish-job protocol guarantees over every run. */
module JobSafety {
  import opened Common
  import L = Ledger
  import opened JobProtocol

  lemma StartInv()
    ensures Inv(START)
  {
  }

  lemma ReachableInv(events: seq<Event>)
    ensures Inv(Run(START, events))
  {
    StartInv();
    RunKeepsInv(START, events);
  }

  lemma {:induction false} RunAppends(s: Sys, a: seq<Event>, b: seq<Event>)
    ensures Run(s, a + b) == Run(Run(s, a), b)
    decreases |a|
  {
    if a == [] {
      assert a + b == b;
    } else {
      assert (a + b)[1..] == a[1..] + b;
      RunAppends(Apply(s, a[0]), a[1..], b);
    }
  }

  // ----- claims and statuses -----

  /**
    In every run at most one worker is between the claim and the mark of a job. The job is then
    publishing, unless its scheduler, told that enqueueing failed, has since marked it as failed.
   */
  lemma ClaimIsExclusive(events: seq<Event>, v: WorkerId, w: WorkerId)
    requires v in Run(START, events).acts && w in Run(START, events).acts
    requires Run(START, events).acts[v].job == Run(START, events).acts[w].job
    ensures v == w
    ensures var s := Run(START, events);
            var j := s.acts[v].job;
            j in s.jobs && (s.jobs[j].status == Publishing || (s.jobs[j].status == Failed && !s.jobs[j].enqueued))
  {
    ReachableInv(events);
    HolderFile(Run(START, events), v);
  }

  predicate Settled(status: Status) {
    status == Published || status == Failed || status == Canceled
  }

  /**
    The only status changes there are, although marks are written whatever the row says. The last
    two are for jobs whose enqueueing was reported as failing.
   */
  predicate LegalChange(e: Event, from: Job, to: Status) {
    || (e.Claim? && from.status == Scheduled && to == Publishing)
    || (e.Cancel? && from.status == Scheduled && to == Canceled)
    || (e.Mark? && from.status == Publishing && to in {Published, Failed, Scheduled})
    || (e.EnqueueFailed? && !from.enqueued && to == Failed)
    || (e.Mark? && !from.enqueued && from.status == Failed && to in {Published, Scheduled})
  }

  lemma OtherStepsKeepStatus(s: Sys, e: Event, j: JobId)
    requires j in s.jobs && !e.Claim? && !e.Cancel? && !e.Mark? && !e.EnqueueFailed?
    ensures j in Apply(s, e).jobs && Apply(s, e).jobs[j].status == s.jobs[j].status
  {
  }

  lemma MarkIsLegal(s: Sys, w: WorkerId, j: JobId)
    requires Inv(s) && j in s.jobs
    ensures j in Marking(s, w).jobs
    ensures var to := Marking(s, w).jobs[j].status;
            s.jobs[j].status == to || LegalChange(Mark(w), s.jobs[j], to)
  {
    if w in s.acts { HolderFile(s, w); }
  }

  lemma StatusChangesAreLegal(s: Sys, e: Event, j: JobId)
    requires Inv(s) && j in s.jobs
    ensures j in Apply(s, e).jobs
    ensures var to := Apply(s, e).jobs[j].status;
            s.jobs[j].status == to || LegalChange(e, s.jobs[j], to)
  {
    if e.Mark? {
      MarkIsLegal(s, e.worker, j);
    } else if !e.Claim? && !e.Cancel? && !e.EnqueueFailed? {
      OtherStepsKeepStatus(s, e, j);
    }
  }

  /** The event is a step of a worker on another job, or of no worker at all. */
  predicate Elsewhere(s: Sys, e: Event, j: JobId) {
    match e
    case Create(k, _, _) => true
    case EnqueueFailed(k, _) => k != j
    case Cancel(k) => k != j
    case TopUp(_, _, _, _) => true
    case Claim(_, k) => k != j
    case _ => e.worker in s.acts ==> s.acts[e.worker].job != j && s.acts[e.worker].job in s.jobs
  }

  /** The one row an event may add to the ledger. */
  function PostingOf(s: Sys, e: Event): L.Entry {
    match e
    case TopUp(w, credits, reference, _) => L.Entry(w, L.Topup, credits, reference)
    case Charge(w, cost, _, _) =>
      if !At(s, w, Loaded) then L.Entry("", L.Topup, 0, "")
      else L.Entry(s.jobs[s.acts[w].job].workspace, L.PublishCharge, -cost, s.acts[w].job)
    case Refund(w, _, _) =>
      if !At(s, w, Rejected) then L.Entry("", L.Topup, 0, "")
      else
        var j := s.acts[w].job;
        L.Entry(s.jobs[j].workspace, L.Refund, -L.Credits(ChargeOf(s, j)), j)
    case _ => L.Entry("", L.Topup, 0, "")
  }

  lemma ChargePosts(s: Sys, w: WorkerId, cost: int, readable: bool, fault: L.Fault)
    requires L.Sound(s.bank)
    ensures L.OnePosting(s.bank, Charging(s, w, cost, readable, fault).bank,
                         PostingOf(s, Event.Charge(w, cost, readable, fault)))
  {
    if At(s, w, Loaded) {
      L.ChargeIsSound(s.bank, s.jobs[s.acts[w].job].workspace, cost, s.acts[w].job, fault);
    }
  }

  lemma RefundPosts(s: Sys, w: WorkerId, readable: bool, fault: L.Fault)
    requires L.Sound(s.bank)
    ensures L.OnePosting(s.bank, Refunding(s, w, readable, fault).bank, PostingOf(s, Event.Refund(w, readable, fault)))
  {
    if !At(s, w, Rejected) || !readable {
      assert Refunding(s, w, readable, fault).bank == s.bank;
    } else {
      RefundPostsOne(s.bank, s.jobs[s.acts[w].job].workspace, s.acts[w].job, fault);
    }
  }

  lemma RefundPostsOne(b: L.Bank, w: L.WorkspaceId, job: JobId, fault: L.Fault)
    requires L.Sound(b)
    ensures L.OnePosting(b, L.RefundJob(b, w, job, fault).0,
                         L.Entry(w, L.Refund, -L.Credits(L.Charged(b, w, job)), job))
  {
    L.RefundIsSound(b, w, job, fault);
  }

  lemma StepPosts(s: Sys, e: Event)
    requires L.Sound(s.bank)
    ensures L.OnePosting(s.bank, Apply(s, e).bank, PostingOf(s, e))
  {
    match e
    case TopUp(w, credits, reference, fault) =>
      L.CreditIsSound(s.bank, w, L.Topup, credits, reference, fault);
    case Charge(w, cost, readable, fault) => ChargePosts(s, w, cost, readable, fault);
    case Refund(w, readable, fault) => RefundPosts(s, w, readable, fault);
    case _ => assert Apply(s, e).bank == s.bank;
  }

  lemma StepKeepsWorkspace(s: Sys, e: Event, j: JobId)
    requires j in s.jobs
    ensures j in Apply(s, e).jobs && Apply(s, e).jobs[j].workspace == s.jobs[j].workspace
  {
  }

  lemma MoneyIsLocal(s: Sys, e: Event, j: JobId)
    requires BankInv(s) && j in s.jobs && Elsewhere(s, e, j)
    requires e.TopUp? || e.Charge? || e.Refund?
    ensures j in Apply(s, e).jobs && FileOf(Apply(s, e), j) == FileOf(s, j)
  {
    StepPosts(s, e);
    L.FindAfterPost(s.bank.ledger, PostingOf(s, e), s.jobs[j].workspace, L.PublishCharge, j);
    L.FindAfterPost(s.bank.ledger, PostingOf(s, e), s.jobs[j].workspace, L.Refund, j);
  }

  lemma RowsAreLocal(s: Sys, e: Event, j: JobId)
    requires j in s.jobs && Elsewhere(s, e, j)
    requires !e.TopUp? && !e.Charge? && !e.Refund?
    ensures var s' := Apply(s, e);
            && s'.bank == s.bank && j in s'.jobs && s'.jobs[j] == s.jobs[j]
            && (j in s'.results <==> j in s.results) && (j in s.results ==> s'.results[j] == s.results[j])
  {
  }

  lemma StepIsLocal(s: Sys, e: Event, j: JobId)
    requires BankInv(s) && j in s.jobs && Elsewhere(s, e, j)
    ensures j in Apply(s, e).jobs && FileOf(Apply(s, e), j) == FileOf(s, j)
  {
    if e.TopUp? || e.Charge? || e.Refund? {
      MoneyIsLocal(s, e, j);
    } else {
      RowsAreLocal(s, e, j);
    }
  }

  // ----- what never changes again -----

  predicate Held(s: Sys, j: JobId) {
    exists w :: w in s.acts && s.acts[w].job == j
  }

  /** No worker is on the job, and its scheduler has no status to write that the job does not have. */
  predicate Quiet(s: Sys, j: JobId) {
    j in s.jobs && !Held(s, j) && (j in s.failing ==> s.jobs[j].status == Failed)
  }

  lemma NobodyElseArrives(s: Sys, e: Event, j: JobId)
    requires Elsewhere(s, e, j) && !Held(s, j)
    ensures !Held(Apply(s, e), j)
  {
    forall w | w in Apply(s, e).acts
      ensures Apply(s, e).acts[w].job != j
    {
      if w in s.acts { assert s.acts[w].job != j; }
    }
  }

  lemma FailingShrinks(s: Sys, e: Event, j: JobId)
    requires j in s.jobs && j !in s.failing
    ensures j !in Apply(s, e).failing
  {
  }

  lemma ElsewhereStays(s: Sys, e: Event, j: JobId)
    requires Inv(s) && Quiet(s, j) && Elsewhere(s, e, j)
    ensures Quiet(Apply(s, e), j) && FileOf(Apply(s, e), j) == FileOf(s, j)
  {
    StepIsLocal(s, e, j);
    NobodyElseArrives(s, e, j);
    if j !in s.failing { FailingShrinks(s, e, j); }
  }

  /** A claim or cancel of a job that is not scheduled does nothing; other events are elsewhere. */
  lemma NotElsewhereIsIdle(s: Sys, e: Event, j: JobId)
    requires Inv(s) && j in s.jobs && !Held(s, j) && s.jobs[j].status != Scheduled
    requires !Elsewhere(s, e, j) && !(e.EnqueueFailed? && e.job == j)
    ensures Apply(s, e) == s
  {
    forall w | w in s.acts
      ensures s.acts[w].job in s.jobs && s.acts[w].job != j
    {
      HolderFile(s, w);
    }
  }

  lemma QuietStepStays(s: Sys, e: Event, j: JobId)
    requires Inv(s) && Quiet(s, j) && s.jobs[j].status != Scheduled
    ensures Quiet(Apply(s, e), j) && FileOf(Apply(s, e), j) == FileOf(s, j)
  {
    if e.EnqueueFailed? && e.job == j {
      assert Apply(s, e) == GivingUp(s, j, e.applied);
      assert GivingUp(s, j, e.applied).jobs == s.jobs;
    } else if Elsewhere(s, e, j) {
      ElsewhereStays(s, e, j);
    } else {
      NotElsewhereIsIdle(s, e, j);
    }
  }

  lemma NotHeld(s: Sys, j: JobId)
    requires Inv(s) && j in s.jobs && s.jobs[j].status != Publishing
    requires s.jobs[j].status == Failed ==> s.jobs[j].enqueued
    ensures !Held(s, j)
  {
    forall w | w in s.acts
      ensures s.acts[w].job != j
    {
      HolderFile(s, w);
    }
  }

  /** A job that is not scheduled and that nobody is about to write stays as it is in every run. */
  lemma {:induction false} QuietStays(s: Sys, events: seq<Event>, j: JobId)
    requires Inv(s) && Quiet(s, j) && s.jobs[j].status != Scheduled
    ensures Quiet(Run(s, events), j) && FileOf(Run(s, events), j) == FileOf(s, j)
    decreases |events|
  {
    if events != [] {
      QuietStepStays(s, events[0], j);
      StepKeepsInv(s, events[0]);
      QuietStays(Apply(s, events[0]), events[1..], j);
    }
  }

  /**
    Published, failed and canceled are final: from then on nothing about the job changes, its
    status, its attempts, its adapter calls, its posts, its stored result, its charge or its
    refund. Where enqueueing was reported as failing, that is so once nobody is about to write.
   */
  lemma SettledStays(s: Sys, events: seq<Event>, j: JobId)
    requires Inv(s) && j in s.jobs && Settled(s.jobs[j].status)
    requires s.jobs[j].enqueued || Quiet(s, j)
    ensures j in Run(s, events).jobs && FileOf(Run(s, events), j) == FileOf(s, j)
  {
    if s.jobs[j].enqueued { NotHeld(s, j); }
    QuietStays(s, events, j);
  }

  // ----- when a status is final -----

  /** A holder whose phase leads to no other mark than failed. */
  predicate Doomed(p: Phase) {
    p == Rejected || p == Failing
  }

  ghost predicate OnlyDoomed(s: Sys, j: JobId) {
    forall w :: w in s.acts && s.acts[w].job == j ==> Doomed(s.acts[w].phase)
  }

  /** What decides whether a job's status can still change. */
  ghost predicate Final(s: Sys, j: JobId)
    requires j in s.jobs
  {
    match s.jobs[j].status
    case Scheduled => false
    case Publishing => !Held(s, j) && j !in s.failing
    case Published => j !in s.failing
    case Canceled => j !in s.failing
    case Failed => OnlyDoomed(s, j)
  }

  ghost predicate StatusNeverChanges(s: Sys, j: JobId)
    requires j in s.jobs
  {
    forall events :: j in Run(s, events).jobs && Run(s, events).jobs[j].status == s.jobs[j].status
  }

  lemma FailedStepStays(s: Sys, e: Event, j: JobId)
    requires Inv(s) && j in s.jobs && s.jobs[j].status == Failed && OnlyDoomed(s, j)
    ensures j in Apply(s, e).jobs && Apply(s, e).jobs[j].status == Failed && OnlyDoomed(Apply(s, e), j)
  {
    if e.Mark? {
      assert Apply(s, e) == Marking(s, e.worker);
    } else {
      StatusChangesAreLegal(s, e, j);
      DoomedStay(s, e, j);
    }
  }

  lemma DoomedStay(s: Sys, e: Event, j: JobId)
    requires j in s.jobs && s.jobs[j].status == Failed && OnlyDoomed(s, j) && !e.Mark?
    ensures OnlyDoomed(Apply(s, e), j)
  {
  }

  lemma {:induction false} FailedStays(s: Sys, events: seq<Event>, j: JobId)
    requires Inv(s) && j in s.jobs && s.jobs[j].status == Failed && OnlyDoomed(s, j)
    ensures j in Run(s, events).jobs && Run(s, events).jobs[j].status == Failed
    decreases |events|
  {
    if events != [] {
      FailedStepStays(s, events[0], j);
      StepKeepsInv(s, events[0]);
      FailedStays(Apply(s, events[0]), events[1..], j);
    }
  }

  /** A step that fails wherever the worker stands, and leaves it before its status write. */
  function FailingStep(w: WorkerId, p: Phase): Event {
    match p
    case Claimed => Load(w, LoadRetryable)
    case Loaded => Charge(w, 0, false, L.Healthy)
    case Paid => Lookup(w, false)
    case Missing => Preflight(w, GiveUp(false))
    case Calling => Call(w, Stop(false))
    case Posted(_) => Record(w, Refused)
    case Rejected => Refund(w, false, L.Healthy)
    case _ => Mark(w)
  }

  predicate BeforeMark(p: Phase) {
    p == Done || p == Failing || p == Retrying
  }

  lemma FailingStepLeads(s: Sys, w: WorkerId)
    requires w in s.acts && s.acts[w].job in s.jobs && !BeforeMark(s.acts[w].phase)
    ensures var s' := Apply(s, FailingStep(w, s.acts[w].phase));
            var j := s.acts[w].job;
            && j in s'.jobs && s'.jobs[j].status == s.jobs[j].status
            && w in s'.acts && s'.acts[w].job == j
            && s'.acts[w].phase == (if s.acts[w].phase == Rejected then Failing else Retrying)
  {
  }

  lemma MarkLeads(s: Sys, w: WorkerId)
    requires w in s.acts && s.acts[w].job in s.jobs && BeforeMark(s.acts[w].phase)
    ensures var j := s.acts[w].job;
            && j in Apply(s, Mark(w)).jobs
            && Apply(s, Mark(w)).jobs[j].status ==
               match s.acts[w].phase case Done => Published case Failing => Failed case _ => Scheduled
  {
  }

  /** Where the worker's failing step and its status write lead. */
  function Way(s: Sys, w: WorkerId): seq<Event>
    requires w in s.acts
  {
    if BeforeMark(s.acts[w].phase) then [Mark(w)] else [FailingStep(w, s.acts[w].phase)] + [Mark(w)]
  }

  lemma HolderCanMove(s: Sys, w: WorkerId)
    requires w in s.acts && s.acts[w].job in s.jobs
    ensures var j := s.acts[w].job;
            && j in Run(s, Way(s, w)).jobs
            && Run(s, Way(s, w)).jobs[j].status ==
               if s.acts[w].phase == Done then Published else if Doomed(s.acts[w].phase) then Failed else Scheduled
  {
    if BeforeMark(s.acts[w].phase) {
      MarkLeads(s, w);
      RunOneEvent(s, Mark(w));
    } else {
      var step := FailingStep(w, s.acts[w].phase);
      FailingStepLeads(s, w);
      MarkLeads(Apply(s, step), w);
      RunAppends(s, [step], [Mark(w)]);
      RunOneEvent(s, step);
      RunOneEvent(Apply(s, step), Mark(w));
    }
  }

  /** Whatever is not final has a run that changes it. */
  lemma NotFinalChanges(s: Sys, j: JobId) returns (events: seq<Event>)
    requires Inv(s) && j in s.jobs && !Final(s, j)
    ensures j in Run(s, events).jobs && Run(s, events).jobs[j].status != s.jobs[j].status
  {
    var status := s.jobs[j].status;
    if status == Scheduled {
      events := [Cancel(j)];
      RunOneEvent(s, Cancel(j));
    } else if j in s.failing && status != Failed {
      events := [EnqueueFailed(j, true)];
      RunOneEvent(s, EnqueueFailed(j, true));
    } else {
      var w :| w in s.acts && s.acts[w].job == j && (status == Failed ==> !Doomed(s.acts[w].phase));
      events := Way(s, w);
      HolderCanMove(s, w);
    }
  }

  /**
    A status is final, in every run, exactly when nobody is left to change it: a publishing job
    with no worker on it, a published or canceled one, a failed one with no worker that may still
    mark it otherwise, and none that its scheduler is yet to mark as failed.
   */
  lemma StatusIsFinalIff(s: Sys, j: JobId)
    requires Inv(s) && j in s.jobs
    ensures StatusNeverChanges(s, j) <==> Final(s, j)
  {
    if Final(s, j) {
      forall events
        ensures j in Run(s, events).jobs && Run(s, events).jobs[j].status == s.jobs[j].status
      {
        if s.jobs[j].status == Failed {
          FailedStays(s, events, j);
        } else {
          FinalIsQuiet(s, j);
          QuietStays(s, events, j);
        }
      }
    } else {
      var events := NotFinalChanges(s, j);
      assert Run(s, events).jobs[j].status != s.jobs[j].status;
    }
  }

  lemma FinalIsQuiet(s: Sys, j: JobId)
    requires Inv(s) && j in s.jobs && Final(s, j) && s.jobs[j].status != Failed
    ensures Quiet(s, j)
  {
    if s.jobs[j].status != Publishing { NotHeld(s, j); }
  }

  // ----- abandoned jobs -----

  /** A publishing job nobody is on any more. */
  predicate Abandoned(s: Sys, j: JobId) {
    j in s.jobs && s.jobs[j].status == Publishing && !Held(s, j) && j !in s.failing
  }

  ghost predicate NothingChanges(s: Sys, j: JobId)
    requires j in s.jobs
  {
    forall events :: j in Run(s, events).jobs && FileOf(Run(s, events), j) == FileOf(s, j)
  }

  /**
    A publishing job stays as it is for ever, published or not, charged or not, exactly when its
    worker stopped between claim and mark: then no delivery claims it, no cancel reaches it and
    nothing is refunded. While a worker is on it, it can still get on.
   */
  lemma AbandonedIff(s: Sys, j: JobId)
    requires Inv(s) && j in s.jobs && s.jobs[j].status == Publishing
    ensures NothingChanges(s, j) <==> Abandoned(s, j)
  {
    if Abandoned(s, j) {
      forall events
        ensures j in Run(s, events).jobs && FileOf(Run(s, events), j) == FileOf(s, j)
      {
        AbandonedStays(s, events, j);
      }
    } else {
      var events := NotFinalChanges(s, j);
      assert FileOf(Run(s, events), j) != FileOf(s, j);
    }
  }

  lemma AbandonedStays(s: Sys, events: seq<Event>, j: JobId)
    requires Inv(s) && Abandoned(s, j)
    ensures Abandoned(Run(s, events), j) && FileOf(Run(s, events), j) == FileOf(s, j)
  {
    QuietStays(s, events, j);
    StaysOutOfFailing(s, events, j);
  }

  lemma {:induction false} StaysOutOfFailing(s: Sys, events: seq<Event>, j: JobId)
    requires Inv(s) && j in s.jobs && j !in s.failing
    ensures j !in Run(s, events).failing
    decreases |events|
  {
    if events != [] {
      FailingShrinks(s, events[0], j);
      StatusChangesAreLegal(s, events[0], j);
      StepKeepsInv(s, events[0]);
      StaysOutOfFailing(Apply(s, events[0]), events[1..], j);
    }
  }

  /**
    A worker's crash abandons its job, unless the job's scheduler is yet to mark it as failed or
    has done so; where enqueueing was reported as a success it always does.
   */
  lemma CrashAbandons(s: Sys, w: WorkerId)
    requires Inv(s) && w in s.acts
    ensures var j := s.acts[w].job;
            && j in s.jobs
            && (Abandoned(Apply(s, Crash(w)), j) <==> s.jobs[j].status == Publishing && j !in s.failing)
            && (s.jobs[j].enqueued ==> Abandoned(Apply(s, Crash(w)), j))
  {
    HolderFile(s, w);
    assert Apply(s, Crash(w)) == Leave(s, w);
  }

  // ----- cancel -----

  /** Canceled or marked as failed, with no worker on it: all that can still change is which of the two. */
  predicate Halted(s: Sys, j: JobId) {
    j in s.jobs && !Held(s, j) && (s.jobs[j].status == Canceled || s.jobs[j].status == Failed)
  }

  lemma HaltedStepStays(s: Sys, e: Event, j: JobId)
    requires Inv(s) && Halted(s, j)
    ensures Halted(Apply(s, e), j)
    ensures Apply(s, e).jobs[j].(status := Failed) == s.jobs[j].(status := Failed)
  {
    if Quiet(s, j) {
      QuietStepStays(s, e, j);
    } else if e == EnqueueFailed(j, true) {
      assert Apply(s, e) == GivingUp(s, j, true);
    } else if e == EnqueueFailed(j, false) {
      assert Apply(s, e) == s.(failing := s.failing - {j});
    } else {
      HaltedElsewhere(s, e, j);
    }
  }

  lemma HaltedElsewhere(s: Sys, e: Event, j: JobId)
    requires Inv(s) && Halted(s, j) && !(e.EnqueueFailed? && e.job == j)
    ensures Halted(Apply(s, e), j) && Apply(s, e).jobs[j] == s.jobs[j]
  {
    if Elsewhere(s, e, j) {
      StepIsLocal(s, e, j);
      NobodyElseArrives(s, e, j);
    } else {
      NotElsewhereIsIdle(s, e, j);
    }
  }

  lemma {:induction false} HaltedStays(s: Sys, events: seq<Event>, j: JobId)
    requires Inv(s) && Halted(s, j)
    ensures Halted(Run(s, events), j)
    ensures Run(s, events).jobs[j].(status := Failed) == s.jobs[j].(status := Failed)
    decreases |events|
  {
    if events != [] {
      HaltedStepStays(s, events[0], j);
      StepKeepsInv(s, events[0]);
      HaltedStays(Apply(s, events[0]), events[1..], j);
    }
  }

  /**
    A cancel that takes effect is the end: no adapter call for the job is ever made after it. The
    row stays as the cancel left it, unless the scheduler is yet to mark it as failed.
   */
  lemma CancelPreventsPublish(past: seq<Event>, j: JobId, future: seq<Event>)
    requires j in Run(START, past).jobs && Run(START, past).jobs[j].status == Scheduled
    ensures var s := Run(START, past);
            var s' := Run(START, past + [Cancel(j)] + future);
            && j in s'.jobs && s'.jobs[j].status in {Canceled, Failed}
            && s'.jobs[j].(status := Canceled) == s.jobs[j].(status := Canceled)
            && (j !in s.failing ==> s'.jobs[j].status == Canceled)
  {
    var s := Run(START, past);
    var c := Apply(s, Cancel(j));
    ReachableInv(past);
    StepKeepsInv(s, Cancel(j));
    RunAppends(START, past, [Cancel(j)]);
    RunAppends(START, past + [Cancel(j)], future);
    RunOneEvent(s, Cancel(j));
    NotHeld(c, j);
    HaltedStays(c, future, j);
    var job := Run(c, future).jobs[j];
    assert job.(status := Canceled) == job.(status := Failed).(status := Canceled);
    if j !in s.failing { QuietStays(c, future, j); }
  }

  // ----- posts -----

  /**
    Over any run a job has as many posts on the platform as failed attempts to store a result, or
    one more. A published job has its stored result among them.
   */
  lemma PostsMatchLostRecords(events: seq<Event>, j: JobId)
    requires j in Run(START, events).jobs
    ensures var job := Run(START, events).jobs[j];
            && job.lostRecords <= |job.timeline| <= job.lostRecords + 1
            && (job.lostRecords == 0 ==> |job.timeline| <= 1)
            && (job.status == Published ==>
                  j in Run(START, events).results && Run(START, events).results[j] in job.timeline)
  {
    ReachableInv(events);
    assert FileOf(Run(START, events), j).Inv();
  }

  /** One delivery that pays, finds no result and passes the checks: up to its first adapter call. */
  function UpToCall(w: WorkerId, j: JobId, cost: int): seq<Event> {
    [Claim(w, j), Load(w, LoadOk), Charge(w, cost, true, L.Healthy), Lookup(w, true), Preflight(w, Pass)]
  }

  lemma RunThree(s: Sys, a: Event, b: Event, c: Event)
    ensures Run(s, [a, b, c]) == Apply(Apply(Apply(s, a), b), c)
  {
    assert [a, b, c][1..] == [b, c];
    assert [b, c][1..] == [c];
    assert Run(s, [a, b, c]) == Run(Apply(s, a), [b, c]) == Run(Apply(Apply(s, a), b), [c]);
    RunOneEvent(Apply(Apply(s, a), b), c);
  }

  lemma RunFive(s: Sys, a: Event, b: Event, c: Event, d: Event, e: Event)
    ensures Run(s, [a, b, c, d, e]) == Apply(Apply(Apply(Apply(Apply(s, a), b), c), d), e)
  {
    assert [a, b, c, d, e][1..] == [b, c, d, e];
    assert [b, c, d, e][1..] == [c, d, e];
    RunThree(Apply(Apply(s, a), b), c, d, e);
  }

  lemma LoadAndPay(s: Sys, w: WorkerId, j: JobId, cost: int)
    requires At(s, w, Claimed) && s.acts[w].job == j
    requires L.Charge(s.bank, s.jobs[j].workspace, cost, j, L.Healthy).1.Ok?
    ensures Apply(Apply(s, Load(w, LoadOk)), Charge(w, cost, true, L.Healthy)) ==
      Sys(s.jobs[j := s.jobs[j].(lastCost := cost)], s.results,
          L.Charge(s.bank, s.jobs[j].workspace, cost, j, L.Healthy).0, s.acts[w := Act(j, Paid)], s.failing)
  {
    var s1 := Apply(s, Load(w, LoadOk));
    assert s1 == s.(acts := s.acts[w := Act(j, Loaded)]);
    assert s.acts[w := Act(j, Loaded)][w := Act(j, Paid)] == s.acts[w := Act(j, Paid)];
  }

  lemma LookAndCheck(s: Sys, w: WorkerId, j: JobId)
    requires At(s, w, Paid) && s.acts[w].job == j && j !in s.results
    ensures Apply(Apply(s, Lookup(w, true)), Preflight(w, Pass)) == s.(acts := s.acts[w := Act(j, Calling)])
  {
    assert Apply(s, Lookup(w, true)) == s.(acts := s.acts[w := Act(j, Missing)]);
    assert s.acts[w := Act(j, Missing)][w := Act(j, Calling)] == s.acts[w := Act(j, Calling)];
  }

  lemma RunUpToCall(s: Sys, w: WorkerId, j: JobId, cost: int)
    requires w !in s.acts && j in s.jobs && s.jobs[j].status == Scheduled && j !in s.results
    requires L.Charge(s.bank, s.jobs[j].workspace, cost, j, L.Healthy).1.Ok?
    ensures var job := s.jobs[j];
            Run(s, UpToCall(w, j, cost)) ==
              Sys(s.jobs[j := job.(status := Publishing, attempts := job.attempts + 1, lastCost := cost)], s.results,
                  L.Charge(s.bank, job.workspace, cost, j, L.Healthy).0, s.acts[w := Act(j, Calling)], s.failing)
  {
    var s1 := Apply(s, Claim(w, j));
    var job := s.jobs[j].(status := Publishing, attempts := s.jobs[j].attempts + 1);
    assert s1 == s.(jobs := s.jobs[j := job], acts := s.acts[w := Act(j, Claimed)]);
    LoadAndPay(s1, w, j, cost);
    var s3 := Apply(Apply(s1, Load(w, LoadOk)), Charge(w, cost, true, L.Healthy));
    LookAndCheck(s3, w, j);
    RunFive(s, Claim(w, j), Load(w, LoadOk), Charge(w, cost, true, L.Healthy), Lookup(w, true), Preflight(w, Pass));
    assert s1.jobs[j := job.(lastCost := cost)] == s.jobs[j := job.(lastCost := cost)];
    assert s3.acts[w := Act(j, Calling)] == s.acts[w := Act(j, Calling)];
  }

  /** The adapter posts, but the result cannot be stored, so the job goes back to scheduled. */
  function Lose(w: WorkerId, id: PostId): seq<Event> {
    [Call(w, Success(id)), Record(w, Refused), Mark(w)]
  }

  lemma PostOnce(s: Sys, w: WorkerId, j: JobId, id: PostId)
    requires At(s, w, Calling) && s.acts[w].job == j
    ensures var job := s.jobs[j];
            Apply(s, Call(w, Success(id))) ==
              s.(jobs := s.jobs[j := job.(calls := job.calls + 1, timeline := job.timeline + [id])],
                 acts := s.acts[w := Act(j, Posted(id))])
  {
  }

  /** The job after a delivery whose post was not recorded. */
  function LostJob(job: Job, id: PostId): Job {
    job.(status := Scheduled, calls := job.calls + 1, timeline := job.timeline + [id],
         lostRecords := job.lostRecords + 1)
  }

  lemma UpdateTwice<K, V>(m: map<K, V>, k: K, a: V, b: V)
    ensures m[k := a][k := b] == m[k := b]
    ensures m[k := a] - {k} == m - {k}
  {
  }

  /** `s` with worker w holding job j at a phase, the job's row being `job`. */
  function Holding(s: Sys, w: WorkerId, j: JobId, job: Job, p: Phase): Sys {
    s.(jobs := s.jobs[j := job], acts := s.acts[w := Act(j, p)])
  }

  lemma RefuseOnce(s: Sys, w: WorkerId, j: JobId, job: Job, id: PostId)
    ensures Apply(Holding(s, w, j, job, Posted(id)), Record(w, Refused)) ==
      Holding(s, w, j, job.(lostRecords := job.lostRecords + 1), Retrying)
  {
    UpdateTwice(s.jobs, j, job, job.(lostRecords := job.lostRecords + 1));
    UpdateTwice(s.acts, w, Act(j, Posted(id)), Act(j, Retrying));
  }

  lemma MarkScheduled(s: Sys, w: WorkerId, j: JobId, job: Job)
    ensures Apply(Holding(s, w, j, job, Retrying), Mark(w)) ==
      s.(jobs := s.jobs[j := job.(status := Scheduled)], acts := s.acts - {w})
  {
    UpdateTwice(s.jobs, j, job, job.(status := Scheduled));
    UpdateTwice(s.acts, w, Act(j, Retrying), Act(j, Retrying));
  }

  lemma RunsThrough(s: Sys, a: Event, b: Event, c: Event, s1: Sys, s2: Sys, s3: Sys)
    requires Apply(s, a) == s1 && Apply(s1, b) == s2 && Apply(s2, c) == s3
    ensures Run(s, [a, b, c]) == s3
  {
    RunThree(s, a, b, c);
  }

  lemma RunLose(s: Sys, w: WorkerId, j: JobId, id: PostId)
    requires At(s, w, Calling) && s.acts[w].job == j
    ensures Run(s, Lose(w, id)) == s.(jobs := s.jobs[j := LostJob(s.jobs[j], id)], acts := s.acts - {w})
  {
    var job := s.jobs[j].(calls := s.jobs[j].calls + 1, timeline := s.jobs[j].timeline + [id]);
    var lost := job.(lostRecords := job.lostRecords + 1);
    PostOnce(s, w, j, id);
    RefuseOnce(s, w, j, job, id);
    MarkScheduled(s, w, j, lost);
    assert lost.(status := Scheduled) == LostJob(s.jobs[j], id);
    RunsThrough(s, Call(w, Success(id)), Record(w, Refused), Mark(w), Holding(s, w, j, job, Posted(id)),
                Holding(s, w, j, lost, Retrying),
                s.(jobs := s.jobs[j := LostJob(s.jobs[j], id)], acts := s.acts - {w}));
  }

  lemma RunOneEvent(s: Sys, e: Event)
    ensures Run(s, [e]) == Apply(s, e)
  {
    assert [e][1..] == [];
  }

  /** One free job with n posts, none of them recorded, waiting to be delivered again. */
  ghost predicate LostSoFar(s: Sys, n: nat) {
    && s.jobs.Keys == {"job"} && s.results == map[] && s.acts == map[] && s.bank == L.Bank([], map[])
    && s.jobs["job"].status == Scheduled
    && |s.jobs["job"].timeline| == s.jobs["job"].lostRecords == n
  }

  lemma LoseOnceMore(s: Sys, n: nat)
    requires LostSoFar(s, n)
    ensures LostSoFar(Run(s, UpToCall(0, "job", 0) + Lose(0, "again")), n + 1)
  {
    RunUpToCall(s, 0, "job", 0);
    RunLose(Run(s, UpToCall(0, "job", 0)), 0, "job", "again");
    RunAppends(s, UpToCall(0, "job", 0), Lose(0, "again"));
  }

  lemma PostOnceMore(s: Sys, n: nat)
    requires LostSoFar(s, n)
    ensures var s' := Run(s, UpToCall(0, "job", 0) + [Call(0, Success("last"))]);
            "job" in s'.jobs && |s'.jobs["job"].timeline| == n + 1 && s'.jobs["job"].lostRecords == n
  {
    RunUpToCall(s, 0, "job", 0);
    PostOnce(Run(s, UpToCall(0, "job", 0)), 0, "job", "last");
    RunOneEvent(Run(s, UpToCall(0, "job", 0)), Call(0, Success("last")));
    RunAppends(s, UpToCall(0, "job", 0), [Call(0, Success("last"))]);
  }

  /**
    The bound on posts is reached for every number of lost results: n lost results leave n posts,
    and one more delivery makes it n + 1. The results table alone does not prevent double posts.
   */
  lemma {:induction false} LostRecordsRepost(n: nat) returns (events: seq<Event>)
    ensures LostSoFar(Run(START, events), n)
    ensures var s := Run(START, events + (UpToCall(0, "job", 0) + [Call(0, Success("last"))]));
            "job" in s.jobs && |s.jobs["job"].timeline| == n + 1 && s.jobs["job"].lostRecords == n
  {
    if n == 0 {
      events := [Create("job", "ws", true)];
      RunOneEvent(START, Create("job", "ws", true));
    } else {
      var before := LostRecordsRepost(n - 1);
      events := before + (UpToCall(0, "job", 0) + Lose(0, "again"));
      RunAppends(START, before, UpToCall(0, "job", 0) + Lose(0, "again"));
      LoseOnceMore(Run(START, before), n - 1);
    }
    PostOnceMore(Run(START, events), n);
    RunAppends(START, events, UpToCall(0, "job", 0) + [Call(0, Success("last"))]);
  }

  // ----- a job marked as failed after it was published -----

  lemma RecordOnce(s: Sys, w: WorkerId, j: JobId, job: Job, id: PostId)
    requires j !in s.results
    ensures Apply(Holding(s, w, j, job, Posted(id)), Record(w, Stored)) ==
      Holding(s.(results := s.results[j := id]), w, j, job, Done)
  {
    UpdateTwice(s.acts, w, Act(j, Posted(id)), Act(j, Done));
  }

  lemma MarkPublished(s: Sys, w: WorkerId, j: JobId, job: Job)
    ensures Apply(Holding(s, w, j, job, Done), Mark(w)) ==
      s.(jobs := s.jobs[j := job.(status := Published)], acts := s.acts - {w})
  {
    UpdateTwice(s.jobs, j, job, job.(status := Published));
    UpdateTwice(s.acts, w, Act(j, Done), Act(j, Done));
  }

  /** The adapter posts, the result is stored and the job is marked as published. */
  function Succeed(w: WorkerId, id: PostId): seq<Event> {
    [Call(w, Success(id)), Record(w, Stored), Mark(w)]
  }

  lemma RunSucceed(s: Sys, w: WorkerId, j: JobId, id: PostId)
    requires At(s, w, Calling) && s.acts[w].job == j && j !in s.results
    ensures var job := s.jobs[j].(calls := s.jobs[j].calls + 1, timeline := s.jobs[j].timeline + [id]);
            Run(s, Succeed(w, id)) ==
              s.(results := s.results[j := id], jobs := s.jobs[j := job.(status := Published)], acts := s.acts - {w})
  {
    var job := s.jobs[j].(calls := s.jobs[j].calls + 1, timeline := s.jobs[j].timeline + [id]);
    var stored := s.(results := s.results[j := id]);
    PostOnce(s, w, j, id);
    RecordOnce(s, w, j, job, id);
    MarkPublished(stored, w, j, job);
    RunsThrough(s, Call(w, Success(id)), Record(w, Stored), Mark(w), Holding(s, w, j, job, Posted(id)),
                Holding(stored, w, j, job, Done),
                stored.(jobs := s.jobs[j := job.(status := Published)], acts := s.acts - {w}));
  }

  /**
    Enqueueing that took effect but was reported as failing: the job is published, and then its
    scheduler marks it as failed all the same.
   */
  lemma LateFailure() returns (events: seq<Event>)
    ensures var s, s' := Run(START, events), Run(START, events + [EnqueueFailed("job", true)]);
            && "job" in s.jobs && s.jobs["job"].status == Published && s.jobs["job"].timeline == ["id"]
            && "job" in s'.jobs && s'.jobs["job"] == s.jobs["job"].(status := Failed)
  {
    var create := [Create("job", "ws", false)];
    events := create + (UpToCall(0, "job", 0) + Succeed(0, "id"));
    RunOneEvent(START, Create("job", "ws", false));
    var s1 := Run(START, create);
    RunUpToCall(s1, 0, "job", 0);
    RunSucceed(Run(s1, UpToCall(0, "job", 0)), 0, "job", "id");
    RunAppends(s1, UpToCall(0, "job", 0), Succeed(0, "id"));
    RunAppends(START, create, UpToCall(0, "job", 0) + Succeed(0, "id"));
    RunAppends(START, events, [EnqueueFailed("job", true)]);
    RunOneEvent(Run(START, events), EnqueueFailed("job", true));
  }

  // ----- money -----

  /** In every run the wallets are what the ledger says, never negative, and no ledger key repeats. */
  lemma WalletsMatchLedger(events: seq<Event>, w: L.WorkspaceId)
    ensures var bank := Run(START, events).bank;
            L.Balance(bank, w) == L.Total(bank.ledger, w) && 0 <= L.Balance(bank, w) && L.Unique(bank.ledger)
  {
    ReachableInv(events);
    assert L.Sound(Run(START, events).bank);
  }

  /**
    What any run leaves of a job's money: nothing, its one charge, or a charge and the refund that
    undoes it. Only an unpublished job is refunded, and a published one was charged if its
    price at the last attempt was not zero.
   */
  lemma MoneyPerJob(events: seq<Event>, j: JobId)
    requires j in Run(START, events).jobs
    ensures var s := Run(START, events);
            var job := s.jobs[j];
            && L.Net(s.bank, job.workspace, j) == (if RefundOf(s, j).Some? then 0 else L.Credits(ChargeOf(s, j)))
            && (RefundOf(s, j).Some? ==> ChargeOf(s, j).Some? && (job.status == Failed || job.status == Publishing))
            && (job.status == Published && job.lastCost != 0 ==> ChargeOf(s, j).Some?)
  {
    ReachableInv(events);
    assert FileOf(Run(START, events), j).Inv();
  }

  /** A refunded job was posted if and only if the result of one of its posts could not be stored. */
  lemma RefundedWasPostedIff(events: seq<Event>, j: JobId)
    requires j in Run(START, events).jobs && RefundOf(Run(START, events), j).Some?
    ensures Run(START, events).jobs[j].timeline != [] <==> Run(START, events).jobs[j].lostRecords > 0
  {
    ReachableInv(events);
    assert FileOf(Run(START, events), j).Inv();
  }

  /** The terminal-failure branch ends with the job at zero exactly when its charge was not a credit. */
  lemma TerminalBranchSettlesIff(s: Sys, w: WorkerId)
    requires Inv(s) && At(s, w, Rejected)
    ensures var s' := Apply(s, Refund(w, true, L.Healthy));
            var j := s.acts[w].job;
            && s'.acts[w] == Act(j, Failing)
            && (L.Net(s'.bank, s.jobs[j].workspace, j) == 0 <==> L.Credits(ChargeOf(s, j)) <= 0)
  {
    HolderFile(s, w);
    assert Apply(s, Refund(w, true, L.Healthy)) == Refunding(s, w, true, L.Healthy);
    L.RefundOutcome(s.bank, s.jobs[s.acts[w].job].workspace, s.acts[w].job);
  }

  lemma RejectOnce(s: Sys, w: WorkerId, j: JobId)
    requires At(s, w, Calling) && s.acts[w].job == j
    ensures Apply(s, Call(w, Stop(true))) ==
      Holding(s, w, j, s.jobs[j].(calls := s.jobs[j].calls + 1), Rejected)
  {
  }

  lemma CreditIsNotRefunded(s: Sys, w: WorkerId, j: JobId, job: Job)
    requires L.Credits(L.Charged(s.bank, job.workspace, j)) > 0
    ensures Apply(Holding(s, w, j, job, Rejected), Refund(w, true, L.Healthy)) == Holding(s, w, j, job, Failing)
  {
    UpdateTwice(s.acts, w, Act(j, Rejected), Act(j, Failing));
  }

  lemma MarkFailed(s: Sys, w: WorkerId, j: JobId, job: Job)
    ensures Apply(Holding(s, w, j, job, Failing), Mark(w)) ==
      s.(jobs := s.jobs[j := job.(status := Failed)], acts := s.acts - {w})
  {
    UpdateTwice(s.jobs, j, job, job.(status := Failed));
    UpdateTwice(s.acts, w, Act(j, Failing), Act(j, Failing));
  }

  /** Refused by the platform after a charge that was a credit: the refund is turned down and the credit stays. */
  lemma RefuseAndKeep(s: Sys, w: WorkerId, j: JobId)
    requires At(s, w, Calling) && s.acts[w].job == j && L.Credits(ChargeOf(s, j)) > 0
    ensures Run(s, [Call(w, Stop(true)), Refund(w, true, L.Healthy), Mark(w)]) ==
      s.(jobs := s.jobs[j := RefusedJob(s.jobs[j])], acts := s.acts - {w})
  {
    var job := s.jobs[j].(calls := s.jobs[j].calls + 1);
    RejectOnce(s, w, j);
    CreditIsNotRefunded(s, w, j, job);
    MarkFailed(s, w, j, job);
    RunsThrough(s, Call(w, Stop(true)), Refund(w, true, L.Healthy), Mark(w), Holding(s, w, j, job, Rejected),
                Holding(s, w, j, job, Failing), s.(jobs := s.jobs[j := RefusedJob(s.jobs[j])], acts := s.acts - {w}));
  }

  function RefusedJob(job: Job): Job {
    job.(calls := job.calls + 1, status := Failed)
  }

  /** A charge of the funded workspace that it covers is posted as it is asked for. */
  lemma FundedCharge(cost: int)
    requires cost != 0 && cost <= 5
    ensures var charge := L.Entry("ws", L.PublishCharge, -cost, "job");
            && L.Charge(Funded().bank, "ws", cost, "job", L.Healthy) == (L.Post(Funded().bank, charge), Ok(()))
            && L.Charged(L.Post(Funded().bank, charge), "ws", "job") == Some(charge)
            && L.Refunded(L.Post(Funded().bank, charge), "ws", "job").None?
  {
    var topUp, charge := L.Entry("ws", L.Topup, 5, "evt"), L.Entry("ws", L.PublishCharge, -cost, "job");
    L.FindAfterPost([], topUp, "ws", L.PublishCharge, "job");
    L.FindAfterPost([], topUp, "ws", L.Refund, "job");
    assert [] + [topUp] == Funded().bank.ledger;
    L.FindAfterPost(Funded().bank.ledger, charge, "ws", L.PublishCharge, "job");
    L.FindAfterPost(Funded().bank.ledger, charge, "ws", L.Refund, "job");
  }

  /** The funded job, charged and at its first adapter call. */
  lemma FundedUpToCall(cost: int)
    requires cost != 0 && cost <= 5
    ensures var job := Funded().jobs["job"].(status := Publishing, attempts := 1, lastCost := cost);
            Run(Funded(), UpToCall(0, "job", cost)) ==
              Sys(map["job" := job], map[], L.Post(Funded().bank, L.Entry("ws", L.PublishCharge, -cost, "job")),
                  map[0 := Act("job", Calling)], {})
  {
    FundedCharge(cost);
    RunUpToCall(Funded(), 0, "job", cost);
  }

  /** There are such runs for every negative price: the job fails unposted, and its workspace keeps the credit. */
  lemma CreditIsKept(c: int) returns (events: seq<Event>)
    requires c > 0
    ensures var s := Run(START, events);
            && "job" in s.jobs && s.jobs["job"].status == Failed && s.jobs["job"].timeline == []
            && L.Net(s.bank, s.jobs["job"].workspace, "job") == c
  {
    var setup := [Create("job", "ws", true), TopUp("ws", 5, "evt", L.Healthy)];
    var tail := [Call(0, Stop(true)), Refund(0, true, L.Healthy), Mark(0)];
    events := setup + (UpToCall(0, "job", -c) + tail);
    FundedCharge(-c);
    FundedUpToCall(-c);
    RefuseAndKeep(Run(Funded(), UpToCall(0, "job", -c)), 0, "job");
    RunFunded();
    RunAppends(Funded(), UpToCall(0, "job", -c), tail);
    RunAppends(START, setup, UpToCall(0, "job", -c) + tail);
  }

  lemma FoundStays(b: L.Bank, b': L.Bank, e: L.Entry, w: L.WorkspaceId, k: L.Kind, r: L.Reference)
    requires L.OnePosting(b, b', e) && L.Find(b.ledger, w, k, r).Some?
    ensures L.Find(b'.ledger, w, k, r) == L.Find(b.ledger, w, k, r)
  {
    L.FindAfterPost(b.ledger, e, w, k, r);
  }

  lemma StepKeepsCharge(s: Sys, e: Event, j: JobId)
    requires Inv(s) && j in s.jobs && ChargeOf(s, j).Some?
    ensures j in Apply(s, e).jobs && ChargeOf(Apply(s, e), j) == ChargeOf(s, j)
  {
    StepPosts(s, e);
    FoundStays(s.bank, Apply(s, e).bank, PostingOf(s, e), s.jobs[j].workspace, L.PublishCharge, j);
    StepKeepsWorkspace(s, e, j);
  }

  /** A job is charged once, at the price of its first charge: no retry and no price change touches it. */
  lemma {:induction false} ChargeIsFinal(s: Sys, events: seq<Event>, j: JobId)
    requires Inv(s) && j in s.jobs && ChargeOf(s, j).Some?
    ensures j in Run(s, events).jobs && ChargeOf(Run(s, events), j) == ChargeOf(s, j)
    decreases |events|
  {
    if events != [] {
      StepKeepsCharge(s, events[0], j);
      StepKeepsInv(s, events[0]);
      ChargeIsFinal(Apply(s, events[0]), events[1..], j);
    }
  }

  /** The result recorded first is the one that every later delivery finds. */
  lemma {:induction false} ResultIsFinal(s: Sys, events: seq<Event>, j: JobId)
    requires j in s.results
    ensures j in Run(s, events).results && Run(s, events).results[j] == s.results[j]
    decreases |events|
  {
    if events != [] { ResultIsFinal(Apply(s, events[0]), events[1..], j); }
  }

  /** A funded, scheduled job and nothing else. */
  function Funded(): Sys {
    Sys(map["job" := Job("ws", true, Scheduled, 0, 0, 0, [], 0)], map[],
        L.Bank([L.Entry("ws", L.Topup, 5, "evt")], map["ws" := 5]), map[], {})
  }

  lemma RunFunded()
    ensures Run(START, [Create("job", "ws", true), TopUp("ws", 5, "evt", L.Healthy)]) == Funded()
  {
    var e1, e2 := Create("job", "ws", true), TopUp("ws", 5, "evt", L.Healthy);
    assert [e1, e2][1..] == [e2];
    RunOneEvent(Apply(START, e1), e2);
  }

  lemma RefuseAndRefund(s: Sys)
    requires At(s, 0, Calling) && s.acts[0].job == "job" && s.jobs["job"].workspace == "ws"
    requires ChargeOf(s, "job") == Some(L.Entry("ws", L.PublishCharge, -5, "job")) && RefundOf(s, "job").None?
    ensures var s' := Run(s, [Call(0, Stop(true)), Refund(0, true, L.Healthy), Mark(0)]);
            && "job" in s'.jobs && s'.jobs["job"].timeline == s.jobs["job"].timeline
            && RefundOf(s', "job").Some? && L.Balance(s'.bank, "ws") == L.Balance(s.bank, "ws") + 5
  {
    var s1 := Apply(s, Call(0, Stop(true)));
    var job1 := s.jobs["job"].(calls := s.jobs["job"].calls + 1);
    assert s1 == s.(jobs := s.jobs["job" := job1], acts := s.acts[0 := Act("job", Rejected)]);
    RefundAndFail(s1);
    RunThree(s, Call(0, Stop(true)), Refund(0, true, L.Healthy), Mark(0));
  }

  lemma RefundAndFail(s: Sys)
    requires At(s, 0, Rejected) && s.acts[0].job == "job" && s.jobs["job"].workspace == "ws"
    requires ChargeOf(s, "job") == Some(L.Entry("ws", L.PublishCharge, -5, "job")) && RefundOf(s, "job").None?
    ensures Apply(Apply(s, Refund(0, true, L.Healthy)), Mark(0)) ==
      Sys(s.jobs["job" := s.jobs["job"].(status := Failed)], s.results,
          L.Post(s.bank, L.Entry("ws", L.Refund, 5, "job")), s.acts - {0}, s.failing)
    ensures L.Refunded(L.Post(s.bank, L.Entry("ws", L.Refund, 5, "job")), "ws", "job").Some?
  {
    L.FindAfterPost(s.bank.ledger, L.Entry("ws", L.Refund, 5, "job"), "ws", L.Refund, "job");
    var s2 := Apply(s, Refund(0, true, L.Healthy));
    var refunded := L.Post(s.bank, L.Entry("ws", L.Refund, 5, "job"));
    assert s2 == s.(bank := refunded, acts := s.acts[0 := Act("job", Failing)]);
    assert s2.acts - {0} == s.acts - {0};
  }

  /** The first delivery from `Funded`: charged 5, posted, its result lost. */
  function FirstDelivery(): seq<Event> {
    UpToCall(0, "job", 5) + Lose(0, "id")
  }

  lemma RunFirstDelivery()
    ensures var s := Run(Funded(), FirstDelivery());
            && s.jobs.Keys == {"job"} && s.jobs["job"].workspace == "ws" && s.jobs["job"].status == Scheduled
            && s.jobs["job"].timeline == ["id"] && s.results == map[] && s.acts == map[]
            && s.bank == L.Post(Funded().bank, L.Entry("ws", L.PublishCharge, -5, "job"))
  {
    FundedUpToCall(5);
    RunLose(Run(Funded(), UpToCall(0, "job", 5)), 0, "job", "id");
    RunAppends(Funded(), UpToCall(0, "job", 5), Lose(0, "id"));
  }

  /** The second delivery, at a new price: not charged again, refused by the platform, refunded. */
  function SecondDelivery(): seq<Event> {
    UpToCall(0, "job", 7) + [Call(0, Stop(true)), Refund(0, true, L.Healthy), Mark(0)]
  }

  lemma RunSecondDelivery(s: Sys)
    requires s.jobs.Keys == {"job"} && s.jobs["job"].workspace == "ws" && s.jobs["job"].status == Scheduled
    requires s.jobs["job"].timeline == ["id"] && s.results == map[] && s.acts == map[]
    requires s.bank == L.Post(Funded().bank, L.Entry("ws", L.PublishCharge, -5, "job"))
    ensures var s' := Run(s, SecondDelivery());
            && "job" in s'.jobs && s'.jobs["job"].timeline == ["id"]
            && RefundOf(s', "job").Some? && L.Balance(s'.bank, "ws") == 5
  {
    FundedCharge(5);
    RunUpToCall(s, 0, "job", 7);
    var s1 := Run(s, UpToCall(0, "job", 7));
    assert s1.bank == s.bank;
    RefuseAndRefund(s1);
    RunAppends(s, UpToCall(0, "job", 7), [Call(0, Stop(true)), Refund(0, true, L.Healthy), Mark(0)]);
  }

  /** Posted, not recorded, tried again and refused by the platform: the job is posted and refunded. */
  lemma RefundAfterLostPost() returns (events: seq<Event>)
    ensures var s := Run(START, events);
            && "job" in s.jobs && s.jobs["job"].timeline == ["id"]
            && RefundOf(s, "job").Some? && L.Balance(s.bank, "ws") == 5
  {
    var setup := [Create("job", "ws", true), TopUp("ws", 5, "evt", L.Healthy)];
    events := setup + (FirstDelivery() + SecondDelivery());
    RunFunded();
    RunFirstDelivery();
    RunSecondDelivery(Run(Funded(), FirstDelivery()));
    RunAppends(Funded(), FirstDelivery(), SecondDelivery());
    RunAppends(START, setup, FirstDelivery() + SecondDelivery());
  }
}

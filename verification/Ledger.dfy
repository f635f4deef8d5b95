/**
  The wallet tables and the transactions run over them.

  `Bank` holds the rows of `wallets` and `wallet_ledger`. The four statements the
  billing service issues are functions on it, and each service transaction is a
  function returning the tables it leaves behind together with what the caller is told.
 */
module Ledger {
  import opened Common

  type WorkspaceId = string
  type Reference = string

  datatype Kind = Topup | PublishCharge | Refund | Adjustment

  datatype Entry = Entry(workspace: WorkspaceId, kind: Kind, credits: int, reference: Reference) {
    predicate Keyed(w: WorkspaceId, k: Kind, r: Reference) {
      workspace == w && kind == k && reference == r
    }
  }

  datatype Bank = Bank(ledger: seq<Entry>, wallets: map<WorkspaceId, int>)

  datatype Error = InsufficientCredits | BadTopup | Database

  /** Where a transaction breaks, if anywhere. A commit can fail with its writes kept or lost. */
  datatype Fault =
    | Healthy
    | BeginFails
    | LedgerFails
    | WalletFails
    | CommitFails(applied: bool)

  // ----- the statements -----

  function Find(ledger: seq<Entry>, w: WorkspaceId, k: Kind, r: Reference): (e: Option<Entry>)
    ensures e.Some? ==> e.value in ledger && e.value.Keyed(w, k, r)
    ensures e.None? ==> forall x :: x in ledger ==> !x.Keyed(w, k, r)
  {
    if ledger == [] then None
    else if ledger[|ledger| - 1].Keyed(w, k, r) then Some(ledger[|ledger| - 1])
    else Find(ledger[..|ledger| - 1], w, k, r)
  }

  function Balance(b: Bank, w: WorkspaceId): int {
    if w in b.wallets then b.wallets[w] else 0
  }

  predicate CanDebit(b: Bank, w: WorkspaceId, amount: int) {
    w in b.wallets && b.wallets[w] >= amount
  }

  /** One ledger row and the matching wallet movement. */
  function Post(b: Bank, e: Entry): Bank {
    Bank(b.ledger + [e], b.wallets[e.workspace := Balance(b, e.workspace) + e.credits])
  }

  // ----- the transactions -----

  function Commit<T>(before: Bank, after: Bank, value: T, fault: Fault): (Bank, Result<T, Error>) {
    match fault
    case CommitFails(applied) => (if applied then after else before, Err(Database))
    case _ => (after, Ok(value))
  }

  function Credit(b: Bank, w: WorkspaceId, k: Kind, credits: int, r: Reference, fault: Fault)
    : (Bank, Result<bool, Error>)
  {
    if credits <= 0 then (b, Err(BadTopup))
    else if fault.BeginFails? || fault.LedgerFails? then (b, Err(Database))
    else if Find(b.ledger, w, k, r).Some? then Commit(b, b, false, fault)
    else if fault.WalletFails? then (b, Err(Database))
    else Commit(b, Post(b, Entry(w, k, credits, r)), true, fault)
  }

  function Charge(b: Bank, w: WorkspaceId, cost: int, job: Reference, fault: Fault)
    : (Bank, Result<(), Error>)
  {
    if cost == 0 then (b, Ok(()))
    else if fault.BeginFails? || fault.LedgerFails? then (b, Err(Database))
    else if Find(b.ledger, w, PublishCharge, job).Some? then Commit(b, b, (), fault)
    else if fault.WalletFails? then (b, Err(Database))
    else if !CanDebit(b, w, cost) then (b, Err(InsufficientCredits))
    else Commit(b, Post(b, Entry(w, PublishCharge, -cost, job)), (), fault)
  }

  function RefundJob(b: Bank, w: WorkspaceId, job: Reference, fault: Fault): (Bank, Result<(), Error>) {
    var charge := Find(b.ledger, w, PublishCharge, job);
    if charge.None? then (b, Ok(()))
    else
      var (b', r) := Credit(b, w, Refund, -charge.value.credits, job, fault);
      (b', if r.Err? then Err(r.error) else Ok(()))
  }

  // ----- what the tables owe each other -----

  function Total(ledger: seq<Entry>, w: WorkspaceId): int {
    if ledger == [] then 0
    else
      var last := ledger[|ledger| - 1];
      Total(ledger[..|ledger| - 1], w) + if last.workspace == w then last.credits else 0
  }

  ghost predicate Unique(ledger: seq<Entry>) {
    forall i, j :: 0 <= i < j < |ledger| ==>
      !ledger[i].Keyed(ledger[j].workspace, ledger[j].kind, ledger[j].reference)
  }

  /** Every balance is the sum of that workspace's ledger and is never negative; keys are unique. */
  ghost predicate Sound(b: Bank) {
    && Unique(b.ledger)
    && forall w: WorkspaceId :: Balance(b, w) == Total(b.ledger, w) && 0 <= Balance(b, w)
  }

  lemma TotalOfPost(ledger: seq<Entry>, e: Entry, w: WorkspaceId)
    ensures Total(ledger + [e], w) == Total(ledger, w) + if e.workspace == w then e.credits else 0
  {
    assert (ledger + [e])[..|ledger|] == ledger;
  }

  lemma FindAfterPost(ledger: seq<Entry>, e: Entry, w: WorkspaceId, k: Kind, r: Reference)
    ensures Find(ledger + [e], w, k, r) == if e.Keyed(w, k, r) then Some(e) else Find(ledger, w, k, r)
  {
    assert (ledger + [e])[..|ledger|] == ledger;
  }

  lemma PostKeepsSound(b: Bank, e: Entry)
    requires Sound(b)
    requires Find(b.ledger, e.workspace, e.kind, e.reference).None?
    requires 0 <= Balance(b, e.workspace) + e.credits
    ensures Sound(Post(b, e))
  {
    var b' := Post(b, e);
    forall w: WorkspaceId
      ensures Balance(b', w) == Total(b'.ledger, w) && 0 <= Balance(b', w)
    {
      TotalOfPost(b.ledger, e, w);
      assert Balance(b, w) == Total(b.ledger, w) && 0 <= Balance(b, w);
    }
  }

  /** A transaction leaves the tables alone or posts exactly one new row under an unused key. */
  ghost predicate OnePosting(b: Bank, b': Bank, e: Entry) {
    b' == b || (b' == Post(b, e) && Find(b.ledger, e.workspace, e.kind, e.reference).None?)
  }

  lemma FindAfterOnePosting(b: Bank, b': Bank, e: Entry, w: WorkspaceId, k: Kind, r: Reference)
    requires OnePosting(b, b', e)
    ensures Find(b.ledger, w, k, r).Some? ==> Find(b'.ledger, w, k, r) == Find(b.ledger, w, k, r)
    ensures Find(b'.ledger, w, k, r) ==
      if b' == Post(b, e) && e.Keyed(w, k, r) then Some(e) else Find(b.ledger, w, k, r)
  {
    FindAfterPost(b.ledger, e, w, k, r);
  }

  lemma CreditIsSound(b: Bank, w: WorkspaceId, k: Kind, credits: int, r: Reference, fault: Fault)
    requires Sound(b)
    ensures Sound(Credit(b, w, k, credits, r, fault).0)
    ensures OnePosting(b, Credit(b, w, k, credits, r, fault).0, Entry(w, k, credits, r))
  {
    if credits > 0 && Find(b.ledger, w, k, r).None? {
      assert 0 <= Balance(b, w);
      PostKeepsSound(b, Entry(w, k, credits, r));
    }
  }

  lemma ChargeIsSound(b: Bank, w: WorkspaceId, cost: int, job: Reference, fault: Fault)
    requires Sound(b)
    ensures Sound(Charge(b, w, cost, job, fault).0)
    ensures OnePosting(b, Charge(b, w, cost, job, fault).0, Entry(w, PublishCharge, -cost, job))
  {
    if CanDebit(b, w, cost) && Find(b.ledger, w, PublishCharge, job).None? {
      PostKeepsSound(b, Entry(w, PublishCharge, -cost, job));
    }
  }

  // ----- one job's charge and refund -----

  function Charged(b: Bank, w: WorkspaceId, job: Reference): Option<Entry> {
    Find(b.ledger, w, PublishCharge, job)
  }

  function Refunded(b: Bank, w: WorkspaceId, job: Reference): Option<Entry> {
    Find(b.ledger, w, Refund, job)
  }

  function Credits(e: Option<Entry>): int {
    if e.Some? then e.value.credits else 0
  }

  /** What the ledger says this job has moved in or out of the wallet. */
  function Net(b: Bank, w: WorkspaceId, job: Reference): int {
    Credits(Charged(b, w, job)) + Credits(Refunded(b, w, job))
  }

  /** A refund posts at most one row, the negation of the recorded charge, and keeps that charge. */
  lemma RefundIsSound(b: Bank, w: WorkspaceId, job: Reference, fault: Fault)
    requires Sound(b)
    ensures var b' := RefundJob(b, w, job, fault).0;
            var e := Entry(w, Refund, -Credits(Charged(b, w, job)), job);
            && Sound(b') && OnePosting(b, b', e)
            && Charged(b', w, job) == Charged(b, w, job)
            && (Refunded(b', w, job) == Refunded(b, w, job)
                || (Charged(b, w, job).Some? && Refunded(b', w, job) == Some(e)))
  {
    var charge := Charged(b, w, job);
    if charge.Some? {
      var e := Entry(w, Refund, -charge.value.credits, job);
      CreditIsSound(b, w, Refund, e.credits, job, fault);
      FindAfterOnePosting(b, RefundJob(b, w, job, fault).0, e, w, PublishCharge, job);
      FindAfterOnePosting(b, RefundJob(b, w, job, fault).0, e, w, Refund, job);
    }
  }

  /** However it ends, a charge keeps the job's earlier charge and its refund; a success leaves it charged. */
  lemma ChargeKeepsFile(b: Bank, w: WorkspaceId, cost: int, job: Reference, fault: Fault)
    requires Sound(b)
    ensures var (b', r) := Charge(b, w, cost, job, fault);
            && Refunded(b', w, job) == Refunded(b, w, job)
            && (Charged(b, w, job).Some? ==> Charged(b', w, job) == Charged(b, w, job))
            && (r.Ok? && cost != 0 ==> Charged(b', w, job).Some?)
  {
    var e := Entry(w, PublishCharge, -cost, job);
    var b' := Charge(b, w, cost, job, fault).0;
    ChargeIsSound(b, w, cost, job, fault);
    FindAfterOnePosting(b, b', e, w, PublishCharge, job);
    FindAfterOnePosting(b, b', e, w, Refund, job);
  }

  /**
    A healthy charge succeeds exactly when the job is free, was charged before, or the wallet
    covers it. A success leaves the job charged and takes the price only the first time;
    a shortfall leaves both tables as they were.
   */
  lemma ChargeOutcome(b: Bank, w: WorkspaceId, cost: int, job: Reference)
    ensures var (b', r) := Charge(b, w, cost, job, Healthy);
            && (r.Ok? <==> cost == 0 || Charged(b, w, job).Some? || CanDebit(b, w, cost))
            && (r.Err? ==> r.error == InsufficientCredits && b' == b)
            && (r.Ok? && cost != 0 ==> Charged(b', w, job).Some?)
            && Balance(b', w) == Balance(b, w) -
                 if r.Ok? && Charged(b, w, job).None? then cost else 0
  {
    FindAfterPost(b.ledger, Entry(w, PublishCharge, -cost, job), w, PublishCharge, job);
  }

  /**
    A credit that is answered with true added its amount under a key that was free; one answered
    with false found the key taken and changed nothing; an error changed nothing, unless the
    commit took effect unheard. A healthy credit of a positive amount is never an error.
   */
  lemma CreditOutcome(b: Bank, w: WorkspaceId, k: Kind, credits: int, r: Reference, fault: Fault)
    ensures var (b', answer) := Credit(b, w, k, credits, r, fault);
            var taken := Find(b.ledger, w, k, r).Some?;
            && (answer == Err(BadTopup) <==> credits <= 0)
            && (answer == Ok(true) ==>
                  !taken && Find(b'.ledger, w, k, r) == Some(Entry(w, k, credits, r))
                  && Balance(b', w) == Balance(b, w) + credits)
            && (answer == Ok(false) ==> taken && b' == b)
            && (answer.Err? && fault != CommitFails(true) ==> b' == b)
            && (credits > 0 && fault.Healthy? ==> answer == Ok(!taken))
  {
    FindAfterPost(b.ledger, Entry(w, k, credits, r), w, k, r);
  }

  /** Delivering the same charge or the same credit again changes nothing, whatever its new amount. */
  lemma SecondDeliveryIsFree(b: Bank, w: WorkspaceId, k: Kind, r: Reference, first: int, second: int, fault: Fault)
    ensures var (b1, r1) := Charge(b, w, first, r, Healthy);
            r1.Ok? && first != 0 ==> Charge(b1, w, second, r, fault).0 == b1
    ensures var (b1, r1) := Credit(b, w, k, first, r, Healthy);
            r1.Ok? && second > 0 ==>
              Credit(b1, w, k, second, r, fault).0 == b1 && Credit(b1, w, k, second, r, Healthy).1 == Ok(false)
  {
    FindAfterPost(b.ledger, Entry(w, PublishCharge, -first, r), w, PublishCharge, r);
    FindAfterPost(b.ledger, Entry(w, k, first, r), w, k, r);
  }

  /**
    A healthy refund of a charged, not yet refunded job puts back the recorded amount, so the
    job nets to zero, exactly when that charge was a debit. A charge recorded at a negative
    price is refused by the positive-amount check and the job stays where it was.
   */
  lemma RefundOutcome(b: Bank, w: WorkspaceId, job: Reference)
    requires Refunded(b, w, job).None?
    ensures var (b', r) := RefundJob(b, w, job, Healthy);
            var before := Credits(Charged(b, w, job));
            && Charged(b', w, job) == Charged(b, w, job)
            && (Charged(b, w, job).Some? ==>
                  && (r.Ok? <==> before < 0)
                  && (before < 0 ==> Net(b', w, job) == 0 && Balance(b', w) == Balance(b, w) - before))
            && (!(before < 0) ==> b' == b && Net(b', w, job) == before)
  {
    var charge := Charged(b, w, job);
    if charge.Some? {
      var e := Entry(w, Refund, -charge.value.credits, job);
      FindAfterPost(b.ledger, e, w, PublishCharge, job);
      FindAfterPost(b.ledger, e, w, Refund, job);
    }
  }

  // ----- the schedule-time gate against the publish-time gate -----

  datatype Due = Due(job: Reference, cost: int)

  function Cost(batch: seq<Due>): int {
    if batch == [] then 0 else batch[0].cost + Cost(batch[1..])
  }

  function CheckAffordable(b: Bank, w: WorkspaceId, total: int): Result<(), Error> {
    if total == 0 then Ok(())
    else if Balance(b, w) < total then Err(InsufficientCredits)
    else Ok(())
  }

  /** Charges the jobs one after the other; each worker goes on whatever the others were told. */
  function ChargeAll(b: Bank, w: WorkspaceId, batch: seq<Due>): (Bank, bool)
    decreases |batch|
  {
    if batch == [] then (b, true)
    else
      var (b1, r) := Charge(b, w, batch[0].cost, batch[0].job, Healthy);
      var (b2, rest) := ChargeAll(b1, w, batch[1..]);
      (b2, r.Ok? && rest)
  }

  ghost predicate FreshBatch(b: Bank, w: WorkspaceId, batch: seq<Due>) {
    && (forall i :: 0 <= i < |batch| ==> 0 <= batch[i].cost && Charged(b, w, batch[i].job).None?)
    && (forall i, j :: 0 <= i < j < |batch| ==> batch[i].job != batch[j].job)
  }

  lemma {:induction false} CostIsNonnegative(batch: seq<Due>)
    requires forall i :: 0 <= i < |batch| ==> 0 <= batch[i].cost
    ensures 0 <= Cost(batch)
  {
    if batch != [] { CostIsNonnegative(batch[1..]); }
  }

  lemma FreshAfterCharge(b: Bank, w: WorkspaceId, batch: seq<Due>)
    requires batch != [] && FreshBatch(b, w, batch)
    ensures FreshBatch(Charge(b, w, batch[0].cost, batch[0].job, Healthy).0, w, batch[1..])
  {
    var b1 := Charge(b, w, batch[0].cost, batch[0].job, Healthy).0;
    var e := Entry(w, PublishCharge, -batch[0].cost, batch[0].job);
    forall i | 0 <= i < |batch[1..]|
      ensures Charged(b1, w, batch[1..][i].job).None?
    {
      FindAfterPost(b.ledger, e, w, PublishCharge, batch[i + 1].job);
    }
  }

  lemma {:induction false} ChargeAllIff(b: Bank, w: WorkspaceId, batch: seq<Due>)
    requires Sound(b) && FreshBatch(b, w, batch)
    ensures ChargeAll(b, w, batch).1 <==> Cost(batch) <= Balance(b, w)
    ensures ChargeAll(b, w, batch).1 ==>
      Balance(ChargeAll(b, w, batch).0, w) == Balance(b, w) - Cost(batch)
    decreases |batch|
  {
    assert 0 <= Balance(b, w);
    if batch != [] {
      ChargeOutcome(b, w, batch[0].cost, batch[0].job);
      ChargeIsSound(b, w, batch[0].cost, batch[0].job, Healthy);
      FreshAfterCharge(b, w, batch);
      CostIsNonnegative(batch[1..]);
      ChargeAllIff(Charge(b, w, batch[0].cost, batch[0].job, Healthy).0, w, batch[1..]);
    }
  }

  lemma {:induction false} CostWithout(batch: seq<Due>, i: nat)
    requires i < |batch|
    ensures Cost(batch) == batch[i].cost + Cost(batch[..i] + batch[i + 1..])
  {
    if i == 0 {
      assert batch[..0] + batch[1..] == batch[1..];
    } else {
      CostWithout(batch[1..], i - 1);
      assert (batch[..i] + batch[i + 1..])[1..] == batch[1..][..i - 1] + batch[1..][i..];
    }
  }

  lemma SameRest(a: seq<Due>, b: seq<Due>, i: nat)
    requires a != [] && i < |b| && b[i] == a[0] && multiset(a) == multiset(b)
    ensures multiset(a[1..]) == multiset(b[..i] + b[i + 1..])
  {
    var rest := b[..i] + b[i + 1..];
    assert a == [a[0]] + a[1..];
    assert b == b[..i] + ([b[i]] + b[i + 1..]);
    assert multiset(b) == multiset(b[..i]) + (multiset([b[i]]) + multiset(b[i + 1..]));
    assert multiset(rest) == multiset(b[..i]) + multiset(b[i + 1..]);
    assert multiset([a[0]]) + multiset(a[1..]) == multiset([a[0]]) + multiset(rest);
    assert multiset(a[1..]) == (multiset([a[0]]) + multiset(a[1..])) - multiset([a[0]]);
    assert multiset(rest) == (multiset([a[0]]) + multiset(rest)) - multiset([a[0]]);
  }

  lemma {:induction false} CostIgnoresOrder(a: seq<Due>, b: seq<Due>)
    requires multiset(a) == multiset(b)
    ensures Cost(a) == Cost(b)
    decreases |a|
  {
    if a == [] {
      assert |multiset(b)| == 0;
    } else {
      assert a[0] in multiset(b);
      var i :| 0 <= i < |b| && b[i] == a[0];
      CostWithout(b, i);
      SameRest(a, b, i);
      CostIgnoresOrder(a[1..], b[..i] + b[i + 1..]);
    }
  }

  /**
    The gate passed when a batch is scheduled and the gate each worker meets agree: the check on
    the batch passes if and only if every job of it can be charged, in whatever order they run.
   */
  lemma SoftGateIffHardGate(b: Bank, w: WorkspaceId, batch: seq<Due>, order: seq<Due>)
    requires Sound(b) && FreshBatch(b, w, order)
    requires multiset(batch) == multiset(order)
    ensures CheckAffordable(b, w, Cost(batch)).Ok? <==> ChargeAll(b, w, order).1
  {
    assert 0 <= Balance(b, w);
    CostIgnoresOrder(batch, order);
    ChargeAllIff(b, w, order);
  }
}

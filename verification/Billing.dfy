/** Publish prices and the billing service that runs the ledger's transactions. */
module Billing {
  import opened Common
  import opened Ledger

  type ChannelId = string

  datatype Pricing = Pricing(publishCosts: map<string, int>, mediaCosts: map<string, int>, urlCosts: map<string, int>) {
    ghost predicate Nonnegative() {
      forall k :: k in publishCosts ==> 0 <= publishCosts[k]
    }
  }

  datatype PublishItem = PublishItem(platform: string, body: string, hasMedia: bool)

  datatype Channel = Channel(workspace: WorkspaceId, platform: string)

  /** A Go map read: a missing key is zero. */
  function Price(costs: map<string, int>, platform: string): int {
    if platform in costs then costs[platform] else 0
  }

  predicate OccursAt(s: string, part: string, i: nat) {
    i + |part| <= |s| && s[i..i + |part|] == part
  }

  predicate Contains(s: string, part: string) {
    exists i: nat :: i <= |s| && OccursAt(s, part, i)
  }

  predicate BodyHasURL(body: string) {
    Contains(body, "http://") || Contains(body, "https://")
  }

  /** The prices that apply to an item: base always, media and link when it carries them. */
  function Tiers(p: Pricing, it: PublishItem): set<int> {
    {Price(p.publishCosts, it.platform)}
    + (if it.hasMedia then {Price(p.mediaCosts, it.platform)} else {})
    + (if BodyHasURL(it.body) then {Price(p.urlCosts, it.platform)} else {})
  }

  /** The highest applicable tier wins. */
  function CostForItem(p: Pricing, it: PublishItem): (cost: int)
    ensures cost in Tiers(p, it)
    ensures forall tier :: tier in Tiers(p, it) ==> tier <= cost
  {
    var base := Price(p.publishCosts, it.platform);
    var media := Price(p.mediaCosts, it.platform);
    var withMedia := if it.hasMedia && media > base then media else base;
    var link := Price(p.urlCosts, it.platform);
    if BodyHasURL(it.body) && link > withMedia then link else withMedia
  }

  /** A body with a link: "http://" or "https://" somewhere in it. */
  ghost predicate Links(body: string) {
    exists before, after :: body == before + "http://" + after || body == before + "https://" + after
  }

  lemma ContainsIff(s: string, part: string)
    ensures Contains(s, part) <==> exists before, after :: s == before + part + after
  {
    if Contains(s, part) {
      var i: nat :| i <= |s| && OccursAt(s, part, i);
      assert s == s[..i] + part + s[i + |part|..];
    }
    if before, after :| s == before + part + after {
      assert OccursAt(s, part, |before|);
    }
  }

  lemma HasURLIff(body: string)
    ensures BodyHasURL(body) <==> Links(body)
  {
    ContainsIff(body, "http://");
    ContainsIff(body, "https://");
  }

  /** What an item costs, read off the configured prices: a price that is not configured is zero. */
  lemma CostIs(p: Pricing, it: PublishItem)
    ensures var base := if it.platform in p.publishCosts then p.publishCosts[it.platform] else 0;
            var media := if it.platform in p.mediaCosts then p.mediaCosts[it.platform] else 0;
            var link := if it.platform in p.urlCosts then p.urlCosts[it.platform] else 0;
            var cost := CostForItem(p, it);
            && base <= cost && (it.hasMedia ==> media <= cost) && (Links(it.body) ==> link <= cost)
            && (cost == base || (it.hasMedia && cost == media) || (Links(it.body) && cost == link))
  {
    HasURLIff(it.body);
    assert Price(p.publishCosts, it.platform) in Tiers(p, it);
  }

  // ----- what the scheduler prices against what the worker pays -----

  /** A stored variant of a post, with the raw JSON of its media references. */
  datatype Variant = Variant(job: Reference, platform: string, body: string, mediaRefs: string)

  const NIL_ID: string := "00000000-0000-0000-0000-000000000000"

  function KeepUploaded(ids: seq<string>): seq<string> {
    if ids == [] then []
    else (if ids[0] != NIL_ID then [ids[0]] else []) + KeepUploaded(ids[1..])
  }

  /** The uploaded media ids in stored references; `json` decodes an array of references. */
  function ParseMediaRefs(json: string -> Option<seq<string>>, raw: string): Option<seq<string>> {
    if raw == "" then Some([])
    else
      var all := json(raw);
      if all.None? then None else Some(KeepUploaded(all.value))
  }

  /** What is kept are the references with an id, as often as they were there. */
  lemma {:induction false} KeptAreUploaded(ids: seq<string>, id: string)
    ensures multiset(KeepUploaded(ids))[id] ==
      if id == "00000000-0000-0000-0000-000000000000" then 0 else multiset(ids)[id]
  {
    if ids != [] {
      KeptAreUploaded(ids[1..], id);
      assert ids == [ids[0]] + ids[1..];
    }
  }

  function SchedulerItem(v: Variant): PublishItem {
    PublishItem(v.platform, v.body, v.mediaRefs != "" && v.mediaRefs != "null" && v.mediaRefs != "[]")
  }

  function WorkerItem(v: Variant, media: seq<string>): PublishItem {
    PublishItem(v.platform, v.body, |media| > 0)
  }

  /** JSON's `null` and `[]` both decode to no references. */
  ghost predicate DecodesEmpty(json: string -> Option<seq<string>>) {
    json("null") == Some([]) && json("[]") == Some([])
  }

  /** The worker never pays more than the scheduler checked for. */
  lemma WorkerCostAtMostScheduled(p: Pricing, json: string -> Option<seq<string>>, v: Variant)
    requires DecodesEmpty(json)
    requires ParseMediaRefs(json, v.mediaRefs).Some?
    ensures var media := ParseMediaRefs(json, v.mediaRefs).value;
            && (WorkerItem(v, media).hasMedia ==> SchedulerItem(v).hasMedia)
            && CostForItem(p, WorkerItem(v, media)) <= CostForItem(p, SchedulerItem(v))
  {
    var media := ParseMediaRefs(json, v.mediaRefs).value;
    assert KeepUploaded([]) == [];
    assert Tiers(p, WorkerItem(v, media)) <= Tiers(p, SchedulerItem(v));
  }

  lemma {:induction false} SomeKeptIff(ids: seq<string>)
    ensures KeepUploaded(ids) == [] <==> forall id :: id in ids ==> id == "00000000-0000-0000-0000-000000000000"
  {
    if ids != [] {
      SomeKeptIff(ids[1..]);
      assert ids[0] in ids && forall id :: id in ids[1..] ==> id in ids;
      assert forall id :: id in ids ==> id == ids[0] || id in ids[1..];
    }
  }

  /**
    The scheduler and the worker price the same item exactly when the stored text is one of the
    three that mean no references, or some reference has an id.
   */
  lemma SameItemIff(json: string -> Option<seq<string>>, v: Variant)
    requires DecodesEmpty(json) && ParseMediaRefs(json, v.mediaRefs).Some?
    ensures SchedulerItem(v) == WorkerItem(v, ParseMediaRefs(json, v.mediaRefs).value)
      <==> v.mediaRefs in ["", "null", "[]"]
           || exists id :: id in json(v.mediaRefs).value && id != "00000000-0000-0000-0000-000000000000"
  {
    if v.mediaRefs != "" { SomeKeptIff(json(v.mediaRefs).value); }
  }

  function ItemsCost(p: Pricing, items: seq<PublishItem>): int {
    if items == [] then 0 else CostForItem(p, items[0]) + ItemsCost(p, items[1..])
  }

  function SchedulerItems(vs: seq<Variant>): seq<PublishItem> {
    seq(|vs|, i requires 0 <= i < |vs| => SchedulerItem(vs[i]))
  }

  function Scheduled(p: Pricing, vs: seq<Variant>): seq<Due> {
    seq(|vs|, i requires 0 <= i < |vs| => Due(vs[i].job, CostForItem(p, SchedulerItem(vs[i]))))
  }

  function Paid(p: Pricing, vs: seq<Variant>, media: seq<seq<string>>): seq<Due>
    requires |media| == |vs|
  {
    seq(|vs|, i requires 0 <= i < |vs| => Due(vs[i].job, CostForItem(p, WorkerItem(vs[i], media[i]))))
  }

  lemma {:induction false} CostIsMonotone(low: seq<Due>, high: seq<Due>)
    requires |low| == |high| && forall i :: 0 <= i < |low| ==> low[i].cost <= high[i].cost
    ensures Cost(low) <= Cost(high)
  {
    if low != [] { CostIsMonotone(low[1..], high[1..]); }
  }

  lemma {:induction false} ScheduledCost(p: Pricing, vs: seq<Variant>)
    ensures Cost(Scheduled(p, vs)) == ItemsCost(p, SchedulerItems(vs))
  {
    if vs != [] {
      assert Scheduled(p, vs)[1..] == Scheduled(p, vs[1..]);
      assert SchedulerItems(vs)[1..] == SchedulerItems(vs[1..]);
      ScheduledCost(p, vs[1..]);
    }
  }

  lemma CostIsAtLeastBase(p: Pricing, it: PublishItem)
    requires p.Nonnegative()
    ensures 0 <= CostForItem(p, it)
  {
    assert Price(p.publishCosts, it.platform) in Tiers(p, it);
  }

  /**
    When the scheduler's check passes for a batch, every worker's charge for it goes through, in
    any order, although the worker prices the decoded media and the scheduler only the raw text.
   */
  lemma ScheduledBatchIsPayable(p: Pricing, json: string -> Option<seq<string>>, b: Bank, w: WorkspaceId,
                                vs: seq<Variant>, media: seq<seq<string>>, order: seq<Due>)
    requires Sound(b) && p.Nonnegative() && DecodesEmpty(json)
    requires |media| == |vs|
    requires forall i :: 0 <= i < |vs| ==> ParseMediaRefs(json, vs[i].mediaRefs) == Some(media[i])
    requires forall i :: 0 <= i < |vs| ==> Charged(b, w, vs[i].job).None?
    requires forall i, j :: 0 <= i < j < |vs| ==> vs[i].job != vs[j].job
    requires multiset(order) == multiset(Paid(p, vs, media))
    requires CheckAffordable(b, w, ItemsCost(p, SchedulerItems(vs))).Ok?
    ensures ChargeAll(b, w, order).1
  {
    var paid := Paid(p, vs, media);
    forall i | 0 <= i < |vs|
      ensures 0 <= paid[i].cost <= Scheduled(p, vs)[i].cost
    {
      WorkerCostAtMostScheduled(p, json, vs[i]);
      CostIsAtLeastBase(p, WorkerItem(vs[i], media[i]));
    }
    CostIsMonotone(paid, Scheduled(p, vs));
    ScheduledCost(p, vs);
    FreshInAnyOrder(b, w, paid, order);
    assert 0 <= Balance(b, w);
    CostIgnoresOrder(paid, order);
    ChargeAllIff(b, w, order);
  }

  lemma FreshInAnyOrder(b: Bank, w: WorkspaceId, batch: seq<Due>, order: seq<Due>)
    requires FreshBatch(b, w, batch) && multiset(batch) == multiset(order)
    ensures FreshBatch(b, w, order)
  {
    forall i | 0 <= i < |order|
      ensures order[i] in batch
    {
      assert order[i] in multiset(order);
    }
    forall i, j | 0 <= i < j < |order|
      ensures order[i].job != order[j].job
    {
      if order[i] == order[j] {
        TwiceInSequence(order, i, j);
        OnceInSequence(batch, order[i]);
      }
    }
  }

  lemma TwiceInSequence(s: seq<Due>, i: nat, j: nat)
    requires i < j < |s| && s[i] == s[j]
    ensures multiset(s)[s[i]] >= 2
  {
    assert s == s[..j] + ([s[j]] + s[j + 1..]);
    assert s[i] in s[..j];
  }

  lemma {:induction false} OnceInSequence(s: seq<Due>, d: Due)
    requires forall i, j :: 0 <= i < j < |s| ==> s[i].job != s[j].job
    ensures multiset(s)[d] <= 1
  {
    if s != [] {
      assert s == [s[0]] + s[1..];
      assert s[0] !in s[1..];
      OnceInSequence(s[1..], d);
    }
  }

  // ----- the service -----

  /**
    The billing service over its two tables. A transaction saves the tables, issues its
    statements one by one, and puts the saved tables back when it does not commit.
   */
  class BillingService {
    var ledger: seq<Entry>
    var wallets: map<WorkspaceId, int>
    const pricing: Pricing
    const channels: map<ChannelId, Channel>

    constructor (pricing: Pricing, channels: map<ChannelId, Channel>)
      ensures Tables() == Bank([], map[]) && Sound(Tables())
      ensures this.pricing == pricing && this.channels == channels
    {
      this.pricing, this.channels := pricing, channels;
      ledger, wallets := [], map[];
    }

    function Tables(): Bank
      reads this
    {
      Bank(ledger, wallets)
    }

    /** INSERT ... ON CONFLICT DO NOTHING: false when no row came back. */
    method InsertLedgerEntry(e: Entry) returns (inserted: bool)
      modifies this`ledger
      ensures inserted <==> Find(old(ledger), e.workspace, e.kind, e.reference).None?
      ensures ledger == if inserted then old(ledger) + [e] else old(ledger)
    {
      inserted := Find(ledger, e.workspace, e.kind, e.reference).None?;
      if inserted { ledger := ledger + [e]; }
    }

    /** INSERT ... ON CONFLICT DO UPDATE: a missing wallet starts at the amount. */
    method CreditWallet(w: WorkspaceId, amount: int)
      modifies this`wallets
      ensures wallets == old(wallets)[w := old(Balance(Tables(), w)) + amount]
    {
      if w in wallets {
        wallets := wallets[w := wallets[w] + amount];
      } else {
        wallets := wallets[w := amount];
      }
    }

    method DebitWalletIfEnough(w: WorkspaceId, amount: int) returns (enough: bool)
      modifies this`wallets
      ensures enough == old(CanDebit(Tables(), w, amount))
      ensures wallets == if enough then old(wallets)[w := old(Balance(Tables(), w)) - amount] else old(wallets)
    {
      enough := w in wallets && wallets[w] >= amount;
      if enough { wallets := wallets[w := wallets[w] - amount]; }
    }

    method Credit(w: WorkspaceId, k: Kind, credits: int, reference: Reference, fault: Fault)
      returns (r: Result<bool, Error>)
      modifies this
      ensures (Tables(), r) == Ledger.Credit(old(Tables()), w, k, credits, reference, fault)
      ensures old(Sound(Tables())) ==> Sound(Tables())
    {
      ghost var before := Tables();
      if Sound(before) { CreditIsSound(before, w, k, credits, reference, fault); }
      if credits <= 0 { return Err(BadTopup); }
      if fault.BeginFails? || fault.LedgerFails? { return Err(Database); }
      var savedLedger, savedWallets := ledger, wallets;
      var applied := InsertLedgerEntry(Entry(w, k, credits, reference));
      if applied {
        if fault.WalletFails? {
          ledger, wallets := savedLedger, savedWallets;
          return Err(Database);
        }
        CreditWallet(w, credits);
      }
      if fault.CommitFails? {
        if !fault.applied { ledger, wallets := savedLedger, savedWallets; }
        return Err(Database);
      }
      return Ok(applied);
    }

    method ChargePublish(job: Reference, channel: ChannelId, body: string, hasMedia: bool, channelReadable: bool,
                         fault: Fault)
      returns (r: Result<(), Error>)
      modifies this
      ensures !channelReadable || channel !in channels ==> r == Err(Database) && Tables() == old(Tables())
      ensures channelReadable && channel in channels ==>
        var ch := channels[channel];
        var cost := CostForItem(pricing, PublishItem(ch.platform, body, hasMedia));
        (Tables(), r) == Charge(old(Tables()), ch.workspace, cost, job, fault)
      ensures old(Sound(Tables())) ==> Sound(Tables())
    {
      if !channelReadable || channel !in channels { return Err(Database); }
      var ch := channels[channel];
      var cost := CostForItem(pricing, PublishItem(ch.platform, body, hasMedia));
      ghost var before := Tables();
      if Sound(before) { ChargeIsSound(before, ch.workspace, cost, job, fault); }
      if cost == 0 { return Ok(()); }
      if fault.BeginFails? || fault.LedgerFails? { return Err(Database); }
      var savedLedger, savedWallets := ledger, wallets;
      var inserted := InsertLedgerEntry(Entry(ch.workspace, PublishCharge, -cost, job));
      if inserted {
        if fault.WalletFails? {
          ledger, wallets := savedLedger, savedWallets;
          return Err(Database);
        }
        var enough := DebitWalletIfEnough(ch.workspace, cost);
        if !enough {
          ledger, wallets := savedLedger, savedWallets;
          return Err(InsufficientCredits);
        }
      }
      if fault.CommitFails? {
        if !fault.applied { ledger, wallets := savedLedger, savedWallets; }
        return Err(Database);
      }
      return Ok(());
    }

    method RefundPublish(job: Reference, channel: ChannelId, readable: bool, fault: Fault)
      returns (r: Result<(), Error>)
      modifies this
      ensures !readable || channel !in channels ==> r == Err(Database) && Tables() == old(Tables())
      ensures readable && channel in channels ==>
        (Tables(), r) == RefundJob(old(Tables()), channels[channel].workspace, job, fault)
      ensures old(Sound(Tables())) ==> Sound(Tables())
    {
      if !readable || channel !in channels { return Err(Database); }
      var w := channels[channel].workspace;
      var charge := Find(ledger, w, PublishCharge, job);
      if charge.None? { return Ok(()); }
      var credited := Credit(w, Refund, -charge.value.credits, job, fault);
      r := if credited.Err? then Err(credited.error) else Ok(());
    }

    /** The soft gate: adds up the item prices and compares them with the balance, if it can be read. */
    method CheckAffordable(w: WorkspaceId, items: seq<PublishItem>, readable: bool) returns (r: Result<(), Error>)
      ensures r == if readable || ItemsCost(pricing, items) == 0
                   then Ledger.CheckAffordable(Tables(), w, ItemsCost(pricing, items)) else Err(Database)
    {
      var total := 0;
      var i := 0;
      while i < |items|
        invariant 0 <= i <= |items|
        invariant total + ItemsCost(pricing, items[i..]) == ItemsCost(pricing, items)
      {
        total := total + CostForItem(pricing, items[i]);
        i := i + 1;
      }
      if total == 0 { return Ok(()); }
      if !readable { return Err(Database); }
      var balance := if w in wallets then wallets[w] else 0;
      if balance < total { return Err(InsufficientCredits); }
      return Ok(());
    }
  }
}

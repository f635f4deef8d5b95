/**
  Queueing posts into a channel's recurring slots. Instants are nanoseconds since the Unix epoch;
  a time zone is a fixed offset in whole seconds.
 */
module Slots {
  import opened Common
  import opened Text

  type Time = int
  type Zones = map<string, int>

  const SECOND: int := 1_000_000_000
  const MINUTE: int := 60 * SECOND
  const HOUR: int := 60 * MINUTE
  const DAY: int := 24 * HOUR
  const HORIZON_DAYS: int := 14

  datatype Slot = Slot(dayOfWeek: int, timeOfDay: string, timezone: string)

  // ----- "HH:MM" -----

  /** strconv.Atoi: an optional sign, then digits. */
  function Atoi(s: string): Option<int> {
    if s != "" && s[0] == '-' then
      var d := Digits(s[1..]);
      if d.None? then None else Some(-d.value)
    else if s != "" && s[0] == '+' then Digits(s[1..])
    else Digits(s)
  }

  function ParseHHMM(s: string): (r: Option<(int, int)>)
    ensures r.Some? ==> 0 <= r.value.0 <= 23 && 0 <= r.value.1 <= 59
  {
    var parts := Cut(s);
    if parts.None? then None
    else
      var hour, minute := Atoi(parts.value.0), Atoi(parts.value.1);
      if hour.None? || hour.value < 0 || hour.value > 23 then None
      else if minute.None? || minute.value < 0 || minute.value > 59 then None
      else Some((hour.value, minute.value))
  }

  function TwoDigits(n: int): string
    requires 0 <= n <= 99
  {
    [(n / 10) as char + '0', (n % 10) as char + '0']
  }

  /** Every 24-hour time written as "HH:MM" is read back. */
  lemma ParseReadsBack(hour: int, minute: int)
    requires 0 <= hour <= 23 && 0 <= minute <= 59
    ensures ParseHHMM(TwoDigits(hour) + ":" + TwoDigits(minute)) == Some((hour, minute))
  {
    var s := TwoDigits(hour) + ":" + TwoDigits(minute);
    TwoDigitsRead(hour);
    TwoDigitsRead(minute);
    assert s[1..][0] == TwoDigits(hour)[1] && s[1..][1..][0] == ':';
    assert s[1..][1..][1..] == TwoDigits(minute);
    assert Cut(s[1..][1..]) == Some(("", TwoDigits(minute)));
    assert Cut(s[1..]) == Some(([s[1]] + "", TwoDigits(minute)));
    assert [s[0]] + ([s[1]] + "") == TwoDigits(hour);
    assert Cut(s) == Some((TwoDigits(hour), TwoDigits(minute)));
  }

  lemma TwoDigitsRead(n: int)
    requires 0 <= n <= 99
    ensures Atoi(TwoDigits(n)) == Some(n)
    ensures IsDigit(TwoDigits(n)[0]) && IsDigit(TwoDigits(n)[1])
  {
    assert TwoDigits(n)[..1] == [TwoDigits(n)[0]];
    assert Digits(TwoDigits(n)[..1]) == Some(n / 10);
  }

  /** A number is read with or without a sign. */
  lemma SignsAreRead(n: nat)
    ensures Atoi(Decimal(n)) == Some(n) == Atoi("+" + Decimal(n))
    ensures Atoi("-" + Decimal(n)) == Some(0 - n)
  {
    DecimalReadsBack(n);
    assert IsDigit(Decimal(n)[0]);
    AtoiReads(Decimal(n), n);
  }

  lemma AtoiReads(s: string, n: nat)
    requires s != "" && IsDigit(s[0]) && Digits(s) == Some(n)
    ensures Atoi(s) == Some(n) == Atoi("+" + s) && Atoi("-" + s) == Some(0 - n)
  {
    assert ("+" + s)[0] == '+' && ("+" + s)[1..] == s;
    assert ("-" + s)[0] == '-' && ("-" + s)[1..] == s;
  }

  // ----- candidates -----

  /** Rounds down to the minute. */
  function Truncate(t: Time): Time {
    t - t % MINUTE
  }

  /** 1970-01-01 was a Thursday; Sunday is 0. */
  function Weekday(day: int): int {
    (day + 4) % 7
  }

  function LocalDay(t: Time, offset: int): int {
    (t + offset * SECOND) / DAY
  }

  function At(day: int, hour: int, minute: int, offset: int): Time {
    day * DAY + hour * HOUR + minute * MINUTE - offset * SECOND
  }

  predicate Usable(slot: Slot, zones: Zones) {
    slot.timezone in zones && ParseHHMM(slot.timeOfDay).Some?
  }

  /** The slot's time on the `d`-th local day from `after` on. */
  function Occurrence(slot: Slot, zones: Zones, after: Time, d: int): Time
    requires Usable(slot, zones)
  {
    var (hour, minute) := ParseHHMM(slot.timeOfDay).value;
    At(LocalDay(after, zones[slot.timezone]) + d, hour, minute, zones[slot.timezone])
  }

  predicate Matches(slot: Slot, zones: Zones, after: Time, d: int) {
    && Usable(slot, zones)
    && Weekday(LocalDay(after, zones[slot.timezone]) + d) == slot.dayOfWeek
    && Occurrence(slot, zones, after, d) > after
  }

  /** `t` is one of the slot's times within the horizon, later than `after`. */
  ghost predicate FallsOn(slot: Slot, zones: Zones, after: Time, t: Time) {
    exists d :: 0 <= d <= HORIZON_DAYS && Matches(slot, zones, after, d) && t == Occurrence(slot, zones, after, d)
  }

  /** Every time within the horizon, later than `after`, that falls on some slot. */
  function Candidates(slots: seq<Slot>, zones: Zones, after: Time): (c: set<Time>)
    ensures forall t :: t in c <==> exists i :: 0 <= i < |slots| && FallsOn(slots[i], zones, after, t)
  {
    set i, d | 0 <= i < |slots| && 0 <= d <= HORIZON_DAYS && Matches(slots[i], zones, after, d)
      :: Occurrence(slots[i], zones, after, d)
  }

  ghost predicate Sorted(s: seq<Time>) {
    forall i, j :: 0 <= i < j < |s| ==> s[i] <= s[j]
  }

  function Insert(t: Time, s: seq<Time>): (r: seq<Time>)
    ensures multiset(r) == multiset(s) + multiset{t}
  {
    if s == [] || t <= s[0] then [t] + s
    else assert s == [s[0]] + s[1..]; [s[0]] + Insert(t, s[1..])
  }

  /** sort.Slice with Before. */
  function Sort(s: seq<Time>): (r: seq<Time>)
    ensures multiset(r) == multiset(s)
  {
    if s == [] then [] else assert s == [s[0]] + s[1..]; Insert(s[0], Sort(s[1..]))
  }

  lemma InsertHolds(t: Time, s: seq<Time>, x: Time)
    requires x in Insert(t, s)
    ensures x == t || x in s
  {
    assert x in multiset(Insert(t, s));
  }

  lemma {:induction false} InsertSorts(t: Time, s: seq<Time>)
    requires Sorted(s)
    ensures Sorted(Insert(t, s))
  {
    if s != [] && t > s[0] {
      var rest := Insert(t, s[1..]);
      InsertSorts(t, s[1..]);
      forall i | 0 <= i < |rest|
        ensures s[0] <= rest[i]
      {
        InsertHolds(t, s[1..], rest[i]);
      }
    }
  }

  lemma {:induction false} SortSorts(s: seq<Time>)
    ensures Sorted(Sort(s))
    ensures forall t :: t in Sort(s) <==> t in s
  {
    if s != [] {
      SortSorts(s[1..]);
      InsertSorts(s[0], Sort(s[1..]));
    }
    forall t
      ensures t in Sort(s) <==> t in s
    {
      assert t in Sort(s) <==> t in multiset(Sort(s));
      assert t in s <==> t in multiset(s);
    }
  }

  method SlotCandidates(slots: seq<Slot>, zones: Zones, after: Time) returns (out: seq<Time>)
    ensures Sorted(out)
    ensures forall t :: t in out <==> t in Candidates(slots, zones, after)
  {
    out := [];
    var i := 0;
    while i < |slots|
      invariant 0 <= i <= |slots|
      invariant forall t :: t in out <==> exists k :: 0 <= k < i && FallsOn(slots[k], zones, after, t)
    {
      out := AddOccurrences(slots[i], zones, after, out);
      i := i + 1;
    }
    SortSorts(out);
    out := Sort(out);
  }

  /** The inner loop: one slot's times are appended. */
  method AddOccurrences(slot: Slot, zones: Zones, after: Time, before: seq<Time>) returns (out: seq<Time>)
    ensures forall t :: t in out <==> t in before || FallsOn(slot, zones, after, t)
  {
    out := before;
    if !Usable(slot, zones) { return; }
    var offset := zones[slot.timezone];
    var (hour, minute) := ParseHHMM(slot.timeOfDay).value;
    var base := LocalDay(after, offset);
    var d := 0;
    while d <= HORIZON_DAYS
      invariant 0 <= d <= HORIZON_DAYS + 1
      invariant forall t :: t in out <==>
        || t in before
        || exists e :: 0 <= e < d && Matches(slot, zones, after, e) && t == Occurrence(slot, zones, after, e)
    {
      if Weekday(base + d) == slot.dayOfWeek {
        var candidate := At(base + d, hour, minute, offset);
        assert candidate == Occurrence(slot, zones, after, d);
        if candidate > after { out := out + [candidate]; }
      }
      d := d + 1;
    }
  }

  // ----- the next open slot -----

  datatype Status = Scheduled | Publishing | Finished

  datatype Job = Job(runAt: Time, status: Status)

  datatype SlotError = NoSlots | NoOpenSlot

  /** The minutes taken by the channel's scheduled jobs that run at `after` or later. */
  function Occupied(jobs: seq<Job>, after: Time): set<Time> {
    set i | 0 <= i < |jobs| && jobs[i].status == Scheduled && jobs[i].runAt >= after :: Truncate(jobs[i].runAt)
  }

  ghost predicate Open(slots: seq<Slot>, zones: Zones, jobs: seq<Job>, after: Time, t: Time) {
    t in Candidates(slots, zones, after) && Truncate(t) !in Occupied(jobs, after)
  }

  /** The earliest open time. */
  ghost predicate NextOpen(slots: seq<Slot>, zones: Zones, jobs: seq<Job>, after: Time, t: Time) {
    Open(slots, zones, jobs, after, t) && forall u :: Open(slots, zones, jobs, after, u) ==> t <= u
  }

  method OccupiedSlots(jobs: seq<Job>, after: Time) returns (taken: set<Time>)
    ensures taken == Occupied(jobs, after)
  {
    taken := {};
    var i := 0;
    while i < |jobs|
      invariant 0 <= i <= |jobs|
      invariant taken ==
        set k | 0 <= k < i && jobs[k].status == Scheduled && jobs[k].runAt >= after :: Truncate(jobs[k].runAt)
    {
      if jobs[i].status == Scheduled && jobs[i].runAt >= after { taken := taken + {Truncate(jobs[i].runAt)}; }
      i := i + 1;
    }
  }

  method NextOpenSlot(slots: seq<Slot>, zones: Zones, jobs: seq<Job>, after: Time) returns (r: Result<Time, SlotError>)
    ensures r == Err(NoSlots) <==> slots == []
    ensures r == Err(NoOpenSlot) <==>
      slots != [] && forall t :: t in Candidates(slots, zones, after) ==> Truncate(t) in Occupied(jobs, after)
    ensures r.Ok? ==> NextOpen(slots, zones, jobs, after, r.value)
    ensures r.Err? ==> forall t :: !Open(slots, zones, jobs, after, t)
  {
    if slots == [] {
      assert Candidates(slots, zones, after) == {};
      return Err(NoSlots);
    }
    var taken := OccupiedSlots(jobs, after);
    var candidates := SlotCandidates(slots, zones, after);
    var i := 0;
    while i < |candidates|
      invariant 0 <= i <= |candidates|
      invariant forall k :: 0 <= k < i ==> Truncate(candidates[k]) in taken
    {
      if Truncate(candidates[i]) !in taken {
        assert candidates[i] in candidates;
        return Ok(candidates[i]);
      }
      i := i + 1;
    }
    return Err(NoOpenSlot);
  }

  // ----- no clash is lost -----

  ghost predicate WholeMinutes(zones: Zones) {
    forall z :: z in zones ==> zones[z] % 60 == 0
  }

  lemma TruncateFacts(t: Time)
    ensures Truncate(t) <= t < Truncate(t) + MINUTE
    ensures Truncate(t) % MINUTE == 0
    ensures t % MINUTE == 0 ==> Truncate(t) == t
  {
  }

  lemma AtIsOnTheMinute(day: int, hour: int, minute: int, offset: int)
    ensures At(day, hour, minute, offset) % MINUTE == 0 <==> offset % 60 == 0
  {
    var m := day * 1440 + hour * 60 + minute - offset / 60;
    assert offset == offset / 60 * 60 + offset % 60;
    assert At(day, hour, minute, offset) == m * MINUTE - (offset % 60) * SECOND;
    assert (m * MINUTE - (offset % 60) * SECOND) % MINUTE == (-((offset % 60) * SECOND)) % MINUTE by {
      ModShift(m, -((offset % 60) * SECOND));
    }
  }

  lemma ModShift(m: int, x: int)
    ensures (m * MINUTE + x) % MINUTE == x % MINUTE
  {
    var q := x / MINUTE;
    assert m * MINUTE + x == (m + q) * MINUTE + x % MINUTE;
  }

  /** A job in the minute of a slot time later than `after` that the query for jobs from `after` on does not see. */
  predicate Escapes(day: int, hour: int, minute: int, offset: int, after: Time, runAt: Time) {
    var t := At(day, hour, minute, offset);
    t > after && Truncate(runAt) == Truncate(t) && runAt < after
  }

  /**
    Looking only at jobs that run at `after` or later loses no clash, for any slot time and any
    `after`, exactly when the zone's offset is whole minutes.
   */
  lemma NoClashIsLostIff(offset: int)
    ensures (forall day, hour, minute, after, runAt :: !Escapes(day, hour, minute, offset, after, runAt))
            <==> offset % 60 == 0
  {
    if offset % 60 == 0 {
      forall day, hour, minute, after, runAt
        ensures !Escapes(day, hour, minute, offset, after, runAt)
      {
        AtIsOnTheMinute(day, hour, minute, offset);
        TruncateFacts(runAt);
      }
    } else {
      var c := At(0, 0, 0, offset);
      AtIsOnTheMinute(0, 0, 0, offset);
      assert c == -offset * SECOND;
      SecondsInMinute(-offset);
      TruncateFacts(c);
      TruncateFacts(Truncate(c));
      assert Escapes(0, 0, 0, offset, c - 1, Truncate(c));
    }
  }

  lemma SecondsInMinute(seconds: int)
    requires (seconds * SECOND) % MINUTE != 0
    ensures (seconds * SECOND) % MINUTE >= SECOND
  {
    var q, r := seconds / 60, seconds % 60;
    assert seconds * SECOND == q * MINUTE + r * SECOND;
    ModShift(q, r * SECOND);
  }

  /** With whole-minute zones the time found is free of every scheduled job of the channel, not only the later ones. */
  lemma NextOpenIsFree(slots: seq<Slot>, zones: Zones, jobs: seq<Job>, after: Time, t: Time, i: int)
    requires WholeMinutes(zones) && NextOpen(slots, zones, jobs, after, t)
    requires 0 <= i < |jobs| && jobs[i].status == Scheduled
    ensures after < t && Truncate(t) == t
    ensures Truncate(jobs[i].runAt) != Truncate(t)
  {
    CandidateFacts(slots, zones, after, t);
    TruncateFacts(jobs[i].runAt);
    TruncateFacts(t);
    if jobs[i].runAt >= after { assert Truncate(jobs[i].runAt) in Occupied(jobs, after); }
  }

  lemma CandidateFacts(slots: seq<Slot>, zones: Zones, after: Time, t: Time)
    requires WholeMinutes(zones) && t in Candidates(slots, zones, after)
    ensures after < t && t % MINUTE == 0
  {
    var i :| 0 <= i < |slots| && FallsOn(slots[i], zones, after, t);
    var d :| 0 <= d <= HORIZON_DAYS && Matches(slots[i], zones, after, d) && t == Occurrence(slots[i], zones, after, d);
    var offset := zones[slots[i].timezone];
    var (hour, minute) := ParseHHMM(slots[i].timeOfDay).value;
    AtIsOnTheMinute(LocalDay(after, offset) + d, hour, minute, offset);
  }

  /** A local date and time of day is where the clock and the calendar of its zone say it is. */
  lemma AtIsLocal(day: int, hour: int, minute: int, offset: int)
    requires 0 <= hour <= 23 && 0 <= minute <= 59
    ensures var local := At(day, hour, minute, offset) + offset * 1_000_000_000;
            && local / 86_400_000_000_000 == day
            && local % 86_400_000_000_000 == (hour * 60 + minute) * 60_000_000_000
  {
    var ofDay := (hour * 60 + minute) * 60_000_000_000;
    assert At(day, hour, minute, offset) + offset * 1_000_000_000 == day * 86_400_000_000_000 + ofDay;
    assert 0 <= ofDay < 86_400_000_000_000;
  }

  lemma LocalDayIs(t: Time, offset: int)
    ensures LocalDay(t, offset) == (t + offset * 1_000_000_000) / 86_400_000_000_000
  {
  }

  /** Day 0, 1 January 1970, was a Thursday, and every seventh day is one; Sunday is 0. */
  predicate OnWeekday(day: int, weekday: int) {
    0 <= weekday <= 6 && (day + 4 - weekday) % 7 == 0
  }

  lemma WeekdayIff(day: int, weekday: int)
    ensures Weekday(day) == weekday <==> OnWeekday(day, weekday)
  {
  }

  /** The calendar's week: each day is followed by the next. */
  lemma WeekGoesOn(day: int)
    ensures Weekday(0) == 4 && 0 <= Weekday(day) <= 6
    ensures Weekday(day + 1) == (if Weekday(day) == 6 then 0 else Weekday(day) + 1)
  {
  }

  /** On `t` itself: its local weekday and time of day are the slot's, and it is later and within the horizon. */
  predicate ReadsAs(slot: Slot, zones: Zones, after: Time, t: Time) {
    && Usable(slot, zones)
    && var offset := zones[slot.timezone];
       var (hour, minute) := ParseHHMM(slot.timeOfDay).value;
       var today := (after + offset * 1_000_000_000) / 86_400_000_000_000;
       var day := (t + offset * 1_000_000_000) / 86_400_000_000_000;
       && OnWeekday(day, slot.dayOfWeek)
       && (t + offset * 1_000_000_000) % 86_400_000_000_000 == (hour * 60 + minute) * 60_000_000_000
       && after < t && today <= day <= today + 14
  }

  lemma FallsOnReadsAs(slot: Slot, zones: Zones, after: Time, t: Time)
    requires FallsOn(slot, zones, after, t)
    ensures ReadsAs(slot, zones, after, t)
  {
    var offset := zones[slot.timezone];
    var (hour, minute) := ParseHHMM(slot.timeOfDay).value;
    var d :| 0 <= d <= HORIZON_DAYS && Matches(slot, zones, after, d) && t == Occurrence(slot, zones, after, d);
    AtIsLocal(LocalDay(after, offset) + d, hour, minute, offset);
    LocalDayIs(after, offset);
    WeekdayIff(LocalDay(after, offset) + d, slot.dayOfWeek);
  }

  lemma AtOfLocal(t: Time, hour: int, minute: int, offset: int)
    requires (t + offset * SECOND) % DAY == hour * HOUR + minute * MINUTE
    ensures t == At(LocalDay(t, offset), hour, minute, offset)
  {
  }

  lemma ReadsAsFallsOn(slot: Slot, zones: Zones, after: Time, t: Time)
    requires ReadsAs(slot, zones, after, t)
    ensures FallsOn(slot, zones, after, t)
  {
    var offset := zones[slot.timezone];
    var (hour, minute) := ParseHHMM(slot.timeOfDay).value;
    var d := LocalDay(t, offset) - LocalDay(after, offset);
    WeekdayIff(LocalDay(t, offset), slot.dayOfWeek);
    AtOfLocal(t, hour, minute, offset);
    assert LocalDay(after, offset) + d == LocalDay(t, offset);
    assert Matches(slot, zones, after, d) && t == Occurrence(slot, zones, after, d);
  }

  lemma FallsOnIff(slot: Slot, zones: Zones, after: Time, t: Time)
    ensures FallsOn(slot, zones, after, t) <==> ReadsAs(slot, zones, after, t)
  {
    if FallsOn(slot, zones, after, t) { FallsOnReadsAs(slot, zones, after, t); }
    if ReadsAs(slot, zones, after, t) { ReadsAsFallsOn(slot, zones, after, t); }
  }

  /** The candidates, read off the clock and the calendar of each slot's zone. */
  lemma CandidateIff(slots: seq<Slot>, zones: Zones, after: Time, t: Time)
    ensures t in Candidates(slots, zones, after) <==> exists i :: 0 <= i < |slots| && ReadsAs(slots[i], zones, after, t)
  {
    forall i | 0 <= i < |slots|
      ensures FallsOn(slots[i], zones, after, t) <==> ReadsAs(slots[i], zones, after, t)
    {
      FallsOnIff(slots[i], zones, after, t);
    }
  }

  /** An open time, read off the slots and the jobs themselves. */
  lemma OpenIff(slots: seq<Slot>, zones: Zones, jobs: seq<Job>, after: Time, t: Time)
    ensures Open(slots, zones, jobs, after, t) <==>
      && (exists i :: 0 <= i < |slots| && ReadsAs(slots[i], zones, after, t))
      && (forall j :: 0 <= j < |jobs| && jobs[j].status == Scheduled && jobs[j].runAt >= after ==>
            jobs[j].runAt / (60 * 1_000_000_000) != t / (60 * 1_000_000_000))
  {
    CandidateIff(slots, zones, after, t);
    forall j | 0 <= j < |jobs|
      ensures Truncate(jobs[j].runAt) == Truncate(t) <==>
              jobs[j].runAt / (60 * 1_000_000_000) == t / (60 * 1_000_000_000)
    {
      SameMinute(jobs[j].runAt, t);
    }
  }

  lemma SameMinute(a: Time, b: Time)
    ensures Truncate(a) == Truncate(b) <==> a / (60 * 1_000_000_000) == b / (60 * 1_000_000_000)
  {
    assert Truncate(a) == a / MINUTE * MINUTE && Truncate(b) == b / MINUTE * MINUTE;
  }

  // ----- there is room -----

  lemma LaterDayIsLater(after: Time, offset: int, hour: int, minute: int, d: int)
    requires 0 <= hour && 0 <= minute && 1 <= d
    ensures At(LocalDay(after, offset) + d, hour, minute, offset) > after
  {
    var local := after + offset * SECOND;
    assert local < (local / DAY + 1) * DAY;
    assert (local / DAY + 1) * DAY <= (local / DAY + d) * DAY by { assert (d - 1) * DAY >= 0; }
  }

  /** How many days after `base`, within a week, the weekday comes up next. */
  function DaysUntil(base: int, weekday: int): (d: int)
    ensures 1 <= d <= 7
  {
    (weekday - Weekday(base) + 6) % 7 + 1
  }

  lemma DaysUntilLands(base: int, weekday: int)
    requires 0 <= weekday <= 6
    ensures Weekday(base + DaysUntil(base, weekday)) == weekday
    ensures Weekday(base + DaysUntil(base, weekday) + 7) == weekday
  {
  }

  /** Every usable slot comes up at least twice within the horizon, a week apart. */
  lemma EverySlotComesUpTwice(slots: seq<Slot>, zones: Zones, after: Time, i: int) returns (t: Time)
    requires 0 <= i < |slots| && Usable(slots[i], zones) && 0 <= slots[i].dayOfWeek <= 6
    ensures t in Candidates(slots, zones, after) && t + 7 * DAY in Candidates(slots, zones, after)
  {
    var slot := slots[i];
    var offset := zones[slot.timezone];
    var (hour, minute) := ParseHHMM(slot.timeOfDay).value;
    var base := LocalDay(after, offset);
    var d := DaysUntil(base, slot.dayOfWeek);
    DaysUntilLands(base, slot.dayOfWeek);
    LaterDayIsLater(after, offset, hour, minute, d);
    LaterDayIsLater(after, offset, hour, minute, d + 7);
    t := Occurrence(slot, zones, after, d);
    assert Occurrence(slot, zones, after, d + 7) == t + 7 * DAY;
    assert FallsOn(slot, zones, after, t) && FallsOn(slot, zones, after, t + 7 * DAY);
  }

  function Minutes(times: set<Time>): set<Time> {
    set t | t in times :: Truncate(t)
  }

  /** Queueing fails only when the taken minutes cover the candidates; so it succeeds when there are fewer of them. */
  lemma RoomWhenOutnumbered(slots: seq<Slot>, zones: Zones, jobs: seq<Job>, after: Time)
    requires |Minutes(Candidates(slots, zones, after))| > |Occupied(jobs, after)|
    ensures exists t :: Open(slots, zones, jobs, after, t)
  {
    var minutes, taken := Minutes(Candidates(slots, zones, after)), Occupied(jobs, after);
    if minutes <= taken {
      SubsetIsSmaller(minutes, taken);
    } else {
      var m :| m in minutes && m !in taken;
      var t :| t in Candidates(slots, zones, after) && Truncate(t) == m;
      assert Open(slots, zones, jobs, after, t);
    }
  }

  lemma SubsetIsSmaller(a: set<Time>, b: set<Time>)
    requires a <= b
    ensures |a| <= |b|
  {
    assert b == a + (b - a);
  }

  // ----- a channel's queue over time -----

  /** No two jobs still to be published share a minute. */
  ghost predicate Distinct(jobs: seq<Job>) {
    forall i, j :: 0 <= i < j < |jobs| && jobs[i].status != Finished && jobs[j].status != Finished ==>
      Truncate(jobs[i].runAt) != Truncate(jobs[j].runAt)
  }

  /** Besides, a job is being published only once due. */
  ghost predicate Clear(jobs: seq<Job>, clock: Time) {
    && Distinct(jobs)
    && (forall i :: 0 <= i < |jobs| && jobs[i].status == Publishing ==> jobs[i].runAt <= clock)
  }

  datatype Event =
    | Enqueue(now: Time, runAt: Time)
    | Claim(now: Time, job: int)
    | Settle(now: Time, job: int, status: Status)
    | Cancel(now: Time, job: int)

  /**
    What may happen next: a job is queued into the next open slot; a due job is claimed; a claimed
    one is put back or finished; a scheduled one is canceled. The clock does not go back.
   */
  ghost predicate Allowed(slots: seq<Slot>, zones: Zones, jobs: seq<Job>, clock: Time, e: Event) {
    && clock <= e.now
    && match e
       case Enqueue(now, runAt) => NextOpen(slots, zones, jobs, now, runAt)
       case Claim(now, i) => 0 <= i < |jobs| && jobs[i].status == Scheduled && jobs[i].runAt <= now
       case Settle(_, i, status) => 0 <= i < |jobs| && jobs[i].status == Publishing && status != Publishing
       case Cancel(_, i) => 0 <= i < |jobs| && jobs[i].status == Scheduled
  }

  function Apply(jobs: seq<Job>, e: Event): seq<Job>
    requires !e.Enqueue? ==> 0 <= e.job < |jobs|
  {
    match e
    case Enqueue(_, runAt) => jobs + [Job(runAt, Scheduled)]
    case Claim(_, i) => jobs[i := jobs[i].(status := Publishing)]
    case Settle(_, i, status) => jobs[i := jobs[i].(status := status)]
    case Cancel(_, i) => jobs[i := jobs[i].(status := Finished)]
  }

  lemma StepKeepsClear(slots: seq<Slot>, zones: Zones, jobs: seq<Job>, clock: Time, e: Event)
    requires WholeMinutes(zones) && Clear(jobs, clock) && Allowed(slots, zones, jobs, clock, e)
    ensures Clear(Apply(jobs, e), e.now)
  {
    var jobs' := Apply(jobs, e);
    if e.Enqueue? {
      forall i | 0 <= i < |jobs| && jobs[i].status != Finished
        ensures Truncate(jobs[i].runAt) != Truncate(e.runAt)
      {
        CandidateFacts(slots, zones, e.now, e.runAt);
        if jobs[i].status == Scheduled {
          NextOpenIsFree(slots, zones, jobs, e.now, e.runAt, i);
        } else {
          TruncateFacts(jobs[i].runAt);
          TruncateFacts(e.runAt);
        }
      }
      assert jobs'[|jobs|] == Job(e.runAt, Scheduled);
    } else {
      assert forall i :: 0 <= i < |jobs| ==>
        jobs'[i].runAt == jobs[i].runAt && (jobs'[i].status != Finished ==> jobs[i].status != Finished);
    }
    assert Distinct(jobs') by {
      forall i, j | 0 <= i < j < |jobs'| && jobs'[i].status != Finished && jobs'[j].status != Finished
        ensures Truncate(jobs'[i].runAt) != Truncate(jobs'[j].runAt)
      {
      }
    }
  }

  /** `events` may happen in this order, each in the state the ones before it left. */
  ghost predicate Possible(slots: seq<Slot>, zones: Zones, jobs: seq<Job>, clock: Time, events: seq<Event>)
    decreases |events|
  {
    events != [] ==>
      && Allowed(slots, zones, jobs, clock, events[0])
      && Possible(slots, zones, Apply(jobs, events[0]), events[0].now, events[1..])
  }

  ghost function Run(slots: seq<Slot>, zones: Zones, jobs: seq<Job>, clock: Time, events: seq<Event>): seq<Job>
    requires Possible(slots, zones, jobs, clock, events)
    decreases |events|
  {
    if events == [] then jobs
    else Run(slots, zones, Apply(jobs, events[0]), events[0].now, events[1..])
  }

  /**
    However queueing, publishing, retries and cancellations follow one another, two jobs of the
    channel still to be published never fall in the same minute.
   */
  lemma {:induction false} QueueNeverClashes(slots: seq<Slot>, zones: Zones, jobs: seq<Job>, clock: Time,
                                             events: seq<Event>)
    requires WholeMinutes(zones) && Clear(jobs, clock) && Possible(slots, zones, jobs, clock, events)
    ensures Distinct(Run(slots, zones, jobs, clock, events))
    decreases |events|
  {
    if events != [] {
      StepKeepsClear(slots, zones, jobs, clock, events[0]);
      QueueNeverClashes(slots, zones, Apply(jobs, events[0]), events[0].now, events[1..]);
    }
  }

  /** How queueing one post fails before or after its slot is chosen. */
  datatype QueueError = Refused | Unavailable | NoTime(error: SlotError)

  /**
    What goes wrong first: the slots or jobs cannot be read; the row is not created, or created
    unheard; the task is not enqueued, and the row is marked as failed or not even that; its task
    id is not stored.
   */
  datatype Fault =
    | Healthy
    | ReadFails
    | CreateFails(applied: bool)
    | EnqueueFails(marked: bool)
    | TaskIdFails

  /** What a failing or healthy call leaves of the job it means to queue. */
  function Row(t: Time, fault: Fault): seq<Job> {
    if fault.ReadFails? || fault == CreateFails(false) then []
    else [Job(t, if fault == EnqueueFails(true) then Finished else Scheduled)]
  }

  /** A channel's posting slots and jobs, filled by ScheduleToSlots one call at a time. */
  class Queue {
    var jobs: seq<Job>
    var clock: Time
    const slots: seq<Slot>
    const zones: Zones

    ghost predicate Valid()
      reads this
    {
      WholeMinutes(zones) && Clear(jobs, clock)
    }

    constructor (slots: seq<Slot>, zones: Zones, now: Time)
      requires WholeMinutes(zones)
      ensures Valid() && jobs == [] && clock == now && this.slots == slots && this.zones == zones
    {
      this.slots, this.zones, jobs, clock := slots, zones, [], now;
    }

    ghost predicate LeavesRow(before: seq<Job>, now: Time, fault: Fault)
      reads this
    {
      if fault.ReadFails? || fault == CreateFails(false) then jobs == before
      else
        exists t :: NextOpen(slots, zones, before, now, t) &&
          jobs == before + [Job(t, if fault.EnqueueFails? && fault.marked then Finished else Scheduled)]
    }

    /**
      Queues one job into the next open slot. `admitted` is what the permission, quota and billing
      checks say. However the call ends, the channel stays clear, and a row it left is in the
      next open slot.
     */
    method Enqueue(now: Time, admitted: bool, fault: Fault) returns (r: Result<Time, QueueError>)
      requires Valid() && clock <= now
      modifies this
      ensures Valid() && clock == now
      ensures r.Ok? ==> admitted && fault.Healthy? && NextOpen(slots, zones, old(jobs), now, r.value)
      ensures r.Ok? ==> jobs == old(jobs) + [Job(r.value, Scheduled)]
      ensures r == Err(Refused) <==> !admitted
      ensures r.Err? && r.error.NoTime? ==> forall t :: !Open(slots, zones, old(jobs), now, t)
      ensures r.Err? && !r.error.Unavailable? ==> jobs == old(jobs)
      ensures r == Err(Unavailable) ==> !fault.Healthy? && LeavesRow(old(jobs), now, fault)
    {
      clock := now;
      if !admitted { return Err(Refused); }
      if fault.ReadFails? { return Err(Unavailable); }
      var found := NextOpenSlot(slots, zones, jobs, now);
      if found.Err? { return Err(NoTime(found.error)); }
      RowKeepsClear(slots, zones, jobs, now, found.value, fault);
      jobs := jobs + Row(found.value, fault);
      return if fault.Healthy? then Ok(found.value) else Err(Unavailable);
    }
  }

  /** The job queued at `t` is where the channel's slots and jobs at the time put it. */
  ghost predicate QueuedAt(q: Queue, before: seq<Job>, now: Time, t: Time)
    reads q
  {
    q.jobs == before + [Job(t, Scheduled)] && NextOpen(q.slots, q.zones, before, now, t)
  }

  /**
    Queues every variant of a post, each into its own channel, and stops at the first failure:
    the `done` variants before it stay queued, and those after it are not touched.
   */
  method ScheduleToSlots(channels: seq<Queue>, now: Time, admitted: bool, faults: seq<Fault>)
    returns (r: Result<seq<Time>, QueueError>, ghost done: nat, ghost times: seq<Time>)
    requires |faults| == |channels|
    requires forall i, j :: 0 <= i < j < |channels| ==> channels[i] != channels[j]
    requires forall i :: 0 <= i < |channels| ==> channels[i].Valid() && channels[i].clock <= now
    modifies channels
    ensures forall i :: 0 <= i < |channels| ==> channels[i].Valid()
    ensures |times| == done <= |channels|
    ensures forall i :: 0 <= i < done ==> QueuedAt(channels[i], old(channels[i].jobs), now, times[i])
    ensures forall i :: done < i < |channels| ==> channels[i].jobs == old(channels[i].jobs)
    ensures r.Ok? ==> admitted && done == |channels| && r.value == times
    ensures r.Err? && admitted ==>
      && done < |channels|
      && !r.error.Refused? && (r.error.Unavailable? ==> !faults[done].Healthy?)
      && (r.error.NoTime? ==>
            forall t :: !Open(channels[done].slots, channels[done].zones, old(channels[done].jobs), now, t))
    ensures !admitted ==>
      r == Err(Refused) && forall i :: 0 <= i < |channels| ==> channels[i].jobs == old(channels[i].jobs)
  {
    done, times := 0, [];
    if !admitted { return Err(Refused), done, times; }
    var queued: seq<Time> := [];
    var i := 0;
    while i < |channels|
      invariant 0 <= i <= |channels| && done == i && |queued| == i && times == queued
      invariant forall j :: 0 <= j < |channels| ==> channels[j].Valid()
      invariant forall j :: 0 <= j < i ==> QueuedAt(channels[j], old(channels[j].jobs), now, queued[j])
      invariant forall j :: i <= j < |channels| ==>
        channels[j].jobs == old(channels[j].jobs) && channels[j].clock <= now
    {
      var one := channels[i].Enqueue(now, true, faults[i]);
      if one.Err? { return Err(one.error), done, times; }
      queued, times := queued + [one.value], times + [one.value];
      i, done := i + 1, done + 1;
    }
    return Ok(queued), done, times;
  }

  lemma RowKeepsClear(slots: seq<Slot>, zones: Zones, jobs: seq<Job>, now: Time, t: Time, fault: Fault)
    requires WholeMinutes(zones) && Clear(jobs, now) && NextOpen(slots, zones, jobs, now, t)
    ensures Clear(jobs + Row(t, fault), now)
  {
    var enqueue: Event, cancel: Event := Event.Enqueue(now, t), Event.Cancel(now, |jobs|);
    StepKeepsClear(slots, zones, jobs, now, enqueue);
    var jobs' := Apply(jobs, enqueue);
    StepKeepsClear(slots, zones, jobs', now, cancel);
    assert jobs + [] == jobs && jobs' == jobs + [Job(t, Scheduled)];
    assert Apply(jobs', cancel) == jobs + [Job(t, Finished)];
  }
}

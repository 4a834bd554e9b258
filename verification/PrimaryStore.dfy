/**
 * One hour's stored rollup over any run of passes, and the primary that holds
 * every hour: RollupHour and writeExpiring in dashboard/internal/store/store.go.
 */
module PrimaryStore {
  import opened Base
  import opened Rollups
  import opened Sums
  import opened Days
  import HourRollup
  import Ladder

  /** How a command that changes the primary ends. A failed one may still have taken effect. */
  datatype Command = Done | Failed(landed: bool)

  /** What the primary answers one RollupHour call. `change` is the HSET, or the HDEL. */
  datatype Replies = Replies(hget: bool, change: Command, hexpire: bool, persist: bool)

  /** One RollupHour call: what it read of the locations, and what the primary answered. */
  datatype Attempt = Attempt(now: int, latest: Locations, missing: set<string>, mark: bool, replies: Replies)

  datatype StepResult = StepResult(stored: Option<AggregateRollup>, written: bool, err: bool)

  predicate Landed(c: Command) {
    c.Done? || c.landed
  }

  const EMPTY := AggregateRollup(Ladder.Unknown, 0, 0, 0.0, map[], {}, false)

  function StoredOr(stored: Option<AggregateRollup>): AggregateRollup {
    if stored.Some? then stored.value else EMPTY
  }

  /** A record that only remembers that some location could not be read. */
  predicate Placeholder(r: AggregateRollup) {
    r.missing != {} && r.perLocation == map[]
  }

  /** RollupHour has nothing to store, and no placeholder to remove or renew. */
  predicate NothingToDo(previous: AggregateRollup, a: Attempt, inProgress: bool) {
    a.missing == {} || inProgress || !a.mark || (Placeholder(previous) && previous.missing == a.missing)
  }

  /** What one RollupHour call does to the hour's stored record. */
  ghost function RollupStep(stored: Option<AggregateRollup>, hour: int, retention: nat, a: Attempt): StepResult {
    var previous := StoredOr(stored);
    var per := MergedLocations(a.latest, previous.perLocation);
    var inProgress := a.now < hour + 3600;
    if hour + retention <= a.now then StepResult(stored, false, false)
    else if !a.replies.hget then StepResult(stored, false, true)
    else if per == map[] && Placeholder(previous) && a.missing == {} then
      StepResult(if Landed(a.replies.change) then None else stored, false, a.replies.change.Failed?)
    else if per == map[] && NothingToDo(previous, a, inProgress) then StepResult(stored, false, false)
    else
      var record := Aggregated(per, a.missing, inProgress);
      var kept := if Landed(a.replies.change) then Some(record) else stored;
      var written := a.replies.change.Done? && a.replies.hexpire;
      StepResult(kept, written, !written || !a.replies.persist)
  }

  // ------------------------------------------------------------- whole runs

  /** Something that happens to one hour's record: a pass, or the field's TTL running out. */
  datatype HourEvent = Try(a: Attempt) | Dropped

  ghost function Run(hour: int, retention: nat, events: seq<HourEvent>): Option<AggregateRollup> {
    if events == [] then None
    else
      var before := Run(hour, retention, events[..|events| - 1]);
      match events[|events| - 1]
      case Dropped => None
      case Try(a) => RollupStep(before, hour, retention, a).stored
  }

  /** The call got as far as storing what it read. */
  predicate Reached(hour: int, retention: nat, a: Attempt) {
    hour + retention > a.now && a.replies.hget && Landed(a.replies.change)
  }

  /** The reading a location should be remembered by: its latest among those that counted the most checks. */
  function BestReading(hour: int, retention: nat, events: seq<HourEvent>,
      loc: string): Option<HourRollup.LocationRollup> {
    if events == [] then None
    else
      var before := BestReading(hour, retention, events[..|events| - 1], loc);
      match events[|events| - 1]
      case Dropped => None
      case Try(a) =>
        if Reached(hour, retention, a) && loc in a.latest &&
           (before.Some? ==> a.latest[loc].total >= before.value.total)
        then Some(a.latest[loc])
        else before
  }

  /** The most checks of the location that any call read and stored, since the record was last dropped. */
  function MostRead(hour: int, retention: nat, events: seq<HourEvent>, loc: string): nat {
    if events == [] then 0
    else
      var before := MostRead(hour, retention, events[..|events| - 1], loc);
      match events[|events| - 1]
      case Dropped => 0
      case Try(a) => if Reached(hour, retention, a) then Max(before, TotalAt(a.latest, loc)) else before
  }

  /** A location with checks, each of which succeeded or failed. */
  predicate CountsUp(lr: HourRollup.LocationRollup) {
    lr.total > 0 && lr.total == lr.success + lr.failure
  }

  /** Only locations with checks are in what a call read. */
  ghost predicate Counted(events: seq<HourEvent>) {
    forall i, l :: 0 <= i < |events| && events[i].Try? && l in events[i].a.latest ==> CountsUp(events[i].a.latest[l])
  }

  function LocationsOf(stored: Option<AggregateRollup>): Locations {
    if stored.Some? then stored.value.perLocation else map[]
  }

  /** One call keeps, of each location, the better of what was stored and what it read. */
  lemma StepKeepsBetter(stored: Option<AggregateRollup>, hour: int, retention: nat, a: Attempt)
    requires forall l :: l in LocationsOf(stored) ==> LocationsOf(stored)[l].total > 0
    ensures LocationsOf(RollupStep(stored, hour, retention, a).stored) ==
            if Reached(hour, retention, a) then MergedLocations(a.latest, LocationsOf(stored)) else LocationsOf(stored)
  {
    hide Aggregated;
    AggregatedParts(MergedLocations(a.latest, LocationsOf(stored)), a.missing, a.now < hour + 3600);
    MergedHas(a.latest, LocationsOf(stored));
  }

  /** Merging loses no location that has checks. */
  lemma MergedHas(latest: Locations, stored: Locations)
    ensures latest != map[] ==> MergedLocations(latest, stored) != map[]
    ensures stored != map[] && (forall l :: l in stored ==> stored[l].total > 0) ==>
        MergedLocations(latest, stored) != map[]
  {
    if latest != map[] {
      var l := SomeKey(latest);
      assert l in MergedLocations(latest, stored);
    }
    if stored != map[] && forall l :: l in stored ==> stored[l].total > 0 {
      var l := SomeKey(stored);
      assert l in MergedLocations(latest, stored);
    }
  }

  lemma AggregatedParts(per: Locations, missing: set<string>, inProgress: bool)
    ensures var r := Aggregated(per, missing, inProgress);
            r.perLocation == per && r.missing == missing && r.inProgress == inProgress
  {
  }

  /**
   * In every run of passes, with locations failing, samples arriving and
   * expiring and writes failing in any order, each location is stored as it
   * was last read with the most checks.
   */
  lemma {:induction false} RunKeepsBestReading(hour: int, retention: nat, events: seq<HourEvent>, loc: string)
    requires Counted(events)
    ensures Lookup(LocationsOf(Run(hour, retention, events)), loc) == BestReading(hour, retention, events, loc)
    decreases |events|
  {
    if events != [] && events[|events| - 1].Try? {
      var p, a := events[..|events| - 1], events[|events| - 1].a;
      var stored := Run(hour, retention, p);
      forall l | l in LocationsOf(stored) ensures LocationsOf(stored)[l].total > 0 {
        RunKeepsBestReading(hour, retention, p, l);
        BestCounts(hour, retention, p, l);
      }
      RunKeepsBestReading(hour, retention, p, loc);
      hide RollupStep;
      StepKeepsBetter(stored, hour, retention, a);
    }
  }

  lemma {:induction false} BestCounts(hour: int, retention: nat, events: seq<HourEvent>, loc: string)
    requires Counted(events)
    ensures var b := BestReading(hour, retention, events, loc);
            MostRead(hour, retention, events, loc) == (if b.Some? then b.value.total else 0) &&
            (b.Some? ==> b.value.total > 0)
    decreases |events|
  {
    if events != [] {
      BestCounts(hour, retention, events[..|events| - 1], loc);
    }
  }

  /** A location's stored total is the most checks any call read and stored. */
  lemma StoredTotalIsMostRead(hour: int, retention: nat, events: seq<HourEvent>, loc: string)
    requires Counted(events)
    ensures TotalAt(LocationsOf(Run(hour, retention, events)), loc) == MostRead(hour, retention, events, loc)
  {
    RunKeepsBestReading(hour, retention, events, loc);
    BestCounts(hour, retention, events, loc);
  }

  /** No pass ever lowers a location's stored total. */
  lemma StoredTotalNeverDecreases(hour: int, retention: nat, events: seq<HourEvent>, a: Attempt, loc: string)
    requires Counted(events + [Try(a)])
    ensures TotalAt(LocationsOf(Run(hour, retention, events + [Try(a)])), loc) >=
            TotalAt(LocationsOf(Run(hour, retention, events)), loc)
  {
    var all := events + [Try(a)];
    assert all[..|events|] == events;
    forall i, l | 0 <= i < |events| && events[i].Try? && l in events[i].a.latest
        ensures CountsUp(events[i].a.latest[l]) {
      assert all[i] == events[i];
    }
    StoredTotalIsMostRead(hour, retention, events, loc);
    StoredTotalIsMostRead(hour, retention, all, loc);
  }

  /** A record sums up its locations; one without locations lists a missing one and is of a finished hour. */
  ghost predicate RecordOk(r: AggregateRollup) {
    && SumsUp(r)
    && (forall l :: l in r.perLocation ==> CountsUp(r.perLocation[l]))
    && (r.perLocation == map[] ==> r.missing != {} && !r.inProgress)
  }

  ghost predicate StoredOk(stored: Option<AggregateRollup>) {
    stored.Some? ==> RecordOk(stored.value)
  }

  lemma StepKeepsRecordOk(stored: Option<AggregateRollup>, hour: int, retention: nat, a: Attempt)
    requires StoredOk(stored)
    requires forall l :: l in a.latest ==> CountsUp(a.latest[l])
    ensures StoredOk(RollupStep(stored, hour, retention, a).stored)
  {
    hide Aggregated;
    AggregatedParts(MergedLocations(a.latest, LocationsOf(stored)), a.missing, a.now < hour + 3600);
  }

  lemma {:induction false} RunKeepsRecordOk(hour: int, retention: nat, events: seq<HourEvent>)
    requires Counted(events)
    ensures StoredOk(Run(hour, retention, events))
    decreases |events|
  {
    if events != [] {
      RunKeepsRecordOk(hour, retention, events[..|events| - 1]);
      if events[|events| - 1].Try? {
        StepKeepsRecordOk(Run(hour, retention, events[..|events| - 1]), hour, retention, events[|events| - 1].a);
      }
    }
  }

  // ------------------------------------------------- which call wrote last

  /** Some location has been read with checks since the record was last dropped. */
  ghost predicate Knows(hour: int, retention: nat, events: seq<HourEvent>) {
    exists loc :: BestReading(hour, retention, events, loc).Some?
  }

  /**
   * The call that the stored record comes from: the last one that got as far
   * as storing what it read and had anything to store, checks of some location
   * or, of a finished hour and if it may, the locations it could not read. A
   * call with nothing to store and no location missing ends the record.
   */
  ghost function LastWrite(hour: int, retention: nat, events: seq<HourEvent>): Option<Attempt> {
    if events == [] then None
    else
      var before := LastWrite(hour, retention, events[..|events| - 1]);
      match events[|events| - 1]
      case Dropped => None
      case Try(a) =>
        if !Reached(hour, retention, a) then before
        else if Knows(hour, retention, events) || (a.missing != {} && a.mark && a.now >= hour + 3600) then Some(a)
        else if a.missing == {} then None
        else before
  }

  /** Something is known of the hour exactly when its record has locations. */
  lemma KnownLocations(hour: int, retention: nat, events: seq<HourEvent>)
    requires Counted(events)
    ensures Knows(hour, retention, events) <==> LocationsOf(Run(hour, retention, events)) != map[]
  {
    hide Run, BestReading, Counted;
    var per := LocationsOf(Run(hour, retention, events));
    if per != map[] {
      var l := SomeKey(per);
      RunKeepsBestReading(hour, retention, events, l);
    }
    if Knows(hour, retention, events) {
      var l :| BestReading(hour, retention, events, l).Some?;
      RunKeepsBestReading(hour, retention, events, l);
    }
  }

  /** The record a call leaves says what that call could not read, when it stores one. */
  ghost predicate Written(stored: Option<AggregateRollup>, hour: int, w: Option<Attempt>) {
    && (stored.Some? <==> w.Some?)
    && (w.Some? ==> stored.value.missing == w.value.missing && (stored.value.inProgress <==> w.value.now < hour + 3600))
  }

  lemma StepIsWritten(stored: Option<AggregateRollup>, hour: int, retention: nat, a: Attempt, w: Option<Attempt>)
    requires Written(stored, hour, w) && StoredOk(stored)
    ensures var t := RollupStep(stored, hour, retention, a).stored;
            var now := if !Reached(hour, retention, a) then w
                       else if LocationsOf(t) != map[] || (a.missing != {} && a.mark && a.now >= hour + 3600)
                       then Some(a)
                       else if a.missing == {} then None
                       else w;
            Written(t, hour, now)
  {
    hide Aggregated, SumsUp;
    AggregatedParts(MergedLocations(a.latest, LocationsOf(stored)), a.missing, a.now < hour + 3600);
    MergedHas(a.latest, LocationsOf(stored));
  }

  /**
   * In every run a stored record lists exactly the locations that the last
   * call which wrote it could not read, and is in progress exactly when that
   * call came before the hour's end; without such a call nothing is stored.
   */
  lemma {:induction false} RecordIsLastWrite(hour: int, retention: nat, events: seq<HourEvent>)
    requires Counted(events)
    ensures Written(Run(hour, retention, events), hour, LastWrite(hour, retention, events))
    decreases |events|
  {
    hide Written, RollupStep, StoredOk, Knows, Reached, Counted;
    if events == [] {
      NothingWritten(hour);
    } else {
      var p := events[..|events| - 1];
      assert Counted(p) by { hide *; FewerCounted(events); }
      RecordIsLastWrite(hour, retention, p);
      if events[|events| - 1].Try? {
        var a := events[|events| - 1].a;
        RunKeepsRecordOk(hour, retention, p);
        KnownLocations(hour, retention, events);
        StepIsWritten(Run(hour, retention, p), hour, retention, a, LastWrite(hour, retention, p));
      } else {
        NothingWritten(hour);
      }
    }
  }

  lemma NothingWritten(hour: int)
    ensures Written(None, hour, None)
  {
  }

  lemma FewerCounted(events: seq<HourEvent>)
    requires Counted(events) && events != []
    ensures Counted(events[..|events| - 1])
  {
    var p := events[..|events| - 1];
    forall i, l | 0 <= i < |p| && p[i].Try? && l in p[i].a.latest ensures CountsUp(p[i].a.latest[l]) {
      assert p[i] == events[i];
    }
  }

  /** The call, had every command been done. */
  function Answered(a: Attempt): Attempt {
    a.(replies := Replies(true, Done, true, true))
  }

  /**
   * What a call leaves and reports, against the same call with every command
   * done: it leaves the same if it read the record and its change took effect,
   * and the old record otherwise; it says that it wrote exactly when it put a
   * record there with its own TTL, and an error tells of every failed command.
   */
  lemma CallReports(stored: Option<AggregateRollup>, hour: int, retention: nat, a: Attempt)
    requires a.now < hour + retention
    ensures var s, done := RollupStep(stored, hour, retention, a), RollupStep(stored, hour, retention, Answered(a));
            && s.stored == (if a.replies.hget && Landed(a.replies.change) then done.stored else stored)
            && (s.written <==> done.written && a.replies.hget && a.replies.change.Done? && a.replies.hexpire)
            && !done.err
            && (s.err <==>
                || !a.replies.hget
                || (done.written && !Completed(a.replies))
                || (stored.Some? && done.stored.None? && a.replies.change.Failed?))
  {
    hide Aggregated;
  }

  /**
   * With every command done, a call writes whenever some location has checks,
   * and otherwise only to change which locations could not be read.
   */
  lemma CallWrites(stored: Option<AggregateRollup>, hour: int, retention: nat, a: Attempt)
    requires StoredOk(stored) && a.now < hour + retention
    ensures var done := RollupStep(stored, hour, retention, Answered(a));
            done.written <==>
              LocationsOf(done.stored) != map[] ||
              (a.missing != {} && a.mark && a.now >= hour + 3600 && done.stored != stored)
  {
    hide Aggregated;
    var per := MergedLocations(a.latest, LocationsOf(stored));
    AggregatedParts(per, a.missing, a.now < hour + 3600);
    MergedHas(a.latest, LocationsOf(stored));
    if stored.Some? {
      RecordIsAggregated(stored.value);
    }
  }

  lemma RecordIsAggregated(r: AggregateRollup)
    requires RecordOk(r)
    ensures r == Aggregated(r.perLocation, r.missing, r.inProgress)
  {
  }

  /** Making the same call again changes nothing more, whatever was stored. */
  lemma RepeatedStepChangesNothing(stored: Option<AggregateRollup>, hour: int, retention: nat, a: Attempt)
    ensures var once := RollupStep(stored, hour, retention, a).stored;
            RollupStep(once, hour, retention, a).stored == once
  {
    hide Aggregated;
    var per := MergedLocations(a.latest, StoredOr(stored).perLocation);
    AggregatedParts(per, a.missing, a.now < hour + 3600);
    MergeTwice(a.latest, StoredOr(stored).perLocation);
    MergedHas(a.latest, StoredOr(stored).perLocation);
    if per == map[] {
      assert MergedLocations(map[], map[]) == map[];
    }
  }

  lemma MergeTwice(latest: Locations, stored: Locations)
    ensures MergedLocations(latest, MergedLocations(latest, stored)) == MergedLocations(latest, stored)
  {
  }

  // -------------------------------------------------------------- the primary

  /** A hash field: a service and the hour or day it is for. */
  datatype Field = Field(svc: string, epoch: int)

  datatype HourResult = HourResult(written: bool, missing: set<string>, err: bool)

  /** The stored hours of one service from `lo` to `hi`. */
  function HoursOf(rollups: map<Field, AggregateRollup>, svc: string, lo: int, hi: int): Hours {
    map h | h in EpochsOf(rollups, svc) && lo <= h <= hi :: rollups[Field(svc, h)]
  }

  function EpochsOf<V>(fields: map<Field, V>, svc: string): set<int> {
    set f | f in fields && f.svc == svc :: f.epoch
  }

  /** dailyRetention in seconds. */
  const DAILY_RETENTION := 365 * DAY

  /** What the stored hours of a UTC day sum to. */
  ghost function DaySum(rollups: map<Field, AggregateRollup>, svc: string, day: int): DailyRollup {
    SumOn(HoursOf(rollups, svc, day * DAY, day * DAY + DAY - 1), day)
  }

  /** UpdateDailyRollup finds checks to store. */
  predicate DayCounts(sum: DailyRollup, readable: bool) {
    readable && sum.success + sum.failure > 0
  }

  predicate DayKept(day: int, now: int) {
    day * DAY + DAILY_RETENTION > now
  }

  /** UpdateDailyRollup changes what is stored for the day. */
  predicate DayStored(sum: DailyRollup, readable: bool, kept: bool, replies: Replies) {
    DayCounts(sum, readable) && kept && Landed(replies.change)
  }

  /** It reports that it wrote the day. */
  predicate DayReported(sum: DailyRollup, readable: bool, kept: bool, replies: Replies) {
    DayCounts(sum, readable) && (kept ==> Completed(replies))
  }

  /** Every command of the write was done. */
  predicate Completed(replies: Replies) {
    replies.change.Done? && replies.hexpire && replies.persist
  }

  /**
   * What is reported is what happened exactly when a day with checks is still
   * kept, and a write that took effect was completed.
   */
  lemma ReportIsRight(sum: DailyRollup, readable: bool, day: int, now: int, replies: Replies)
    ensures var kept := DayKept(day, now);
            (DayReported(sum, readable, kept, replies) <==> DayStored(sum, readable, kept, replies)) <==>
            (DayCounts(sum, readable) ==> DayKept(day, now) && (Landed(replies.change) ==> Completed(replies)))
  {
    hide DayKept, DayCounts;
  }

  /** A day too old to be kept is reported as written, one stored without its own TTL as not written. */
  lemma ReportIsWrong()
    ensures var day, late, sum := 10, (10 + 365) * DAY, DailyRollup(3, 1);
            forall replies :: DayReported(sum, true, DayKept(day, late), replies) &&
                !DayStored(sum, true, DayKept(day, late), replies)
    ensures var day, soon, sum := 10, 11 * DAY, DailyRollup(3, 1);
            var replies := Replies(true, Done, false, true);
            !DayReported(sum, true, DayKept(day, soon), replies) && DayStored(sum, true, DayKept(day, soon), replies)
  {
  }

  lemma PutLookup<K, V>(m: map<K, V>, k: K)
    ensures Put(m, k, Lookup(m, k)) == m
  {
  }

  lemma SumsUpParts(r: AggregateRollup, inProgress: bool)
    requires SumsUp(r)
    ensures r.(inProgress := inProgress) == Aggregated(r.perLocation, r.missing, inProgress)
  {
  }

  /** The hashes the primary keeps for every service, and how long hours are kept. */
  class Primary {
    const retention: nat
    var rollups: map<Field, AggregateRollup>
    var daily: map<Field, DailyRollup>

    constructor (retention: nat)
      ensures this.retention == retention && rollups == map[] && daily == map[]
    {
      this.retention := retention;
      rollups, daily := map[], map[];
    }

    /** Stores one hour's field with its own TTL, or fails to. */
    method WriteExpiring(f: Field, record: AggregateRollup, expiresAt: int, now: int, replies: Replies)
      returns (written: bool, err: bool)
      modifies this`rollups
      ensures expiresAt <= now ==> !written && !err && rollups == old(rollups)
      ensures expiresAt > now ==>
                && rollups == (if Landed(replies.change) then old(rollups)[f := record] else old(rollups))
                && written == (replies.change.Done? && replies.hexpire)
                && err == (!written || !replies.persist)
    {
      var ttl := expiresAt - now;
      if ttl <= 0 {
        return false, false;
      }
      if Landed(replies.change) {
        rollups := rollups[f := record];
      }
      if replies.change.Failed? || !replies.hexpire {
        return false, true;
      }
      return true, !replies.persist;
    }

    /** `a` is the attempt this call turned out to be. */
    method RollupHour(svc: string, hour: int, now: int, mark: bool,
                      readings: map<string, HourRollup.Reading>, replies: Replies)
      returns (res: HourResult, ghost a: Attempt)
      modifies this`rollups
      ensures a.now == now && a.mark == mark && a.replies == replies && res.missing == a.missing
      ensures if hour + retention > now then ReadFrom(a.latest, a.missing, readings)
              else a.latest == map[] && a.missing == {}
      ensures var step := RollupStep(Lookup(old(rollups), Field(svc, hour)), hour, retention, a);
              && rollups == Put(old(rollups), Field(svc, hour), step.stored)
              && res.written == step.written && res.err == step.err
    {
      hide Aggregated, SumsUp, ReadFrom, MergedLocations;
      var expiresAt := hour + retention;
      var f := Field(svc, hour);
      PutLookup(rollups, f);
      a := Attempt(now, map[], {}, mark, replies);
      if expiresAt <= now {
        return HourResult(false, {}, false), a;
      }
      var agg := ComputeAggregate(readings);
      a := a.(latest := agg.perLocation, missing := agg.missing);
      if !replies.hget {
        return HourResult(false, agg.missing, true), a;
      }
      var previous := if f in rollups then rollups[f] else EMPTY;
      var rollup := MergeStored(agg, previous);
      var inProgress := now < hour + 3600;
      var placeholder := previous.missing != {} && previous.perLocation == map[];
      if rollup.perLocation == map[] {
        if placeholder && rollup.missing == {} {
          if Landed(replies.change) {
            rollups := rollups - {f};
          }
          return HourResult(false, agg.missing, replies.change.Failed?), a;
        }
        if rollup.missing == {} || inProgress || !mark || (placeholder && previous.missing == rollup.missing) {
          return HourResult(false, agg.missing, false), a;
        }
      }
      SumsUpParts(rollup, inProgress);
      rollup := rollup.(inProgress := inProgress);
      var written, err := WriteExpiring(f, rollup, expiresAt, now, replies);
      res := HourResult(written, agg.missing, err);
    }

    /** The stored rollups of one service between two times. */
    method GetAggregateRollups(svc: string, lo: int, hi: int) returns (out: Hours)
      ensures out == HoursOf(rollups, svc, lo, hi)
    {
      out := map[];
      var left := rollups.Keys;
      while left != {}
        invariant left <= rollups.Keys
        invariant out == HoursOf(rollups - left, svc, lo, hi)
        decreases left
      {
        var f := Pick(left);
        ghost var before, now := rollups - left, rollups - (left - {f});
        assert now == before[f := rollups[f]];
        HoursOfPut(before, f, rollups[f], svc, lo, hi);
        if f.svc == svc && lo <= f.epoch <= hi {
          out := out[f.epoch := rollups[f]];
        }
        left := left - {f};
      }
      assert rollups - {} == rollups;
    }

    /**
     * Sums the hours of a UTC day, and stores the sum unless there are no
     * checks. What it reports is not always what it did.
     */
    method UpdateDailyRollup(svc: string, at: int, now: int, readable: bool, replies: Replies)
      returns (written: bool, err: bool)
      modifies this`daily
      ensures var day := DayOf(at);
              var sum := DaySum(rollups, svc, day);
              && daily == (if DayStored(sum, readable, DayKept(day, now),
                  replies) then old(daily)[Field(svc, day) := sum]
                           else old(daily))
              && written == DayReported(sum, readable, DayKept(day, now), replies)
              && err == (!readable || (DayCounts(sum, readable) && !written))
    {
      hide SumOn, HoursOf, Summed, DayOf;
      var day := DayOf(at);
      var lo := day * DAY;
      if !readable {
        return false, true;
      }
      var hours := GetAggregateRollups(svc, lo, lo + DAY - 1);
      var sums := ComputeDailyFromHours(hours);
      SummedAt(sums, hours, day);
      var dr := SoFar(sums, day);
      if day in sums && dr.success + dr.failure > 0 {
        err := WriteDaily(Field(svc, day), dr, lo + DAILY_RETENTION, now, replies);
        return !err, err;
      }
      return false, false;
    }

    method WriteDaily(f: Field, dr: DailyRollup, expiresAt: int, now: int, replies: Replies) returns (err: bool)
      modifies this`daily
      ensures daily == if expiresAt > now && Landed(replies.change) then old(daily)[f := dr] else old(daily)
      ensures err == (expiresAt > now && !(replies.change.Done? && replies.hexpire && replies.persist))
    {
      if expiresAt - now <= 0 {
        return false;
      }
      if Landed(replies.change) {
        daily := daily[f := dr];
      }
      err := !(replies.change.Done? && replies.hexpire && replies.persist);
    }
  }

  lemma HoursOfPut(m: map<Field, AggregateRollup>, f: Field, r: AggregateRollup, svc: string, lo: int, hi: int)
    requires f !in m
    ensures HoursOf(m[f := r], svc, lo, hi) ==
            if f.svc == svc && lo <= f.epoch <= hi then HoursOf(m, svc, lo, hi)[f.epoch := r]
            else HoursOf(m, svc, lo, hi)
  {
    var n := m[f := r];
    forall h ensures h in EpochsOf(n, svc) <==> h in EpochsOf(m, svc) || (f.svc == svc && h == f.epoch) {
      if f.svc == svc && h == f.epoch {
        assert f in n;
      }
      if h in EpochsOf(m, svc) {
        assert Field(svc, h) in n;
      }
    }
  }
}

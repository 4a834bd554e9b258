/** The rollup runner: passes and backfills in dashboard/internal/rollup/rollup.go. */
module RollupRunner {
  import opened Base
  import opened Rollups
  import opened Days
  import opened PrimaryStore
  import opened RepairFlags
  import HourRollup

  /**
   * What the locations hold and what the primary answers, for each service and
   * hour or day. To a backfill, hours are readable when the service could be
   * listed and its stored hours read, days when its daily rollups could be.
   */
  datatype World = World(
    readings: Field -> map<string, HourRollup.Reading>,
    replies: Field -> Replies,
    dayReadable: Field -> bool,
    dayReplies: Field -> Replies,
    hoursReadable: string -> bool,
    daysReadable: string -> bool)

  /** A service to back fill: its finished hours, its marked ones, and its first stored one. */
  datatype Ref = Ref(svc: string, existing: set<int>, marked: set<int>, first: Option<int>)

  predicate Marked(r: AggregateRollup) {
    r.missing != {} || r.inProgress
  }

  /** The backfill computes this hour of the service. */
  predicate Due(ref: Ref, hour: int, full: bool) {
    hour !in ref.existing && (full || hour in ref.marked)
  }

  /** It lets RollupHour remember that a location could not be read. */
  predicate MarkHour(ref: Ref, hour: int) {
    hour in ref.marked || (ref.first.Some? && hour >= ref.first.value)
  }

  predicate Distinct(refs: seq<Ref>) {
    forall i, j :: 0 <= i < j < |refs| ==> refs[i].svc != refs[j].svc
  }

  /** The stored hours of the service when the backfill looked. */
  ghost predicate Describes(ref: Ref, hours: Hours) {
    && ref.existing == (set h | h in hours && !Marked(hours[h]))
    && ref.marked == (set h | h in hours && Marked(hours[h]))
    && (ref.first.None? <==> hours == map[])
    && (ref.first.Some? ==> ref.first.value in hours && forall h :: h in hours ==> ref.first.value <= h)
  }

  method ReadRef(svc: string, hours: Hours) returns (ref: Ref)
    ensures ref.svc == svc && Describes(ref, hours)
  {
    var existing: set<int>, marked: set<int>, first: Option<int> := {}, {}, None;
    var left := hours.Keys;
    while left != {}
      invariant left <= hours.Keys
      invariant existing == set h | h in hours && h !in left && !Marked(hours[h])
      invariant marked == set h | h in hours && h !in left && Marked(hours[h])
      invariant first.None? <==> hours.Keys - left == {}
      invariant first.Some? ==> first.value in hours && forall h :: h in hours && h !in left ==> first.value <= h
      decreases left
    {
      var epoch := Pick(left);
      first := if first.None? || epoch < first.value then Some(epoch) else first;
      assert epoch in hours.Keys - (left - {epoch});
      if hours[epoch].missing == {} && !hours[epoch].inProgress {
        existing := existing + {epoch};
      } else {
        marked := marked + {epoch};
      }
      left := left - {epoch};
    }
    assert hours.Keys - {} == hours.Keys;
    ref := Ref(svc, existing, marked, first);
  }

  /** The record the field ends up with, after at most one attempt at it. */
  ghost function After(before: map<Field, AggregateRollup>, tries: map<Field, Attempt>, retention: nat,
      f: Field): Option<AggregateRollup> {
    if f in tries then RollupStep(Lookup(before, f), f.epoch, retention, tries[f]).stored else Lookup(before, f)
  }

  /** The attempt at a field is what the world made of it. */
  ghost predicate Attempted(a: Attempt, f: Field, mark: bool, at: int, retention: nat, w: World) {
    && a.now == at && a.mark == mark && a.replies == w.replies(f)
    && (if f.epoch + retention > at then ReadFrom(a.latest, a.missing, w.readings(f))
        else a.latest == map[] && a.missing == {})
  }

  ghost predicate AttemptAt(a: Attempt, f: Field, ref: Ref, at: int, retention: nat, w: World) {
    Attempted(a, f, MarkHour(ref, f.epoch), at, retention, w)
  }

  /** The field is due and comes before the k-th service at this offset, newest hour first. */
  ghost predicate DueBefore(f: Field, refs: seq<Ref>, now: int, full: bool, offset: int, k: int) {
    exists i, o :: 0 <= i < |refs| && 1 <= o && (o < offset || (o == offset && i < k)) &&
                   IsDue(f, refs[i], now, full, o)
  }

  predicate IsDue(f: Field, ref: Ref, now: int, full: bool, o: int) {
    f == Field(ref.svc, now - o * HOUR) && Due(ref, f.epoch, full)
  }

  /** What the hour phase of a backfill has done by then. */
  ghost predicate Filled(before: map<Field, AggregateRollup>, after: map<Field, AggregateRollup>,
                         tries: map<Field, Attempt>, touched: set<Field>, refs: seq<Ref>,
                         at: int, retention: nat, full: bool, w: World, offset: int, k: int) {
    && (forall f :: f in tries <==> DueBefore(f, refs, HourStart(at), full, offset, k))
    && (forall f :: Lookup(after, f) == After(before, tries, retention, f))
    && (forall f, i :: f in tries && 0 <= i < |refs| && refs[i].svc == f.svc ==>
        AttemptAt(tries[f], f, refs[i], at, retention, w))
    && (forall d :: d in touched <==> exists f :: f in tries && Touches(before, tries, retention, f, d))
  }

  /** The attempt at `f` wrote a rollup of the day `d`. */
  ghost predicate Touches(before: map<Field, AggregateRollup>, tries: map<Field, Attempt>, retention: nat, f: Field,
      d: Field)
    requires f in tries
  {
    d == Field(f.svc, DayOf(f.epoch)) && RollupStep(Lookup(before, f), f.epoch, retention, tries[f]).written
  }

  lemma DueOnce(refs: seq<Ref>, now: int, full: bool, offset: int, k: int)
    requires Distinct(refs) && 0 <= k < |refs|
    ensures !DueBefore(Field(refs[k].svc, now - offset * HOUR), refs, now, full, offset, k)
  {
  }

  lemma DueNext(f: Field, refs: seq<Ref>, now: int, full: bool, offset: int, k: int)
    requires 1 <= offset && 0 <= k < |refs|
    ensures DueBefore(f, refs, now, full, offset, k + 1) <==>
            DueBefore(f, refs, now, full, offset, k) || IsDue(f, refs[k], now, full, offset)
  {
  }

  lemma DueRound(f: Field, refs: seq<Ref>, now: int, full: bool, offset: int)
    ensures DueBefore(f, refs, now, full, offset, |refs|) <==> DueBefore(f, refs, now, full, offset + 1, 0)
  {
  }

  /** One more field attempted. */
  lemma FillOne(before: map<Field, AggregateRollup>, now: map<Field, AggregateRollup>,
                after: map<Field, AggregateRollup>, tries: map<Field, Attempt>, touched: set<Field>, refs: seq<Ref>,
                at: int, retention: nat, full: bool, w: World, offset: int, k: int, a: Attempt)
    requires Distinct(refs) && 1 <= offset && 0 <= k < |refs|
    requires Filled(before, now, tries, touched, refs, at, retention, full, w, offset, k)
    requires var f := Field(refs[k].svc, HourStart(at) - offset * HOUR);
             && Due(refs[k], f.epoch, full)
             && AttemptAt(a, f, refs[k], at, retention, w)
             && after == Put(now, f, RollupStep(Lookup(now, f), f.epoch, retention, a).stored)
    ensures var f := Field(refs[k].svc, HourStart(at) - offset * HOUR);
            var d := Field(f.svc, DayOf(f.epoch));
            var written := RollupStep(Lookup(now, f), f.epoch, retention, a).written;
            Filled(before, after, tries[f := a], if written then touched + {d} else touched,
                   refs, at, retention, full, w, offset, k + 1)
  {
    hide RollupStep, ReadFrom, DayOf, Due, HourStart, DueBefore, IsDue, AttemptAt;
    var f := Field(refs[k].svc, HourStart(at) - offset * HOUR);
    var d := Field(f.svc, DayOf(f.epoch));
    var more := tries[f := a];
    DueOnce(refs, HourStart(at), full, offset, k);
    assert f !in tries;
    assert Lookup(now, f) == Lookup(before, f);
    forall g ensures g in more <==> DueBefore(g, refs, HourStart(at), full, offset, k + 1) {
      DueNext(g, refs, HourStart(at), full, offset, k);
      FieldDue(g, f, refs[k], HourStart(at), full, offset);
    }
    forall g ensures Lookup(after, g) == After(before, more, retention, g) {
      assert g != f ==> Lookup(after, g) == Lookup(now, g);
    }
    forall g, i | g in more && 0 <= i < |refs| && refs[i].svc == g.svc
      ensures AttemptAt(more[g], g, refs[i], at, retention, w)
    {
      if g == f {
        assert i == k;
      }
    }
    TouchedMore(before, tries, touched, retention, f, a);
  }

  lemma FieldDue(g: Field, f: Field, ref: Ref, now: int, full: bool, offset: int)
    requires f == Field(ref.svc, now - offset * HOUR) && Due(ref, f.epoch, full)
    ensures IsDue(g, ref, now, full, offset) <==> g == f
  {
  }

  lemma TouchedMore(before: map<Field, AggregateRollup>, tries: map<Field, Attempt>, touched: set<Field>,
                    retention: nat, f: Field, a: Attempt)
    requires f !in tries
    requires forall d :: d in touched <==> exists g :: g in tries && Touches(before, tries, retention, g, d)
    ensures var d := Field(f.svc, DayOf(f.epoch));
            var written := RollupStep(Lookup(before, f), f.epoch, retention, a).written;
            var now := if written then touched + {d} else touched;
            var more := tries[f := a];
            forall e :: e in now <==> exists g :: g in more && Touches(before, more, retention, g, e)
  {
    hide RollupStep, DayOf;
    var d := Field(f.svc, DayOf(f.epoch));
    var written := RollupStep(Lookup(before, f), f.epoch, retention, a).written;
    var now := if written then touched + {d} else touched;
    var more := tries[f := a];
    forall e ensures e in now <==> exists g :: g in more && Touches(before, more, retention, g, e) {
      if e in touched {
        var g :| g in tries && Touches(before, tries, retention, g, e);
        assert g in more && Touches(before, more, retention, g, e);
      }
      if written && e == d {
        assert f in more && Touches(before, more, retention, f, e);
      }
      if exists g :: g in more && Touches(before, more, retention, g, e) {
        var g :| g in more && Touches(before, more, retention, g, e);
        if g != f {
          assert g in tries && Touches(before, tries, retention, g, e);
        }
      }
    }
  }

  /** Some attempt could not read every location. */
  ghost predicate Missed(tries: map<Field, Attempt>) {
    exists f :: f in tries && tries[f].missing != {}
  }

  /** Some attempt failed on the primary. */
  ghost predicate Erred(before: map<Field, AggregateRollup>, tries: map<Field, Attempt>, retention: nat) {
    exists f :: f in tries && ErredAt(before, tries, retention, f)
  }

  ghost predicate ErredAt(before: map<Field, AggregateRollup>, tries: map<Field, Attempt>, retention: nat, f: Field)
    requires f in tries
  {
    RollupStep(Lookup(before, f), f.epoch, retention, tries[f]).err
  }

  lemma NothingMissed(before: map<Field, AggregateRollup>, retention: nat)
    ensures !Missed(map[]) && !Erred(before, map[], retention)
  {
  }

  lemma MissedMore(before: map<Field, AggregateRollup>, tries: map<Field, Attempt>, retention: nat, f: Field,
      a: Attempt)
    requires f !in tries
    ensures Missed(tries[f := a]) <==> Missed(tries) || a.missing != {}
    ensures Erred(before, tries[f := a], retention) <==>
            Erred(before, tries, retention) || RollupStep(Lookup(before, f), f.epoch, retention, a).err
  {
    hide RollupStep;
    var more := tries[f := a];
    assert f in more && more[f] == a;
    assert forall g :: g in tries ==>
      g in more && more[g] == tries[g] && ErredAt(before, more, retention, g) == ErredAt(before, tries, retention, g);
    assert forall g :: g in more ==> g == f || g in tries;
    assert ErredAt(before, more, retention, f) == RollupStep(Lookup(before, f), f.epoch, retention, a).err;
  }

  class Runner {
    const primary: Primary
    const hours: nat
    var backfilling: bool
    var down: set<string>
    var readMissing: bool
    var recovered: bool
    var storeFailed: bool
    var needFull: bool
    var lastFull: int

    ghost function State(): Flags
      reads this
    {
      Flags(backfilling, down, readMissing, recovered, storeFailed, needFull, lastFull)
    }

    /** Starts with a full backfill running. */
    constructor (primary: Primary, retentionDays: nat, start: int)
      ensures this.primary == primary && hours == retentionDays * 24
      ensures State() == Started(start)
    {
      this.primary := primary;
      hours := retentionDays * 24;
      backfilling, down, lastFull := true, {}, start;
      readMissing, recovered, storeFailed, needFull := false, false, false, false;
    }

    method NoteStoreFailed()
      modifies this`storeFailed, this`needFull
      ensures State() == Step(old(State()), Failure)
    {
      storeFailed, needFull := true, true;
    }

    method NoteBackfillEnds()
      modifies this`backfilling
      ensures State() == Step(old(State()), BackfillEnds)
    {
      backfilling := false;
    }

    /** Whether the pass starts a backfill, and whether that is a full one. */
    method AfterPass(now: int, downNow: set<string>, failed: bool) returns (start: bool, full: bool)
      modifies this
      ensures State() == Step(old(State()), PassEnds(now, downNow, failed))
      ensures start == Starts(old(State()), PassEnds(now, downNow, failed))
      ensures full == WantsFull(old(State()), now, failed)
    {
      var answering := down - downNow;
      if answering != {} {
        recovered := true;
      }
      down := downNow;
      full := needFull && !failed && now - lastFull >= FULL_BACKFILL_GAP;
      var repair := (readMissing && (recovered || |downNow| == 0)) || (storeFailed && !failed);
      start := !backfilling && (full || repair);
      if start {
        backfilling, readMissing, recovered, storeFailed := true, false, false, false;
        if full {
          needFull, lastFull := false, now;
        }
      }
    }

    method RollupServiceHour(svc: string, hour: int, now: int, mark: bool, w: World)
      returns (res: HourResult, ghost a: Attempt)
      modifies this`readMissing, this`storeFailed, this`needFull, primary`rollups
      ensures State() == Noted(old(State()), res.missing != {}, res.err)
      ensures var f := Field(svc, hour);
              var step := RollupStep(Lookup(old(primary.rollups), f), hour, primary.retention, a);
              && Attempted(a, f, mark, now, primary.retention, w)
              && res.missing == a.missing
              && primary.rollups == Put(old(primary.rollups), f, step.stored)
              && res.written == step.written && res.err == step.err
    {
      hide RollupStep, ReadFrom;
      var f := Field(svc, hour);
      res, a := primary.RollupHour(svc, hour, now, mark, w.readings(f), w.replies(f));
      if res.missing != {} || res.err {
        readMissing := readMissing || res.missing != {};
        storeFailed := storeFailed || res.err;
        needFull := needFull || res.err;
      }
    }

    /** The hour phase of a backfill: newest hour first, every service in turn. */
    method FillHours(at: int, full: bool, refs: seq<Ref>, w: World)
      returns (touched: set<Field>, ghost tries: map<Field, Attempt>, ghost noted: seq<Event>)
      requires Distinct(refs)
      modifies this`readMissing, this`storeFailed, this`needFull, primary`rollups
      ensures Filled(old(primary.rollups), primary.rollups, tries, touched, refs, at, primary.retention, full, w,
                     Max(1, hours), 0)
      ensures State() == Play(old(State()), noted)
      ensures Notes(noted, Missed(tries), Erred(old(primary.rollups), tries, primary.retention))
    {
      hide RollupStep, ReadFrom, Filled, Due, MarkHour, DayOf, HourStart, Attempted;
      hide Notes, NotedMore, Noted, Play, Missed, Erred;
      ghost var before := primary.rollups;
      touched, tries, noted := {}, map[], [];
      FillNothing(before, refs, at, primary.retention, full, w);
      NothingNoted(State());
      NothingMissed(before, primary.retention);
      var offset := 1;
      while offset < hours
        invariant 1 <= offset <= Max(1, hours)
        invariant Filled(before, primary.rollups, tries, touched, refs, at, primary.retention, full, w, offset, 0)
        invariant State() == Play(old(State()), noted) &&
            Notes(noted, Missed(tries), Erred(before, tries, primary.retention))
      {
        var hour := HourStart(at) - offset * HOUR;
        for k := 0 to |refs|
          invariant Filled(before, primary.rollups, tries, touched, refs, at, primary.retention, full, w, offset, k)
          invariant State() == Play(old(State()), noted) &&
              Notes(noted, Missed(tries), Erred(before, tries, primary.retention))
        {
          var ref := refs[k];
          if Due(ref, hour, full) {
            ghost var now := primary.rollups;
            ghost var f := Field(ref.svc, hour);
            var res, a := RollupServiceHour(ref.svc, hour, at, MarkHour(ref, hour), w);
            FillOne(before, now, primary.rollups, tries, touched, refs, at, primary.retention, full, w, offset, k, a);
            NotYetTried(before, now, tries, touched, refs, at, primary.retention, full, w, offset, k);
            MissedMore(before, tries, primary.retention, f, a);
            NoteMore(old(State()), noted, Missed(tries), Erred(before, tries, primary.retention), res.missing != {},
                res.err);
            if res.written {
              touched := touched + {Field(ref.svc, DayOf(hour))};
            }
            tries, noted := tries[f := a], NotedMore(noted, res.missing != {}, res.err);
          } else {
            FillSkip(before, primary.rollups, tries, touched, refs, at, primary.retention, full, w, offset, k);
          }
        }
        FillRound(before, primary.rollups, tries, touched, refs, at, primary.retention, full, w, offset);
        offset := offset + 1;
      }
    }

    /** The services whose stored hours could be read. */
    method ListRefs(services: seq<string>, at: int, w: World) returns (refs: seq<Ref>)
      requires forall i, j :: 0 <= i < j < |services| ==> services[i] != services[j]
      ensures Listed(refs, services, primary.rollups, Oldest(at, hours), HourStart(at), w)
    {
      hide HoursOf, Describes, HourStart, Oldest, Listed;
      refs := [];
      ListNothing(primary.rollups, Oldest(at, hours), HourStart(at), w);
      assert services[..0] == [];
      for i := 0 to |services|
        invariant Listed(refs, services[..i], primary.rollups, Oldest(at, hours), HourStart(at), w)
      {
        var svc := services[i];
        assert services[..i + 1] == services[..i] + [svc];
        if w.hoursReadable(svc) {
          var rollups := primary.GetAggregateRollups(svc, Oldest(at, hours), HourStart(at));
          var ref := ReadRef(svc, rollups);
          ListOne(refs, services[..i], ref, primary.rollups, Oldest(at, hours), HourStart(at), w);
          refs := refs + [ref];
        } else {
          ListSkip(refs, services[..i], svc, primary.rollups, Oldest(at, hours), HourStart(at), w);
        }
      }
      assert services[..|services|] == services;
    }

    method UpdateDaily(svc: string, day: int, now: int, w: World) returns (written: bool, err: bool)
      modifies this`storeFailed, this`needFull, primary`daily
      ensures State() == Noted(old(State()), false, err)
      ensures primary.daily == Put(old(primary.daily), Field(svc, day),
          DayAfter(primary.rollups, old(primary.daily), Field(svc, day), now, w))
      ensures err == DayFails(primary.rollups, Field(svc, day), now, w)
    {
      hide DaySum;
      DayOfStart(day);
      PutLookup(primary.daily, Field(svc, day));
      var f := Field(svc, day);
      written, err := primary.UpdateDailyRollup(svc, day * DAY, now, w.dayReadable(f), w.dayReplies(f));
      if err {
        NoteStoreFailed();
      }
    }

    /** The day phase of a backfill: every finished day fully inside the window that needs it. */
    method RebuildDays(at: int, full: bool, refs: seq<Ref>, touched: set<Field>, w: World)
        returns (ghost noted: seq<Event>)
      requires Distinct(refs)
      modifies this`storeFailed, this`needFull, primary`daily
      ensures Rebuilding(primary.rollups, old(primary.daily), primary.daily, refs, |refs|, FirstFull(at, hours),
                         touched, at, hours, full, w)
      ensures State() == Play(old(State()), noted)
      ensures Notes(noted, false, DayErred(primary.rollups, old(primary.daily), refs, |refs|, FirstFull(at, hours),
                                           touched, at, hours, full, w))
    {
      hide DayAfter, DayFails, FirstFull, DayOf, Rebuilding, DayErred, Notes, NotedMore, Noted, Play;
      ghost var before := primary.daily;
      var first, today := FirstFull(at, hours), DayOf(at);
      noted := [];
      RebuildNothing(primary.rollups, before, refs, touched, at, hours, full, w);
      NoDayErred(primary.rollups, before, refs, touched, at, hours, full, w);
      NothingNoted(State());
      for k := 0 to |refs|
        invariant Rebuilding(primary.rollups, before, primary.daily, refs, k, first, touched, at, hours, full, w)
        invariant State() == Play(old(State()), noted)
        invariant Notes(noted, false, DayErred(primary.rollups, before, refs, k, first, touched, at, hours, full, w))
      {
        var svc := refs[k].svc;
        if full && !w.daysReadable(svc) {
          RebuildSkip(primary.rollups, before, primary.daily, refs, k, touched, at, hours, full, w);
          DayErredSkip(primary.rollups, before, refs, k, touched, at, hours, full, w);
        } else {
          var stored := set f | f in primary.daily && f.svc == svc :: f.epoch;
          NotYet(primary.rollups, before, primary.daily, refs, k, first, touched, at, hours, full, w, stored);
          var day := first;
          while day < today
            invariant first <= day && (day <= today || day == first)
            invariant Rebuilding(primary.rollups, before, primary.daily, refs, k, day, touched, at, hours, full, w)
            invariant State() == Play(old(State()), noted)
            invariant Notes(noted, false, DayErred(primary.rollups, before, refs, k, day, touched, at, hours, full, w))
          {
            var f := Field(svc, day);
            DayErredNext(primary.rollups, before, refs, k, day, touched, at, hours, full, w);
            if f in touched || (full && day !in stored) {
              ghost var now := primary.daily;
              var _, err := UpdateDaily(svc, day, at, w);
              RebuildOne(primary.rollups, before, now, primary.daily, refs, k, day, touched, at, hours, full, w);
              NoteMore(old(State()), noted, false,
                       DayErred(primary.rollups, before, refs, k, day, touched, at, hours, full, w), false, err);
              noted := NotedMore(noted, false, err);
            } else {
              RebuildPass(primary.rollups, before, primary.daily, refs, k, day, touched, at, hours, full, w);
            }
            day := day + 1;
          }
          RebuildRound(primary.rollups, before, primary.daily, refs, k, day, touched, at, hours, full, w);
          DayErredRound(primary.rollups, before, refs, k, day, touched, at, hours, full, w);
        }
      }
    }

    /** A backfill: what could be listed, the hours, then the days. */
    method Backfill(at: int, full: bool, services: seq<string>, w: World) returns (ghost b: Backfilling)
      requires forall i, j :: 0 <= i < j < |services| ==> services[i] != services[j]
      modifies this, primary
      ensures b.at == at && b.full == full && b.services == services && b.w == w
      ensures b.hours == hours && b.retention == primary.retention
      ensures b.before == old(primary.rollups) && b.after == primary.rollups
      ensures b.dailyBefore == old(primary.daily) && b.dailyAfter == primary.daily
      ensures Ran(b) && State() == Play(old(State()), b.noted)
    {
      hide Listed, Filled, Rebuilding, Missed, Erred, DayErred, Notes, Play;
      var refs := ListRefs(services, at, w);
      ListedDistinct(refs, services, primary.rollups, Oldest(at, hours), HourStart(at), w);
      var touched, tries, inHours := FillHours(at, full, refs, w);
      var inDays := RebuildDays(at, full, refs, touched, w);
      b := Backfilling(at, full, hours, primary.retention, services, w, old(primary.rollups), primary.rollups,
                       old(primary.daily), primary.daily, refs, tries, touched, inHours + inDays);
      NotesTogether(old(State()), inHours, inDays, Missed(tries), Erred(b.before, tries, b.retention), false,
          DayErredIn(b));
    }

    /** One hour of a service in a pass, and its day when that is over. */
    method PassHour(svc: string, back: nat, ghost p: Passing, down: set<string>, failed: bool, now: int, w: World,
                    ghost f0: Flags)
      returns (downNow: set<string>, failedNow: bool, ghost q: Passing)
      requires p.now == now && p.w == w && p.retention == primary.retention
      requires p.after == primary.rollups && p.dailyAfter == primary.daily
      requires State() == Play(f0, p.noted) && PassSoFar(p, down, failed)
      requires Field(svc, HourStart(now) - back * HOUR) !in p.tries && forall d :: d in p.days ==> d.svc != svc
      modifies this`readMissing, this`storeFailed, this`needFull, primary
      ensures PassGoesOn(p, q) && q.after == primary.rollups && q.dailyAfter == primary.daily
      ensures State() == Play(f0, q.noted) && PassSoFar(q, downNow, failedNow)
      ensures q.tries.Keys == p.tries.Keys + {Field(svc, HourStart(now) - back * HOUR)}
      ensures q.days == p.days + PassDays(svc, HourStart(now) - back * HOUR, now)
    {
      hide RollupStep, ReadFrom, Attempted, Notes, NotedMore, Noted, Play, DayAfter, DayFails, DayOf, HourStart,
          PassSoFar;
      var hour := HourStart(now) - back * HOUR;
      var res, a := RollupServiceHour(svc, hour, now, true, w);
      var noted := NotedMore(p.noted, res.missing != {}, res.err);
      q := p.(after := primary.rollups, tries := p.tries[Field(svc, hour) := a], noted := noted);
      failedNow, downNow := failed || res.err, down + res.missing;
      PassHourMore(p, q, down, failed, Field(svc, hour), a, res, f0);
      if hour < DayOf(now) * DAY {
        var _, err := UpdateDaily(svc, DayOf(hour), now, w);
        ghost var r := q.(dailyAfter := primary.daily, days := q.days + {Field(svc, DayOf(hour))},
                          noted := NotedMore(q.noted, false, err));
        PassDayMore(q, r, downNow, failedNow, Field(svc, DayOf(hour)), err, f0);
        q, failedNow := r, failedNow || err;
      }
    }

    /** The two latest hours of a service, and the day of the older one once it is over. */
    method PassService(svc: string, ghost p: Passing, down: set<string>, failed: bool, now: int, w: World,
        ghost f0: Flags)
      returns (downNow: set<string>, failedNow: bool, ghost q: Passing)
      requires p.now == now && p.w == w && p.retention == primary.retention
      requires p.after == primary.rollups && p.dailyAfter == primary.daily
      requires State() == Play(f0, p.noted) && PassSoFar(p, down, failed)
      requires (forall f :: f in p.tries ==> f.svc != svc) && forall d :: d in p.days ==> d.svc != svc
      modifies this`readMissing, this`storeFailed, this`needFull, primary
      ensures PassGoesOn(p, q) && q.after == primary.rollups && q.dailyAfter == primary.daily
      ensures State() == Play(f0, q.noted) && PassSoFar(q, downNow, failedNow)
      ensures forall f :: f in q.tries <==> f in p.tries || (f.svc == svc && IsPassHour(f.epoch, now))
      ensures forall d :: d in q.days <==> d in p.days || (d.svc == svc && IsPassDay(d.epoch, now))
    {
      hide PassSoFar, Play, HourStart, DayOf;
      downNow, failedNow, q := down, failed, p;
      PassDaysAre(svc, now);
      for back := 0 to 2
        invariant PassGoesOn(p, q) && q.after == primary.rollups && q.dailyAfter == primary.daily
        invariant State() == Play(f0, q.noted) && PassSoFar(q, downNow, failedNow)
        invariant forall f :: f in q.tries <==> f in p.tries || (f.svc == svc && PassedHour(f.epoch, now, back))
        invariant forall d :: d in q.days <==> d in p.days || (back == 2 && d.svc == svc && IsPassDay(d.epoch, now))
      {
        downNow, failedNow, q := PassHour(svc, back, q, downNow, failedNow, now, w, f0);
      }
    }

    /** One pass over every service that could be listed. */
    method RunOnce(now: int, listings: Option<seq<Option<seq<string>>>>, w: World)
      returns (start: bool, full: bool, ghost p: Passing, ghost end: Event)
      requires listings.Some? ==> DistinctServices(listings.value)
      modifies this, primary
      ensures p.now == now && p.w == w && p.retention == primary.retention
      ensures p.before == old(primary.rollups) && p.after == primary.rollups
      ensures p.dailyBefore == old(primary.daily) && p.dailyAfter == primary.daily
      ensures Passed(p, listings, end)
      ensures var f := Play(old(State()), p.noted);
              if Rolls(listings)
              then State() == Step(f, end) && start == Starts(f, end) && full == WantsFull(f, now, end.failed)
              else State() == f && !start
    {
      hide Play, Notes, Rolls, NotedMore, Noted, Starts, WantsFull, PassSoFar, IsPassHour, IsPassDay;
      p := Passing(now, primary.retention, w, primary.rollups, primary.rollups, primary.daily, primary.daily,
                   map[], {}, [], false);
      end := PassEnds(now, {}, false);
      start, full := false, false;
      PassBegins(p, State());
      if listings.None? {
        NoteStoreFailed();
        ghost var q := p.(noted := NotedMore(p.noted, false, true), unlisted := true);
        PassUnlisted(p, q, {}, false, old(State()));
        p, end := q, end.(failed := true);
        NothingListed(listings, now);
        PassEnded(p, {}, true, listings, end);
        return;
      }
      var down: set<string>, rolled, failed := {}, false, false;
      var dashboards := listings.value;
      assert dashboards[..0] == [];
      NothingListed(Some(dashboards[..0]), now);
      for i := 0 to |dashboards|
        invariant PassHere(p, now, w, primary.retention, old(primary.rollups), old(primary.daily))
        invariant p.after == primary.rollups && p.dailyAfter == primary.daily
        invariant State() == Play(old(State()), p.noted) && PassSoFar(p, down, failed)
        invariant PassOver(p, Some(dashboards[..i])) && (rolled <==> Rolls(Some(dashboards[..i])))
      {
        assert dashboards[..i + 1] == dashboards[..i] + [dashboards[i]];
        RollsNext(dashboards[..i], dashboards[i]);
        if dashboards[i].None? {
          NoteStoreFailed();
          ghost var q := p.(noted := NotedMore(p.noted, false, true), unlisted := true);
          PassUnlisted(p, q, down, failed, old(State()));
          UnlistedMore(p, q, dashboards[..i]);
          p, failed := q, true;
        } else {
          var services := dashboards[i].value;
          ghost var done := dashboards[..i];
          assert services[..0] == [];
          DashboardBegins(p, done);
          for k := 0 to |services|
            invariant PassHere(p, now, w, primary.retention, old(primary.rollups), old(primary.daily))
            invariant p.after == primary.rollups && p.dailyAfter == primary.daily
            invariant State() == Play(old(State()), p.noted) && PassSoFar(p, down, failed)
            invariant PassOver(p, Some(done + [Some(services[..k])]))
            invariant rolled <==> Rolls(Some(dashboards[..i])) || k > 0
          {
            assert services[..k + 1] == services[..k] + [services[k]];
            NewService(p, dashboards, i, k);
            ghost var q := p;
            down, failed, p := PassService(services[k], p, down, failed, now, w, old(State()));
            ServiceDone(q, p, done, services[..k], services[k]);
            rolled := true;
          }
          assert services[..|services|] == services;
          assert done + [Some(services)] == dashboards[..i + 1];
        }
      }
      assert dashboards[..|dashboards|] == dashboards;
      end := PassEnds(now, down, failed);
      PassEnded(p, down, failed, listings, end);
      if rolled {
        start, full := AfterPass(now, down, failed);
      }
    }
  }

  /** What a backfill found, did and noted. */
  datatype Backfilling = Backfilling(
    at: int, full: bool, hours: nat, retention: nat, services: seq<string>, w: World,
    before: map<Field, AggregateRollup>, after: map<Field, AggregateRollup>,
    dailyBefore: map<Field, DailyRollup>, dailyAfter: map<Field, DailyRollup>,
    refs: seq<Ref>, tries: map<Field, Attempt>, touched: set<Field>, noted: seq<Event>)

  ghost predicate Ran(b: Backfilling) {
    && Listed(b.refs, b.services, b.before, Oldest(b.at, b.hours), HourStart(b.at), b.w)
    && Filled(b.before, b.after, b.tries, b.touched, b.refs, b.at, b.retention, b.full, b.w, Max(1, b.hours), 0)
    && Rebuilding(b.after, b.dailyBefore, b.dailyAfter, b.refs, |b.refs|, FirstFull(b.at, b.hours),
                  b.touched, b.at, b.hours, b.full, b.w)
    && Notes(b.noted, Missed(b.tries), Erred(b.before, b.tries, b.retention) || DayErredIn(b))
  }

  /** Some day the backfill updated failed. */
  ghost predicate DayErredIn(b: Backfilling) {
    DayErred(b.after, b.dailyBefore, b.refs, |b.refs|, FirstFull(b.at, b.hours), b.touched, b.at, b.hours, b.full, b.w)
  }

  /** Some day passed so far was due and failed. */
  ghost predicate DayErred(rollups: map<Field, AggregateRollup>, before: map<Field, DailyRollup>, refs: seq<Ref>,
                           k: int, day: int, touched: set<Field>, at: int, hours: nat, full: bool, w: World) {
    exists d :: DayPassed(d, refs, k, day) && DayDue(d, before, touched, at, hours, full, w) &&
        DayFails(rollups, d, at, w)
  }

  lemma NoDayErred(rollups: map<Field, AggregateRollup>, before: map<Field, DailyRollup>, refs: seq<Ref>,
                   touched: set<Field>, at: int, hours: nat, full: bool, w: World)
    ensures !DayErred(rollups, before, refs, 0, FirstFull(at, hours), touched, at, hours, full, w)
  {
    hide DayFails, FirstFull, DayOf;
  }

  lemma DayErredSkip(rollups: map<Field, AggregateRollup>, before: map<Field, DailyRollup>, refs: seq<Ref>,
                     k: int, touched: set<Field>, at: int, hours: nat, full: bool, w: World)
    requires Distinct(refs) && 0 <= k < |refs| && full && !w.daysReadable(refs[k].svc)
    ensures DayErred(rollups, before, refs, k + 1, FirstFull(at, hours), touched, at, hours, full, w) <==>
            DayErred(rollups, before, refs, k, FirstFull(at, hours), touched, at, hours, full, w)
  {
    hide DayFails, FirstFull, DayOf;
    forall d | DayDue(d, before, touched, at, hours, full, w)
      ensures DayPassed(d, refs, k + 1, FirstFull(at, hours)) == DayPassed(d, refs, k, FirstFull(at, hours))
    {
    }
  }

  lemma DayErredRound(rollups: map<Field, AggregateRollup>, before: map<Field, DailyRollup>, refs: seq<Ref>,
                      k: int, day: int, touched: set<Field>, at: int, hours: nat, full: bool, w: World)
    requires Distinct(refs) && 0 <= k < |refs| && day >= DayOf(at)
    ensures DayErred(rollups, before, refs, k + 1, FirstFull(at, hours), touched, at, hours, full, w) <==>
            DayErred(rollups, before, refs, k, day, touched, at, hours, full, w)
  {
    hide DayFails, FirstFull, DayOf;
    forall d | DayDue(d, before, touched, at, hours, full, w)
      ensures DayPassed(d, refs, k + 1, FirstFull(at, hours)) == DayPassed(d, refs, k, day)
    {
    }
  }

  lemma DayErredNext(rollups: map<Field, AggregateRollup>, before: map<Field, DailyRollup>, refs: seq<Ref>,
                     k: int, day: int, touched: set<Field>, at: int, hours: nat, full: bool, w: World)
    requires Distinct(refs) && 0 <= k < |refs|
    ensures var f := Field(refs[k].svc, day);
            DayErred(rollups, before, refs, k, day + 1, touched, at, hours, full, w) <==>
            DayErred(rollups, before, refs, k, day, touched, at, hours, full, w) ||
            (DayDue(f, before, touched, at, hours, full, w) && DayFails(rollups, f, at, w))
  {
    hide DayFails, DayDue;
    var f := Field(refs[k].svc, day);
    forall d ensures DayPassed(d, refs, k, day + 1) <==> DayPassed(d, refs, k, day) || d == f {
      PassedOneMore(d, refs, k, day);
    }
  }

  lemma PassedOneMore(d: Field, refs: seq<Ref>, k: int, day: int)
    requires Distinct(refs) && 0 <= k < |refs|
    ensures DayPassed(d, refs, k, day + 1) <==> DayPassed(d, refs, k, day) || d == Field(refs[k].svc, day)
  {
    if DayPassed(d, refs, k, day) {
      var i :| 0 <= i < |refs| && refs[i].svc == d.svc && (i < k || (i == k && d.epoch < day));
      assert i < k || (i == k && d.epoch < day + 1);
    }
  }

  /** An hour due for the first time has not been attempted, and its record is what it was. */
  lemma NotYetTried(before: map<Field, AggregateRollup>, now: map<Field, AggregateRollup>,
                    tries: map<Field, Attempt>, touched: set<Field>, refs: seq<Ref>,
                    at: int, retention: nat, full: bool, w: World, offset: int, k: int)
    requires Distinct(refs) && 1 <= offset && 0 <= k < |refs|
    requires Filled(before, now, tries, touched, refs, at, retention, full, w, offset, k)
    ensures var f := Field(refs[k].svc, HourStart(at) - offset * HOUR);
            f !in tries && Lookup(now, f) == Lookup(before, f)
  {
    hide RollupStep, ReadFrom, DayOf, Due, HourStart, DueBefore;
    DueOnce(refs, HourStart(at), full, offset, k);
  }

  // --------------------------------------------------------------- a pass

  /** What a pass stored and noted so far. `unlisted` says that it could not list everything. */
  datatype Passing = Passing(
    now: int, retention: nat, w: World,
    before: map<Field, AggregateRollup>, after: map<Field, AggregateRollup>,
    dailyBefore: map<Field, DailyRollup>, dailyAfter: map<Field, DailyRollup>,
    tries: map<Field, Attempt>, days: set<Field>, noted: seq<Event>, unlisted: bool)

  /** The hours a pass rolls up: the current one and the one before. */
  predicate IsPassHour(epoch: int, now: int) {
    PassedHour(epoch, now, 2)
  }

  predicate PassedHour(epoch: int, now: int, count: int) {
    (count > 0 && epoch == HourStart(now)) || (count > 1 && epoch == HourStart(now) - HOUR)
  }

  /** The day a pass updates: that of the hour before, once it is over. */
  predicate IsPassDay(day: int, now: int) {
    HourStart(now) - HOUR < DayOf(now) * DAY && day == DayOf(HourStart(now) - HOUR)
  }

  function PassDays(svc: string, hour: int, now: int): set<Field> {
    if hour < DayOf(now) * DAY then {Field(svc, DayOf(hour))} else {}
  }

  /** The current hour began today. */
  lemma HourIsToday(now: int)
    ensures HourStart(now) >= DayOf(now) * DAY
  {
    var h, q := now / HOUR, now / DAY;
    assert now == h * HOUR + now % HOUR && now == q * DAY + now % DAY;
    assert h >= 24 * q;
  }

  lemma PassDaysAre(svc: string, now: int)
    ensures PassDays(svc, HourStart(now), now) == {}
    ensures forall d :: d in PassDays(svc, HourStart(now) - HOUR, now) <==> d.svc == svc && IsPassDay(d.epoch, now)
  {
    HourIsToday(now);
    hide HourStart, DayOf;
  }

  ghost predicate PassStored(p: Passing) {
    && (forall f :: Lookup(p.after, f) == After(p.before, p.tries, p.retention, f))
    && (forall f :: f in p.tries ==> Attempted(p.tries[f], f, true, p.now, p.retention, p.w))
    && (forall d :: Lookup(p.dailyAfter, d) ==
                    if d in p.days then DayAfter(p.after, p.dailyBefore, d, p.now, p.w) else Lookup(p.dailyBefore, d))
  }

  /** Some failure on the primary: listing, an hour or a day. */
  ghost predicate PassErred(p: Passing) {
    p.unlisted || Erred(p.before, p.tries, p.retention) || exists d :: d in p.days && DayFails(p.after, d, p.now, p.w)
  }

  /** The locations that some attempt could not read. */
  ghost predicate AreDown(down: set<string>, tries: map<Field, Attempt>) {
    forall l :: l in down <==> IsDown(l, tries)
  }

  ghost predicate IsDown(l: string, tries: map<Field, Attempt>) {
    exists f :: f in tries && l in tries[f].missing
  }

  lemma DownMore(down: set<string>, tries: map<Field, Attempt>, f: Field, a: Attempt)
    requires AreDown(down, tries) && f !in tries
    ensures AreDown(down + a.missing, tries[f := a])
  {
    var more := tries[f := a];
    forall l ensures l in down + a.missing <==> IsDown(l, more) {
      if l in down {
        var g :| g in tries && l in tries[g].missing;
        assert g in more && l in more[g].missing;
      }
      if l in a.missing {
        assert f in more && l in more[f].missing;
      }
      if IsDown(l, more) {
        var g :| g in more && l in more[g].missing;
        assert g != f ==> g in tries && l in tries[g].missing;
      }
    }
  }

  ghost predicate PassSoFar(p: Passing, down: set<string>, failed: bool) {
    && PassStored(p) && Notes(p.noted, down != {}, failed)
    && (down != {} <==> Missed(p.tries)) && (failed <==> PassErred(p)) && AreDown(down, p.tries)
  }

  /** The same pass, further on. */
  ghost predicate PassGoesOn(p: Passing, q: Passing) {
    q.now == p.now && q.retention == p.retention && q.w == p.w && q.before == p.before &&
    q.dailyBefore == p.dailyBefore && q.unlisted == p.unlisted
  }

  ghost predicate PassHere(p: Passing, now: int, w: World, retention: nat,
                           before: map<Field, AggregateRollup>, daily: map<Field, DailyRollup>) {
    p.now == now && p.w == w && p.retention == retention && p.before == before && p.dailyBefore == daily
  }

  predicate IsListed(dashboards: seq<Option<seq<string>>>, svc: string) {
    exists i :: 0 <= i < |dashboards| && dashboards[i].Some? && svc in dashboards[i].value
  }

  ghost predicate Unlisted(listings: Option<seq<Option<seq<string>>>>) {
    listings.None? || exists i :: 0 <= i < |listings.value| && listings.value[i].None?
  }

  predicate HasService(dashboards: seq<Option<seq<string>>>, i: int, k: int) {
    0 <= i < |dashboards| && dashboards[i].Some? && 0 <= k < |dashboards[i].value|
  }

  /** No service is listed twice. */
  ghost predicate DistinctServices(dashboards: seq<Option<seq<string>>>) {
    forall i, k, j, l ::
      HasService(dashboards, i, k) && HasService(dashboards, j, l) &&
          dashboards[i].value[k] == dashboards[j].value[l] ==>
        i == j && k == l
  }

  /** The pass has done exactly the services listed. */
  ghost predicate PassOver(p: Passing, listings: Option<seq<Option<seq<string>>>>) {
    && p.unlisted == Unlisted(listings)
    && (forall f :: f in p.tries <==>
          listings.Some? && IsListed(listings.value, f.svc) && IsPassHour(f.epoch, p.now))
    && (forall d :: d in p.days <==>
          listings.Some? && IsListed(listings.value, d.svc) && IsPassDay(d.epoch, p.now))
  }

  /**
   * What a pass over the listings did: one attempt at each of the two hours of
   * every service listed, the day of the older one when it is over, and what
   * it noted of all that before it ended.
   */
  ghost predicate Passed(p: Passing, listings: Option<seq<Option<seq<string>>>>, end: Event) {
    && PassStored(p) && PassOver(p, listings)
    && end.PassEnds? && end.now == p.now && end.failed == PassErred(p) && (end.down != {} <==> Missed(p.tries))
    && AreDown(end.down, p.tries)
    && Notes(p.noted, Missed(p.tries), PassErred(p))
  }

  lemma PassEnded(p: Passing, down: set<string>, failed: bool, listings: Option<seq<Option<seq<string>>>>, end: Event)
    requires PassSoFar(p, down, failed) && PassOver(p, listings) && end == PassEnds(p.now, down, failed)
    ensures Passed(p, listings, end)
  {
    hide PassStored, PassErred, Notes, Missed, PassOver, AreDown;
  }

  /**
   * A pass ends as failed exactly when it noted a failure, and with the
   * locations down that it could not read for one of the hours it attempted,
   * noting a miss exactly when there are any.
   */
  lemma PassEndsAsNoted(p: Passing, listings: Option<seq<Option<seq<string>>>>, end: Event)
    requires Passed(p, listings, end)
    ensures (end.failed <==> Failure in p.noted) && (end.down != {} <==> Miss in p.noted)
    ensures forall l :: l in end.down <==>
              exists f: Field :: f in p.tries && f.epoch + p.retention > p.now && CannotBeRead(p.w, f, l)
  {
    hide PassStored, PassErred, Missed, PassOver, AreDown;
    forall l ensures l in end.down <==>
                     exists f: Field :: f in p.tries && f.epoch + p.retention > p.now && CannotBeRead(p.w, f, l)
    {
      DownByReading(p, end.down, l);
    }
  }

  predicate CannotBeRead(w: World, f: Field, l: string) {
    l in w.readings(f) && w.readings(f)[l].Unreadable?
  }

  /** A pass that leaves a day it updates without the sum of its hours notes that it failed. */
  lemma PassDayIsNoted(p: Passing, listings: Option<seq<Option<seq<string>>>>, end: Event, d: Field)
    requires Passed(p, listings, end) && listings.Some? && IsListed(listings.value, d.svc)
    requires HourStart(p.now) == DayOf(p.now) * DAY && d.epoch == DayOf(p.now) - 1 && DayKept(d.epoch, p.now)
    requires var sum := DaySum(p.after, d.svc, d.epoch);
             sum.success + sum.failure > 0 && Lookup(p.dailyAfter, d) != Some(sum)
    ensures Failure in p.noted && end.failed
  {
    hide Missed, Erred, AreDown, IsListed, Unlisted, DaySum, DayKept;
    MidnightDay(p.now);
    assert d in p.days;
  }

  /** The hour before midnight is of the day before. */
  lemma MidnightDay(now: int)
    requires HourStart(now) == DayOf(now) * DAY
    ensures IsPassDay(DayOf(now) - 1, now)
  {
  }

  lemma DownByReading(p: Passing, down: set<string>, l: string)
    requires PassStored(p) && AreDown(down, p.tries)
    ensures l in down <==> exists f: Field :: f in p.tries && f.epoch + p.retention > p.now && CannotBeRead(p.w, f, l)
  {
    hide RollupStep, After, DayAfter;
    if l in down {
      var f :| f in p.tries && l in p.tries[f].missing;
      assert CannotBeRead(p.w, f, l);
    }
    if exists f: Field :: f in p.tries && f.epoch + p.retention > p.now && CannotBeRead(p.w, f, l) {
      var f: Field :| f in p.tries && f.epoch + p.retention > p.now && CannotBeRead(p.w, f, l);
      assert l in p.tries[f].missing;
    }
  }

  lemma PassBegins(p: Passing, f: Flags)
    requires p.tries == map[] && p.days == {} && p.noted == [] && !p.unlisted
    requires p.after == p.before && p.dailyAfter == p.dailyBefore
    ensures PassSoFar(p, {}, false) && Play(f, p.noted) == f
  {
    hide RollupStep, DayAfter, DayFails;
    NothingNoted(f);
    NothingMissed(p.before, p.retention);
  }

  lemma NothingListed(listings: Option<seq<Option<seq<string>>>>, now: int)
    requires listings.None? || listings.value == []
    ensures Unlisted(listings) == listings.None? && !Rolls(listings)
    ensures forall svc :: !(listings.Some? && IsListed(listings.value, svc))
  {
  }

  lemma RollsNext(dashboards: seq<Option<seq<string>>>, next: Option<seq<string>>)
    ensures Rolls(Some(dashboards + [next])) <==> Rolls(Some(dashboards)) || (next.Some? && next.value != [])
  {
    var more := dashboards + [next];
    if Rolls(Some(dashboards)) {
      var i :| 0 <= i < |dashboards| && dashboards[i].Some? && dashboards[i].value != [];
      assert more[i] == dashboards[i];
    }
    assert more[|dashboards|] == next;
  }

  /** The pass rolls up some service. */
  ghost predicate Rolls(listings: Option<seq<Option<seq<string>>>>) {
    listings.Some? &&
    exists i :: 0 <= i < |listings.value| && listings.value[i].Some? && listings.value[i].value != []
  }

  lemma ListedMore(dashboards: seq<Option<seq<string>>>, next: Option<seq<string>>, svc: string)
    ensures IsListed(dashboards + [next], svc) <==> IsListed(dashboards, svc) || (next.Some? && svc in next.value)
    ensures Unlisted(Some(dashboards + [next])) <==> Unlisted(Some(dashboards)) || next.None?
  {
    var more := dashboards + [next];
    assert forall i :: 0 <= i < |dashboards| ==> more[i] == dashboards[i];
    assert more[|dashboards|] == next;
  }

  lemma PassUnlisted(p: Passing, q: Passing, down: set<string>, failed: bool, f: Flags)
    requires PassSoFar(p, down, failed) && q == p.(noted := NotedMore(p.noted, false, true), unlisted := true)
    ensures PassSoFar(q, down, true) && Play(f, q.noted) == Step(Play(f, p.noted), Failure)
  {
    hide RollupStep, DayAfter, DayFails, Notes, Attempted, Missed, Erred, Play;
    NoteMore(f, p.noted, down != {}, failed, false, true);
  }

  lemma UnlistedMore(p: Passing, q: Passing, done: seq<Option<seq<string>>>)
    requires PassOver(p, Some(done)) && q.tries == p.tries && q.days == p.days && q.now == p.now && q.unlisted
    ensures PassOver(q, Some(done + [None]))
  {
    hide IsListed, Unlisted, IsPassHour, IsPassDay;
    ListedMore(done, None, "");
    forall f: Field ensures IsListed(done + [None], f.svc) == IsListed(done, f.svc) {
      ListedMore(done, None, f.svc);
    }
  }

  lemma DashboardBegins(p: Passing, done: seq<Option<seq<string>>>)
    requires PassOver(p, Some(done))
    ensures PassOver(p, Some(done + [Some([])]))
  {
    hide IsListed, Unlisted, IsPassHour, IsPassDay;
    ListedMore(done, Some([]), "");
    forall f: Field ensures IsListed(done + [Some([])], f.svc) == IsListed(done, f.svc) {
      ListedMore(done, Some([]), f.svc);
    }
  }

  lemma NewService(p: Passing, dashboards: seq<Option<seq<string>>>, i: nat, k: nat)
    requires i < |dashboards| && dashboards[i].Some? && k < |dashboards[i].value| && DistinctServices(dashboards)
    requires PassOver(p, Some(dashboards[..i] + [Some(dashboards[i].value[..k])]))
    ensures var svc := dashboards[i].value[k];
            (forall f :: f in p.tries ==> f.svc != svc) && forall d :: d in p.days ==> d.svc != svc
  {
    hide IsPassHour, IsPassDay, Unlisted;
    var svc := dashboards[i].value[k];
    ListedMore(dashboards[..i], Some(dashboards[i].value[..k]), svc);
    assert HasService(dashboards, i, k);
    forall l | 0 <= l < k ensures dashboards[i].value[l] != svc {
      assert HasService(dashboards, i, l);
    }
    forall j | 0 <= j < i && dashboards[j].Some? ensures svc !in dashboards[j].value {
      forall l | 0 <= l < |dashboards[j].value| ensures dashboards[j].value[l] != svc {
        assert HasService(dashboards, j, l);
      }
    }
  }

  lemma ServiceDone(p: Passing, q: Passing, done: seq<Option<seq<string>>>, services: seq<string>, svc: string)
    requires PassOver(p, Some(done + [Some(services)])) && PassGoesOn(p, q)
    requires forall f :: f in q.tries <==> f in p.tries || (f.svc == svc && IsPassHour(f.epoch, p.now))
    requires forall d :: d in q.days <==> d in p.days || (d.svc == svc && IsPassDay(d.epoch, p.now))
    ensures PassOver(q, Some(done + [Some(services + [svc])]))
  {
    hide IsListed, Unlisted, IsPassHour, IsPassDay;
    ListedMore(done, Some(services), "");
    ListedMore(done, Some(services + [svc]), "");
    forall f: Field
      ensures IsListed(done + [Some(services + [svc])], f.svc) <==>
              IsListed(done + [Some(services)], f.svc) || f.svc == svc
    {
      ListedMore(done, Some(services), f.svc);
      ListedMore(done, Some(services + [svc]), f.svc);
    }
  }

  /** What a service stores says nothing about the days of another. */
  lemma DayElsewhere(rollups: map<Field, AggregateRollup>, f: Field, r: Option<AggregateRollup>, d: Field,
                     daily: map<Field, DailyRollup>, now: int, w: World)
    requires d.svc != f.svc
    ensures DayAfter(Put(rollups, f, r), daily, d, now, w) == DayAfter(rollups, daily, d, now, w)
    ensures DayFails(Put(rollups, f, r), d, now, w) == DayFails(rollups, d, now, w)
  {
    hide SumOn, DayCounts, DayKept;
    var more := Put(rollups, f, r);
    var lo, hi := d.epoch * DAY, d.epoch * DAY + DAY - 1;
    forall h ensures h in EpochsOf(more, d.svc) <==> h in EpochsOf(rollups, d.svc) {
      if h in EpochsOf(rollups, d.svc) {
        assert Field(d.svc, h) in more;
      }
      if h in EpochsOf(more, d.svc) {
        assert Field(d.svc, h) in rollups;
      }
    }
    assert HoursOf(more, d.svc, lo, hi) == HoursOf(rollups, d.svc, lo, hi);
  }

  lemma PassHourMore(p: Passing, q: Passing, down: set<string>, failed: bool, f: Field, a: Attempt, res: HourResult,
                     f0: Flags)
    requires PassSoFar(p, down, failed) && f !in p.tries && forall d :: d in p.days ==> d.svc != f.svc
    requires var step := RollupStep(Lookup(p.after, f), f.epoch, p.retention, a);
             && Attempted(a, f, true, p.now, p.retention, p.w)
             && q == p.(after := Put(p.after, f, step.stored), tries := p.tries[f := a],
                        noted := NotedMore(p.noted, res.missing != {}, res.err))
             && res.missing == a.missing && res.err == step.err
    ensures PassSoFar(q, down + res.missing, failed || res.err)
    ensures Play(f0, q.noted) == Noted(Play(f0, p.noted), res.missing != {}, res.err)
  {
    hide RollupStep, DayAfter, DayFails, Notes, Attempted, Missed, Erred, Play, Noted, AreDown;
    DownMore(down, p.tries, f, a);
    assert Lookup(p.after, f) == Lookup(p.before, f);
    NoteMore(f0, p.noted, down != {}, failed, res.missing != {}, res.err);
    MissedMore(p.before, p.tries, p.retention, f, a);
    forall d | d in p.days
      ensures DayAfter(q.after, p.dailyBefore, d, p.now, p.w) == DayAfter(p.after, p.dailyBefore, d, p.now, p.w)
      ensures DayFails(q.after, d, p.now, p.w) == DayFails(p.after, d, p.now, p.w)
    {
      DayElsewhere(p.after, f, RollupStep(Lookup(p.after, f), f.epoch, p.retention, a).stored, d, p.dailyBefore, p.now,
          p.w);
    }
    forall g ensures Lookup(q.after, g) == After(q.before, q.tries, q.retention, g) {
      assert g != f ==> Lookup(q.after, g) == Lookup(p.after, g);
    }
    assert down + res.missing != {} <==> down != {} || res.missing != {};
  }

  lemma PassDayMore(p: Passing, q: Passing, down: set<string>, failed: bool, d: Field, err: bool, f0: Flags)
    requires PassSoFar(p, down, failed) && d !in p.days
    requires q == p.(dailyAfter := Put(p.dailyAfter, d, DayAfter(p.after, p.dailyAfter, d, p.now, p.w)),
                     days := p.days + {d}, noted := NotedMore(p.noted, false, err))
    requires err == DayFails(p.after, d, p.now, p.w)
    ensures PassSoFar(q, down, failed || err)
    ensures Play(f0, q.noted) == Noted(Play(f0, p.noted), false, err)
  {
    hide RollupStep, DayFails, Notes, Attempted, Missed, Erred, Play, Noted, DaySum, DayKept, DayCounts, AreDown;
    assert Lookup(p.dailyAfter, d) == Lookup(p.dailyBefore, d);
    NoteMore(f0, p.noted, down != {}, failed, false, err);
    forall e ensures Lookup(q.dailyAfter, e) ==
      if e in q.days then DayAfter(q.after, q.dailyBefore, e, q.now, q.w) else Lookup(q.dailyBefore, e)
    {
      assert e != d ==> Lookup(q.dailyAfter, e) == Lookup(p.dailyAfter, e);
    }
  }

  lemma ListedDistinct(refs: seq<Ref>, services: seq<string>, rollups: map<Field, AggregateRollup>, lo: int, hi: int,
      w: World)
    requires Listed(refs, services, rollups, lo, hi, w)
    ensures Distinct(refs)
  {
  }

  function Oldest(at: int, hours: nat): int {
    HourStart(at) - (hours - 1) * HOUR
  }

  /** The refs are those of the services that could be read, each once. */
  ghost predicate Listed(refs: seq<Ref>, services: seq<string>, rollups: map<Field, AggregateRollup>, lo: int, hi: int,
      w: World) {
    && Distinct(refs)
    && (forall i :: 0 <= i < |refs| ==>
          refs[i].svc in services && w.hoursReadable(refs[i].svc) &&
              Describes(refs[i], HoursOf(rollups, refs[i].svc, lo, hi)))
    && (forall svc :: svc in services && w.hoursReadable(svc) ==> HasRef(refs, svc))
  }

  predicate HasRef(refs: seq<Ref>, svc: string) {
    exists i :: 0 <= i < |refs| && refs[i].svc == svc
  }

  lemma ListNothing(rollups: map<Field, AggregateRollup>, lo: int, hi: int, w: World)
    ensures Listed([], [], rollups, lo, hi, w)
  {
  }

  lemma ListOne(refs: seq<Ref>, services: seq<string>, ref: Ref, rollups: map<Field, AggregateRollup>, lo: int,
      hi: int, w: World)
    requires Listed(refs, services, rollups, lo, hi, w)
    requires ref.svc !in services && w.hoursReadable(ref.svc) && Describes(ref, HoursOf(rollups, ref.svc, lo, hi))
    ensures Listed(refs + [ref], services + [ref.svc], rollups, lo, hi, w)
  {
    hide HoursOf, Describes;
    var more := refs + [ref];
    forall i | 0 <= i < |more|
      ensures more[i].svc in services + [ref.svc] && w.hoursReadable(more[i].svc)
      ensures Describes(more[i], HoursOf(rollups, more[i].svc, lo, hi))
    {
      assert i < |refs| ==> more[i] == refs[i];
    }
    forall svc | svc in services + [ref.svc] && w.hoursReadable(svc) ensures HasRef(more, svc) {
      if svc in services {
        assert HasRef(refs, svc);
        var i :| 0 <= i < |refs| && refs[i].svc == svc;
        assert more[i].svc == svc;
      } else {
        assert more[|refs|].svc == svc;
      }
    }
  }

  lemma ListSkip(refs: seq<Ref>, services: seq<string>, svc: string, rollups: map<Field, AggregateRollup>, lo: int,
      hi: int, w: World)
    requires Listed(refs, services, rollups, lo, hi, w) && !w.hoursReadable(svc)
    ensures Listed(refs, services + [svc], rollups, lo, hi, w)
  {
    hide HoursOf, Describes, HasRef;
  }

  lemma DayOfStart(day: int)
    ensures DayOf(day * DAY) == day
  {
  }

  /** What updating the day's rollup leaves stored for it. */
  ghost function DayAfter(rollups: map<Field, AggregateRollup>, daily: map<Field, DailyRollup>, f: Field, now: int,
      w: World): Option<DailyRollup> {
    var sum := DaySum(rollups, f.svc, f.epoch);
    if DayCounts(sum, w.dayReadable(f)) && DayKept(f.epoch, now) && Landed(w.dayReplies(f).change) then Some(sum)
    else Lookup(daily, f)
  }

  ghost predicate DayFails(rollups: map<Field, AggregateRollup>, f: Field, now: int, w: World) {
    !w.dayReadable(f) ||
    (DayCounts(DaySum(rollups, f.svc, f.epoch), true) && DayKept(f.epoch, now) &&
     !(w.dayReplies(f).change.Done? && w.dayReplies(f).hexpire && w.dayReplies(f).persist))
  }

  /** The first day whose hours all lie in the window. */
  function FirstFull(at: int, hours: nat): int {
    var oldest := Oldest(at, hours);
    if oldest % DAY == 0 then DayOf(oldest) else DayOf(oldest) + 1
  }

  /** The backfill updates this day of the service. */
  predicate DayDue(f: Field, daily: map<Field, DailyRollup>, touched: set<Field>, at: int, hours: nat, full: bool,
      w: World) {
    && FirstFull(at, hours) <= f.epoch < DayOf(at)
    && (full ==> w.daysReadable(f.svc))
    && (f in touched || (full && f !in daily))
  }

  /** The service is among the first `k`, or is the k-th and the day before `day`. */
  ghost predicate DayPassed(f: Field, refs: seq<Ref>, k: int, day: int) {
    exists i :: 0 <= i < |refs| && refs[i].svc == f.svc && (i < k || (i == k && f.epoch < day))
  }

  /** What the day phase has stored once it has passed the first `k` services and the days before `day` of the next. */
  ghost predicate Rebuilding(rollups: map<Field, AggregateRollup>, before: map<Field, DailyRollup>,
                             now: map<Field, DailyRollup>, refs: seq<Ref>, k: int, day: int,
                             touched: set<Field>, at: int, hours: nat, full: bool, w: World) {
    forall f :: Lookup(now, f) ==
      if DayPassed(f, refs, k, day) && DayDue(f, before, touched, at, hours, full, w)
      then DayAfter(rollups, before, f, at, w)
      else Lookup(before, f)
  }

  lemma RebuildNothing(rollups: map<Field, AggregateRollup>, before: map<Field, DailyRollup>, refs: seq<Ref>,
                       touched: set<Field>, at: int, hours: nat, full: bool, w: World)
    ensures Rebuilding(rollups, before, before, refs, 0, FirstFull(at, hours), touched, at, hours, full, w)
  {
    hide DayAfter;
  }

  lemma RebuildSkip(rollups: map<Field, AggregateRollup>, before: map<Field, DailyRollup>, now: map<Field, DailyRollup>,
                    refs: seq<Ref>, k: int, touched: set<Field>, at: int, hours: nat, full: bool, w: World)
    requires Distinct(refs) && 0 <= k < |refs| && full && !w.daysReadable(refs[k].svc)
    requires Rebuilding(rollups, before, now, refs, k, FirstFull(at, hours), touched, at, hours, full, w)
    ensures Rebuilding(rollups, before, now, refs, k + 1, FirstFull(at, hours), touched, at, hours, full, w)
  {
    hide DayAfter;
  }

  lemma RebuildRound(rollups: map<Field, AggregateRollup>, before: map<Field, DailyRollup>,
                     now: map<Field, DailyRollup>, refs: seq<Ref>, k: int, day: int,
                     touched: set<Field>, at: int, hours: nat, full: bool, w: World)
    requires Distinct(refs) && 0 <= k < |refs| && day >= DayOf(at)
    requires Rebuilding(rollups, before, now, refs, k, day, touched, at, hours, full, w)
    ensures Rebuilding(rollups, before, now, refs, k + 1, FirstFull(at, hours), touched, at, hours, full, w)
  {
    hide DayAfter, FirstFull, DayOf;
  }

  lemma NotYet(rollups: map<Field, AggregateRollup>, before: map<Field, DailyRollup>, now: map<Field, DailyRollup>,
               refs: seq<Ref>, k: int, first: int, touched: set<Field>, at: int, hours: nat, full: bool, w: World,
               stored: set<int>)
    requires Distinct(refs) && 0 <= k < |refs| && first == FirstFull(at, hours)
    requires Rebuilding(rollups, before, now, refs, k, first, touched, at, hours, full, w)
    requires stored == set f | f in now && f.svc == refs[k].svc :: f.epoch
    ensures forall day :: day in stored <==> Field(refs[k].svc, day) in before
  {
    hide DayAfter, FirstFull, DayOf;
    forall day ensures day in stored <==> Field(refs[k].svc, day) in before {
      var f := Field(refs[k].svc, day);
      assert Lookup(now, f) == Lookup(before, f);
      assert day in stored <==> f in now;
    }
  }

  lemma RebuildOne(rollups: map<Field, AggregateRollup>, before: map<Field, DailyRollup>, now: map<Field, DailyRollup>,
                   after: map<Field, DailyRollup>, refs: seq<Ref>, k: int, day: int, touched: set<Field>,
                   at: int, hours: nat, full: bool, w: World)
    requires Distinct(refs) && 0 <= k < |refs|
    requires Rebuilding(rollups, before, now, refs, k, day, touched, at, hours, full, w)
    requires DayDue(Field(refs[k].svc, day), before, touched, at, hours, full, w)
    requires after == Put(now, Field(refs[k].svc, day), DayAfter(rollups, now, Field(refs[k].svc, day), at, w))
    ensures Rebuilding(rollups, before, after, refs, k, day + 1, touched, at, hours, full, w)
  {
    hide FirstFull, DayOf, DaySum, DayDue;
    var f := Field(refs[k].svc, day);
    assert Lookup(now, f) == Lookup(before, f);
    forall g
      ensures Lookup(after, g) == if DayPassed(g, refs, k, day + 1) && DayDue(g, before, touched, at, hours, full, w)
                                  then DayAfter(rollups, before, g, at, w) else Lookup(before, g)
    {
      assert g != f ==> Lookup(after, g) == Lookup(now, g);
      assert g != f ==> DayPassed(g, refs, k, day + 1) == DayPassed(g, refs, k, day);
    }
  }

  lemma RebuildPass(rollups: map<Field, AggregateRollup>, before: map<Field, DailyRollup>, now: map<Field, DailyRollup>,
                    refs: seq<Ref>, k: int, day: int, touched: set<Field>, at: int, hours: nat, full: bool, w: World)
    requires Distinct(refs) && 0 <= k < |refs|
    requires Rebuilding(rollups, before, now, refs, k, day, touched, at, hours, full, w)
    requires !DayDue(Field(refs[k].svc, day), before, touched, at, hours, full, w)
    ensures Rebuilding(rollups, before, now, refs, k, day + 1, touched, at, hours, full, w)
  {
    hide FirstFull, DayOf, DayAfter, DayDue;
    var f := Field(refs[k].svc, day);
    forall g
      ensures Lookup(now, g) == if DayPassed(g, refs, k, day + 1) && DayDue(g, before, touched, at, hours, full, w)
                                then DayAfter(rollups, before, g, at, w) else Lookup(before, g)
    {
      assert g != f ==> DayPassed(g, refs, k, day + 1) == DayPassed(g, refs, k, day);
    }
  }

  lemma FillNothing(before: map<Field, AggregateRollup>, refs: seq<Ref>, at: int, retention: nat, full: bool, w: World)
    ensures Filled(before, before, map[], {}, refs, at, retention, full, w, 1, 0)
  {
  }

  lemma FillSkip(before: map<Field, AggregateRollup>, after: map<Field, AggregateRollup>, tries: map<Field, Attempt>,
                 touched: set<Field>, refs: seq<Ref>, at: int, retention: nat, full: bool, w: World, offset: int,
                     k: int)
    requires 1 <= offset && 0 <= k < |refs| && !Due(refs[k], HourStart(at) - offset * HOUR, full)
    requires Filled(before, after, tries, touched, refs, at, retention, full, w, offset, k)
    ensures Filled(before, after, tries, touched, refs, at, retention, full, w, offset, k + 1)
  {
    hide RollupStep, ReadFrom, DayOf, Due, HourStart, DueBefore;
    forall f ensures f in tries <==> DueBefore(f, refs, HourStart(at), full, offset, k + 1) {
      DueNext(f, refs, HourStart(at), full, offset, k);
    }
  }

  lemma FillRound(before: map<Field, AggregateRollup>, after: map<Field, AggregateRollup>, tries: map<Field, Attempt>,
                  touched: set<Field>, refs: seq<Ref>, at: int, retention: nat, full: bool, w: World, offset: int)
    requires Filled(before, after, tries, touched, refs, at, retention, full, w, offset, |refs|)
    ensures Filled(before, after, tries, touched, refs, at, retention, full, w, offset + 1, 0)
  {
    hide RollupStep, ReadFrom, DayOf, Due, HourStart, DueBefore;
    forall f ensures f in tries <==> DueBefore(f, refs, HourStart(at), full, offset + 1, 0) {
      DueRound(f, refs, HourStart(at), full, offset);
    }
  }
}

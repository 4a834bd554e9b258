/**
 * One hour's stored rollup in any run of passes, backfills and expiry is a run
 * of calls for that hour: dashboard/internal/rollup/rollup.go put together with
 * RollupHour in dashboard/internal/store/store.go.
 */
module HourHistories {
  import opened Base
  import opened Rollups
  import opened Days
  import opened PrimaryStore
  import opened RollupRunner
  import opened Backfills
  import opened RepairRuns
  import HourRollup
  import RepairFlags

  ghost predicate LegalRun(s: System, moves: seq<Move>, hours: nat) {
    moves == [] ||
    (var before, m := moves[..|moves| - 1], moves[|moves| - 1];
     LegalRun(s, before, hours) && Legal(Final(s, before), m, hours))
  }

  /** The move's call for the hour, if it makes one. */
  ghost function CallIn(m: Move, f: Field): Option<Attempt> {
    match m
    case PassMove(p, _, _) => Lookup(p.tries, f)
    case FillMove(b) => Lookup(b.tries, f)
    case ExpireMove(_, _) => None
  }

  ghost function EventsIn(m: Move, f: Field): seq<HourEvent> {
    if m.ExpireMove? && f in m.hours then [Dropped]
    else if CallIn(m, f).Some? then [Try(CallIn(m, f).value)]
    else []
  }

  /** What happens to the hour's record, in order. */
  ghost function EventsOf(moves: seq<Move>, f: Field): seq<HourEvent> {
    if moves == [] then [] else EventsOf(moves[..|moves| - 1], f) + EventsIn(moves[|moves| - 1], f)
  }

  lemma RunMore(hour: int, retention: nat, events: seq<HourEvent>, e: HourEvent)
    ensures Run(hour, retention, events + [e]) ==
            match e
            case Dropped => None
            case Try(a) => RollupStep(Run(hour, retention, events), hour, retention, a).stored
  {
    hide RollupStep;
    assert (events + [e])[..|events|] == events;
  }

  lemma MoveIsEvents(s: System, m: Move, hours: nat, f: Field, earlier: seq<HourEvent>)
    requires Legal(s, m, hours) && Lookup(s.rollups, f) == Run(f.epoch, hours * HOUR, earlier)
    ensures Lookup(Next(s, m).rollups, f) == Run(f.epoch, hours * HOUR, earlier + EventsIn(m, f))
  {
    hide Run, RollupStep, Ran, PassOver, RepairFlags.Notes;
    assert earlier + [] == earlier;
    match m
    case PassMove(p, listings, end) =>
      PassLeaves(p, listings, end, f);
      if f in p.tries {
        RunMore(f.epoch, hours * HOUR, earlier, Try(p.tries[f]));
      }
    case FillMove(b) =>
      LeftOf(b, f);
      if f in b.tries {
        RunMore(f.epoch, hours * HOUR, earlier, Try(b.tries[f]));
      }
    case ExpireMove(gone, _) =>
      if f in gone {
        RunMore(f.epoch, hours * HOUR, earlier, Dropped);
      }
  }

  lemma PassLeaves(p: Passing, listings: Option<seq<Option<seq<string>>>>, end: RepairFlags.Event, f: Field)
    requires Passed(p, listings, end)
    ensures Lookup(p.after, f) == After(p.before, p.tries, p.retention, f)
  {
    hide After, PassOver;
  }

  /**
   * In every run, the hour is stored as the calls for it, and its expiry, make
   * it: all that holds of such calls in whatever order holds of the system.
   */
  lemma {:induction false} HourIsARun(s: System, moves: seq<Move>, hours: nat, f: Field, earlier: seq<HourEvent>)
    requires LegalRun(s, moves, hours) && Lookup(s.rollups, f) == Run(f.epoch, hours * HOUR, earlier)
    ensures Lookup(Final(s, moves).rollups, f) == Run(f.epoch, hours * HOUR, earlier + EventsOf(moves, f))
    decreases |moves|
  {
    hide Legal, Next, Run, EventsIn;
    if moves == [] {
      assert earlier + [] == earlier;
    } else {
      var before, m := moves[..|moves| - 1], moves[|moves| - 1];
      HourIsARun(s, before, hours, f, earlier);
      MoveIsEvents(Final(s, before), m, hours, f, earlier + EventsOf(before, f));
      assert earlier + EventsOf(before, f) + EventsIn(m, f) == earlier + EventsOf(moves, f);
    }
  }

  // -------------------------------------------------------------- what is read

  ghost function WorldOf(m: Move): World
    requires !m.ExpireMove?
  {
    if m.PassMove? then m.p.w else m.b.w
  }

  ghost function TimeOf(m: Move): int
    requires !m.ExpireMove?
  {
    if m.PassMove? then m.p.now else m.b.at
  }

  lemma CallReads(s: System, m: Move, hours: nat, f: Field)
    requires Legal(s, m, hours) && CallIn(m, f).Some?
    ensures var a := CallIn(m, f).value;
            && !m.ExpireMove? && a.now == TimeOf(m)
            && (if f.epoch + hours * HOUR > a.now then ReadFrom(a.latest, a.missing, WorldOf(m).readings(f))
                else a.latest == map[] && a.missing == {})
  {
    hide RollupStep, Ran, PassOver, RepairFlags.Notes, ReadFrom;
    if m.FillMove? {
      var i, o := AttemptedWasDue(m.b, f);
    } else {
      PassCalls(m.p, m.listings, m.end, f);
    }
  }

  lemma PassCalls(p: Passing, listings: Option<seq<Option<seq<string>>>>, end: RepairFlags.Event, f: Field)
    requires Passed(p, listings, end) && f in p.tries
    ensures Attempted(p.tries[f], f, true, p.now, p.retention, p.w)
  {
    hide Attempted, After, PassOver;
  }

  lemma CallCounts(s: System, m: Move, hours: nat, f: Field)
    requires Legal(s, m, hours) && CallIn(m, f).Some?
    ensures forall l :: l in CallIn(m, f).value.latest ==> CountsUp(CallIn(m, f).value.latest[l])
  {
    hide Legal, ReadFrom, CountsUp;
    CallReads(s, m, hours, f);
    var a := CallIn(m, f).value;
    if f.epoch + hours * HOUR > a.now {
      ReadCounts(a.latest, a.missing, WorldOf(m).readings(f));
    }
  }

  lemma {:induction false} EventsCount(s: System, moves: seq<Move>, hours: nat, f: Field)
    requires LegalRun(s, moves, hours)
    ensures PrimaryStore.Counted(EventsOf(moves, f))
    decreases |moves|
  {
    hide Legal, CountsUp, CallIn;
    if moves != [] {
      var before, m := moves[..|moves| - 1], moves[|moves| - 1];
      EventsCount(s, before, hours, f);
      if CallIn(m, f).Some? {
        CallCounts(Final(s, before), m, hours, f);
      }
      hide EventsOf, Final, LegalRun;
      CountedTogether(EventsOf(before, f), EventsIn(m, f));
    }
  }

  lemma CountedTogether(a: seq<HourEvent>, b: seq<HourEvent>)
    requires PrimaryStore.Counted(a) && PrimaryStore.Counted(b)
    ensures PrimaryStore.Counted(a + b)
  {
    hide CountsUp;
  }

  lemma {:induction false} LastWriteIsACall(hour: int, retention: nat, events: seq<HourEvent>)
    ensures LastWrite(hour, retention, events).Some? ==> Try(LastWrite(hour, retention, events).value) in events
    decreases |events|
  {
    hide Knows, Reached;
    if events != [] {
      LastWriteIsACall(hour, retention, events[..|events| - 1]);
    }
  }

  lemma {:induction false} EventOfAMove(moves: seq<Move>, f: Field, a: Attempt) returns (i: nat)
    requires Try(a) in EventsOf(moves, f)
    ensures i < |moves| && CallIn(moves[i], f) == Some(a)
    decreases |moves|
  {
    hide CallIn;
    var n := |moves| - 1;
    if Try(a) in EventsIn(moves[n], f) {
      i := n;
    } else {
      i := EventOfAMove(moves[..n], f, a);
    }
  }

  lemma {:induction false} LegalAt(s: System, moves: seq<Move>, hours: nat, i: nat)
    requires LegalRun(s, moves, hours) && i < |moves|
    ensures Legal(Final(s, moves[..i]), moves[i], hours)
    decreases |moves|
  {
    hide Legal, Next;
    var n := |moves| - 1;
    if i < n {
      LegalAt(s, moves[..n], hours, i);
      assert moves[..n][..i] == moves[..i];
    }
  }

  /** The move's call for the hour came after it ended, and every location could be read. */
  ghost predicate ReadEverywhere(m: Move, f: Field) {
    && !m.ExpireMove? && CallIn(m, f).Some? && TimeOf(m) >= f.epoch + HOUR
    && forall l :: l in WorldOf(m).readings(f) ==> WorldOf(m).readings(f)[l].Read?
  }

  /**
   * An hour that is stored complete, in any run, was last written by a call
   * that came after its end and could read every location.
   */
  lemma CompleteWasReadEverywhere(s: System, moves: seq<Move>, hours: nat, f: Field)
    requires LegalRun(s, moves, hours) && f !in s.rollups && Complete(Final(s, moves), f)
    ensures exists i :: 0 <= i < |moves| && ReadEverywhere(moves[i], f) &&
                        LastWrite(f.epoch, hours * HOUR, EventsOf(moves, f)) == CallIn(moves[i], f)
  {
    hide LegalRun, Legal, Run, LastWrite, EventsOf, Final, ReadFrom, PrimaryStore.Counted, CallIn;
    var events := EventsOf(moves, f);
    assert Run(f.epoch, hours * HOUR, []) == None by { hide *; NothingRun(f.epoch, hours * HOUR); }
    HourIsARun(s, moves, hours, f, []);
    assert [] + events == events;
    EventsCount(s, moves, hours, f);
    RecordIsLastWrite(f.epoch, hours * HOUR, events);
    LastWriteIsACall(f.epoch, hours * HOUR, events);
    var a := LastWrite(f.epoch, hours * HOUR, events).value;
    var i := EventOfAMove(moves, f, a);
    LegalAt(s, moves, hours, i);
    CallReads(Final(s, moves[..i]), moves[i], hours, f);
    LastWriteInTime(f.epoch, hours * HOUR, events);
    AllRead(a, WorldOf(moves[i]).readings(f));
    assert ReadEverywhere(moves[i], f);
  }

  lemma NothingRun(hour: int, retention: nat)
    ensures Run(hour, retention, []) == None
  {
  }

  lemma {:induction false} LastWriteInTime(hour: int, retention: nat, events: seq<HourEvent>)
    ensures LastWrite(hour, retention, events).Some? ==>
              LastWrite(hour, retention, events).value.now < hour + retention
    decreases |events|
  {
    hide Knows;
    if events != [] {
      LastWriteInTime(hour, retention, events[..|events| - 1]);
    }
  }

  lemma AllRead(a: Attempt, readings: map<string, HourRollup.Reading>)
    requires ReadFrom(a.latest, a.missing, readings) && a.missing == {}
    ensures forall l :: l in readings ==> readings[l].Read?
  {
    forall l | l in readings ensures readings[l].Read? {
      assert readings[l].Unreadable? ==> l in a.missing;
    }
  }

  lemma {:induction false} PossibleIsLegal(s: System, moves: seq<Move>, hours: nat, svc: string)
    requires Possible(s, moves, hours, svc)
    ensures LegalRun(s, moves, hours)
    decreases |moves|
  {
    hide Legal, Sees, Final;
    if moves != [] {
      PossibleIsLegal(s, moves[..|moves| - 1], hours, svc);
    }
  }

  /**
   * Whenever nothing is owed and no backfill is under way, every finished hour
   * of the window with samples was last written by a call that came after its
   * end and read every location, and holds of each location the latest of its
   * readings with the most checks.
   */
  lemma NothingOwedMeansReadEverywhere(rollups: map<Field, AggregateRollup>, daily: map<Field, DailyRollup>, start: int,
                                       moves: seq<Move>, hours: nat, f: Field, loc: string)
    requires (forall g :: StoredOk(Lookup(rollups, g))) && f !in rollups
    requires Possible(Begins(rollups, daily, start), moves, hours, f.svc)
    requires forall i :: 0 <= i < |moves| ==> Sampled(moves[i], f)
    requires var s := Final(Begins(rollups, daily, start), moves);
             RepairFlags.Owed(s.flags) == 0 && !s.flags.backfilling && InWindow(f.epoch, s.last, hours)
    ensures exists i :: 0 <= i < |moves| && ReadEverywhere(moves[i], f) &&
                        LastWrite(f.epoch, hours * HOUR, EventsOf(moves, f)) == CallIn(moves[i], f)
    ensures Lookup(LocationsOf(Lookup(Final(Begins(rollups, daily, start), moves).rollups, f)), loc) ==
            BestReading(f.epoch, hours * HOUR, EventsOf(moves, f), loc)
  {
    hide StoredOk, InWindow, Marked, Sampled, Possible, Final, LegalRun, Run, LastWrite, BestReading, EventsOf;
    hide PrimaryStore.Counted, Complete, ReadEverywhere, CallIn;
    var s := Begins(rollups, daily, start);
    NothingOwedMeansComplete(rollups, daily, start, moves, hours, f);
    PossibleIsLegal(s, moves, hours, f.svc);
    CompleteWasReadEverywhere(s, moves, hours, f);
    assert Run(f.epoch, hours * HOUR, []) == None by { hide *; NothingRun(f.epoch, hours * HOUR); }
    HourIsARun(s, moves, hours, f, []);
    assert [] + EventsOf(moves, f) == EventsOf(moves, f);
    EventsCount(s, moves, hours, f);
    RunKeepsBestReading(f.epoch, hours * HOUR, EventsOf(moves, f), loc);
  }
}

/**
 * The repair flags of the rollup runner over any run: noteStoreFailed,
 * rollupServiceHour, afterPass and launchBackfill in
 * dashboard/internal/rollup/rollup.go.
 */
module RepairFlags {

  /** fullBackfillGap in seconds. */
  const FULL_BACKFILL_GAP := 3600

  datatype Flags = Flags(
    backfilling: bool, down: set<string>,
    readMissing: bool, recovered: bool, storeFailed: bool, needFull: bool, lastFull: int)

  datatype Event =
    | Miss
    | Failure
    | PassEnds(now: int, down: set<string>, failed: bool)
    | BackfillEnds

  /** The runner starts with a full backfill. */
  function Started(now: int): Flags {
    Flags(true, {}, false, false, false, false, now)
  }

  predicate Recovers(f: Flags, down: set<string>) {
    f.recovered || f.down - down != {}
  }

  predicate WantsFull(f: Flags, now: int, failed: bool) {
    f.needFull && !failed && now - f.lastFull >= FULL_BACKFILL_GAP
  }

  predicate WantsRepair(f: Flags, down: set<string>, failed: bool) {
    (f.readMissing && (Recovers(f, down) || down == {})) || (f.storeFailed && !failed)
  }

  /** The pass that ends starts a backfill. */
  predicate Starts(f: Flags, e: Event) {
    e.PassEnds? && !f.backfilling && (WantsFull(f, e.now, e.failed) || WantsRepair(f, e.down, e.failed))
  }

  /** It starts a full one. */
  predicate StartsFull(f: Flags, e: Event) {
    Starts(f, e) && WantsFull(f, e.now, e.failed)
  }

  function Step(f: Flags, e: Event): Flags {
    match e
    case Miss => f.(readMissing := true)
    case Failure => f.(storeFailed := true, needFull := true)
    case BackfillEnds => f.(backfilling := false)
    case PassEnds(now, down, failed) =>
      if !Starts(f, e) then f.(down := down, recovered := Recovers(f, down))
      else
        Flags(true, down, false, false, false,
              f.needFull && !WantsFull(f, now, failed), if WantsFull(f, now, failed) then now else f.lastFull)
  }

  function Play(f: Flags, events: seq<Event>): Flags {
    if events == [] then f else Step(Play(f, events[..|events| - 1]), events[|events| - 1])
  }

  /** What one service-hour can make the runner note. */
  function Noted(f: Flags, miss: bool, failure: bool): Flags {
    var g := if miss then Step(f, Miss) else f;
    if failure then Step(g, Failure) else g
  }

  /** A backfill ends only while one is running. */
  predicate Possible(start: int, events: seq<Event>) {
    forall i :: 0 <= i < |events| && events[i].BackfillEnds? ==> Running(start, events[..i]) > 0
  }

  /** Backfills started, with the first one, and not yet ended. */
  function Running(start: int, events: seq<Event>): int {
    if events == [] then 1
    else
      var p, e := events[..|events| - 1], events[|events| - 1];
      Running(start, p)
      + (if Starts(Play(Started(start), p), e) then 1 else 0)
      - (if e.BackfillEnds? then 1 else 0)
  }

  lemma PossiblePrefix(start: int, events: seq<Event>)
    requires events != [] && Possible(start, events)
    ensures Possible(start, events[..|events| - 1])
  {
    var p := events[..|events| - 1];
    forall i | 0 <= i < |p| && p[i].BackfillEnds? ensures Running(start, p[..i]) > 0 {
      assert p[i] == events[i] && p[..i] == events[..i];
    }
  }

  /** At most one backfill runs at any time, and the flag says whether one does. */
  lemma {:induction false} OneBackfillAtATime(start: int, events: seq<Event>)
    requires Possible(start, events)
    ensures Running(start, events) == if Play(Started(start), events).backfilling then 1 else 0
    decreases |events|
  {
    if events != [] {
      PossiblePrefix(start, events);
      OneBackfillAtATime(start, events[..|events| - 1]);
      assert events[|events| - 1].BackfillEnds? ==> Running(start, events[..|events| - 1]) > 0;
    }
  }

  /** When the full backfills started, the first one included. */
  function FullStarts(start: int, events: seq<Event>): (r: seq<int>)
    ensures r != []
  {
    if events == [] then [start]
    else
      var p, e := events[..|events| - 1], events[|events| - 1];
      FullStarts(start, p) + if StartsFull(Play(Started(start), p), e) then [e.now] else []
  }

  /** Any two full backfills start at least the gap apart. */
  lemma {:induction false} FullBackfillsAreApart(start: int, events: seq<Event>)
    ensures var t := FullStarts(start, events);
            && Play(Started(start), events).lastFull == t[|t| - 1]
            && forall i, j :: 0 <= i < j < |t| ==> t[j] - t[i] >= FULL_BACKFILL_GAP
    decreases |events|
  {
    if events != [] {
      var p := events[..|events| - 1];
      FullBackfillsAreApart(start, p);
      var t := FullStarts(start, p);
      assert forall i :: 0 <= i < |t| - 1 ==> t[|t| - 1] - t[i] >= FULL_BACKFILL_GAP;
    }
  }

  /** An event of the given kind came after the last start of a backfill, or of a full one. */
  predicate Since(start: int, events: seq<Event>, kind: Event -> bool, full: bool) {
    events != [] &&
    var p, e := events[..|events| - 1], events[|events| - 1];
    var f := Play(Started(start), p);
    if (if full then StartsFull(f, e) else Starts(f, e)) then false
    else kind(e) || Since(start, p, kind, full)
  }

  /** Each flag says exactly that what it stands for was noted since the start that clears it. */
  lemma {:induction false} FlagsRemember(start: int, events: seq<Event>)
    ensures var f := Play(Started(start), events);
            && f.readMissing == Since(start, events, (e: Event) => e.Miss?, false)
            && f.storeFailed == Since(start, events, (e: Event) => e.Failure?, false)
            && f.needFull == Since(start, events, (e: Event) => e.Failure?, true)
    decreases |events|
  {
    if events != [] {
      FlagsRemember(start, events[..|events| - 1]);
    }
  }

  // ------------------------------------------------- when a pass starts one

  /** The i-th event is a pass that starts a backfill. */
  ghost predicate StartsAt(start: int, events: seq<Event>, i: nat)
    requires i < |events|
  {
    Starts(Play(Started(start), events[..i]), events[i])
  }

  /** No pass ends between these two. */
  ghost predicate Consecutive(events: seq<Event>, i: int, j: int) {
    && 0 <= i < j < |events| && events[i].PassEnds? && events[j].PassEnds?
    && forall k :: i < k < j ==> !events[k].PassEnds?
  }

  /** The pass at `j` reads a location again that was down in the pass before it. */
  ghost predicate AnswersAgain(events: seq<Event>, i: int, j: int) {
    Consecutive(events, i, j) && exists l :: l in events[i].down && l !in events[j].down
  }

  /** A pass after the last start, before the n-th event, read a location again that was down in the pass before it. */
  ghost predicate RecoveredSince(start: int, events: seq<Event>, n: nat)
    requires n <= |events|
  {
    exists i, j :: AnswersAgain(events, i, j) && forall k :: j <= k < n ==> !StartsAt(start, events, k)
  }

  /** The locations down in the last pass. */
  ghost predicate LastDown(events: seq<Event>, down: set<string>) {
    if exists i :: IsLastPass(events, i) then exists i :: IsLastPass(events, i) && events[i].down == down
    else down == {}
  }

  ghost predicate IsLastPass(events: seq<Event>, i: int) {
    0 <= i < |events| && events[i].PassEnds? && forall k :: i < k < |events| ==> !events[k].PassEnds?
  }

  lemma {:induction false} DownIsLast(start: int, events: seq<Event>)
    ensures LastDown(events, Play(Started(start), events).down)
    decreases |events|
  {
    if events != [] {
      var n := |events| - 1;
      DownIsLast(start, events[..n]);
      if events[n].PassEnds? {
        assert IsLastPass(events, n);
      } else {
        if exists i :: IsLastPass(events[..n], i) {
          var i :| IsLastPass(events[..n], i) && events[..n][i].down == Play(Started(start), events).down;
          assert IsLastPass(events, i);
        }
        if exists i :: IsLastPass(events, i) {
          var i :| IsLastPass(events, i);
          assert IsLastPass(events[..n], i);
        }
      }
    }
  }

  /** The pass that ends the events reads a location again, as the flags see it. */
  lemma AnswersNow(start: int, events: seq<Event>)
    requires events != [] && events[|events| - 1].PassEnds?
    ensures var n := |events| - 1;
            Play(Started(start), events[..n]).down - events[n].down != {} <==>
            exists i :: AnswersAgain(events, i, n)
  {
    hide Play;
    var n := |events| - 1;
    var p := events[..n];
    var down := Play(Started(start), p).down;
    DownIsLast(start, p);
    if exists i :: IsLastPass(p, i) {
      var i :| IsLastPass(p, i) && p[i].down == down;
      forall j ensures AnswersAgain(events, j, n) <==> j == i && exists l :: l in down && l !in events[n].down {
        OnlyLast(events, i, j);
      }
      SomeLeft(down, events[n].down);
      assert down - events[n].down != {} ==> AnswersAgain(events, i, n);
    } else {
      forall i ensures !AnswersAgain(events, i, n) {
        assert Consecutive(events, i, n) ==> IsLastPass(p, i);
      }
    }
  }

  lemma SomeLeft(a: set<string>, b: set<string>)
    ensures a - b != {} <==> exists l :: l in a && l !in b
  {
    if a - b != {} {
      var l :| l in a - b;
      assert l in a && l !in b;
    }
    if exists l :: l in a && l !in b {
      var l :| l in a && l !in b;
      assert l in a - b;
    }
  }

  lemma OnlyLast(events: seq<Event>, i: int, j: int)
    requires events != [] && events[|events| - 1].PassEnds? && IsLastPass(events[..|events| - 1], i)
    ensures Consecutive(events, j, |events| - 1) <==> j == i
  {
    var p := events[..|events| - 1];
    assert forall k :: 0 <= k < |p| ==> p[k] == events[k];
  }

  /** The events after some pass do not change which earlier ones are passes one after the other. */
  lemma SameAnswers(events: seq<Event>, i: int, j: int)
    requires events != [] && j < |events| - 1
    ensures AnswersAgain(events[..|events| - 1], i, j) <==> AnswersAgain(events, i, j)
  {
  }

  lemma SameStarts(start: int, events: seq<Event>, k: nat)
    requires k < |events| - 1
    ensures StartsAt(start, events[..|events| - 1], k) == StartsAt(start, events, k)
  {
    assert events[..|events| - 1][..k] == events[..k];
  }

  /** One more event keeps what was seen since the last start, unless it is a start, and may see more. */
  lemma RecoveredMore(start: int, events: seq<Event>)
    requires events != []
    ensures var n := |events| - 1;
            RecoveredSince(start, events, n + 1) <==>
            !StartsAt(start, events, n) &&
            (RecoveredSince(start, events[..n], n) || exists i :: AnswersAgain(events, i, n))
    ensures var n := |events| - 1;
            RecoveredSince(start, events, n) <==>
            RecoveredSince(start, events[..n], n) || exists i :: AnswersAgain(events, i, n)
  {
    hide AnswersAgain, StartsAt;
    var n := |events| - 1;
    var p := events[..n];
    forall k | 0 <= k < n ensures StartsAt(start, p, k) == StartsAt(start, events, k) {
      SameStarts(start, events, k);
    }
    forall i, j | j < n ensures AnswersAgain(p, i, j) <==> AnswersAgain(events, i, j) {
      SameAnswers(events, i, j);
    }
    forall i, j ensures (AnswersAgain(p, i, j) ==> 0 <= j < n) && (AnswersAgain(events, i, j) ==> 0 <= j <= n) {
      AnswersWithin(p, i, j);
      AnswersWithin(events, i, j);
    }
    if RecoveredSince(start, p, n) {
      var i, j :| AnswersAgain(p, i, j) && forall k :: j <= k < n ==> !StartsAt(start, p, k);
      assert AnswersAgain(events, i, j);
    }
    if exists i :: AnswersAgain(events, i, n) {
      var i :| AnswersAgain(events, i, n);
      SeenNow(start, events, i, n);
    }
    if RecoveredSince(start, events, n) {
      var i, j :| AnswersAgain(events, i, j) && forall k :: j <= k < n ==> !StartsAt(start, events, k);
      assert j < n ==> AnswersAgain(p, i, j);
    }
  }

  lemma SeenNow(start: int, events: seq<Event>, i: int, n: nat)
    requires n <= |events| && AnswersAgain(events, i, n)
    ensures RecoveredSince(start, events, n)
  {
  }

  lemma AnswersWithin(events: seq<Event>, i: int, j: int)
    ensures AnswersAgain(events, i, j) ==> 0 <= j < |events|
  {
  }

  lemma {:induction false} RecoveredIsSeen(start: int, events: seq<Event>)
    ensures Play(Started(start), events).recovered <==> RecoveredSince(start, events, |events|)
    decreases |events|
  {
    hide RecoveredSince, AnswersAgain;
    if events == [] {
      NothingSeen(start);
    } else {
      var n := |events| - 1;
      RecoveredIsSeen(start, events[..n]);
      RecoveredMore(start, events);
      if events[n].PassEnds? {
        AnswersNow(start, events);
      } else {
        NotAPass(events, n);
      }
    }
  }

  lemma NothingSeen(start: int)
    ensures !RecoveredSince(start, [], 0)
  {
  }

  lemma NotAPass(events: seq<Event>, n: int)
    requires n == |events| - 1 && events != [] && !events[n].PassEnds?
    ensures forall i :: !AnswersAgain(events, i, n)
  {
  }

  /**
   * When a pass starts a backfill, said by the events alone. In every run with
   * none active, it does if and only if one of these holds:
   * - a miss was noted since the last start, and the pass found no location
   *   down, or since then a location down in one pass answered in the next;
   * - a failure was noted since the last start, and the pass failed nowhere;
   * - a failure was noted since the last start of a full backfill, the pass
   *   failed nowhere, and that start was at least the gap ago.
   * The backfill is a full one exactly in the last case.
   */
  lemma PassStartsWhen(start: int, events: seq<Event>)
    requires events != [] && events[|events| - 1].PassEnds?
    requires Running(start, events[..|events| - 1]) == 0 && Possible(start, events[..|events| - 1])
    ensures var p, e := events[..|events| - 1], events[|events| - 1];
            var full := Since(start, p, (x: Event) => x.Failure?, true) && !e.failed &&
                        e.now - FullStarts(start, p)[|FullStarts(start, p)| - 1] >= FULL_BACKFILL_GAP;
            && (StartsFull(Play(Started(start), p), e) <==> full)
            && (StartsAt(start, events, |events| - 1) <==>
                || (Since(start, p, (x: Event) => x.Miss?, false) &&
                    (e.down == {} || RecoveredSince(start, events, |events| - 1)))
                || (Since(start, p, (x: Event) => x.Failure?, false) && !e.failed)
                || full)
  {
    hide RecoveredSince, AnswersAgain, Since, Play, Possible, Running;
    var n := |events| - 1;
    var p, e := events[..n], events[n];
    OneBackfillAtATime(start, p);
    FlagsRemember(start, p);
    FullBackfillsAreApart(start, p);
    RecoveredIsSeen(start, p);
    RecoveredMore(start, events);
    AnswersNow(start, events);
  }

  function CountMisses(events: seq<Event>): nat {
    if events == [] then 0
    else CountMisses(events[..|events| - 1]) + if events[|events| - 1].Miss? then 1 else 0
  }

  function CountFailures(events: seq<Event>): nat {
    if events == [] then 0
    else CountFailures(events[..|events| - 1]) + if events[|events| - 1].Failure? then 1 else 0
  }

  /** Backfills started by passes. */
  function CountStarts(start: int, events: seq<Event>): nat {
    if events == [] then 0
    else
      var p := events[..|events| - 1];
      CountStarts(start, p) + if Starts(Play(Started(start), p), events[|events| - 1]) then 1 else 0
  }

  /** Backfills still owed: one for each flag that asks for one. */
  function Owed(f: Flags): nat {
    (if f.readMissing then 1 else 0) + (if f.storeFailed then 1 else 0) + (if f.needFull then 1 else 0)
  }

  /** Each backfill is paid for by a missed read, or by one of the two a primary failure pays for. */
  lemma {:induction false} StartsArePaidFor(start: int, events: seq<Event>)
    ensures CountStarts(start, events) + Owed(Play(Started(start), events))
            <= CountMisses(events) + 2 * CountFailures(events)
    decreases |events|
  {
    if events != [] {
      StartsArePaidFor(start, events[..|events| - 1]);
    }
  }

  // ------------------------------------------------------------ clean passes

  /** A pass that read everything and failed nowhere, and the end of the backfill it starts, if any. */
  function CleanPass(f: Flags, now: int): seq<Event> {
    [PassEnds(now, {}, false)] + if Starts(f, PassEnds(now, {}, false)) then [BackfillEnds] else []
  }

  lemma CleanPassPlays(f: Flags, now: int)
    requires !f.backfilling
    ensures var g := Play(f, CleanPass(f, now));
            && !g.backfilling && !g.readMissing && !g.storeFailed
            && g.needFull == (f.needFull && now - f.lastFull < FULL_BACKFILL_GAP)
            && (g.lastFull == f.lastFull || g.lastFull == now)
  {
    var e := PassEnds(now, {}, false);
    assert [e][..0] == [];
    assert Play(f, [e]) == Step(f, e);
    assert [e, BackfillEnds][..1] == [e];
  }

  /**
   * In every run, once no backfill is active, a clean pass and its backfill
   * leave no repair owed but a full one held back by the gap, and a second one
   * the gap later leaves nothing owed at all.
   */
  lemma CleanPassesSettle(start: int, events: seq<Event>, t: int, u: int)
    requires !Play(Started(start), events).backfilling && u - t >= FULL_BACKFILL_GAP
    requires var full := FullStarts(start, events); u - full[|full| - 1] >= FULL_BACKFILL_GAP
    ensures var once := events + CleanPass(Play(Started(start), events), t);
            var g := Play(Started(start), once);
            var twice := once + CleanPass(g, u);
            && !g.readMissing && !g.storeFailed && (g.needFull ==> t - g.lastFull < FULL_BACKFILL_GAP)
            && Owed(Play(Started(start), twice)) == 0 && !Play(Started(start), twice).backfilling
  {
    var f := Play(Started(start), events);
    FullBackfillsAreApart(start, events);
    var once := events + CleanPass(f, t);
    PlayAppend(Started(start), events, CleanPass(f, t));
    CleanPassPlays(f, t);
    var g := Play(Started(start), once);
    hide CleanPass;
    PlayAppend(Started(start), once, CleanPass(g, u));
    CleanPassPlays(g, u);
  }

  // ------------------------------------------- what a pass or a backfill notes

  lemma {:induction false} PlayAppend(f: Flags, a: seq<Event>, b: seq<Event>)
    ensures Play(f, a + b) == Play(Play(f, a), b)
    decreases |b|
  {
    if b == [] {
      assert a + b == a;
    } else {
      PlayAppend(f, a, b[..|b| - 1]);
      assert (a + b)[..|a + b| - 1] == a + b[..|b| - 1];
    }
  }

  /** Only misses and failures were noted, and whether there was any of each. */
  ghost predicate Notes(noted: seq<Event>, miss: bool, failure: bool) {
    && (forall i :: 0 <= i < |noted| ==> noted[i].Miss? || noted[i].Failure?)
    && (miss <==> Miss in noted)
    && (failure <==> Failure in noted)
  }

  function NotedMore(noted: seq<Event>, miss: bool, failure: bool): seq<Event> {
    noted + (if miss then [Miss] else []) + (if failure then [Failure] else [])
  }

  lemma NothingNoted(f: Flags)
    ensures Notes([], false, false) && Play(f, []) == f
  {
  }

  lemma NoteMore(f: Flags, noted: seq<Event>, miss: bool, failure: bool, moreMiss: bool, moreFailure: bool)
    requires Notes(noted, miss, failure)
    ensures var more := NotedMore(noted, moreMiss, moreFailure);
            && Notes(more, miss || moreMiss, failure || moreFailure)
            && Play(f, more) == Noted(Play(f, noted), moreMiss, moreFailure)
  {
    var first := noted + (if moreMiss then [Miss] else []);
    var more := NotedMore(noted, moreMiss, moreFailure);
    if moreMiss {
      assert first[..|first| - 1] == noted && first[|noted|] == Miss;
    } else {
      assert first == noted;
    }
    if moreFailure {
      assert more[..|more| - 1] == first && more[|first|] == Failure;
    } else {
      assert more == first;
    }
    assert forall i :: 0 <= i < |noted| ==> more[i] == noted[i];
  }

  lemma NotesTogether(f: Flags, a: seq<Event>, b: seq<Event>, missA: bool, failureA: bool, missB: bool, failureB: bool)
    requires Notes(a, missA, failureA) && Notes(b, missB, failureB)
    ensures Notes(a + b, missA || missB, failureA || failureB) && Play(f, a + b) == Play(Play(f, a), b)
  {
    PlayAppend(f, a, b);
  }

  /** However often a miss or a failure was noted, it raises its flags once. */
  lemma {:induction false} PlayNotes(f: Flags, noted: seq<Event>, miss: bool, failure: bool)
    requires Notes(noted, miss, failure)
    ensures Play(f, noted) == Noted(f, miss, failure)
    decreases |noted|
  {
    if noted != [] {
      var p, e := noted[..|noted| - 1], noted[|noted| - 1];
      assert noted == p + [e];
      PlayNotes(f, p, Miss in p, Failure in p);
    }
  }
}

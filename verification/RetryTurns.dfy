/**
 * What each retry in the background sends, reports and records, in every
 * interleaving of Announcing: retryAlert and markAnnounced in
 * internal/controller/retry.go.
 */
module RetryTurns {
  import opened Base
  import opened Alerts
  import opened RetryRegistry
  import opened Announcing
  import opened StopAndRetries

  /** What the notifier answered the retry so far. */
  function AnswersOf(trace: seq<Action>, id: nat): seq<SendResult> {
    if trace == [] then []
    else
      var a := trace[|trace| - 1];
      AnswersOf(trace[..|trace| - 1], id) + if a.RunSend? && a.id == id then [a.answer] else []
  }

  predicate Stops(a: Action, id: nat) {
    a.RunStop? && a.id == id && !a.read.Gone?
  }

  predicate FindsGone(a: Action, id: nat) {
    (a.RunStop? || a.RunTimer?) && a.id == id && a.read.Gone?
  }

  predicate NotesIt(a: Action, id: nat) {
    a.RunNote? && a.id == id
  }

  /** The retry's last read of the status to record the change, or its last write of it. */
  function LastMark(trace: seq<Action>, id: nat): Option<Action> {
    if trace == [] then None
    else
      var a := trace[|trace| - 1];
      if (a.MarkGet? || a.MarkPut?) && a.id == id then Some(a) else LastMark(trace[..|trace| - 1], id)
  }

  predicate RefusedAgain(m: Action) {
    m.MarkPut? && m.w.Refused? && m.again
  }

  /** The last attempt to record the change leaves it to be noted: a write that was done, or nothing to write. */
  predicate ToNote(m: Action) {
    (m.MarkPut? && m.w.Written?) || (m.MarkGet? && !m.read.Unreadable?)
  }

  /**
   * The retry is done with recording the change: it does not stop at a write
   * refused for its version while it may try again, and it noted what is to be.
   */
  ghost predicate DoneMarking(trace: seq<Action>, id: nat) {
    var m := LastMark(trace, id);
    m.Some? && !RefusedAgain(m.value) && (ToNote(m.value) ==> Happened(trace, NotesIt, id))
  }

  predicate ReportsIt(a: Action, id: nat) {
    a.RunReport? && a.id == id
  }

  /** Some action of the trace is like that. */
  predicate Happened(trace: seq<Action>, p: (Action, nat) -> bool, id: nat) {
    exists i :: 0 <= i < |trace| && p(trace[i], id)
  }

  predicate AllRetryable(answers: seq<SendResult>) {
    forall i :: 0 <= i < |answers| ==> answers[i].Retryable?
  }

  /** All but the last answer leave it to the next try. */
  predicate LastIs(answers: seq<SendResult>, last: SendResult) {
    answers != [] && answers[|answers| - 1] == last && AllRetryable(answers[..|answers| - 1])
  }

  /** The retry was stopped, or its notifier failed for good or for the last time. */
  ghost predicate MayReport(trace: seq<Action>, id: nat, tries: nat) {
    var answers := AnswersOf(trace, id);
    || (Happened(trace, Stops, id) && AllRetryable(answers))
    || LastIs(answers, Permanent)
    || (AllRetryable(answers) && |answers| == tries - 1)
  }

  /** How a retry that has come to its end got there. */
  ghost predicate CameToEnd(trace: seq<Action>, id: nat, tries: nat, records: bool) {
    var answers := AnswersOf(trace, id);
    || (Happened(trace, ReportsIt, id) && MayReport(trace, id, tries))
    || (LastIs(answers, Sent) && (records ==> DoneMarking(trace, id)))
    || (Happened(trace, FindsGone, id) && AllRetryable(answers))
  }

  ghost predicate TurnOk(trace: seq<Action>, id: nat, r: Run, tries: nat) {
    var answers, mark := AnswersOf(trace, id), LastMark(trace, id);
    && |answers| <= tries - 1
    && (r.phase.Waiting? || r.phase.Trying? ==> mark.None?)
    && match r.phase
       case Waiting(try) => try == |answers| + 2 && try <= tries && AllRetryable(answers)
       case Trying(try) => try == |answers| + 2 && try <= tries && AllRetryable(answers)
       case Marking => r.records && LastIs(answers, Sent) && (mark.Some? ==> RefusedAgain(mark.value))
       case MarkRead(_) => r.records && LastIs(answers, Sent) && mark.Some? && mark.value.MarkGet?
       case Noting => r.records && LastIs(answers, Sent) && mark.Some? && ToNote(mark.value)
       case Reporting => MayReport(trace, id, tries)
       case _ => CameToEnd(trace, id, tries, r.records)
  }

  /** No retry without tries for it. */
  predicate TriesLeft(c: Config, s: State) {
    (s.phase.Queueing? || s.phase.ChangeQueueing?) && s.phase.todo != [] ==> c.tries >= 2
  }

  ghost predicate TurnsOk(c: Config, s: State, trace: seq<Action>) {
    && TriesLeft(c, s)
    && (forall id :: 0 <= id < |s.runs| ==> TurnOk(trace, id, s.runs[id], c.tries))
    && (forall id :: |s.runs| <= id ==> AnswersOf(trace, id) == [] && LastMark(trace, id) == None)
  }

  lemma HappenedMore(trace: seq<Action>, a: Action, p: (Action, nat) -> bool, id: nat)
    ensures Happened(trace + [a], p, id) <==> Happened(trace, p, id) || p(a, id)
  {
    var more := trace + [a];
    assert more[|trace|] == a;
    if Happened(trace, p, id) {
      var i :| 0 <= i < |trace| && p(trace[i], id);
      assert more[i] == trace[i];
    }
  }

  lemma AnswersMore(trace: seq<Action>, a: Action, id: nat)
    ensures AnswersOf(trace + [a], id) ==
            if a.RunSend? && a.id == id then AnswersOf(trace, id) + [a.answer] else AnswersOf(trace, id)
  {
    assert (trace + [a])[..|trace|] == trace;
  }

  lemma MarkMore(trace: seq<Action>, a: Action, id: nat)
    ensures LastMark(trace + [a], id) ==
            if (a.MarkGet? || a.MarkPut?) && a.id == id then Some(a) else LastMark(trace, id)
  {
    assert (trace + [a])[..|trace|] == trace;
  }

  /** An action that is not of the retry leaves its turns as they are. */
  lemma OtherTurn(trace: seq<Action>, a: Action, id: nat, r: Run, tries: nat)
    requires TurnOk(trace, id, r, tries) && (ByRun(a) ==> a.id != id)
    ensures TurnOk(trace + [a], id, r, tries)
  {
    hide Happened, AnswersOf, LastMark;
    AnswersMore(trace, a, id);
    MarkMore(trace, a, id);
    HappenedMore(trace, a, Stops, id);
    HappenedMore(trace, a, FindsGone, id);
    HappenedMore(trace, a, NotesIt, id);
    HappenedMore(trace, a, ReportsIt, id);
  }

  lemma SameTurn(trace: seq<Action>, id: nat, r: Run, q: Run, tries: nat)
    requires TurnOk(trace, id, r, tries) && q.phase == r.phase && q.records == r.records
    ensures TurnOk(trace, id, q, tries)
  {
    hide Happened, AnswersOf, MayReport, CameToEnd, LastIs, AllRetryable, LastMark;
  }

  lemma AllButLast(answers: seq<SendResult>, last: SendResult)
    requires AllRetryable(answers)
    ensures LastIs(answers + [last], last) && (last.Retryable? ==> AllRetryable(answers + [last]))
  {
    assert (answers + [last])[..|answers|] == answers;
  }

  lemma SendTurn(c: Config, s: State, a: Action, trace: seq<Action>)
    requires a.RunSend? && RunEnabled(s, a) && TurnOk(trace, a.id, s.runs[a.id], c.tries)
    ensures TurnOk(trace + [a], a.id, RunStep(c, s, a).runs[a.id], c.tries)
  {
    hide Happened, AnswersOf, AllRetryable, LastIs, AcceptedBy, Stops, FindsGone, NotesIt, ReportsIt, LastMark;
    var id := a.id;
    MarkMore(trace, a, id);
    AnswersMore(trace, a, id);
    AllButLast(AnswersOf(trace, id), a.answer);
    HappenedMore(trace, a, Stops, id);
    HappenedMore(trace, a, NotesIt, id);
  }

  lemma OwnTurn(c: Config, s: State, a: Action, trace: seq<Action>)
    requires ByRun(a) && !a.RunSend? && RunEnabled(s, a) && TurnOk(trace, a.id, s.runs[a.id], c.tries)
    ensures TurnOk(trace + [a], a.id, RunStep(c, s, a).runs[a.id], c.tries)
  {
    hide Happened, AnswersOf, AllRetryable, LastIs, Recorded, MarkRecorded, Matches, Possible, Without, LastMark;
    var id := a.id;
    MarkMore(trace, a, id);
    AnswersMore(trace, a, id);
    HappenedMore(trace, a, Stops, id);
    HappenedMore(trace, a, FindsGone, id);
    HappenedMore(trace, a, NotesIt, id);
    HappenedMore(trace, a, ReportsIt, id);
  }

  lemma TurnsRun(c: Config, s: State, a: Action, trace: seq<Action>)
    requires TurnsOk(c, s, trace) && ByRun(a) && Enabled(c, s, a)
    ensures TurnsOk(c, Apply(c, s, a), trace + [a])
  {
    hide TurnOk, AnswersOf, LastMark, RunStep, RunEnabled;
    RunStepFrame(c, s, a);
    assert RunEnabled(s, a);
    if a.RunSend? {
      SendTurn(c, s, a, trace);
    } else {
      OwnTurn(c, s, a, trace);
    }
    var t := Apply(c, s, a);
    forall id | 0 <= id < |t.runs| ensures TurnOk(trace + [a], id, t.runs[id], c.tries) {
      if id != a.id {
        OtherTurn(trace, a, id, s.runs[id], c.tries);
      }
    }
    forall id | |t.runs| <= id ensures AnswersOf(trace + [a], id) == [] && LastMark(trace + [a], id) == None {
      AnswersMore(trace, a, id);
      MarkMore(trace, a, id);
    }
  }

  lemma NewTurn(trace: seq<Action>, id: nat, r: Run, tries: nat)
    requires AnswersOf(trace, id) == [] && LastMark(trace, id) == None && tries >= 2 && r.phase == Waiting(2)
    ensures TurnOk(trace, id, r, tries)
  {
    hide AnswersOf, LastMark;
  }

  lemma TurnsOther(c: Config, s: State, a: Action, trace: seq<Action>)
    requires TurnsOk(c, s, trace) && !ByRun(a) && Enabled(c, s, a)
    ensures TurnsOk(c, Apply(c, s, a), trace + [a])
  {
    hide TurnOk, AnswersOf, LastMark, TriesLeft;
    var t := Apply(c, s, a);
    RunsKept(c, s, a);
    forall id | 0 <= id < |t.runs| ensures TurnOk(trace + [a], id, t.runs[id], c.tries) {
      if id < |s.runs| {
        OtherTurn(trace, a, id, s.runs[id], c.tries);
        SameTurn(trace + [a], id, s.runs[id], t.runs[id], c.tries);
      } else {
        AnswersMore(trace, a, id);
        MarkMore(trace, a, id);
        NewTurn(trace + [a], id, t.runs[id], c.tries);
      }
    }
    forall id | |t.runs| <= id ensures AnswersOf(trace + [a], id) == [] && LastMark(trace + [a], id) == None {
      AnswersMore(trace, a, id);
      MarkMore(trace, a, id);
    }
  }

  lemma RunsKept(c: Config, s: State, a: Action)
    requires TriesLeft(c, s) && !ByRun(a) && Enabled(c, s, a)
    ensures var t := Apply(c, s, a);
            && TriesLeft(c, t) && |s.runs| <= |t.runs|
            && (forall id :: 0 <= id < |s.runs| ==>
                  t.runs[id].phase == s.runs[id].phase && t.runs[id].records == s.runs[id].records)
            && (forall id :: |s.runs| <= id < |t.runs| ==> t.runs[id].phase == Waiting(2) && c.tries >= 2)
  {
    hide Positions, Without, Announced, Checked, Recorded, MarkRecorded, RetryRecords, Possible;
  }

  /** Every retry, in every interleaving, takes its turns as retryAlert does. */
  lemma {:induction false} AlwaysInTurn(c: Config, st: Status, trace: seq<Action>)
    requires Exec(c, st, trace).Some?
    ensures TurnsOk(c, Exec(c, st, trace).value, trace)
    decreases |trace|
  {
    hide Apply, Enabled, TurnOk;
    if trace != [] {
      var p, a := trace[..|trace| - 1], trace[|trace| - 1];
      AlwaysInTurn(c, st, p);
      assert p + [a] == trace;
      if ByRun(a) {
        TurnsRun(c, Exec(c, st, p).value, a, p);
      } else {
        TurnsOther(c, Exec(c, st, p).value, a, p);
      }
    }
  }

  /** A retry reports its failure only once it was stopped, failed for good, or failed all the tries it had. */
  lemma ReportsAfterAllTries(c: Config, st: Status, trace: seq<Action>, id: nat)
    requires Exec(c, st, trace).Some? && Enabled(c, Exec(c, st, trace).value, RunReport(id))
    ensures MayReport(trace, id, c.tries)
  {
    hide Exec, Apply, MayReport;
    AlwaysInTurn(c, st, trace);
    assert TurnOk(trace, id, Exec(c, st, trace).value.runs[id], c.tries);
  }

  /**
   * A retry that removes itself has reported its failure, has been told that
   * the monitor is gone, or was accepted, and then, if it may record the
   * change, has done so as far as it could; it sent at most as often as the
   * tries left.
   */
  lemma RemovedAtItsEnd(c: Config, st: Status, trace: seq<Action>, id: nat)
    requires Exec(c, st, trace).Some? && Enabled(c, Exec(c, st, trace).value, RunRemove(id))
    ensures CameToEnd(trace, id, c.tries, Exec(c, st, trace).value.runs[id].records)
    ensures |AnswersOf(trace, id)| <= c.tries - 1
  {
    hide Exec, Apply, CameToEnd, AnswersOf;
    AlwaysInTurn(c, st, trace);
    assert TurnOk(trace, id, Exec(c, st, trace).value.runs[id], c.tries);
  }
}

/** What the change alerts say and record, in every interleaving of Announcing. */
module ChangeChain {
  import opened Base
  import opened Alerts
  import opened RetryRegistry
  import opened Announcing
  import opened StopAndRetries

  /** What the last recorded alert announced. */
  function LastRecorded(alerts: seq<ChangeAlert>, init: string): string {
    if alerts == [] then init
    else
      var a := alerts[|alerts| - 1];
      if a.recorded then a.to else LastRecorded(alerts[..|alerts| - 1], init)
  }

  predicate AllAccepted(a: ChangeAlert) {
    forall k :: 0 <= k < |a.accepted| ==> a.accepted[k]
  }

  predicate OthersAccepted(a: ChangeAlert, notifier: nat) {
    forall k :: 0 <= k < |a.accepted| && k != notifier ==> a.accepted[k]
  }

  /** The newest status is the one the newest alert is about. */
  predicate Current(s: State) {
    s.hist != [] && s.alerts != [] && Matches(Last(s.hist), Last(s.alerts).to, Last(s.alerts).since)
  }

  /** The retry may still record its change. */
  predicate Marks(r: Run) {
    r.records && (r.phase.Waiting? || r.phase.Trying? || r.phase.Marking? || r.phase.MarkRead?)
  }

  ghost predicate NoMarks(s: State) {
    forall id :: 0 <= id < |s.runs| ==> !Marks(s.runs[id])
  }

  /** Every alert reports leaving the status last recorded as announced before it. */
  ghost predicate AlertsOk(c: Config, alerts: seq<ChangeAlert>, init: string) {
    forall j :: 0 <= j < |alerts| ==>
      && |alerts[j].accepted| == c.n && alerts[j].from != alerts[j].to
      && alerts[j].from == LastRecorded(alerts[..j], init)
      && (alerts[j].recorded ==> AllAccepted(alerts[j]))
  }

  ghost predicate StatusOk(s: State, init: string) {
    s.hist != [] && Announced(Last(s.hist)) == LastRecorded(s.alerts, init)
  }

  /** The newest alert is not recorded yet, and can be by `notifier` alone. */
  predicate Open(c: Config, s: State, notifier: nat) {
    s.alerts != [] && !Last(s.alerts).recorded && notifier < c.n && OthersAccepted(Last(s.alerts), notifier)
  }

  /** What the reconciler knows of the status it holds. */
  predicate Holding(s: State, at: nat, init: string) {
    at < |s.hist| && s.hist[at].notified.Some? && Announced(s.hist[at]) == LastRecorded(s.alerts, init) &&
    Matches(Last(s.hist), s.hist[at].last, s.hist[at].since)
  }

  ghost predicate PhaseOk(c: Config, s: State, init: string) {
    match s.phase
    case Idle => true
    case Got(_) => true
    case Stopping(_, _, _) => true
    case Refresh => NoMarks(s)
    case Ready(at) => NoMarks(s)
    case Sending(at) => NoMarks(s) && Holding(s, at, init)
    case Queueing(at, _) => NoMarks(s) && Holding(s, at, init)
    case Changing(at) => NoMarks(s) && Holding(s, at, init) && Announced(s.hist[at]) != s.hist[at].last
    case ChangeQueueing(todo, records) =>
      && s.alerts != []
      && (records && todo != [] ==> |todo| == 1 && NoMarks(s) && Current(s) && Open(c, s, todo[0]))
    case Recording(at) =>
      NoMarks(s) && at < |s.hist| && s.alerts != [] && !Last(s.alerts).recorded && AllAccepted(Last(s.alerts)) &&
      Last(s.alerts).to == s.hist[at].last
  }

  /** A retry that may still record its change is about the newest alert, and the only one. */
  predicate MarkOk(c: Config, s: State, r: Run) {
    && Current(s) && r.alert == Some(|s.alerts| - 1) && Open(c, s, r.notifier)
    && (r.phase.Marking? || r.phase.MarkRead? ==> AllAccepted(Last(s.alerts)))
    && (r.phase.MarkRead? ==>
          r.phase.m < |s.hist| && Matches(s.hist[r.phase.m], Last(s.alerts).to, Last(s.alerts).since))
  }

  ghost predicate MarksOk(c: Config, s: State) {
    && (forall id :: 0 <= id < |s.runs| && Marks(s.runs[id]) ==> MarkOk(c, s, s.runs[id]))
    && (forall id :: 0 <= id < |s.runs| && (s.runs[id].phase.Marking? || s.runs[id].phase.MarkRead?) ==>
        s.runs[id].records)
    && (forall i, j :: 0 <= i < j < |s.runs| && Marks(s.runs[i]) ==> !Marks(s.runs[j]))
  }

  ghost predicate ChainInv(c: Config, s: State, init: string) {
    AlertsOk(c, s.alerts, init) && StatusOk(s, init) && PhaseOk(c, s, init) && MarksOk(c, s)
  }

  // ------------------------------------------------------------ the alerts

  lemma {:induction false} SameRecorded(a: seq<ChangeAlert>, b: seq<ChangeAlert>, init: string)
    requires |a| == |b| && forall j :: 0 <= j < |a| ==> a[j].recorded == b[j].recorded && a[j].to == b[j].to
    ensures LastRecorded(a, init) == LastRecorded(b, init)
    decreases |a|
  {
    if a != [] {
      SameRecorded(a[..|a| - 1], b[..|b| - 1], init);
    }
  }

  lemma AcceptKeeps(c: Config, alerts: seq<ChangeAlert>, r: Run, init: string)
    requires AlertsOk(c, alerts, init) && r.alert.Some? && r.alert.value < |alerts|
    ensures AlertsOk(c, AcceptedBy(alerts, r), init)
    ensures LastRecorded(AcceptedBy(alerts, r), init) == LastRecorded(alerts, init)
  {
    var b := AcceptedBy(alerts, r);
    SameRecorded(b, alerts, init);
    forall j | 0 <= j < |b|
      ensures b[j].from == LastRecorded(b[..j], init)
    {
      SameRecorded(b[..j], alerts[..j], init);
    }
  }

  lemma RecordKeeps(c: Config, alerts: seq<ChangeAlert>, init: string)
    requires AlertsOk(c, alerts, init) && alerts != [] && AllAccepted(Last(alerts))
    ensures var b := MarkRecorded(alerts, |alerts| - 1);
            AlertsOk(c, b, init) && LastRecorded(b, init) == Last(alerts).to
  {
    var b := MarkRecorded(alerts, |alerts| - 1);
    forall j | 0 <= j < |b|
      ensures b[j].from == LastRecorded(b[..j], init)
    {
      assert b[..j] == alerts[..j];
    }
  }

  lemma AlertKeeps(c: Config, alerts: seq<ChangeAlert>, a: ChangeAlert, init: string)
    requires AlertsOk(c, alerts, init) && |a.accepted| == c.n && a.from != a.to && !a.recorded
    requires a.from == LastRecorded(alerts, init)
    ensures AlertsOk(c, alerts + [a], init) && LastRecorded(alerts + [a], init) == LastRecorded(alerts, init)
  {
    var b := alerts + [a];
    assert b[..|alerts|] == alerts;
    forall j | 0 <= j < |b|
      ensures b[j].from == LastRecorded(b[..j], init)
    {
      assert j < |alerts| ==> b[..j] == alerts[..j] && b[j] == alerts[j];
    }
  }

  // ------------------------------------------------------------- the steps

  /** Actions of the reconciler that only move it on. */
  predicate Moves(a: Action) {
    a.Begin? || a.GiveUp? || a.StopLock? || a.StopWait? || a.Reread? || a.SendStatus?
  }

  lemma ChainMoves(c: Config, s: State, a: Action, init: string)
    requires ChainInv(c, s, init) && Enabled(c, s, a) && Moves(a)
    ensures ChainInv(c, Apply(c, s, a), init)
  {
    hide Positions, Without, Announced, LastRecorded, RetriedIn, RetryRecords, Matches, AllAccepted, OthersAccepted,
        AlertsOk;
    var t := Apply(c, s, a);
    assert t.alerts == s.alerts && t.hist == s.hist && t.runs == s.runs;
    MovedRuns(c, s, t, init);
  }

  lemma MovedRuns(c: Config, s: State, t: State, init: string)
    requires MarksOk(c, s) && t.alerts == s.alerts && t.hist == s.hist && t.runs == s.runs
    ensures MarksOk(c, t)
  {
    hide Matches, AllAccepted, OthersAccepted;
    forall id | 0 <= id < |t.runs| && Marks(t.runs[id]) ensures MarkOk(c, t, t.runs[id]) {
      assert MarkOk(c, s, s.runs[id]);
    }
  }

  lemma ChainStopReturn(c: Config, s: State, init: string)
    requires ChainInv(c, s, init) && Registered(s) && Enabled(c, s, StopReturn)
    ensures ChainInv(c, Apply(c, s, StopReturn), init)
  {
    hide Positions, Without, Announced, LastRecorded, RetriedIn, RetryRecords, Matches, AllAccepted, OthersAccepted,
        AlertsOk;
    forall id | 0 <= id < |s.runs| ensures !Marks(s.runs[id]) {
      assert !Alive(s.runs[id]);
    }
    MovedRuns(c, s, Apply(c, s, StopReturn), init);
  }

  lemma ChainStopClose(c: Config, s: State, init: string)
    requires ChainInv(c, s, init) && Enabled(c, s, StopClose)
    ensures ChainInv(c, Apply(c, s, StopClose), init)
  {
    hide Positions, Without, Announced, LastRecorded, RetriedIn, RetryRecords, Matches, AllAccepted, OthersAccepted,
        AlertsOk;
    var t := Apply(c, s, StopClose);
    assert forall id :: 0 <= id < |s.runs| ==> t.runs[id] == s.runs[id].(stopped := t.runs[id].stopped);
    forall id | 0 <= id < |t.runs| && Marks(t.runs[id]) ensures MarkOk(c, t, t.runs[id]) {
      assert MarkOk(c, s, s.runs[id]);
    }
  }

  lemma ChainExternal(c: Config, s: State, init: string)
    requires ChainInv(c, s, init) && Enabled(c, s, ExternalWrite)
    ensures ChainInv(c, Apply(c, s, ExternalWrite), init)
  {
    hide Positions, Without, Announced, LastRecorded, RetriedIn, RetryRecords, Matches, AllAccepted, OthersAccepted,
        AlertsOk;
    var t := Apply(c, s, ExternalWrite);
    forall id | 0 <= id < |t.runs| && Marks(t.runs[id]) ensures MarkOk(c, t, t.runs[id]) {
      assert MarkOk(c, s, s.runs[id]);
    }
  }

  lemma ChainQueue(c: Config, s: State, init: string)
    requires ChainInv(c, s, init) && Enabled(c, s, Queue)
    ensures ChainInv(c, Apply(c, s, Queue), init)
  {
    hide Positions, Without, Announced, LastRecorded, RetriedIn, RetryRecords, Matches, AllAccepted, OthersAccepted,
        AlertsOk;
    var t := Apply(c, s, Queue);
    assert forall id :: 0 <= id < |s.runs| ==> t.runs[id] == s.runs[id];
    forall id | 0 <= id < |t.runs| && Marks(t.runs[id]) ensures MarkOk(c, t, t.runs[id]) {
      if id < |s.runs| {
        assert MarkOk(c, s, s.runs[id]);
      }
    }
  }

  lemma ChainCheck(c: Config, s: State, a: Action, init: string)
    requires ChainInv(c, s, init) && Enabled(c, s, a) && a.Check?
    ensures ChainInv(c, Apply(c, s, a), init)
  {
    hide Positions, Without, LastRecorded, RetriedIn, RetryRecords, AllAccepted, OthersAccepted, AlertsOk;
  }

  lemma ChainRecord(c: Config, s: State, a: Action, init: string)
    requires ChainInv(c, s, init) && Enabled(c, s, a) && a.RecordChange?
    ensures ChainInv(c, Apply(c, s, a), init)
  {
    hide Positions, Without, LastRecorded, RetriedIn, RetryRecords, AllAccepted, OthersAccepted, AlertsOk;
    RecordKeeps(c, s.alerts, init);
  }

  /** What a step of a retry that neither sends nor writes can change of what it may record. */
  lemma QuietRunStep(c: Config, s: State, a: Action)
    requires ByRun(a) && RunEnabled(s, a) && !a.RunSend? && !a.MarkPut?
    ensures var t := RunStep(c, s, a);
            && t.alerts == s.alerts && t.hist == s.hist && a.id < |s.runs| == |t.runs|
    ensures var r, q := s.runs[a.id], RunStep(c, s, a).runs[a.id];
            && q.records == r.records && q.alert == r.alert && q.notifier == r.notifier
            && (Marks(q) ==> Marks(r)) && !q.phase.Marking?
            && (q.phase.MarkRead? ==> r.phase.Marking? && q.phase.m == |s.hist| - 1)
  {
    hide Positions, Without, Matches;
  }

  lemma ChainRun(c: Config, s: State, a: Action, init: string)
    requires ChainInv(c, s, init) && Enabled(c, s, a) && ByRun(a) && !a.RunSend? && !a.MarkPut?
    ensures ChainInv(c, Apply(c, s, a), init)
  {
    hide Announced, LastRecorded, AllAccepted, OthersAccepted, AlertsOk, Matches, RunStep, RunEnabled;
    RunStepFrame(c, s, a);
    QuietRunStep(c, s, a);
    var t := Apply(c, s, a);
    forall id | 0 <= id < |t.runs| && Marks(t.runs[id]) ensures MarkOk(c, t, t.runs[id]) {
      assert MarkOk(c, s, s.runs[id]);
    }
    assert NoMarks(s) ==> NoMarks(t);
  }

  lemma ChainMarkPut(c: Config, s: State, a: Action, init: string)
    requires ChainInv(c, s, init) && Enabled(c, s, a) && a.MarkPut?
    ensures ChainInv(c, Apply(c, s, a), init)
  {
    hide Positions, Without, LastRecorded, RetriedIn, RetryRecords, AllAccepted, OthersAccepted, AlertsOk;
    var t := Apply(c, s, a);
    assert forall id :: 0 <= id < |s.runs| && id != a.id ==> t.runs[id] == s.runs[id];
    RecordKeeps(c, s.alerts, init);
  }

  lemma AcceptMonotone(alerts: seq<ChangeAlert>, r: Run, notifier: nat)
    requires alerts != [] && (r.alert.Some? ==> r.alert.value < |alerts|)
    ensures var a, b := Last(alerts), Last(AcceptedBy(alerts, r));
            && |AcceptedBy(alerts, r)| == |alerts|
            && b.from == a.from && b.to == a.to && b.since == a.since && b.recorded == a.recorded
            && (AllAccepted(a) ==> AllAccepted(b)) && (OthersAccepted(a, notifier) ==> OthersAccepted(b, notifier))
            && (r.alert == Some(|alerts| - 1) && r.notifier < |a.accepted| && OthersAccepted(a, r.notifier) ==>
                AllAccepted(b))
  {
  }

  lemma SendRunStep(c: Config, s: State, a: Action)
    requires a.RunSend? && RunEnabled(s, a)
    ensures var t, r := RunStep(c, s, a), s.runs[a.id];
            && t.hist == s.hist && |t.runs| == |s.runs| && t.lost == s.lost
            && t.alerts == (if a.answer.Sent? then AcceptedBy(s.alerts, r) else s.alerts)
    ensures var r, q := s.runs[a.id], RunStep(c, s, a).runs[a.id];
            && q.records == r.records && q.alert == r.alert && q.notifier == r.notifier
            && (Marks(q) ==> Marks(r)) && !q.phase.MarkRead?
            && (q.phase.Marking? <==> a.answer.Sent? && r.records)
  {
    hide AcceptedBy;
  }

  lemma ChainSend(c: Config, s: State, a: Action, init: string)
    requires ChainInv(c, s, init) && Enabled(c, s, a) && a.RunSend?
    ensures ChainInv(c, Apply(c, s, a), init)
  {
    hide Announced, LastRecorded, AllAccepted, OthersAccepted, AcceptedBy, Matches, RunStep;
    RunStepFrame(c, s, a);
    SendRunStep(c, s, a);
    var t, r := Apply(c, s, a), s.runs[a.id];
    assert NoMarks(s) ==> NoMarks(t);
    assert Marks(r) ==> MarkOk(c, s, r);
    if a.answer.Sent? && r.alert.Some? {
      AcceptKeeps(c, s.alerts, r, init);
      NewestSize(c, s.alerts, init);
      hide AlertsOk;
      AcceptMonotone(s.alerts, r, r.notifier);
      forall id | 0 <= id < |t.runs| && Marks(t.runs[id]) ensures MarkOk(c, t, t.runs[id]) {
        assert MarkOk(c, s, s.runs[id]);
        AcceptMonotone(s.alerts, r, s.runs[id].notifier);
      }
      if s.phase.ChangeQueueing? && s.phase.todo != [] {
        AcceptMonotone(s.alerts, r, s.phase.todo[0]);
      }
    } else {
      hide AlertsOk;
      if r.alert.None? {
        StatusAlert(s.alerts, r);
      }
      assert t.alerts == s.alerts;
      forall id | 0 <= id < |t.runs| && Marks(t.runs[id]) ensures MarkOk(c, t, t.runs[id]) {
        assert MarkOk(c, s, s.runs[id]);
      }
    }
  }

  lemma StatusAlert(alerts: seq<ChangeAlert>, r: Run)
    requires r.alert.None?
    ensures AcceptedBy(alerts, r) == alerts
  {
  }

  lemma NewestSize(c: Config, alerts: seq<ChangeAlert>, init: string)
    requires AlertsOk(c, alerts, init) && alerts != []
    ensures |Last(alerts).accepted| == c.n
  {
  }

  /** When the retries of a change record it, all but the one retried have accepted it. */
  lemma OneLeft(results: seq<SendResult>, tries: nat, a: ChangeAlert)
    requires RetryRecords(results, tries) && a.accepted == Accepting(results)
    ensures |RetriedIn(results, tries)| == 1 && RetriedIn(results, tries)[0] < |results|
    ensures OthersAccepted(a, RetriedIn(results, tries)[0])
  {
    hide Positions;
    var one := RetriedIn(results, tries);
    forall k | 0 <= k < |results| && k != one[0] ensures a.accepted[k] {
      RetriedOrReported(results, tries, k);
    }
  }

  lemma AllSent(results: seq<SendResult>, a: ChangeAlert)
    requires Positions(results, IsFailure) == [] && a.accepted == Accepting(results)
    ensures AllAccepted(a)
  {
    hide Positions;
    forall k | 0 <= k < |a.accepted| ensures a.accepted[k] {
      assert IsFailure(results[k]) ==> k in Positions(results, IsFailure);
    }
  }

  lemma ChainSendChange(c: Config, s: State, a: Action, init: string)
    requires ChainInv(c, s, init) && Enabled(c, s, a) && a.SendChange?
    ensures ChainInv(c, Apply(c, s, a), init)
  {
    hide Positions, Without, Announced, LastRecorded, RetriedIn, RetryRecords, AllAccepted, OthersAccepted, Matches;
    var t, st := Apply(c, s, a), s.hist[s.phase.at];
    var alert := ChangeAlert(Announced(st), st.last, st.since, Accepting(a.results), false);
    AlertKeeps(c, s.alerts, alert, init);
    hide AlertsOk;
    assert t.alerts == s.alerts + [alert] && t.runs == s.runs && t.hist == s.hist;
    assert Last(t.alerts) == alert;
    if Positions(a.results, IsFailure) == [] {
      AllSent(a.results, alert);
    } else if RetryRecords(a.results, c.tries) {
      OneLeft(a.results, c.tries, alert);
    }
  }

  lemma ChainStep(c: Config, s: State, a: Action, init: string)
    requires ChainInv(c, s, init) && Registered(s) && Enabled(c, s, a)
    ensures ChainInv(c, Apply(c, s, a), init)
  {
    hide ChainInv, Registered, Apply, Enabled;
    match a
    case RunSend(_, _) => ChainSend(c, s, a, init);
    case MarkPut(_, _, _) => ChainMarkPut(c, s, a, init);
    case SendChange(_) => ChainSendChange(c, s, a, init);
    case RecordChange(_) => ChainRecord(c, s, a, init);
    case Check(_, _, _) => ChainCheck(c, s, a, init);
    case Queue => ChainQueue(c, s, init);
    case ExternalWrite => ChainExternal(c, s, init);
    case StopClose => ChainStopClose(c, s, init);
    case StopReturn => ChainStopReturn(c, s, init);
    case _ =>
      if ByRun(a) {
        ChainRun(c, s, a, init);
      } else {
        ChainMoves(c, s, a, init);
      }
  }

  lemma ChainStarts(c: Config, st: Status)
    ensures ChainInv(c, Start(st), Announced(st))
  {
  }

  lemma {:induction false} AlwaysChained(c: Config, st: Status, trace: seq<Action>)
    requires Exec(c, st, trace).Some?
    ensures ChainInv(c, Exec(c, st, trace).value, Announced(st))
    decreases |trace|
  {
    hide ChainInv, Registered, Settled, WriteSeen, Apply, Enabled, Announced;
    if trace == [] {
      ChainStarts(c, st);
    } else {
      var p := trace[..|trace| - 1];
      AlwaysChained(c, st, p);
      AlwaysStopInv(c, st, p);
      ChainStep(c, Exec(c, st, p).value, trace[|trace| - 1], Announced(st));
    }
  }

  // --------------------------------------------------------------- all runs

  /**
   * In every interleaving, with stale reads and failing writes: an alert is
   * recorded only when every notifier accepted it, and the stored status
   * announces what the last recorded alert said, or what it did at first.
   */
  lemma RecordedMeansAccepted(c: Config, st: Status, trace: seq<Action>)
    requires Exec(c, st, trace).Some?
    ensures var s := Exec(c, st, trace).value;
            && (forall i :: 0 <= i < |s.alerts| && s.alerts[i].recorded ==>
                  |s.alerts[i].accepted| == c.n && AllAccepted(s.alerts[i]))
            && s.hist != [] && Announced(Last(s.hist)) == LastRecorded(s.alerts, Announced(st))
  {
    hide Exec, PhaseOk, MarksOk;
    AlwaysChained(c, st, trace);
  }

  lemma {:induction false} NoneRecorded(alerts: seq<ChangeAlert>, i: nat, j: nat, init: string)
    requires i <= j <= |alerts| && forall k :: i <= k < j ==> !alerts[k].recorded
    ensures LastRecorded(alerts[..j], init) == LastRecorded(alerts[..i], init)
    decreases j
  {
    if i < j {
      NoneRecorded(alerts, i, j - 1, init);
      assert alerts[..j][..j - 1] == alerts[..j - 1];
    }
  }

  /** The recorded alerts form a chain: each leaves the status the one before announced. */
  lemma RecordedAlertsChain(c: Config, st: Status, trace: seq<Action>, i: nat, j: nat)
    requires Exec(c, st, trace).Some?
    requires var alerts := Exec(c, st, trace).value.alerts;
             i < j < |alerts| && alerts[i].recorded && forall k :: i < k < j ==> !alerts[k].recorded
    ensures var alerts := Exec(c, st, trace).value.alerts;
            alerts[j].from == alerts[i].to && alerts[j].from != alerts[j].to
  {
    hide Exec, PhaseOk, MarksOk, StatusOk;
    AlwaysChained(c, st, trace);
    var alerts := Exec(c, st, trace).value.alerts;
    NoneRecorded(alerts, i + 1, j, Announced(st));
    assert alerts[..i + 1][|alerts[..i + 1]| - 1] == alerts[i];
  }

  predicate Accepts(a: ChangeAlert, n: nat) {
    n < |a.accepted| && a.accepted[n]
  }

  /**
   * Of two alerts that a notifier accepted one after the other, the second
   * leaves the status the first announced exactly when the first was recorded;
   * otherwise it leaves the same status again.
   */
  lemma DeliveredAlertsChain(c: Config, st: Status, trace: seq<Action>, n: nat, i: nat, j: nat)
    requires Exec(c, st, trace).Some? && n < c.n
    requires var alerts := Exec(c, st, trace).value.alerts;
             && i < j < |alerts| && Accepts(alerts[i], n) && Accepts(alerts[j], n)
             && forall k :: i < k < j ==> !Accepts(alerts[k], n)
    ensures var alerts := Exec(c, st, trace).value.alerts;
            && (alerts[j].from == alerts[i].to <==> alerts[i].recorded)
            && (!alerts[i].recorded ==> alerts[j].from == alerts[i].from)
  {
    hide Exec, PhaseOk, MarksOk, StatusOk;
    AlwaysChained(c, st, trace);
    var alerts := Exec(c, st, trace).value.alerts;
    forall k | i < k < j ensures !alerts[k].recorded {
      assert alerts[k].recorded ==> AllAccepted(alerts[k]);
    }
    NoneRecorded(alerts, i + 1, j, Announced(st));
    var upTo := alerts[..i + 1];
    assert upTo[|upTo| - 1] == alerts[i] && upTo[..|upTo| - 1] == alerts[..i];
  }

  // -------------------------------------------------------- nothing is lost

  predicate AboutToRecord(r: Run) {
    r.phase.Marking? || r.phase.MarkRead?
  }

  /** The newest alert has been delivered and is about to be recorded. */
  ghost predicate InFlight(s: State) {
    s.phase.Recording? || exists id :: 0 <= id < |s.runs| && s.runs[id].records && AboutToRecord(s.runs[id])
  }

  /** With one notifier, every delivered alert is recorded or about to be, as long as recording goes well. */
  ghost predicate NothingLost(c: Config, s: State) {
    && (forall id :: 0 <= id < |s.runs| && s.runs[id].alert.Some? ==> s.runs[id].records)
    && (s.phase.ChangeQueueing? && s.phase.todo != [] ==> s.phase.records)
    && (!s.lost ==> forall i :: 0 <= i < |s.alerts| && |s.alerts[i].accepted| == 1 && s.alerts[i].accepted[0] ==>
          s.alerts[i].recorded || (i == |s.alerts| - 1 && InFlight(s)))
  }

  /** With one notifier a retried change is always recorded by its retry. */
  lemma OneNotifierRecords(results: seq<SendResult>, tries: nat)
    requires |results| == 1
    ensures RetriedIn(results, tries) != [] ==> RetryRecords(results, tries)
  {
    assert results[..0] == [];
    assert Positions(results[..0], IsRetryable) == [] && Positions(results[..0], IsPermanent) == [] &&
        Positions(results[..0], IsFailure) == [];
  }

  lemma FlightKept(s: State, t: State)
    requires s.phase.Recording? ==> t.phase.Recording?
    requires |s.runs| <= |t.runs|
    requires forall id :: 0 <= id < |s.runs| && AboutToRecord(s.runs[id]) ==>
      t.runs[id].records == s.runs[id].records && AboutToRecord(t.runs[id])
    ensures InFlight(s) ==> InFlight(t)
  {
    if InFlight(s) && !s.phase.Recording? {
      var id :| 0 <= id < |s.runs| && s.runs[id].records && AboutToRecord(s.runs[id]);
      assert t.runs[id].records;
    }
  }

  lemma LostRun(c: Config, s: State, a: Action)
    requires NothingLost(c, s) && Enabled(c, s, a) && ByRun(a) && !a.RunSend? && !a.MarkPut?
    ensures NothingLost(c, Apply(c, s, a))
  {
    hide Positions, Without, Announced, RetriedIn, RetryRecords, Matches, InFlight;
    var t := Apply(c, s, a);
    assert t.alerts == s.alerts && t.phase == s.phase && |t.runs| == |s.runs|;
    assert forall id :: 0 <= id < |s.runs| ==>
      t.runs[id].records == s.runs[id].records && t.runs[id].alert == s.runs[id].alert;
    if !t.lost {
      assert forall id :: 0 <= id < |s.runs| && id != a.id ==> t.runs[id] == s.runs[id];
      FlightKept(s, t);
    }
  }

  lemma LostSend(c: Config, s: State, a: Action)
    requires NothingLost(c, s) && MarksOk(c, s) && Enabled(c, s, a) && a.RunSend?
    ensures NothingLost(c, Apply(c, s, a))
  {
    hide Positions, Without, Announced, RetriedIn, RetryRecords, Matches, InFlight, Current, Open;
    var t, r := Apply(c, s, a), s.runs[a.id];
    assert t.phase == s.phase && |t.runs| == |s.runs| && t.lost == s.lost;
    assert forall id :: 0 <= id < |s.runs| ==>
      t.runs[id].records == s.runs[id].records && t.runs[id].alert == s.runs[id].alert;
    assert forall id :: 0 <= id < |s.runs| && id != a.id ==> t.runs[id] == s.runs[id];
    FlightKept(s, t);
    if a.answer.Sent? && r.alert.Some? {
      assert Marks(r) && MarkOk(c, s, r);
      NowInFlight(t, a.id);
    }
  }

  lemma NowInFlight(t: State, id: nat)
    requires id < |t.runs| && t.runs[id].records && (t.runs[id].phase.Marking? || t.runs[id].phase.MarkRead?)
    ensures InFlight(t)
  {
  }

  lemma LostPut(c: Config, s: State, a: Action)
    requires NothingLost(c, s) && MarksOk(c, s) && Enabled(c, s, a) && a.MarkPut?
    ensures NothingLost(c, Apply(c, s, a))
  {
    hide Positions, Without, Announced, Recorded, RetriedIn, RetryRecords, Matches, InFlight, Current, Open;
    var t, r := Apply(c, s, a), s.runs[a.id];
    assert t.phase == s.phase && |t.runs| == |s.runs|;
    assert forall id :: 0 <= id < |s.runs| ==>
      t.runs[id].records == s.runs[id].records && t.runs[id].alert == s.runs[id].alert;
    assert Marks(r) && MarkOk(c, s, r);
    if !Lands(a.w) && t.runs[a.id].phase.Marking? {
      NowInFlight(t, a.id);
    }
  }

  lemma LostOther(c: Config, s: State, a: Action, init: string)
    requires c.n == 1 && NothingLost(c, s) && ChainInv(c, s, init) && Enabled(c, s, a) && !ByRun(a)
    ensures NothingLost(c, Apply(c, s, a))
  {
    hide Positions, Without, Announced, Recorded, Checked, RetriedIn, RetryRecords, Matches, Current, Open, AlertsOk,
        LastRecorded, MarkOk, AllAccepted;
    var t := Apply(c, s, a);
    if a.SendChange? {
      OneNotifierRecords(a.results, c.tries);
      assert !InFlight(s);
      FirstAccepts(a.results);
    } else if !a.RecordChange? {
      assert t.alerts == s.alerts;
      assert forall id :: 0 <= id < |s.runs| ==> t.runs[id].(stopped := s.runs[id].stopped) == s.runs[id];
      FlightKept(s, t);
    }
  }

  lemma FirstAccepts(results: seq<SendResult>)
    requires |results| == 1
    ensures Accepting(results)[0] ==> Positions(results, IsFailure) == []
  {
    assert results[..0] == [];
    assert Positions(results[..0], IsFailure) == [];
  }

  lemma LossStarts(c: Config, st: Status)
    ensures NothingLost(c, Start(st))
  {
  }

  lemma LostStep(c: Config, s: State, a: Action, init: string)
    requires c.n == 1 && NothingLost(c, s) && ChainInv(c, s, init) && Enabled(c, s, a)
    ensures NothingLost(c, Apply(c, s, a))
  {
    hide NothingLost, Apply, Enabled, AlertsOk, StatusOk, PhaseOk, MarksOk;
    if a.RunSend? {
      LostSend(c, s, a);
    } else if a.MarkPut? {
      LostPut(c, s, a);
    } else if ByRun(a) {
      LostRun(c, s, a);
    } else {
      LostOther(c, s, a, init);
    }
  }

  lemma {:induction false} AlwaysNothingLost(c: Config, st: Status, trace: seq<Action>)
    requires c.n == 1 && Exec(c, st, trace).Some?
    ensures NothingLost(c, Exec(c, st, trace).value)
    decreases |trace|
  {
    hide NothingLost, ChainInv, Apply, Enabled, Announced;
    if trace == [] {
      LossStarts(c, st);
    } else {
      var p, a := trace[..|trace| - 1], trace[|trace| - 1];
      AlwaysNothingLost(c, st, p);
      AlwaysChained(c, st, p);
      LostStep(c, Exec(c, st, p).value, a, Announced(st));
    }
  }

  /** Recording a delivered change went wrong here. */
  predicate FailsToRecord(a: Action) {
    || (a.RecordChange? && !Lands(a.w))
    || (a.MarkPut? && !Lands(a.w) && !(a.w.Refused? && a.again))
    || (a.MarkGet? && !a.read.Found?)
  }

  /** A retry about to record its change never finds that the status has moved on. */
  lemma StatusHasNotMovedOn(c: Config, st: Status, trace: seq<Action>, id: nat)
    requires Exec(c, st, trace).Some?
    requires var s := Exec(c, st, trace).value; id < |s.runs| && s.runs[id].phase.Marking?
    ensures var s := Exec(c, st, trace).value;
            && s.hist != [] && s.runs[id].alert == Some(|s.alerts| - 1) && s.alerts != []
            && Matches(Last(s.hist), Last(s.alerts).to, Last(s.alerts).since)
  {
    hide Exec, AlertsOk, StatusOk, PhaseOk, Matches;
    AlwaysChained(c, st, trace);
    var s := Exec(c, st, trace).value;
    assert MarkOk(c, s, s.runs[id]);
  }

  lemma LostOnlyByFailure(c: Config, s: State, a: Action)
    requires MarksOk(c, s) && Enabled(c, s, a) && !FailsToRecord(a)
    ensures Apply(c, s, a).lost == s.lost
  {
    hide Positions, Without, Announced, Recorded, Checked, RetriedIn, RetryRecords, Matches, Open, AcceptedBy;
    assert a.MarkGet? ==> Marks(s.runs[a.id]) && MarkOk(c, s, s.runs[a.id]);
  }

  lemma {:induction false} NothingLostUnlessFailed(c: Config, st: Status, trace: seq<Action>)
    requires Exec(c, st, trace).Some? && forall i :: 0 <= i < |trace| ==> !FailsToRecord(trace[i])
    ensures !Exec(c, st, trace).value.lost
    decreases |trace|
  {
    hide Apply, Enabled, AlertsOk, StatusOk, PhaseOk, MarksOk, FailsToRecord;
    if trace == [] {
      LossStarts(c, st);
    } else {
      var p := trace[..|trace| - 1];
      NothingLostUnlessFailed(c, st, p);
      AlwaysChained(c, st, p);
      LostOnlyByFailure(c, Exec(c, st, p).value, trace[|trace| - 1]);
    }
  }

  lemma AlertSizes(c: Config, st: Status, trace: seq<Action>)
    requires Exec(c, st, trace).Some?
    ensures var alerts := Exec(c, st, trace).value.alerts;
            forall k :: 0 <= k < |alerts| ==> |alerts[k].accepted| == c.n && alerts[k].from != alerts[k].to
  {
    hide Exec, PhaseOk, MarksOk, StatusOk;
    AlwaysChained(c, st, trace);
  }

  /** With one notifier and no failed recording, the delivered alerts form a chain, however stale the reads. */
  lemma OneNotifierChain(c: Config, st: Status, trace: seq<Action>, i: nat, j: nat)
    requires c.n == 1 && Exec(c, st, trace).Some? && forall k :: 0 <= k < |trace| ==> !FailsToRecord(trace[k])
    requires var alerts := Exec(c, st, trace).value.alerts;
             && i < j < |alerts| && Accepts(alerts[i], 0) && Accepts(alerts[j], 0)
             && forall k :: i < k < j ==> !Accepts(alerts[k], 0)
    ensures Exec(c, st, trace).value.alerts[j].from == Exec(c, st, trace).value.alerts[i].to
  {
    hide Exec, InFlight, FailsToRecord;
    AlwaysNothingLost(c, st, trace);
    NothingLostUnlessFailed(c, st, trace);
    AlertSizes(c, st, trace);
    DeliveredAlertsChain(c, st, trace, 0, i, j);
  }

  // ---------------------------------------------------- when recording fails

  lemma ExecMore(c: Config, st: Status, trace: seq<Action>, a: Action)
    requires Exec(c, st, trace).Some? && Enabled(c, Exec(c, st, trace).value, a)
    ensures Exec(c, st, trace + [a]) == Some(Apply(c, Exec(c, st, trace).value, a))
  {
    hide Apply, Enabled;
    assert (trace + [a])[..|trace|] == trace;
  }

  lemma OneSent()
    ensures RetriedIn([Sent], 5) == [] && Positions([Sent], IsFailure) == [] && Accepting([Sent]) == [true]
  {
    assert [Sent][..0] == [];
  }

  /** A check that finds the monitor failing, and the change alert it sends. */
  function CheckOnce(v: nat, now: int): seq<Action> {
    [Begin(Some(v)), StopLock, StopReturn, Check("failure", now, Written), SendStatus([Sent]), Queue,
        SendChange([Sent])]
  }

  predicate Goes(c: Config, s: State, a: Action, t: State) {
    Enabled(c, s, a) && Apply(c, s, a) == t
  }

  lemma ExecGoes(c: Config, st: Status, trace: seq<Action>, s: State, a: Action, t: State)
    requires Exec(c, st, trace) == Some(s) && Goes(c, s, a, t)
    ensures Exec(c, st, trace + [a]) == Some(t)
  {
    hide Apply, Enabled, Exec;
    ExecMore(c, st, trace, a);
  }

  lemma RestGoes(c: Config, s: State, v: nat)
    requires s.hist != [] && s.phase.Idle? && s.registry == Entry([], false) && v == |s.hist| - 1
    ensures Goes(c, s, Begin(Some(v)), s.(phase := Got(Some(v))))
    ensures Goes(c, s.(phase := Got(Some(v))), StopLock, s.(phase := Stopping(Some(v), [], false)))
    ensures Goes(c, s.(phase := Stopping(Some(v), [], false)), StopReturn,
        s.(phase := Ready(v), writeDue := false, settled := |s.runs|))
  {
  }

  lemma CheckGoes(c: Config, s: State, now: int)
    requires s.hist != [] && s.phase == Ready(|s.hist| - 1) && c == Config(1, 5)
    ensures var n, hist := |s.hist|, s.hist + [Checked(Last(s.hist), "failure", now)];
            && Goes(c, s, Check("failure", now, Written), s.(hist := hist, phase := Sending(n)))
            && Goes(c, s.(hist := hist, phase := Sending(n)), SendStatus([Sent]),
                s.(hist := hist, phase := Queueing(n, [])))
  {
    hide Positions, RetriedIn, Accepting, RetryRecords, Announced;
    OneSent();
  }

  lemma ChangeGoes(c: Config, s: State, now: int)
    requires s.hist != [] && Announced(Last(s.hist)) != "failure" && c == Config(1, 5)
    ensures var next := Checked(Last(s.hist), "failure", now);
            var n, hist := |s.hist|, s.hist + [next];
            && Goes(c, s.(hist := hist, phase := Queueing(n, [])), Queue, s.(hist := hist, phase := Changing(n)))
            && Goes(c, s.(hist := hist, phase := Changing(n)), SendChange([Sent]),
                    s.(hist := hist, phase := Recording(n),
                       alerts := s.alerts +
                                 [ChangeAlert(Announced(Last(s.hist)), "failure", next.since, [true], false)]))
  {
    hide Positions, RetriedIn, Accepting, RetryRecords;
    OneSent();
  }

  lemma CheckOnceRuns(st: Status, trace: seq<Action>, s: State, now: int)
    requires Exec(Config(1, 5), st, trace) == Some(s)
    requires s.hist != [] && s.phase.Idle? && s.registry == Entry([], false) && Announced(Last(s.hist)) != "failure"
    ensures var next := Checked(Last(s.hist), "failure", now);
            Exec(Config(1, 5), st, trace + CheckOnce(|s.hist| - 1, now)) ==
            Some(s.(hist := s.hist + [next], phase := Recording(|s.hist|), writeDue := false, settled := |s.runs|,
                    alerts := s.alerts + [ChangeAlert(Announced(Last(s.hist)), "failure", next.since, [true], false)]))
  {
    hide Exec, Goes, Checked, Announced;
    var c, v, n := Config(1, 5), |s.hist| - 1, |s.hist|;
    var ready := s.(phase := Ready(v), writeDue := false, settled := |s.runs|);
    RestGoes(c, s, v);
    CheckGoes(c, ready, now);
    ChangeGoes(c, ready, now);
    var hist := s.hist + [Checked(Last(s.hist), "failure", now)];
    var t1 := trace + [Begin(Some(v))];
    ExecGoes(c, st, trace, s, Begin(Some(v)), s.(phase := Got(Some(v))));
    var t2 := t1 + [StopLock];
    ExecGoes(c, st, t1, s.(phase := Got(Some(v))), StopLock, s.(phase := Stopping(Some(v), [], false)));
    var t3 := t2 + [StopReturn];
    ExecGoes(c, st, t2, s.(phase := Stopping(Some(v), [], false)), StopReturn, ready);
    var t4 := t3 + [Check("failure", now, Written)];
    ExecGoes(c, st, t3, ready, Check("failure", now, Written), ready.(hist := hist, phase := Sending(n)));
    var t5 := t4 + [SendStatus([Sent])];
    ExecGoes(c, st, t4, ready.(hist := hist, phase := Sending(n)), SendStatus([Sent]),
        ready.(hist := hist, phase := Queueing(n, [])));
    var t6 := t5 + [Queue];
    ExecGoes(c, st, t5, ready.(hist := hist, phase := Queueing(n, [])), Queue,
        ready.(hist := hist, phase := Changing(n)));
    var alert := ChangeAlert(Announced(Last(s.hist)), "failure", Checked(Last(s.hist), "failure", now).since, [true],
        false);
    ExecGoes(c, st, t6, ready.(hist := hist, phase := Changing(n)), SendChange([Sent]),
             ready.(hist := hist, phase := Recording(n), alerts := s.alerts + [alert]));
    assert t6 + [SendChange([Sent])] == trace + CheckOnce(v, now);
  }

  /** When the write that records it fails, a delivered change is announced a second time. */
  lemma FailedRecordRepeatsTheAlert()
    ensures var st, c := Status("success", 0, None, 0), Config(1, 5);
            var end := Exec(c, st, CheckOnce(0, 1) + [RecordChange(Lost(false))] + CheckOnce(1, 2));
            end.Some? && end.value.alerts ==
              [ChangeAlert("success", "failure", 1, [true], false), ChangeAlert("success", "failure", 1, [true], false)]
  {
    hide CheckOnce, Goes, Exec, Checked, Announced;
    var st, c := Status("success", 0, None, 0), Config(1, 5);
    var once := Status("failure", 1, Some("success"), 0);
    SecondCheck();
    NothingRun(c, st);
    CheckOnceRuns(st, [], Start(st), 1);
    var first := CheckOnce(0, 1);
    assert [] + first == first;
    var alert := ChangeAlert("success", "failure", 1, [true], false);
    var s1 := Start(st).(hist := [st, once], phase := Recording(1), alerts := [alert]);
    assert Start(st).hist + [once] == [st, once] && Start(st).alerts + [alert] == [alert];
    var s2 := s1.(phase := Idle, lost := true);
    RecordGoes(c, s1, s2);
    ExecGoes(c, st, first, s1, RecordChange(Lost(false)), s2);
    CheckOnceRuns(st, first + [RecordChange(Lost(false))], s2, 2);
    assert [alert] + [alert] == [alert, alert];
  }

  lemma NothingRun(c: Config, st: Status)
    ensures Exec(c, st, []) == Some(Start(st))
  {
  }

  lemma SecondCheck()
    ensures var st, once := Status("success", 0, None, 0), Status("failure", 1, Some("success"), 0);
            && Checked(st, "failure", 1) == once && Checked(once, "failure", 2) == once
            && Announced(st) == "success" && Announced(once) == "success"
  {
  }

  lemma RecordGoes(c: Config, s: State, t: State)
    requires s.phase == Recording(1) && |s.hist| == 2 && s.alerts != [] && t == s.(phase := Idle, lost := true)
    ensures Goes(c, s, RecordChange(Lost(false)), t)
  {
  }
}

/**
 * What the reconciler does with what it knows, in every interleaving of
 * Announcing: which version of the status a check is written on, and what is
 * sent, queued and recorded after it.
 */
module Reconciling {
  import opened Base
  import opened Alerts
  import opened RetryRegistry
  import opened Announcing
  import opened StopAndRetries

  // ------------------------------------------------------ the version checked

  /** No step takes a version of the status away. */
  lemma HistStep(c: Config, s: State, a: Action)
    requires Enabled(c, s, a)
    ensures var t := Apply(c, s, a); |s.hist| <= |t.hist| && t.hist[..|s.hist|] == s.hist
  {
    hide Positions, RetriedIn, RetryRecords, Announced, Checked, Recorded, AcceptedBy, MarkRecorded, Without, Matches;
    hide Possible, ChangeStep;
    if a.SendChange? {
      ChangeHist(c, s, a.results);
    }
  }

  lemma ChangeHist(c: Config, s: State, results: seq<SendResult>)
    requires s.phase.Changing? && s.phase.at < |s.hist|
    ensures ChangeStep(c, s, results).hist == s.hist
  {
  }

  lemma {:induction false} HistGrows(c: Config, st: Status, trace: seq<Action>, i: nat, j: nat)
    requires Exec(c, st, trace).Some? && i <= j <= |trace|
    ensures Exec(c, st, trace[..i]).Some? && Exec(c, st, trace[..j]).Some?
    ensures var h, g := Exec(c, st, trace[..i]).value.hist, Exec(c, st, trace[..j]).value.hist;
            |h| <= |g| && g[..|h|] == h
    decreases j
  {
    hide Exec, Apply, Enabled;
    PrefixRuns(c, st, trace, i);
    PrefixRuns(c, st, trace, j);
    if i < j {
      PrefixRuns(c, st, trace, j - 1);
      HistGrows(c, st, trace, i, j - 1);
      HistStep(c, Exec(c, st, trace[..j - 1]).value, trace[j - 1]);
    }
  }

  /** Until Stop returns again, the reconciler comes to a check only as it was, or by reading past the cache. */
  lemma PhaseStep(c: Config, s: State, a: Action)
    requires Enabled(c, s, a) && !a.StopReturn?
    ensures var t := Apply(c, s, a);
            && (t.phase.Refresh? ==> s.phase == t.phase)
            && (t.phase.Ready? ==>
                t.phase == s.phase || (a.Reread? && s.phase.Refresh? && t.phase.at == |s.hist| - 1))
  {
    hide Positions, RetriedIn, RetryRecords, Announced, Checked, Recorded, RunStep, RunEnabled, ChangeStep, Possible;
    if ByRun(a) {
      RunStepFrame(c, s, a);
    } else if a.SendChange? {
      ChangeStepFrame(c, s, a.results);
    }
  }

  /** The r-th action read the newest version there was, which is `at`. */
  ghost predicate ReadAt(c: Config, st: Status, trace: seq<Action>, r: nat, at: nat) {
    r < |trace| && trace[r].Reread? && Exec(c, st, trace[..r]).Some? &&
    at == |Exec(c, st, trace[..r]).value.hist| - 1
  }

  lemma {:induction false} AfterStop(c: Config, st: Status, trace: seq<Action>, i: nat, j: nat)
    requires Exec(c, st, trace).Some? && i < j <= |trace| && trace[i].StopReturn?
    requires forall k :: i < k < j ==> !trace[k].StopReturn?
    ensures Exec(c, st, trace[..i]).Some? && Exec(c, st, trace[..i]).value.phase.Stopping?
    ensures Exec(c, st, trace[..j]).Some?
    ensures var p, q := Exec(c, st, trace[..i]).value.phase, Exec(c, st, trace[..j]).value.phase;
            && (q.Refresh? ==> p.any && p.v.Some?)
            && (q.Ready? ==>
                  p.v.Some? && if p.any then exists r :: i < r < j && ReadAt(c, st, trace, r, q.at)
                               else q.at == p.v.value)
    decreases j
  {
    hide Exec, Apply;
    PrefixRuns(c, st, trace, i);
    var s := Exec(c, st, trace[..i]).value;
    assert s.phase.Stopping? by { hide *; StopEnabled(c, s); }
    if j == i + 1 {
      Returned(c, s);
    } else {
      PrefixRuns(c, st, trace, j - 1);
      AfterStop(c, st, trace, i, j - 1);
      var t := Exec(c, st, trace[..j - 1]).value;
      PhaseStep(c, t, trace[j - 1]);
      assert trace[j - 1].Reread? ==> ReadAt(c, st, trace, j - 1, |t.hist| - 1);
    }
  }

  lemma StopEnabled(c: Config, s: State)
    requires Enabled(c, s, StopReturn)
    ensures s.phase.Stopping?
  {
  }

  lemma Returned(c: Config, s: State)
    requires Enabled(c, s, StopReturn)
    ensures var p, q := s.phase, Apply(c, s, StopReturn).phase;
            (q.Refresh? ==> p.any && p.v.Some?) && (q.Ready? ==> p.v.Some? && !p.any && q.at == p.v.value)
  {
  }

  /**
   * When a retry has written the status since Stop last returned, the check
   * that follows this return is made on a version read past the cache after
   * it, no older than the newest then, and its update can be stored exactly
   * when nothing else has written the status since that read. Otherwise it is
   * made on the version the reconciler began with, or on one read so as well.
   */
  lemma CheckIsFresh(c: Config, st: Status, trace: seq<Action>, i: nat, j: nat)
    requires Exec(c, st, trace).Some? && i < j < |trace| && trace[i].StopReturn? && trace[j].Check?
    requires forall k :: i < k < j ==> !trace[k].StopReturn?
    ensures Exec(c, st, trace[..i]).Some? && Exec(c, st, trace[..j]).Some?
    ensures var s, t := Exec(c, st, trace[..i]).value, Exec(c, st, trace[..j]).value;
            && s.phase.Stopping? && s.phase.v.Some? && t.phase.Ready?
            && (WroteSince(trace[..i]) ==>
                && t.phase.at >= |s.hist| - 1
                && exists r :: i < r < j && ReadAt(c, st, trace, r, t.phase.at) &&
                               (Possible(t, t.phase.at, Written) <==>
                                |t.hist| == |Exec(c, st, trace[..r]).value.hist|))
            && (t.phase.at == s.phase.v.value || exists r :: i < r < j && ReadAt(c, st, trace, r, t.phase.at))
  {
    hide Exec, Apply, WroteSince;
    AfterStop(c, st, trace, i, j);
    PrefixRuns(c, st, trace, i);
    PrefixRuns(c, st, trace, j);
    var s, t := Exec(c, st, trace[..i]).value, Exec(c, st, trace[..j]).value;
    assert t.phase.Ready? by { hide *; CheckEnabled(c, t, trace[j]); }
    if WroteSince(trace[..i]) {
      StopSeesEveryWrite(c, st, trace[..i]);
      var r :| i < r < j && ReadAt(c, st, trace, r, t.phase.at);
      HistGrows(c, st, trace, i, r);
      HistGrows(c, st, trace, r, j);
      assert |Exec(c, st, trace[..r]).value.hist| > 0;
      assert Possible(t, t.phase.at, Written) <==> |t.hist| == |Exec(c, st, trace[..r]).value.hist|;
    }
  }

  lemma CheckEnabled(c: Config, s: State, a: Action)
    requires Enabled(c, s, a) && a.Check?
    ensures s.phase.Ready?
  {
  }

  // ---------------------------------------------------- what Stop answers

  ghost predicate PendingAlive(s: State) {
    forall id :: id in s.registry.pending ==> id < |s.runs| && Alive(s.runs[id])
  }

  lemma PendingStep(c: Config, s: State, a: Action)
    requires PendingAlive(s) && Enabled(c, s, a)
    ensures PendingAlive(Apply(c, s, a))
  {
    hide Positions, Announced, Recorded, Checked, RetriedIn, RetryRecords, Possible, RunStep, RunEnabled, ChangeStep;
    hide Without;
    var t := Apply(c, s, a);
    if ByRun(a) {
      RunStepFrame(c, s, a);
      PendingRun(c, s, a);
    } else if a.SendChange? {
      ChangeStepFrame(c, s, a.results);
    }
  }

  lemma StaysAlive(c: Config, s: State, a: Action)
    requires ByRun(a) && RunEnabled(s, a) && !a.RunRemove? && !a.RunClose?
    ensures Alive(RunStep(c, s, a).runs[a.id])
  {
    hide Positions, Without, Recorded, AcceptedBy, MarkRecorded, Possible, Matches;
  }

  lemma PendingRun(c: Config, s: State, a: Action)
    requires PendingAlive(s) && ByRun(a) && RunEnabled(s, a)
    ensures PendingAlive(RunStep(c, s, a))
  {
    hide RunStep, RunEnabled, Without, Alive;
    RunStepFrame(c, s, a);
    if a.RunClose? {
      assert !Alive(s.runs[a.id]) by { hide *; ClosingIsOver(s, a); }
    } else if !a.RunRemove? {
      StaysAlive(c, s, a);
    }
    var t := RunStep(c, s, a);
    forall id | id in t.registry.pending ensures id < |t.runs| && Alive(t.runs[id]) {
      assert id in s.registry.pending;
    }
  }

  lemma ClosingIsOver(s: State, a: Action)
    requires a.RunClose? && RunEnabled(s, a)
    ensures !Alive(s.runs[a.id])
  {
  }

  /** A retry noted that it wrote the status since Stop last returned. */
  predicate NotedSince(trace: seq<Action>) {
    trace != [] &&
    var a := trace[|trace| - 1];
    !a.StopReturn? && (a.RunNote? || NotedSince(trace[..|trace| - 1]))
  }

  lemma WroteStep(c: Config, s: State, a: Action)
    requires Enabled(c, s, a)
    ensures Apply(c, s, a).registry.wrote == (!a.StopReturn? && (a.RunNote? || s.registry.wrote))
  {
    hide Announced, Checked, Recorded, RetriedIn, RunStep, RunEnabled, ChangeStep, Possible;
    if ByRun(a) {
      RunStepWrite(c, s, a);
    } else if a.SendChange? {
      ChangeStepFrame(c, s, a.results);
    }
  }

  lemma {:induction false} RegistrySays(c: Config, st: Status, trace: seq<Action>)
    requires Exec(c, st, trace).Some?
    ensures PendingAlive(Exec(c, st, trace).value)
    ensures Exec(c, st, trace).value.registry.wrote == NotedSince(trace)
    decreases |trace|
  {
    hide Apply, Enabled, PendingAlive;
    if trace == [] {
      NothingPending(st);
    } else {
      var p, a := trace[..|trace| - 1], trace[|trace| - 1];
      RegistrySays(c, st, p);
      PendingStep(c, Exec(c, st, p).value, a);
      WroteStep(c, Exec(c, st, p).value, a);
    }
  }

  lemma NothingPending(st: Status)
    ensures PendingAlive(Start(st)) && !Start(st).registry.wrote
  {
  }

  /**
   * Stop answers true exactly when, at its first look at the registry, some
   * retry had not removed itself or one had noted a write since Stop last
   * returned: without either the reconciler goes on with what it has.
   */
  lemma StopAnswersTrueWhen(c: Config, st: Status, trace: seq<Action>)
    requires Exec(c, st, trace).Some? && Enabled(c, Exec(c, st, trace).value, StopLock)
    ensures var s := Exec(c, st, trace).value;
            Apply(c, s, StopLock).phase.Stopping? &&
            (Apply(c, s, StopLock).phase.any <==> !NoneAlive(s) || NotedSince(trace))
  {
    hide Exec, Settled, WriteSeen, NotedSince;
    AlwaysStopInv(c, st, trace);
    RegistrySays(c, st, trace);
    var s := Exec(c, st, trace).value;
    if s.registry.pending != [] {
      assert s.registry.pending[0] in s.registry.pending;
    }
  }

  // ------------------------------------------------- what follows a check

  /** What a retry was queued for. */
  datatype Key = Key(notifier: nat, alert: Option<nat>, records: bool)

  function KeyOf(r: Run): Key {
    Key(r.notifier, r.alert, r.records)
  }

  function KeysOf(runs: seq<Run>): seq<Key> {
    seq(|runs|, i requires 0 <= i < |runs| => KeyOf(runs[i]))
  }

  function Queued(todo: seq<nat>, alert: Option<nat>, records: bool): seq<Key> {
    seq(|todo|, i requires 0 <= i < |todo| => Key(todo[i], alert, records))
  }

  predicate IsSendOrRecord(a: Action) {
    a.SendStatus? || a.SendChange? || a.RecordChange?
  }

  /** What the reconciler sends and records after the i-th action and before the j-th. */
  function SentBetween(trace: seq<Action>, i: nat, j: nat): seq<Action>
    requires i < j <= |trace|
  {
    if j == i + 1 then []
    else SentBetween(trace, i, j - 1) + if IsSendOrRecord(trace[j - 1]) then [trace[j - 1]] else []
  }

  predicate AllSent(results: seq<SendResult>) {
    forall k :: 0 <= k < |results| ==> results[k].Sent?
  }

  predicate Differs(h: Status) {
    Announced(h) != h.last
  }

  /** The newest alert reports the change of `h`. */
  predicate Reports(s: State, alerts: nat, h: Status) {
    alerts < |s.alerts| && s.alerts[alerts].from == Announced(h) && s.alerts[alerts].to == h.last &&
    s.alerts[alerts].since == h.since
  }

  ghost predicate StatusSent(c: Config, sent: seq<Action>) {
    sent != [] && sent[0].SendStatus? && |sent[0].results| == c.n
  }

  ghost predicate ChangeSent(c: Config, sent: seq<Action>) {
    |sent| >= 2 && StatusSent(c, sent) && sent[1].SendChange? && |sent[1].results| == c.n
  }

  function StatusKeys(c: Config, a: Action): seq<Key>
    requires a.SendStatus?
  {
    Queued(RetriedIn(a.results, c.tries), None, false)
  }

  function ChangeKeys(c: Config, a: Action, alerts: nat): seq<Key>
    requires a.SendChange?
  {
    Queued(RetriedIn(a.results, c.tries), Some(alerts), RetryRecords(a.results, c.tries))
  }

  /**
   * Everything that is due after a written check `h` has been done: the status
   * was sent; a change was sent too exactly when the status announced differs;
   * it was recorded at once exactly when every notifier took it; and each
   * failure that is retried was queued, with the mark of who may record.
   */
  ghost predicate Done(c: Config, s: State, sent: seq<Action>, h: Status, before: seq<Key>, alerts: nat) {
    && StatusSent(c, sent)
    && if !Differs(h) then |sent| == 1 && KeysOf(s.runs) == before + StatusKeys(c, sent[0]) && |s.alerts| == alerts
       else
         && ChangeSent(c, sent) && Reports(s, alerts, h)
         && if AllSent(sent[1].results)
            then |sent| == 3 && sent[2].RecordChange? && KeysOf(s.runs) == before + StatusKeys(c, sent[0])
            else |sent| == 2 && KeysOf(s.runs) == before + StatusKeys(c, sent[0]) + ChangeKeys(c, sent[1], alerts)
  }

  /** How far the reconciler has come with a check written as version `n`. */
  ghost predicate Following(c: Config, s: State, sent: seq<Action>, n: nat, h: Status, before: seq<Key>, alerts: nat) {
    && n < |s.hist| && s.hist[n] == h
    && match s.phase
       case Sending(at) => at == n && sent == [] && KeysOf(s.runs) == before && |s.alerts| == alerts
       case Queueing(at, todo) =>
         && at == n && |sent| == 1 && StatusSent(c, sent) && |s.alerts| == alerts
         && KeysOf(s.runs) + Queued(todo, None, false) == before + StatusKeys(c, sent[0])
       case Changing(at) =>
         && at == n && |sent| == 1 && StatusSent(c, sent) && |s.alerts| == alerts && Differs(h)
         && KeysOf(s.runs) == before + StatusKeys(c, sent[0])
       case ChangeQueueing(todo, records) =>
         && |sent| == 2 && ChangeSent(c, sent) && Differs(h) && Reports(s, alerts, h) && |s.alerts| == alerts + 1
         && !AllSent(sent[1].results)
         && KeysOf(s.runs) + Queued(todo, Some(alerts), records) ==
            before + StatusKeys(c, sent[0]) + ChangeKeys(c, sent[1], alerts)
       case Recording(at) =>
         && |sent| == 2 && ChangeSent(c, sent) && Differs(h) && Reports(s, alerts, h) && |s.alerts| == alerts + 1
         && AllSent(sent[1].results) && KeysOf(s.runs) == before + StatusKeys(c, sent[0])
       case Idle => Done(c, s, sent, h, before, alerts)
       case _ => false
  }

  /** A step of a retry, or of another writer, changes nothing of that. */
  ghost predicate LeavesAlone(s: State, t: State) {
    && t.phase == s.phase && KeysOf(t.runs) == KeysOf(s.runs) && SameNews(t.alerts, s.alerts)
    && |s.hist| <= |t.hist| && t.hist[..|s.hist|] == s.hist
  }

  lemma RunKeepsKey(c: Config, s: State, a: Action)
    requires ByRun(a) && RunEnabled(s, a)
    ensures var t := RunStep(c, s, a); |t.runs| == |s.runs| && KeyOf(t.runs[a.id]) == KeyOf(s.runs[a.id])
  {
    hide Positions, Without, Recorded, AcceptedBy, MarkRecorded, Possible, Matches;
  }

  ghost predicate SameNews(a: seq<ChangeAlert>, b: seq<ChangeAlert>) {
    |a| == |b| && forall k :: 0 <= k < |a| ==> a[k].from == b[k].from && a[k].to == b[k].to && a[k].since == b[k].since
  }

  lemma RunKeepsNews(c: Config, s: State, a: Action)
    requires ByRun(a) && RunEnabled(s, a)
    ensures SameNews(RunStep(c, s, a).alerts, s.alerts)
  {
    hide Positions, Without, Recorded, Possible, Matches;
  }

  lemma RunLeavesAlone(c: Config, s: State, a: Action)
    requires Enabled(c, s, a) && (ByRun(a) || a.ExternalWrite?)
    ensures LeavesAlone(s, Apply(c, s, a))
  {
    hide RunStep, RunEnabled, Recorded, KeyOf;
    HistStep(c, s, a);
    if ByRun(a) {
      RunStepFrame(c, s, a);
      RunKeepsKey(c, s, a);
      RunKeepsNews(c, s, a);
    }
    assert KeysOf(Apply(c, s, a).runs) == KeysOf(s.runs);
  }

  lemma LeftFollowing(c: Config, s: State, t: State, sent: seq<Action>, n: nat, h: Status, before: seq<Key>,
      alerts: nat)
    requires Following(c, s, sent, n, h, before, alerts) && LeavesAlone(s, t)
    ensures Following(c, t, sent, n, h, before, alerts)
  {
    hide Announced, StatusKeys, ChangeKeys, Queued, KeysOf, AllSent, StatusSent, ChangeSent;
    assert t.hist[n] == t.hist[..|s.hist|][n];
  }

  lemma QueuedFirst(todo: seq<nat>, alert: Option<nat>, records: bool)
    requires todo != []
    ensures Queued(todo, alert, records) == [Key(todo[0], alert, records)] + Queued(todo[1..], alert, records)
  {
  }

  lemma KeysMore(runs: seq<Run>, r: Run)
    ensures KeysOf(runs + [r]) == KeysOf(runs) + [KeyOf(r)]
  {
  }

  lemma NothingQueued(alert: Option<nat>, records: bool)
    ensures Queued([], alert, records) == []
  {
  }

  lemma FollowQueue(c: Config, s: State, sent: seq<Action>, n: nat, h: Status, before: seq<Key>, alerts: nat)
    requires Following(c, s, sent, n, h, before, alerts) && Enabled(c, s, Queue)
    ensures Following(c, Apply(c, s, Queue), sent, n, h, before, alerts)
  {
    hide Announced, StatusKeys, ChangeKeys, Queued, KeysOf, AllSent, Positions, RetriedIn, RetryRecords, StatusSent;
    var todo := s.phase.todo;
    var alert, records := if s.phase.Queueing? then None else Some(alerts), s.phase.ChangeQueueing? && s.phase.records;
    if todo == [] {
      NothingQueued(alert, records);
      assert KeysOf(s.runs) + [] == KeysOf(s.runs);
    } else {
      QueuedFirst(todo, alert, records);
      var run := Run(Waiting(2), false, todo[0], alert, records);
      KeysMore(s.runs, run);
      var k := [Key(todo[0], alert, records)];
      assert KeysOf(s.runs) + (k + Queued(todo[1..], alert, records)) ==
             KeysOf(s.runs) + k + Queued(todo[1..], alert, records);
    }
  }

  lemma FollowSend(c: Config, s: State, a: Action, n: nat, h: Status, before: seq<Key>, alerts: nat)
    requires Following(c, s, [], n, h, before, alerts) && a.SendStatus? && Enabled(c, s, a)
    ensures Following(c, Apply(c, s, a), [a], n, h, before, alerts)
  {
    hide Announced, Queued, KeysOf, AllSent, Positions, RetriedIn, RetryRecords;
  }

  lemma FollowChange(c: Config, s: State, a: Action, sent: seq<Action>, n: nat, h: Status, before: seq<Key>,
      alerts: nat)
    requires Following(c, s, sent, n, h, before, alerts) && a.SendChange? && Enabled(c, s, a)
    ensures Following(c, Apply(c, s, a), sent + [a], n, h, before, alerts)
  {
    hide Announced, Queued, KeysOf, RetriedIn, RetryRecords, StatusKeys, AllSent, Positions;
    SentToAll(a.results);
  }

  lemma SentToAll(results: seq<SendResult>)
    ensures AllSent(results) <==> Positions(results, IsFailure) == []
  {
    hide Positions;
    var at := Positions(results, IsFailure);
    if at != [] {
      assert IsFailure(results[at[0]]);
    } else {
      forall k | 0 <= k < |results| ensures results[k].Sent? {
        assert IsFailure(results[k]) ==> k in at;
      }
    }
  }

  lemma FollowRecord(c: Config, s: State, a: Action, sent: seq<Action>, n: nat, h: Status, before: seq<Key>,
      alerts: nat)
    requires Following(c, s, sent, n, h, before, alerts) && a.RecordChange? && Enabled(c, s, a)
    ensures Following(c, Apply(c, s, a), sent + [a], n, h, before, alerts)
  {
    hide Announced, Queued, KeysOf, RetriedIn, RetryRecords, StatusKeys, AllSent, Recorded;
  }

  lemma FollowStep(c: Config, s: State, a: Action, sent: seq<Action>, n: nat, h: Status, before: seq<Key>,
      alerts: nat)
    requires Following(c, s, sent, n, h, before, alerts) && Enabled(c, s, a) && !a.Begin?
    ensures Following(c, Apply(c, s, a), if IsSendOrRecord(a) then sent + [a] else sent, n, h, before, alerts)
  {
    if ByRun(a) || a.ExternalWrite? {
      hide *;
      RunLeavesAlone(c, s, a);
      LeftFollowing(c, s, Apply(c, s, a), sent, n, h, before, alerts);
      assert !IsSendOrRecord(a) by { NoSend(a); }
    } else if a.Queue? {
      FollowQueue(c, s, sent, n, h, before, alerts);
    } else if a.SendStatus? {
      hide Apply, StatusKeys, KeysOf, Announced;
      assert sent == [];
      assert sent + [a] == [a];
      FollowSend(c, s, a, n, h, before, alerts);
    } else if a.SendChange? {
      FollowChange(c, s, a, sent, n, h, before, alerts);
    } else if a.RecordChange? {
      FollowRecord(c, s, a, sent, n, h, before, alerts);
    } else {
      hide Apply, Following;
      PhaseFollowed(c, s, a, sent, n, h, before, alerts);
      assert false;
    }
  }

  lemma NoSend(a: Action)
    requires ByRun(a) || a.ExternalWrite?
    ensures !IsSendOrRecord(a)
  {
  }

  lemma PhaseFollowed(c: Config, s: State, a: Action, sent: seq<Action>, n: nat, h: Status, before: seq<Key>,
      alerts: nat)
    requires Following(c, s, sent, n, h, before, alerts) && Enabled(c, s, a)
    ensures a.Begin? || ByRun(a) || a.ExternalWrite? || a.Queue? || IsSendOrRecord(a)
  {
  }

  lemma {:induction false} FollowCheck(c: Config, st: Status, trace: seq<Action>, i: nat, j: nat)
    requires Exec(c, st, trace).Some? && i < j <= |trace| && trace[i].Check? && trace[i].w.Written?
    requires forall k :: i < k < j ==> !trace[k].Begin?
    ensures Exec(c, st, trace[..i]).Some? && Exec(c, st, trace[..j]).Some?
    ensures var s := Exec(c, st, trace[..i]).value;
            && s.phase.Ready? && s.phase.at < |s.hist|
            && Following(c, Exec(c, st, trace[..j]).value, SentBetween(trace, i, j), |s.hist|,
                         Checked(s.hist[s.phase.at], trace[i].status, trace[i].now), KeysOf(s.runs), |s.alerts|)
    decreases j
  {
    hide Exec, Apply, Enabled, Following, KeysOf, Checked;
    PrefixRuns(c, st, trace, i);
    var s := Exec(c, st, trace[..i]).value;
    CheckWritten(c, s, trace[i]);
    if j > i + 1 {
      PrefixRuns(c, st, trace, j - 1);
      FollowCheck(c, st, trace, i, j - 1);
      FollowStep(c, Exec(c, st, trace[..j - 1]).value, trace[j - 1], SentBetween(trace, i, j - 1), |s.hist|,
                 Checked(s.hist[s.phase.at], trace[i].status, trace[i].now), KeysOf(s.runs), |s.alerts|);
      assert SentBetween(trace, i, j - 1) + [] == SentBetween(trace, i, j - 1);
    }
  }

  lemma CheckWritten(c: Config, s: State, a: Action)
    requires Enabled(c, s, a) && a.Check? && a.w.Written?
    ensures s.phase.Ready? && s.phase.at < |s.hist|
    ensures Following(c, Apply(c, s, a), [], |s.hist|, Checked(s.hist[s.phase.at], a.status, a.now), KeysOf(s.runs),
                      |s.alerts|)
  {
    hide Checked, KeysOf;
  }

  /**
   * When the reconciler begins again after a check that was written, it has
   * sent the status, and sent the change exactly when the status announced
   * differs from the one checked; the alert says what was left, for what and
   * since when. It recorded the change at once exactly when every notifier
   * took it, and queued a retry for each failure that a later try may not
   * repeat, and none else.
   */
  lemma WrittenCheckIsAnnounced(c: Config, st: Status, trace: seq<Action>, i: nat, j: nat)
    requires Exec(c, st, trace).Some? && i < j < |trace| && trace[i].Check? && trace[i].w.Written? && trace[j].Begin?
    requires forall k :: i < k < j ==> !trace[k].Begin?
    ensures Exec(c, st, trace[..i]).Some? && Exec(c, st, trace[..j]).Some?
    ensures var s := Exec(c, st, trace[..i]).value;
            && s.phase.Ready? && s.phase.at < |s.hist|
            && Done(c, Exec(c, st, trace[..j]).value, SentBetween(trace, i, j),
                    Checked(s.hist[s.phase.at], trace[i].status, trace[i].now), KeysOf(s.runs), |s.alerts|)
  {
    hide Exec, Apply, Done, KeysOf, Checked;
    FollowCheck(c, st, trace, i, j);
    PrefixRuns(c, st, trace, j);
    assert Exec(c, st, trace[..j]).value.phase.Idle? by {
      hide *;
      BeginEnabled(c, Exec(c, st, trace[..j]).value, trace[j]);
    }
  }

  lemma BeginEnabled(c: Config, s: State, a: Action)
    requires Enabled(c, s, a) && a.Begin?
    ensures s.phase.Idle?
  {
  }

  /** The reconciler is telling what a check found. */
  predicate Telling(p: Phase) {
    p.Sending? || p.Queueing? || p.Changing? || p.ChangeQueueing? || p.Recording?
  }

  /** A check was written, and the reconciler has not begun again since. */
  ghost predicate WrittenSince(trace: seq<Action>) {
    exists i :: 0 <= i < |trace| && WrittenAt(trace, i)
  }

  predicate WrittenAt(trace: seq<Action>, i: int) {
    0 <= i < |trace| && trace[i].Check? && trace[i].w.Written? && forall k :: i < k < |trace| ==> !trace[k].Begin?
  }

  lemma TellingStep(c: Config, s: State, a: Action)
    requires Enabled(c, s, a)
    ensures Telling(Apply(c, s, a).phase) ==> (Telling(s.phase) && !a.Begin?) || (a.Check? && a.w.Written?)
  {
    hide Positions, RetriedIn, RetryRecords, Announced, Checked, Recorded, RunStep, RunEnabled, ChangeStep, Possible;
    if ByRun(a) {
      RunStepFrame(c, s, a);
    }
  }

  lemma {:induction false} TellsAfterCheck(c: Config, st: Status, trace: seq<Action>)
    requires Exec(c, st, trace).Some? && Telling(Exec(c, st, trace).value.phase)
    ensures WrittenSince(trace)
    decreases |trace|
  {
    hide Apply, Enabled, Telling;
    if trace == [] {
      Quiet(st);
    } else {
      var p, a := trace[..|trace| - 1], trace[|trace| - 1];
      var s := Exec(c, st, p).value;
      TellingStep(c, s, a);
      if a.Check? && a.w.Written? {
        assert WrittenAt(trace, |p|);
      } else {
        TellsAfterCheck(c, st, p);
        var i :| 0 <= i < |p| && WrittenAt(p, i);
        assert WrittenAt(trace, i);
      }
    }
  }

  lemma Quiet(st: Status)
    ensures !Telling(Start(st).phase)
  {
  }

  /** Alerts are sent, and changes recorded, only after a stored check, before the reconciler begins again. */
  lemma NothingSentUnwritten(c: Config, st: Status, trace: seq<Action>, a: Action)
    requires Exec(c, st, trace).Some? && Enabled(c, Exec(c, st, trace).value, a) && IsSendOrRecord(a)
    ensures WrittenSince(trace)
  {
    hide Exec, WrittenSince;
    TellsAfterCheck(c, st, trace);
  }
}

/**
 * When the stored status and the announced one began, in every interleaving of
 * Announcing.
 */
module StatusTimes {
  import opened Base
  import opened Alerts
  import opened RetryRegistry
  import opened Announcing
  import opened StopAndRetries
  import opened ChangeChain

  // ------------------------------------------------------ the status checked

  /** The check was stored. */
  predicate StoredCheck(a: Action) {
    a.Check? && Lands(a.w)
  }

  /** Every check stored from the k-th action on, before the n-th, found this status. */
  predicate AllFound(trace: seq<Action>, k: int, n: int, status: string) {
    forall i :: 0 <= i < |trace| && k <= i < n && StoredCheck(trace[i]) ==> trace[i].status == status
  }

  /** The check last stored before the n-th action found another status, as the status was at first before any. */
  ghost predicate OtherBefore(trace: seq<Action>, st: Status, n: int, status: string) {
    if exists i :: LastStored(trace, i, n)
    then exists i :: LastStored(trace, i, n) && trace[i].status != status
    else st.last != status
  }

  predicate LastStored(trace: seq<Action>, i: int, n: int) {
    0 <= i < |trace| && i < n && StoredCheck(trace[i]) &&
    forall k :: i < k < n && k < |trace| ==> !StoredCheck(trace[k])
  }

  /** The status began at the k-th action: a stored check found it then, after another, and each one since. */
  ghost predicate BeganAt(trace: seq<Action>, st: Status, k: int, status: string, since: int) {
    && 0 <= k < |trace| && StoredCheck(trace[k]) && trace[k].status == status && trace[k].now == since
    && OtherBefore(trace, st, k, status) && AllFound(trace, k, |trace|, status)
  }

  ghost predicate Began(trace: seq<Action>, st: Status, status: string, since: int) {
    || (status == st.last && since == st.since && AllFound(trace, 0, |trace|, status))
    || exists k :: BeganAt(trace, st, k, status, since)
  }

  /** The newest status is the one that the last stored check found, or that there was at first. */
  ghost predicate IsLastFound(trace: seq<Action>, st: Status, status: string) {
    if exists i :: LastStored(trace, i, |trace|)
    then exists i :: LastStored(trace, i, |trace|) && trace[i].status == status
    else st.last == status
  }

  lemma NewestStep(c: Config, s: State, a: Action)
    requires Enabled(c, s, a) && s.hist != []
    ensures var t := Apply(c, s, a);
            && t.hist != []
            && var x, y := Last(s.hist), Last(t.hist);
               if StoredCheck(a) then y.last == a.status && y.since == (if x.last == a.status then x.since else a.now)
               else y.last == x.last && y.since == x.since
  {
    hide Positions, RetriedIn, RetryRecords, Announced, AcceptedBy, MarkRecorded, Without, Matches, ChangeStep;
    if a.SendChange? {
      ChangeHist(c, s, a.results);
    }
  }

  lemma ChangeHist(c: Config, s: State, results: seq<SendResult>)
    requires s.phase.Changing? && s.phase.at < |s.hist|
    ensures ChangeStep(c, s, results).hist == s.hist
  {
  }

  lemma LastStoredMore(trace: seq<Action>, i: int)
    requires trace != []
    ensures var n := |trace| - 1;
            LastStored(trace, i, n + 1) <==>
            if StoredCheck(trace[n]) then i == n else LastStored(trace[..n], i, n)
  {
  }

  lemma SameBefore(trace: seq<Action>, i: int, k: int)
    requires trace != [] && k <= |trace| - 1
    ensures LastStored(trace[..|trace| - 1], i, k) <==> LastStored(trace, i, k)
  {
  }

  lemma OtherBeforeSame(trace: seq<Action>, st: Status, k: int, status: string)
    requires trace != [] && k <= |trace| - 1
    ensures OtherBefore(trace[..|trace| - 1], st, k, status) <==> OtherBefore(trace, st, k, status)
  {
    hide LastStored;
    var p := trace[..|trace| - 1];
    forall i ensures (LastStored(p, i, k) <==> LastStored(trace, i, k)) && (LastStored(p, i, k) ==> 0 <= i < |p|) {
      SameBefore(trace, i, k);
      LastStoredWithin(p, i, k);
    }
  }

  lemma LastStoredWithin(trace: seq<Action>, i: int, n: int)
    ensures LastStored(trace, i, n) ==> 0 <= i < |trace| && trace[i].Check?
  {
  }

  lemma AllFoundMore(trace: seq<Action>, k: int, status: string)
    requires trace != []
    ensures var n := |trace| - 1;
            AllFound(trace, k, n + 1, status) <==>
            AllFound(trace[..n], k, n, status) && (k <= n && StoredCheck(trace[n]) ==> trace[n].status == status)
  {
  }

  lemma BeganLonger(trace: seq<Action>, st: Status, status: string, since: int)
    requires trace != [] && Began(trace[..|trace| - 1], st, status, since)
    requires StoredCheck(trace[|trace| - 1]) ==> trace[|trace| - 1].status == status
    ensures Began(trace, st, status, since)
  {
    hide OtherBefore, AllFound, StoredCheck;
    var n := |trace| - 1;
    AllFoundMore(trace, 0, status);
    if exists k :: BeganAt(trace[..n], st, k, status, since) {
      var k :| BeganAt(trace[..n], st, k, status, since);
      OtherBeforeSame(trace, st, k, status);
      AllFoundMore(trace, k, status);
      assert BeganAt(trace, st, k, status, since);
    }
  }

  lemma BeganNow(trace: seq<Action>, st: Status, before: string)
    requires trace != [] && StoredCheck(trace[|trace| - 1]) && before != trace[|trace| - 1].status
    requires IsLastFound(trace[..|trace| - 1], st, before)
    ensures Began(trace, st, trace[|trace| - 1].status, trace[|trace| - 1].now)
  {
    hide LastStored;
    var n := |trace| - 1;
    var a := trace[n];
    forall i ensures (LastStored(trace[..n], i, n) <==> LastStored(trace, i, n)) &&
                     (LastStored(trace[..n], i, n) ==> 0 <= i < n && trace[i].Check?) {
      SameBefore(trace, i, n);
      LastStoredWithin(trace[..n], i, n);
    }
    if exists i :: LastStored(trace[..n], i, n) {
      var i :| LastStored(trace[..n], i, n) && trace[..n][i].status == before;
      assert LastStored(trace, i, n) && trace[i].status != a.status;
    }
    assert BeganAt(trace, st, n, a.status, a.now);
  }

  lemma FoundMore(trace: seq<Action>, st: Status, status: string)
    requires trace != [] && (StoredCheck(trace[|trace| - 1]) ==> status == trace[|trace| - 1].status)
    requires !StoredCheck(trace[|trace| - 1]) ==> IsLastFound(trace[..|trace| - 1], st, status)
    ensures IsLastFound(trace, st, status)
  {
    hide LastStored;
    var n := |trace| - 1;
    forall i ensures LastStored(trace, i, |trace|) <==>
                     if StoredCheck(trace[n]) then i == n else LastStored(trace[..n], i, n) {
      LastStoredMore(trace, i);
    }
    forall i ensures LastStored(trace[..n], i, n) ==> 0 <= i < n && trace[i].Check? {
      LastStoredWithin(trace[..n], i, n);
    }
    if StoredCheck(trace[n]) {
      assert LastStored(trace, n, |trace|);
    } else if exists i :: LastStored(trace[..n], i, n) {
      var i :| LastStored(trace[..n], i, n) && trace[..n][i].status == status;
      assert LastStored(trace, i, |trace|);
    }
  }

  /**
   * In every interleaving the newest status is what the last stored check
   * found, and it began when a stored check first found it after another
   * status, every one since finding the same; before any other, as it did at
   * first.
   */
  lemma {:induction false} StatusBeganThen(c: Config, st: Status, trace: seq<Action>)
    requires Exec(c, st, trace).Some?
    ensures Exec(c, st, trace).value.hist != []
    ensures var x := Last(Exec(c, st, trace).value.hist);
            IsLastFound(trace, st, x.last) && Began(trace, st, x.last, x.since)
    decreases |trace|
  {
    hide Apply, Enabled, IsLastFound, Began;
    if trace == [] {
      AtFirst(st);
    } else {
      var p, a := trace[..|trace| - 1], trace[|trace| - 1];
      StatusBeganThen(c, st, p);
      var s := Exec(c, st, p).value;
      NewestStep(c, s, a);
      var x, y := Last(s.hist), Last(Apply(c, s, a).hist);
      FoundMore(trace, st, y.last);
      if StoredCheck(a) && x.last != a.status {
        BeganNow(trace, st, x.last);
      } else {
        BeganLonger(trace, st, y.last, y.since);
      }
    }
  }

  lemma AtFirst(st: Status)
    ensures IsLastFound([], st, st.last) && Began([], st, st.last, st.since)
  {
  }

  // ---------------------------------------------------- the status announced

  /** When the status announced began. */
  function AnnouncedSince(st: Status): int {
    if st.notified.Some? then st.notifiedSince else st.since
  }

  /** When what the last recorded alert announced began. */
  function LastRecordedSince(alerts: seq<ChangeAlert>, init: int): int {
    if alerts == [] then init
    else
      var a := alerts[|alerts| - 1];
      if a.recorded then a.since else LastRecordedSince(alerts[..|alerts| - 1], init)
  }

  ghost predicate SinceInv(s: State, init: int) {
    && s.hist != [] && AnnouncedSince(Last(s.hist)) == LastRecordedSince(s.alerts, init)
    && (s.phase.Recording? ==>
          s.phase.at < |s.hist| && s.alerts != [] && Last(s.alerts).since == s.hist[s.phase.at].since)
  }

  lemma {:induction false} SameSince(a: seq<ChangeAlert>, b: seq<ChangeAlert>, init: int)
    requires |a| == |b| && forall j :: 0 <= j < |a| ==> a[j].recorded == b[j].recorded && a[j].since == b[j].since
    ensures LastRecordedSince(a, init) == LastRecordedSince(b, init)
    decreases |a|
  {
    if a != [] {
      SameSince(a[..|a| - 1], b[..|b| - 1], init);
    }
  }

  lemma RecordedSince(alerts: seq<ChangeAlert>, init: int)
    requires alerts != []
    ensures LastRecordedSince(MarkRecorded(alerts, |alerts| - 1), init) == Last(alerts).since
  {
  }

  lemma UnrecordedSince(alerts: seq<ChangeAlert>, a: ChangeAlert, init: int)
    requires !a.recorded
    ensures LastRecordedSince(alerts + [a], init) == LastRecordedSince(alerts, init)
  {
    assert (alerts + [a])[..|alerts|] == alerts;
  }

  lemma SincePut(c: Config, s: State, a: Action, init: int)
    requires SinceInv(s, init) && MarksOk(c, s) && Enabled(c, s, a) && a.MarkPut?
    requires s.phase.Recording? ==> NoMarks(s)
    ensures SinceInv(Apply(c, s, a), init)
  {
    hide Without, LastRecordedSince, AllAccepted, OthersAccepted;
    assert Marks(s.runs[a.id]) && MarkOk(c, s, s.runs[a.id]);
    RecordedSince(s.alerts, init);
  }

  lemma SinceSend(c: Config, s: State, a: Action, init: int)
    requires SinceInv(s, init) && Enabled(c, s, a) && a.RunSend?
    ensures SinceInv(Apply(c, s, a), init)
  {
    hide LastRecordedSince;
    var t := Apply(c, s, a);
    SameSince(t.alerts, s.alerts, init);
  }

  lemma SinceChange(c: Config, s: State, a: Action, init: int)
    requires SinceInv(s, init) && Enabled(c, s, a) && a.SendChange?
    ensures SinceInv(Apply(c, s, a), init)
  {
    hide LastRecordedSince, Positions, RetriedIn, RetryRecords;
    var st := s.hist[s.phase.at];
    UnrecordedSince(s.alerts, ChangeAlert(Announced(st), st.last, st.since, Accepting(a.results), false), init);
  }

  lemma SinceRecord(c: Config, s: State, a: Action, init: int)
    requires SinceInv(s, init) && Enabled(c, s, a) && a.RecordChange?
    ensures SinceInv(Apply(c, s, a), init)
  {
    hide LastRecordedSince;
    RecordedSince(s.alerts, init);
  }

  lemma SinceOther(c: Config, s: State, a: Action, init: int)
    requires SinceInv(s, init) && Enabled(c, s, a)
    requires !a.MarkPut? && !a.RunSend? && !a.SendChange? && !a.RecordChange?
    ensures SinceInv(Apply(c, s, a), init)
  {
    hide LastRecordedSince, Without, Positions, RetriedIn, Matches, MarkRecorded, AcceptedBy;
  }

  /**
   * In every interleaving the status stored as announced began when the last
   * recorded alert says that what it announced began, or as it did at first.
   */
  lemma {:induction false} AnnouncedBeganThen(c: Config, st: Status, trace: seq<Action>)
    requires Exec(c, st, trace).Some?
    ensures SinceInv(Exec(c, st, trace).value, AnnouncedSince(st))
    decreases |trace|
  {
    hide Apply, Enabled, SinceInv, ChainInv, AnnouncedSince;
    if trace == [] {
      SinceStarts(st);
    } else {
      var p, a := trace[..|trace| - 1], trace[|trace| - 1];
      AnnouncedBeganThen(c, st, p);
      AlwaysChained(c, st, p);
      var s := Exec(c, st, p).value;
      match a
      case MarkPut(_, _, _) =>
        MarksOfChain(c, s, Announced(st));
        SincePut(c, s, a, AnnouncedSince(st));
      case RunSend(_, _) => SinceSend(c, s, a, AnnouncedSince(st));
      case SendChange(_) => SinceChange(c, s, a, AnnouncedSince(st));
      case RecordChange(_) => SinceRecord(c, s, a, AnnouncedSince(st));
      case _ => SinceOther(c, s, a, AnnouncedSince(st));
    }
  }

  lemma MarksOfChain(c: Config, s: State, init: string)
    requires ChainInv(c, s, init)
    ensures MarksOk(c, s) && (s.phase.Recording? ==> NoMarks(s))
  {
    hide MarksOk, NoMarks, AlertsOk, StatusOk;
  }

  lemma SinceStarts(st: Status)
    ensures SinceInv(Start(st), AnnouncedSince(st))
  {
  }
}

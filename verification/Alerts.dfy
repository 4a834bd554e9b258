/**
 * One alert and the retries of the notifiers that failed to send it:
 * CompositeNotifier.SendAlert in pkg/factory/factory.go, AlertRetries,
 * queueRetries and retryAlert in internal/controller/retry.go.
 */
module Alerts {
  import opened Base

  /** What a notifier answers: nil, a RetryableError, or any other error. */
  datatype SendResult = Sent | Retryable | Permanent

  /** The notifiers that failed, by name, with their errors and what to retry them with. */
  datatype SendError = SendError(notifiers: seq<string>, errs: seq<SendResult>, failed: seq<nat>)

  // ---------------------------------------------------------------- sending

  /** Where `p` holds, in order. */
  function Positions(results: seq<SendResult>, p: SendResult -> bool): (r: seq<nat>)
    ensures forall k :: 0 <= k < |r| ==> r[k] < |results| && p(results[r[k]])
    ensures forall j, k :: 0 <= j < k < |r| ==> r[j] < r[k]
    ensures forall i :: 0 <= i < |results| && p(results[i]) ==> i in r
  {
    if results == [] then []
    else
      var n := |results| - 1;
      Positions(results[..n], p) + if p(results[n]) then [n] else []
  }

  predicate IsFailure(r: SendResult) {
    !r.Sent?
  }

  predicate IsRetryable(r: SendResult) {
    r.Retryable?
  }

  predicate IsPermanent(r: SendResult) {
    r.Permanent?
  }

  function Select<T>(s: seq<T>, at: seq<nat>): seq<T>
    requires forall k :: 0 <= k < |at| ==> at[k] < |s|
  {
    seq(|at|, k requires 0 <= k < |at| => s[at[k]])
  }

  lemma PositionsMore(results: seq<SendResult>, p: SendResult -> bool, n: nat)
    requires n < |results|
    ensures Positions(results[..n + 1], p) == Positions(results[..n], p) + if p(results[n]) then [n] else []
  {
    assert results[..n + 1][..n] == results[..n];
  }

  lemma PositionsAppend(results: seq<SendResult>, x: SendResult, p: SendResult -> bool)
    ensures Positions(results + [x], p) == if p(x) then Positions(results, p) + [|results|] else Positions(results, p)
  {
    assert (results + [x])[..|results|] == results;
  }

  lemma SelectMore<T>(s: seq<T>, at: seq<nat>, i: nat)
    requires i < |s| && forall k :: 0 <= k < |at| ==> at[k] < |s|
    ensures Select(s, at + [i]) == Select(s, at) + [s[i]]
  {
  }

  lemma SelectWithin<T>(s: seq<T>, x: T, at: seq<nat>)
    requires forall k :: 0 <= k < |at| ==> at[k] < |s|
    ensures Select(s + [x], at) == Select(s, at)
  {
  }

  /** Sends to every notifier, whatever the others answer. */
  method SendAlert(names: seq<string>, results: seq<SendResult>) returns (err: Option<SendError>)
    requires |names| == |results|
    ensures var at := Positions(results, IsFailure);
            err == if at == [] then None else Some(SendError(Select(names, at), Select(results, at), at))
  {
    var failed := SendError([], [], []);
    for i := 0 to |names|
      invariant failed.failed == Positions(results[..i], IsFailure)
      invariant failed.notifiers == Select(names, failed.failed) && failed.errs == Select(results, failed.failed)
    {
      PositionsMore(results, IsFailure, i);
      if results[i] != Sent {
        failed := SendError(failed.notifiers + [names[i]], failed.errs + [results[i]], failed.failed + [i]);
      }
    }
    assert results[..|results|] == results;
    err := if failed.errs != [] then Some(failed) else None;
  }

  // --------------------------------------------------------------- queueing

  /** The notifiers whose failure is retried. */
  function RetriedIn(results: seq<SendResult>, tries: nat): seq<nat> {
    if tries < 2 then [] else Positions(results, IsRetryable)
  }

  /** The notifiers whose failure is reported at once. */
  function ReportedIn(results: seq<SendResult>, tries: nat): seq<nat> {
    Positions(results, if tries < 2 then IsFailure else IsPermanent)
  }

  /** A retry that delivers the alert records the change. */
  predicate RetryRecords(results: seq<SendResult>, tries: nat) {
    ReportedIn(results, tries) == [] && |RetriedIn(results, tries)| == 1
  }

  /** Each failure is either retried or reported at once, never both, and nothing else is. */
  lemma RetriedOrReported(results: seq<SendResult>, tries: nat, i: nat)
    requires i < |results|
    ensures i in RetriedIn(results, tries) || i in ReportedIn(results, tries) <==> results[i] != Sent
    ensures !(i in RetriedIn(results, tries) && i in ReportedIn(results, tries))
  {
    var a, b := RetriedIn(results, tries), ReportedIn(results, tries);
    if i in a {
      var k :| 0 <= k < |a| && a[k] == i;
    }
    if i in b {
      var k :| 0 <= k < |b| && b[k] == i;
    }
  }

  /** What queueRetries makes of a failed alert. The errors kept in `rest` have nothing to retry them with. */
  method QueueRetries(err: SendError, tries: nat, change: bool)
      returns (rest: Option<SendError>, retried: seq<nat>, records: bool)
    requires |err.notifiers| == |err.errs| == |err.failed|
    ensures tries < 2 ==> rest == Some(err) && retried == []
    ensures tries >= 2 ==>
              && retried == Positions(err.errs, IsRetryable)
              && var at := ReportedAt(err.errs);
                 rest == if at == [] then None else Some(SendError(Select(err.notifiers, at), Select(err.errs, at), []))
    ensures records == (change && tries >= 2 && rest.None? && |retried| <= 1)
  {
    if tries < 2 {
      return Some(err), [], false;
    }
    hide Sifted, Select, Positions;
    var left := SendError([], [], []);
    retried := [];
    SiftNothing(err);
    for i := 0 to |err.errs|
      invariant Sifted(err, i, retried, left)
    {
      SiftNext(err, i, retried, left);
      if err.errs[i] == Retryable && i < |err.failed| {
        retried := retried + [i];
      } else {
        left := SendError(left.notifiers + [err.notifiers[i]], left.errs + [err.errs[i]], []);
      }
    }
    SiftAll(err, retried, left);
    records := change;
    if |left.errs| > 0 || |retried| > 1 {
      records := false;
    }
    rest := if |left.errs| == 0 then None else Some(left);
  }

  /** The first `i` failures, sorted into those to retry and those to report. */
  ghost predicate Sifted(err: SendError, i: nat, retried: seq<nat>, left: SendError) {
    && |err.notifiers| == |err.errs| && i <= |err.errs|
    && retried == Positions(err.errs[..i], IsRetryable)
    && var at := ReportedAt(err.errs[..i]);
       (forall k :: 0 <= k < |at| ==> at[k] < i) &&
           left == SendError(Select(err.notifiers, at), Select(err.errs, at), [])
  }

  lemma SiftNothing(err: SendError)
    requires |err.notifiers| == |err.errs|
    ensures Sifted(err, 0, [], SendError([], [], []))
  {
    hide Positions, Select;
    NoPositions();
    assert err.errs[..0] == [];
    NothingSelected(err.notifiers);
    NothingSelected(err.errs);
  }

  lemma SiftNext(err: SendError, i: nat, retried: seq<nat>, left: SendError)
    requires Sifted(err, i, retried, left) && i < |err.errs|
    ensures if err.errs[i].Retryable? then Sifted(err, i + 1, retried + [i], left)
            else Sifted(err, i + 1, retried,
                SendError(left.notifiers + [err.notifiers[i]], left.errs + [err.errs[i]], []))
  {
    hide Positions, Select;
    var at := ReportedAt(err.errs[..i]);
    PositionsMore(err.errs, IsRetryable, i);
    PositionsMore(err.errs, IsNotRetryable, i);
    SelectMore(err.notifiers, at, i);
    SelectMore(err.errs, at, i);
    assert retried + [] == retried && at + [] == at;
  }

  lemma SiftAll(err: SendError, retried: seq<nat>, left: SendError)
    requires Sifted(err, |err.errs|, retried, left)
    ensures retried == Positions(err.errs, IsRetryable)
    ensures var at := ReportedAt(err.errs);
            left == SendError(Select(err.notifiers, at), Select(err.errs, at), []) && |left.errs| == |at|
  {
    hide Positions, Select;
    assert err.errs[..|err.errs|] == err.errs;
    SelectLength(err.errs, ReportedAt(err.errs));
  }

  predicate IsNotRetryable(r: SendResult) {
    !r.Retryable?
  }

  function ReportedAt(errs: seq<SendResult>): seq<nat> {
    Positions(errs, IsNotRetryable)
  }

  lemma NoPositions()
    ensures Positions([], IsRetryable) == [] == Positions([], IsNotRetryable) == Positions([], IsFailure) ==
        Positions([], IsPermanent)
  {
  }

  lemma NothingSelected<T>(s: seq<T>)
    ensures Select(s, []) == []
  {
  }

  lemma SelectLength<T>(s: seq<T>, at: seq<nat>)
    requires forall k :: 0 <= k < |at| ==> at[k] < |s|
    ensures |Select(s, at)| == |at|
  {
  }

  lemma PickMore(at: seq<nat>, errs: seq<SendResult>, n: nat, x: SendResult, p: SendResult -> bool)
    requires |at| == |errs|
    ensures Select(at + [n], Positions(errs + [x], p)) ==
            if p(x) then Select(at, Positions(errs, p)) + [n] else Select(at, Positions(errs, p))
  {
    hide Positions, Select;
    PositionsAppend(errs, x, p);
    SelectWithin(at, n, Positions(errs, p));
    if p(x) {
      assert (at + [n])[|errs|] == n;
      SelectMore(at + [n], Positions(errs, p), |errs|);
    }
  }

  /** Picking the retried among the failures is picking the retryable among all, and so for the reported. */
  lemma {:induction false} PickedTwice(results: seq<SendResult>)
    ensures |Select(results, Positions(results, IsFailure))| == |Positions(results, IsFailure)|
    ensures var at := Positions(results, IsFailure);
            var errs := Select(results, at);
            && Select(at, Positions(errs, IsRetryable)) == Positions(results, IsRetryable)
            && Select(at, ReportedAt(errs)) == Positions(results, IsPermanent)
    decreases |results|
  {
    hide Positions, Select;
    SelectLength(results, Positions(results, IsFailure));
    if results == [] {
      NoPositions();
      NothingSelected(results);
      var none: seq<nat> := [];
      NothingSelected(none);
    } else {
      var n := |results| - 1;
      var r, x := results[..n], results[n];
      assert results == r + [x];
      PickedTwice(r);
      var at := Positions(r, IsFailure);
      var errs := Select(r, at);
      PositionsAppend(r, x, IsFailure);
      PositionsAppend(r, x, IsRetryable);
      PositionsAppend(r, x, IsPermanent);
      SelectWithin(r, x, at);
      if x != Sent {
        SelectMore(results, at, n);
        PickMore(at, errs, n, x, IsRetryable);
        PickMore(at, errs, n, x, IsNotRetryable);
      }
    }
  }

  // --------------------------------------------------------------- retrying

  /** How reading the monitor past the cache ends. */
  datatype ReadResult = Found | Gone | Unreadable

  /** What one turn of the retry loop meets: the stop channel or the timer, the monitor, the notifier. */
  datatype Turn = Turn(stopped: bool, read: ReadResult, answer: SendResult)

  datatype Fate = Delivered | Reported | MonitorGone

  /** What the retry does that others can see. */
  datatype Effect = Send(answer: SendResult) | Record | Report

  /** The turn sends, fails, and leaves it to the next one. */
  predicate TriesAgain(t: Turn) {
    !t.stopped && !t.read.Gone? && t.answer.Retryable?
  }

  function FateAt(t: Turn): Fate {
    if t.read.Gone? then MonitorGone
    else if t.stopped || !t.answer.Sent? then Reported
    else Delivered
  }

  function EffectsAt(t: Turn, records: bool): seq<Effect> {
    if t.read.Gone? then []
    else if t.stopped then [Report]
    else if t.answer.Sent? then [Send(Sent)] + if records then [Record] else []
    else [Send(t.answer), Report]
  }

  function FailedSends(n: nat): seq<Effect> {
    seq(n, _ => Send(Retryable))
  }

  /** The first turn from `first` on that does not leave it to the next; the one past the last when all do. */
  function LastTurn(tries: nat, turns: nat -> Turn, first: nat): (last: nat)
    requires first <= tries + 1
    ensures first <= last <= tries + 1
    ensures forall k :: first <= k < last ==> TriesAgain(turns(k))
    ensures last <= tries ==> !TriesAgain(turns(last))
    decreases tries + 1 - first
  {
    if first <= tries && TriesAgain(turns(first)) then LastTurn(tries, turns, first + 1) else first
  }

  /** How the turns make a retry end. */
  function FateOf(tries: nat, turns: nat -> Turn): Fate
    requires tries >= 2
  {
    var last := LastTurn(tries, turns, 2);
    if last <= tries then FateAt(turns(last)) else Reported
  }

  /** What it does until then: a failed send each turn, and what the last turn makes it do. */
  function LogOf(tries: nat, turns: nat -> Turn, records: bool): seq<Effect>
    requires tries >= 2
  {
    var last := LastTurn(tries, turns, 2);
    FailedSends(last - 2) + if last <= tries then EffectsAt(turns(last), records) else [Report]
  }

  /**
   * Tries again until a turn that delivers the alert, meets the stop, finds
   * the monitor gone or fails for good, or the tries run out.
   */
  method RetryAlert(tries: nat, turns: nat -> Turn, records: bool) returns (fate: Fate, log: seq<Effect>)
    requires tries >= 2
    ensures fate == FateOf(tries, turns) && log == LogOf(tries, turns, records)
  {
    log := [];
    var try := 2;
    while try <= tries
      invariant 2 <= try <= tries + 1
      invariant LastTurn(tries, turns, try) == LastTurn(tries, turns, 2)
      invariant log == FailedSends(try - 2)
    {
      var t := turns(try);
      if t.stopped {
        if t.read.Gone? {
          return MonitorGone, log;
        }
        return Reported, log + [Report];
      }
      if t.read.Gone? {
        return MonitorGone, log;
      }
      ghost var before := log;
      log := log + [Send(t.answer)];
      if t.answer.Sent? {
        if records {
          log := log + [Record];
        }
        assert log == before + EffectsAt(t, records);
        return Delivered, log;
      }
      if !t.answer.Retryable? {
        assert log + [Report] == before + EffectsAt(t, records);
        return Reported, log + [Report];
      }
      try := try + 1;
    }
    return Reported, log + [Report];
  }

  function Count(log: seq<Effect>, p: Effect -> bool): nat {
    if log == [] then 0 else Count(log[..|log| - 1], p) + if p(log[|log| - 1]) then 1 else 0
  }

  predicate IsSend(e: Effect) {
    e.Send?
  }

  predicate IsDelivery(e: Effect) {
    e == Send(Sent)
  }

  predicate IsReport(e: Effect) {
    e.Report?
  }

  lemma CountMore(log: seq<Effect>, e: Effect, p: Effect -> bool)
    ensures Count(log + [e], p) == Count(log, p) + if p(e) then 1 else 0
  {
    assert (log + [e])[..|log|] == log;
  }

  lemma {:induction false} CountFailedSends(n: nat)
    ensures Count(FailedSends(n), IsSend) == n && Count(FailedSends(n), IsDelivery) == 0 &&
        Count(FailedSends(n), IsReport) == 0
  {
    if n > 0 {
      CountFailedSends(n - 1);
      assert FailedSends(n) == FailedSends(n - 1) + [Send(Retryable)];
      CountMore(FailedSends(n - 1), Send(Retryable), IsSend);
      CountMore(FailedSends(n - 1), Send(Retryable), IsDelivery);
      CountMore(FailedSends(n - 1), Send(Retryable), IsReport);
    }
  }

  /** The log of a retry that ended with `fate`. */
  ghost predicate Ended(fate: Fate, log: seq<Effect>, tries: nat) {
    && Count(log, IsSend) + 1 <= tries
    && Count(log, IsDelivery) == (if fate.Delivered? then 1 else 0)
    && Count(log, IsReport) == (if fate.Reported? then 1 else 0)
  }

  lemma EndsEarly(n: nat, tries: nat)
    requires n + 1 <= tries
    ensures Ended(MonitorGone, FailedSends(n) + [], tries) && Ended(Reported, FailedSends(n) + [Report], tries)
  {
    hide Count, FailedSends;
    CountFailedSends(n);
    assert FailedSends(n) + [] == FailedSends(n);
    CountTwo(FailedSends(n), Report, Report);
  }

  lemma EndsDelivered(n: nat, tries: nat, records: bool)
    requires n + 2 <= tries
    ensures Ended(Delivered, FailedSends(n) + ([Send(Sent)] + if records then [Record] else []), tries)
  {
    hide Count, FailedSends;
    CountFailedSends(n);
    var sends := FailedSends(n);
    CountTwo(sends, Send(Sent), Record);
    assert sends + ([Send(Sent)] + [Record]) == sends + [Send(Sent)] + [Record];
    assert sends + ([Send(Sent)] + []) == sends + [Send(Sent)];
  }

  lemma EndsRefused(n: nat, tries: nat, answer: SendResult)
    requires n + 2 <= tries && !answer.Sent?
    ensures Ended(Reported, FailedSends(n) + [Send(answer), Report], tries)
  {
    hide Count, FailedSends;
    CountFailedSends(n);
    var sends := FailedSends(n);
    CountTwo(sends, Send(answer), Report);
    assert sends + [Send(answer), Report] == sends + [Send(answer)] + [Report];
  }

  /** A retry ends delivered, with one report, or with the monitor gone, and sends at most as often as it may. */
  lemma RetryEnds(tries: nat, turns: nat -> Turn, records: bool)
    requires tries >= 2
    ensures Ended(FateOf(tries, turns), LogOf(tries, turns, records), tries)
  {
    hide Ended, FailedSends, LastTurn;
    var last := LastTurn(tries, turns, 2);
    if last > tries {
      EndsEarly(tries - 1, tries);
    } else {
      EndsEarly(last - 2, tries);
      EndsDelivered(last - 2, tries, records);
      if !turns(last).answer.Sent? {
        EndsRefused(last - 2, tries, turns(last).answer);
      }
    }
  }

  lemma CountTwo(log: seq<Effect>, a: Effect, b: Effect)
    ensures Count(log + [a], IsSend) == Count(log, IsSend) + (if a.Send? then 1 else 0)
    ensures Count(log + [a], IsDelivery) == Count(log, IsDelivery) + (if a == Send(Sent) then 1 else 0)
    ensures Count(log + [a], IsReport) == Count(log, IsReport) + (if a.Report? then 1 else 0)
    ensures Count(log + [a] + [b], IsSend) == Count(log + [a], IsSend) + (if b.Send? then 1 else 0)
    ensures Count(log + [a] + [b], IsDelivery) == Count(log + [a], IsDelivery) + (if b == Send(Sent) then 1 else 0)
    ensures Count(log + [a] + [b], IsReport) == Count(log + [a], IsReport) + (if b.Report? then 1 else 0)
  {
    CountMore(log, a, IsSend);
    CountMore(log, a, IsDelivery);
    CountMore(log, a, IsReport);
    CountMore(log + [a], b, IsSend);
    CountMore(log + [a], b, IsDelivery);
    CountMore(log + [a], b, IsReport);
  }

  lemma {:induction false} LastTurnIs(tries: nat, turns: nat -> Turn, first: nat, k: nat)
    requires first <= k <= tries + 1 && forall m :: first <= m < k ==> TriesAgain(turns(m))
    requires k <= tries ==> !TriesAgain(turns(k))
    ensures LastTurn(tries, turns, first) == k
    decreases k - first
  {
    if first < k {
      LastTurnIs(tries, turns, first + 1, k);
    }
  }

  /**
   * How a retry goes: it sends on every turn, as long as it is not stopped, the
   * monitor is there and the notifier fails for now, up to the last of its
   * tries. On the first turn `k` that is different it stops without another
   * send when stopped or the monitor is gone, is done when the notifier takes
   * the alert, recording the change if it may, and gives up on any other
   * failure; it reports what it did not deliver, but for a monitor that is gone.
   */
  lemma RetryEndsAtFirst(tries: nat, turns: nat -> Turn, records: bool, k: nat)
    requires tries >= 2 && 2 <= k <= tries + 1
    requires forall m :: 2 <= m < k ==> !turns(m).stopped && !turns(m).read.Gone? && turns(m).answer == Retryable
    requires k <= tries ==> turns(k).stopped || turns(k).read.Gone? || turns(k).answer != Retryable
    ensures var fate, log, n := FateOf(tries, turns), LogOf(tries, turns, records), k - 2;
            && n <= |log| && (forall i :: 0 <= i < n ==> log[i] == Send(Retryable))
            && (k == tries + 1 ==> fate == Reported && log[n..] == [Report])
            && (k <= tries ==>
                var t := turns(k);
                if t.read.Gone? then fate == MonitorGone && log[n..] == []
                else if t.stopped then fate == Reported && log[n..] == [Report]
                else if t.answer.Sent?
                then fate == Delivered && log[n..] == [Send(Sent)] + if records then [Record] else []
                else fate == Reported && log[n..] == [Send(t.answer), Report])
  {
    LastTurnIs(tries, turns, 2, k);
    var last := if k <= tries then EffectsAt(turns(k), records) else [Report];
    assert LogOf(tries, turns, records) == FailedSends(k - 2) + last;
    assert (FailedSends(k - 2) + last)[k - 2..] == last;
  }

  // ------------------------------------------------------- the whole of an alert

  /** How one notifier's part of an alert ends. */
  datatype End = Accepted | ReportedNow | Retried(fate: Fate, log: seq<Effect>)

  /** What becomes of a notifier's first answer, when its retry would meet `turns`. */
  function EndOf(answer: SendResult, tries: nat, turns: nat -> Turn, records: bool): End {
    if answer.Sent? then Accepted
    else if answer.Retryable? && tries >= 2 then Retried(FateOf(tries, turns), LogOf(tries, turns, records))
    else ReportedNow
  }

  /**
   * An alert to the end of all its retries. Of the notifiers, `names` and
   * `results` give the first answer, and `turns` what its retry would meet.
   */
  method HandleAlert(names: seq<string>, results: seq<SendResult>, tries: nat, turns: nat -> (nat -> Turn),
      change: bool)
    returns (ends: seq<End>, reported: Option<SendError>, records: bool)
    requires |names| == |results|
    ensures |ends| == |names|
    ensures forall i :: 0 <= i < |ends| ==>
        ends[i] == EndOf(results[i], tries, turns(i), change && RetryRecords(results, tries))
    ensures forall i :: 0 <= i < |ends| && ends[i].Retried? ==> Ended(ends[i].fate, ends[i].log, tries)
    ensures reported.Some? <==> ReportedIn(results, tries) != []
    ensures reported.Some? ==> reported.value.notifiers == Select(names, ReportedIn(results, tries))
    ensures records == (change && RetryRecords(results, tries))
  {
    hide Positions, Select, Ended, FateOf, LogOf;
    ends := seq(|names|, _ => Accepted);
    var err := SendAlert(names, results);
    var rest, retried: seq<nat>, keeps := None, [], false;
    if err.Some? {
      PickedTwice(results);
      SelectLength(names, err.value.failed);
      SelectLength(results, err.value.failed);
      var r, q, k := QueueRetries(err.value, tries, change);
      rest, keeps := r, k;
      SomeFailure(err.value.errs);
      if tries >= 2 {
        SelectTwice(names, err.value.failed, ReportedAt(err.value.errs));
        SelectLength(err.value.failed, q);
        SelectLength(err.value.failed, ReportedAt(err.value.errs));
        retried := Select(err.value.failed, q);
      }
    } else {
      NoFailures(results);
    }
    reported, records := rest, keeps;
    assert retried == RetriedIn(results, tries);
    for i := 0 to |names|
      invariant |ends| == |names|
      invariant forall k :: 0 <= k < i ==> ends[k] == EndOf(results[k], tries, turns(k), keeps)
      invariant forall k :: 0 <= k < i && ends[k].Retried? ==> Ended(ends[k].fate, ends[k].log, tries)
    {
      RetriedOrReported(results, tries, i);
      if i in retried {
        Holds(results, IsRetryable, i);
        var fate, log := RetryAlert(tries, turns(i), keeps);
        RetryEnds(tries, turns(i), keeps);
        ends := ends[i := Retried(fate, log)];
      } else if results[i] != Sent {
        ends := ends[i := ReportedNow];
      } else {
        ends := ends[i := Accepted];
      }
    }
  }

  lemma Holds(results: seq<SendResult>, p: SendResult -> bool, i: nat)
    requires i < |results| && i in Positions(results, p)
    ensures p(results[i])
  {
    var r := Positions(results, p);
    var k :| 0 <= k < |r| && r[k] == i;
  }

  lemma SelectTwice<T>(s: seq<T>, at: seq<nat>, among: seq<nat>)
    requires forall k :: 0 <= k < |at| ==> at[k] < |s|
    requires forall k :: 0 <= k < |among| ==> among[k] < |at|
    ensures Select(s, Select(at, among)) == Select(Select(s, at), among)
  {
  }

  lemma NoFailures(results: seq<SendResult>)
    requires Positions(results, IsFailure) == []
    ensures Positions(results, IsRetryable) == [] == Positions(results, IsPermanent)
  {
    hide Positions;
    forall i | 0 <= i < |results| ensures results[i].Sent? {
      assert IsFailure(results[i]) ==> i in Positions(results, IsFailure);
    }
    NoneHold(results, IsRetryable);
    NoneHold(results, IsPermanent);
  }

  lemma {:induction false} NoneHold(results: seq<SendResult>, p: SendResult -> bool)
    requires forall i :: 0 <= i < |results| ==> !p(results[i])
    ensures Positions(results, p) == []
    decreases |results|
  {
    if results != [] {
      NoneHold(results[..|results| - 1], p);
    }
  }

  lemma SomeFailure(errs: seq<SendResult>)
    requires errs != []
    ensures Positions(errs, IsRetryable) != [] || ReportedAt(errs) != []
  {
    hide Positions;
    assert IsRetryable(errs[0]) ==> 0 in Positions(errs, IsRetryable);
    assert IsNotRetryable(errs[0]) ==> 0 in Positions(errs, IsNotRetryable);
  }
}

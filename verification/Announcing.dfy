/**
 * Announcing changes of one monitor's status: Reconcile from the retry stop to
 * the second status update in
 * internal/controller/endpointmonitor_controller.go, interleaved with the
 * retries of internal/controller/retry.go.
 */
module Announcing {
  import opened Base
  import opened Alerts
  import opened RetryRegistry

  // ----------------------------------------------------------------- status

  /** LastStatus and LastNotifiedStatus, each with when it began. */
  datatype Status = Status(last: string, since: int, notified: Option<string>, notifiedSince: int)

  /** The status last announced; before any was, the last one. */
  function Announced(st: Status): string {
    if st.notified.Some? then st.notified.value else st.last
  }

  /** The status the first update writes after a check. */
  function Checked(st: Status, status: string, now: int): Status {
    Status(status, if st.last != status then now else st.since,
           Some(Announced(st)), if st.notified.Some? then st.notifiedSince else st.since)
  }

  /** The status with its change recorded as announced. */
  function Recorded(st: Status): Status {
    st.(notified := Some(st.last), notifiedSince := st.since)
  }

  class Monitor {
    var lastStatus: string
    var lastStatusChange: int
    var lastNotifiedStatus: Option<string>
    var lastNotifiedStatusChange: int

    function Value(): Status
      reads this
    {
      Status(lastStatus, lastStatusChange, lastNotifiedStatus, lastNotifiedStatusChange)
    }

    /** Sets the status up for the first update; a change alert is due when `notified` differs from the check. */
    method AfterCheck(success: bool, now: int) returns (notified: string, status: string)
      modifies this
      ensures status == (if success then "success" else "failure") && notified == Announced(old(Value()))
      ensures Value() == Checked(old(Value()), status, now)
    {
      var notifiedSince := lastStatusChange;
      notified := lastStatus;
      if lastNotifiedStatus.Some? {
        notified, notifiedSince := lastNotifiedStatus.value, lastNotifiedStatusChange;
      }
      status := "failure";
      if success {
        status := "success";
      }
      lastNotifiedStatus := Some(notified);
      lastNotifiedStatusChange := notifiedSince;
      if lastStatus != status {
        lastStatus := status;
        lastStatusChange := now;
      }
    }

    /** Sets the status up for the second update. */
    method AfterChangeAlert(status: string)
      requires status == lastStatus
      modifies this
      ensures Value() == Recorded(old(Value()))
    {
      lastNotifiedStatus := Some(status);
      lastNotifiedStatusChange := lastStatusChange;
    }

    /** What a retry that delivered a change sets up to write, unless the status has moved on. */
    method MarkAnnounced(status: string, since: int) returns (write: bool)
      modifies this
      ensures write == Matches(old(Value()), status, since)
      ensures Value() == if write then Recorded(old(Value())) else old(Value())
    {
      if lastStatus != status || lastStatusChange != since {
        return false;
      }
      lastNotifiedStatus := Some(status);
      lastNotifiedStatusChange := lastStatusChange;
      write := true;
    }
  }

  predicate Matches(st: Status, status: string, since: int) {
    st.last == status && st.since == since
  }

  // ------------------------------------------------------------------ state

  /** A change alert, which notifiers accepted it, and whether its announcement was recorded. */
  datatype ChangeAlert = ChangeAlert(from: string, to: string, since: int, accepted: seq<bool>, recorded: bool)

  datatype RunPhase =
    | Waiting(try: nat)
    | Trying(try: nat)
    | Marking
    | MarkRead(m: nat)
    | Noting
    | Reporting
    | Removing
    | Closing
    | Finished

  /** A retry in the background, of a change alert or of a status alert. */
  datatype Run = Run(phase: RunPhase, stopped: bool, notifier: nat, alert: Option<nat>, records: bool)

  /** Where the reconciler is, and the version of the status it holds. */
  datatype Phase =
    | Idle
    | Got(v: Option<nat>)
    | Stopping(v: Option<nat>, left: seq<nat>, any: bool)
    | Refresh
    | Ready(at: nat)
    | Sending(at: nat)
    | Queueing(at: nat, todo: seq<nat>)
    | Changing(at: nat)
    | ChangeQueueing(todo: seq<nat>, records: bool)
    | Recording(at: nat)

  /**
   * `hist` holds every version of the stored status. `writeDue` says that a
   * retry has written the status since Stop last returned, `settled` how many
   * retries had been queued by then, and `lost` that recording a delivered
   * change once went wrong.
   */
  datatype State = State(
    hist: seq<Status>, phase: Phase, runs: seq<Run>, registry: Entry,
    alerts: seq<ChangeAlert>, writeDue: bool, settled: nat, lost: bool)

  /** Number of notifiers, and tries of each alert. */
  datatype Config = Config(n: nat, tries: nat)

  /** How a status update ends: stored, refused for its version, or failed otherwise, perhaps after it was stored. */
  datatype Write = Written | Refused | Lost(landed: bool)

  predicate Lands(w: Write) {
    w.Written? || (w.Lost? && w.landed)
  }

  /** The store takes an update only of its newest version. */
  predicate Possible(s: State, v: nat, w: Write) {
    v < |s.hist| && (Lands(w) ==> v == |s.hist| - 1) && (w.Refused? ==> v != |s.hist| - 1)
  }

  datatype Action =
    | ExternalWrite
    | Begin(v: Option<nat>)
    | GiveUp
    | StopLock
    | StopClose
    | StopWait
    | StopReturn
    | Reread
    | Check(status: string, now: int, w: Write)
    | SendStatus(results: seq<SendResult>)
    | Queue
    | SendChange(results: seq<SendResult>)
    | RecordChange(w: Write)
    | RunStop(id: nat, read: ReadResult)
    | RunTimer(id: nat, read: ReadResult)
    | RunSend(id: nat, answer: SendResult)
    | MarkGet(id: nat, read: ReadResult)
    | MarkPut(id: nat, w: Write, again: bool)
    | RunNote(id: nat)
    | RunReport(id: nat)
    | RunRemove(id: nat)
    | RunClose(id: nat)

  predicate ByRun(a: Action) {
    a.RunStop? || a.RunTimer? || a.RunSend? || a.MarkGet? || a.MarkPut? || a.RunNote? || a.RunReport? ||
        a.RunRemove? || a.RunClose?
  }

  predicate RunEnabled(s: State, a: Action)
    requires ByRun(a)
  {
    a.id < |s.runs| &&
    var r := s.runs[a.id];
    match a
    case RunStop(_, _) => r.phase.Waiting? && r.stopped
    case RunTimer(_, _) => r.phase.Waiting?
    case RunSend(_, _) => r.phase.Trying? && (r.alert.Some? ==> r.alert.value < |s.alerts|)
    case MarkGet(_, _) => r.phase.Marking? && s.hist != [] && r.alert.Some? && r.alert.value < |s.alerts|
    case MarkPut(_, w, _) => r.phase.MarkRead? && Possible(s, r.phase.m, w) && r.alert.Some? &&
        r.alert.value < |s.alerts|
    case RunNote(_) => r.phase.Noting?
    case RunReport(_) => r.phase.Reporting?
    case RunRemove(_) => r.phase.Removing?
    case RunClose(_) => r.phase.Closing?
  }

  predicate Enabled(c: Config, s: State, a: Action) {
    if ByRun(a) then RunEnabled(s, a)
    else
      match a
      case ExternalWrite => s.hist != []
      case Begin(v) => s.phase.Idle? && (v.Some? ==> v.value < |s.hist|)
      case GiveUp => (s.phase.Got? && s.phase.v.Some?) || s.phase.Refresh? || s.phase.Ready?
      case StopLock => s.phase.Got?
      case StopClose => s.phase.Stopping? && s.phase.left != [] && s.phase.left[0] < |s.runs| &&
          !s.runs[s.phase.left[0]].stopped
      case StopWait => s.phase.Stopping? && s.phase.left != [] && s.phase.left[0] < |s.runs| &&
                       s.runs[s.phase.left[0]].stopped && s.runs[s.phase.left[0]].phase.Finished?
      case StopReturn => s.phase.Stopping? && s.phase.left == []
      case Reread => s.phase.Refresh? && s.hist != []
      case Check(_, _, w) => s.phase.Ready? && Possible(s, s.phase.at, w)
      case SendStatus(results) => s.phase.Sending? && |results| == c.n
      case Queue => (s.phase.Queueing? && s.phase.at < |s.hist|) || s.phase.ChangeQueueing?
      case SendChange(results) => s.phase.Changing? && s.phase.at < |s.hist| && |results| == c.n
      case RecordChange(w) => s.phase.Recording? && Possible(s, s.phase.at, w) && s.alerts != []
  }

  // ------------------------------------------------------------------ steps

  function SetPhase(s: State, id: nat, p: RunPhase): State
    requires id < |s.runs|
  {
    s.(runs := s.runs[id := s.runs[id].(phase := p)])
  }

  function Last<T>(x: seq<T>): T
    requires x != []
  {
    x[|x| - 1]
  }

  function Accepting(results: seq<SendResult>): seq<bool> {
    seq(|results|, i requires 0 <= i < |results| => results[i].Sent?)
  }

  function AcceptedBy(alerts: seq<ChangeAlert>, r: Run): seq<ChangeAlert>
    requires r.alert.Some? ==> r.alert.value < |alerts|
  {
    if r.alert.None? then alerts
    else
      var a := alerts[r.alert.value];
      if r.notifier < |a.accepted| then alerts[r.alert.value := a.(accepted := a.accepted[r.notifier := true])]
      else alerts
  }

  function MarkRecorded(alerts: seq<ChangeAlert>, i: nat): seq<ChangeAlert>
    requires i < |alerts|
  {
    alerts[i := alerts[i].(recorded := true)]
  }

  function RunStep(c: Config, s: State, a: Action): State
    requires ByRun(a) && RunEnabled(s, a)
  {
    var r := s.runs[a.id];
    match a
    case RunStop(id, read) => SetPhase(s, id, if read.Gone? then Removing else Reporting)
    case RunTimer(id, read) => SetPhase(s, id, if read.Gone? then Removing else Trying(r.phase.try))
    case RunSend(id, answer) =>
      if answer.Sent? then SetPhase(s, id, if r.records then Marking else Removing).(alerts := AcceptedBy(s.alerts, r))
      else SetPhase(s, id, if answer.Retryable? && r.phase.try < c.tries then Waiting(r.phase.try + 1) else Reporting)
    case MarkGet(id, read) =>
      var alert := s.alerts[r.alert.value];
      if read.Unreadable? then SetPhase(s, id, Removing).(lost := true)
      else if read.Gone? || !Matches(Last(s.hist), alert.to, alert.since) then SetPhase(s, id, Noting).(lost := true)
      else SetPhase(s, id, MarkRead(|s.hist| - 1))
    case MarkPut(id, w, again) =>
      var next := if w.Written? then Noting else if w.Refused? && again then Marking else Removing;
      var t := SetPhase(s, id, next);
      if Lands(w) then
        t.(hist := s.hist + [Recorded(s.hist[r.phase.m])], alerts := MarkRecorded(s.alerts, r.alert.value),
            writeDue := s.writeDue || w.Written?)
      else t.(lost := s.lost || next.Removing?)
    case RunNote(id) => SetPhase(s, id, Removing).(registry := s.registry.(wrote := true))
    case RunReport(id) => SetPhase(s, id, Removing)
    case RunRemove(id) => SetPhase(s, id, Closing).(registry := s.registry.(pending := Without(s.registry.pending, id)))
    case RunClose(id) => SetPhase(s, id, Finished)
  }

  /** Queues one more retry, or goes on when all are queued. */
  function QueueStep(s: State): State
    requires (s.phase.Queueing? && s.phase.at < |s.hist|) || s.phase.ChangeQueueing?
  {
    if s.phase.todo == [] then
      s.(phase := if s.phase.Queueing? &&
          Announced(s.hist[s.phase.at]) != s.hist[s.phase.at].last then Changing(s.phase.at) else Idle)
    else
      var run := Run(Waiting(2), false, s.phase.todo[0],
                     if s.phase.Queueing? || s.alerts == [] then None else Some(|s.alerts| - 1),
                     s.phase.ChangeQueueing? && s.phase.records);
      s.(runs := s.runs + [run], registry := s.registry.(pending := s.registry.pending + [|s.runs|]),
         phase := s.phase.(todo := s.phase.todo[1..]))
  }

  function ChangeStep(c: Config, s: State, results: seq<SendResult>): State
    requires s.phase.Changing? && s.phase.at < |s.hist|
  {
    var st := s.hist[s.phase.at];
    var alert := ChangeAlert(Announced(st), st.last, st.since, Accepting(results), false);
    s.(alerts := s.alerts + [alert],
       phase := if Positions(results, IsFailure) == [] then Recording(s.phase.at)
                else ChangeQueueing(RetriedIn(results, c.tries), RetryRecords(results, c.tries)))
  }

  function Apply(c: Config, s: State, a: Action): State
    requires Enabled(c, s, a)
  {
    if ByRun(a) then RunStep(c, s, a)
    else
      match a
      case ExternalWrite => s.(hist := s.hist + [Last(s.hist)])
      case Begin(v) => s.(phase := Got(v))
      case GiveUp => s.(phase := Idle)
      case StopLock =>
        s.(phase := Stopping(s.phase.v, s.registry.pending, s.registry.pending != [] || s.registry.wrote),
           registry := s.registry.(pending := []))
      case StopClose => s.(runs := s.runs[s.phase.left[0] := s.runs[s.phase.left[0]].(stopped := true)])
      case StopWait => s.(phase := s.phase.(left := s.phase.left[1..]))
      case StopReturn =>
        s.(phase := if s.phase.v.None? then Idle else if s.phase.any then Refresh else Ready(s.phase.v.value),
           registry := s.registry.(wrote := false), writeDue := false, settled := |s.runs|)
      case Reread => s.(phase := Ready(|s.hist| - 1))
      case Check(status, now, w) =>
        var t := if Lands(w) then s.(hist := s.hist + [Checked(s.hist[s.phase.at], status, now)]) else s;
        t.(phase := if w.Written? then Sending(|s.hist|) else Idle)
      case SendStatus(results) => s.(phase := Queueing(s.phase.at, RetriedIn(results, c.tries)))
      case Queue => QueueStep(s)
      case SendChange(results) => ChangeStep(c, s, results)
      case RecordChange(w) =>
        var t := if Lands(w)
                 then s.(hist := s.hist + [Recorded(s.hist[s.phase.at])],
                     alerts := MarkRecorded(s.alerts, |s.alerts| - 1))
                 else s.(lost := true);
        t.(phase := Idle)
  }

  function Start(st: Status): State {
    State([st], Idle, [], Entry([], false), [], false, 0, false)
  }

  /** The state a run of the actions leads to, when every one of them is possible in its turn. */
  function Exec(c: Config, st: Status, trace: seq<Action>): Option<State> {
    if trace == [] then Some(Start(st))
    else
      var before := Exec(c, st, trace[..|trace| - 1]);
      var a := trace[|trace| - 1];
      if before.Some? && Enabled(c, before.value, a) then Some(Apply(c, before.value, a)) else None
  }
}

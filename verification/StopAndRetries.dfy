/** What holds between Stop and the retries in every interleaving of Announcing. */
module StopAndRetries {
  import opened Base
  import opened Alerts
  import opened RetryRegistry
  import opened Announcing

  /** The retry has not removed itself from the registry. */
  predicate Alive(r: Run) {
    !r.phase.Closing? && !r.phase.Finished?
  }

  /** Every live retry is in the registry or waited for by Stop. */
  ghost predicate Registered(s: State) {
    && (forall id :: 0 <= id < |s.runs| && Alive(s.runs[id]) ==>
          id in s.registry.pending || (s.phase.Stopping? && id in s.phase.left))
    && (forall id :: id in s.registry.pending ==> id < |s.runs|)
    && (s.phase.Stopping? ==> s.registry.pending == [] && forall id :: id in s.phase.left ==> id < |s.runs|)
  }

  /** No retry queued before Stop last returned is alive. */
  ghost predicate Settled(s: State) {
    && s.settled <= |s.runs|
    && (forall id :: 0 <= id < s.settled ==> !Alive(s.runs[id]))
    && (s.phase.Refresh? || s.phase.Ready? || s.phase.Sending? ==> s.settled == |s.runs|)
  }

  ghost predicate NoneAlive(s: State) {
    forall id :: 0 <= id < |s.runs| ==> !Alive(s.runs[id])
  }

  ghost predicate NotingWrite(s: State) {
    exists id :: 0 <= id < |s.runs| && s.runs[id].phase.Noting?
  }

  /** A status write by a retry is noted, about to be, or waited for by Stop. */
  ghost predicate WriteSeen(s: State) {
    && (s.writeDue ==> s.registry.wrote || NotingWrite(s) || s.phase.Stopping?)
    && (s.phase.Stopping? && !s.phase.any ==> !s.registry.wrote && !s.writeDue && s.phase.left == [] && NoneAlive(s))
  }

  ghost predicate StopInv(s: State) {
    Registered(s) && Settled(s) && WriteSeen(s)
  }

  /** A step of a retry changes that retry only, and of the registry's list nothing but by removing itself. */
  lemma RunStepFrame(c: Config, s: State, a: Action)
    requires ByRun(a) && RunEnabled(s, a)
    ensures var t := RunStep(c, s, a);
            && a.id < |s.runs|
            && t.phase == s.phase && |t.runs| == |s.runs| && t.settled == s.settled
            && (forall id :: 0 <= id < |s.runs| && id != a.id ==> t.runs[id] == s.runs[id])
            && t.registry.pending == (if a.RunRemove? then Without(s.registry.pending, a.id) else s.registry.pending)
            && (a.RunRemove? || a.RunClose? ==> !Alive(t.runs[a.id]))
            && (!a.RunClose? ==> Alive(s.runs[a.id]))
  {
    hide Positions, Without, Recorded, AcceptedBy, MarkRecorded, Possible, Matches;
  }

  lemma RegisteredRun(c: Config, s: State, a: Action)
    requires Registered(s) && ByRun(a) && Enabled(c, s, a)
    ensures Registered(Apply(c, s, a))
  {
    hide RunStep, RunEnabled, Without;
    RunStepFrame(c, s, a);
    WithoutNothing(s.registry.pending, a.id);
    assert s.registry.pending == [] ==> s.registry.pending[..0] == s.registry.pending;
    assert Alive(Apply(c, s, a).runs[a.id]) ==> Alive(s.runs[a.id]);
  }

  lemma RegisteredStep(c: Config, s: State, a: Action)
    requires Registered(s) && Enabled(c, s, a)
    ensures Registered(Apply(c, s, a))
  {
    hide Positions, Without, Announced, Recorded, Checked, RetriedIn, RetryRecords, Possible, RunStep, RunEnabled,
        ChangeStep;
    var t := Apply(c, s, a);
    if ByRun(a) {
      RegisteredRun(c, s, a);
    } else if a.StopWait? {
      forall id | 0 <= id < |s.runs| && Alive(s.runs[id]) ensures id in t.phase.left {
        assert id in s.phase.left;
        var k :| 0 <= k < |s.phase.left| && s.phase.left[k] == id;
        assert t.phase.left[k - 1] == id;
      }
      forall id | id in t.phase.left ensures id in s.phase.left {
        var k :| 0 <= k < |t.phase.left| && t.phase.left[k] == id;
        assert s.phase.left[k + 1] == id;
      }
    } else if a.Queue? {
      assert forall id :: 0 <= id < |s.runs| ==> t.runs[id] == s.runs[id];
    } else if a.SendChange? {
      ChangeStepFrame(c, s, a.results);
    }
  }

  lemma ChangeStepFrame(c: Config, s: State, results: seq<SendResult>)
    requires s.phase.Changing? && s.phase.at < |s.hist|
    ensures var t := ChangeStep(c, s, results);
            && t.runs == s.runs && t.registry == s.registry && t.settled == s.settled && t.writeDue == s.writeDue
            && (t.phase.Recording? || t.phase.ChangeQueueing?)
  {
    hide Positions, RetriedIn, RetryRecords, Announced;
  }

  lemma SettledStep(c: Config, s: State, a: Action)
    requires Registered(s) && Settled(s) && Enabled(c, s, a)
    ensures Settled(Apply(c, s, a))
  {
    hide Positions, Without, Announced, Recorded, Checked, RetriedIn, RetryRecords, Possible, RunStep, RunEnabled,
        ChangeStep;
    if ByRun(a) {
      RunStepFrame(c, s, a);
    } else if a.SendChange? {
      ChangeStepFrame(c, s, a.results);
    }
  }

  lemma RunStepWrite(c: Config, s: State, a: Action)
    requires ByRun(a) && RunEnabled(s, a)
    ensures var t := RunStep(c, s, a);
            && t.writeDue == (s.writeDue || (a.MarkPut? && a.w.Written?))
            && t.registry.wrote == (s.registry.wrote || a.RunNote?)
            && (a.MarkPut? && a.w.Written? ==> t.runs[a.id].phase.Noting?)
            && (s.runs[a.id].phase.Noting? ==> a.RunNote?)
  {
    hide Positions, Without, Recorded, AcceptedBy, MarkRecorded, Possible, Matches;
  }

  lemma WriteSeenRun(c: Config, s: State, a: Action)
    requires WriteSeen(s) && ByRun(a) && Enabled(c, s, a)
    ensures WriteSeen(Apply(c, s, a))
  {
    hide RunStep, RunEnabled;
    RunStepFrame(c, s, a);
    RunStepWrite(c, s, a);
    var t := Apply(c, s, a);
    if NotingWrite(s) && !a.RunNote? {
      var id :| 0 <= id < |s.runs| && s.runs[id].phase.Noting?;
      assert t.runs[id].phase.Noting?;
    }
  }

  lemma WriteSeenStep(c: Config, s: State, a: Action)
    requires StopInv(s) && Enabled(c, s, a)
    ensures WriteSeen(Apply(c, s, a))
  {
    hide Positions, Without, Announced, Recorded, Checked, RetriedIn, RetryRecords, Possible, RunStep, RunEnabled,
        ChangeStep;
    if ByRun(a) {
      WriteSeenRun(c, s, a);
    } else {
      var t := Apply(c, s, a);
      if a.SendChange? {
        ChangeStepFrame(c, s, a.results);
      }
      if NotingWrite(s) {
        var id :| 0 <= id < |s.runs| && s.runs[id].phase.Noting?;
        assert Alive(s.runs[id]);
        assert t.runs[id].phase.Noting?;
      }
    }
  }

  // --------------------------------------------------------------- all runs

  lemma {:induction false} AlwaysStopInv(c: Config, st: Status, trace: seq<Action>)
    requires Exec(c, st, trace).Some?
    ensures StopInv(Exec(c, st, trace).value)
    decreases |trace|
  {
    hide Apply, Enabled, Registered, Settled, WriteSeen;
    if trace == [] {
      StartsSafe(st);
    } else {
      var p, a := trace[..|trace| - 1], trace[|trace| - 1];
      AlwaysStopInv(c, st, p);
      var s := Exec(c, st, p).value;
      RegisteredStep(c, s, a);
      SettledStep(c, s, a);
      WriteSeenStep(c, s, a);
    }
  }

  lemma StartsSafe(st: Status)
    ensures StopInv(Start(st))
  {
  }

  /** A retry wrote the status, and was told so, since Stop last returned. */
  predicate WroteSince(trace: seq<Action>) {
    trace != [] &&
    var a := trace[|trace| - 1];
    !a.StopReturn? && ((a.MarkPut? && a.w.Written?) || WroteSince(trace[..|trace| - 1]))
  }

  lemma {:induction false} WriteDueIsWroteSince(c: Config, st: Status, trace: seq<Action>)
    requires Exec(c, st, trace).Some?
    ensures Exec(c, st, trace).value.writeDue == WroteSince(trace)
    decreases |trace|
  {
    if trace != [] {
      var p, a := trace[..|trace| - 1], trace[|trace| - 1];
      WriteDueIsWroteSince(c, st, p);
      hide Exec, WroteSince, Without, Announced, AcceptedBy, RetriedIn, RetryRecords, Positions;
      DueStep(c, Exec(c, st, p).value, a);
      hide *;
      DueTrace(c, st, trace);
    }
  }

  lemma DueStep(c: Config, s: State, a: Action)
    requires Enabled(c, s, a)
    ensures Apply(c, s, a).writeDue == (!a.StopReturn? && ((a.MarkPut? && a.w.Written?) || s.writeDue))
  {
    hide Announced, Checked, Recorded, RetriedIn, RunStep, RunEnabled, ChangeStep, Possible;
    if ByRun(a) {
      RunStepWrite(c, s, a);
    } else if a.SendChange? {
      ChangeStepFrame(c, s, a.results);
    }
  }

  lemma DueTrace(c: Config, st: Status, trace: seq<Action>)
    requires trace != [] && Exec(c, st, trace).Some?
    requires Exec(c, st, trace[..|trace| - 1]).Some?
    requires var s, a := Exec(c, st, trace[..|trace| - 1]).value, trace[|trace| - 1];
             && s.writeDue == WroteSince(trace[..|trace| - 1]) && Enabled(c, s, a)
             && Apply(c, s, a).writeDue == (!a.StopReturn? && ((a.MarkPut? && a.w.Written?) || s.writeDue))
    ensures Exec(c, st, trace).value.writeDue == WroteSince(trace)
  {
    hide Apply, Enabled;
  }

  /** Stop answers true when any retry has written the status since it last returned, in every interleaving. */
  lemma StopSeesEveryWrite(c: Config, st: Status, trace: seq<Action>)
    requires Exec(c, st, trace).Some? && Enabled(c, Exec(c, st, trace).value, StopReturn)
    ensures WroteSince(trace) ==> Exec(c, st, trace).value.phase.any
  {
    hide Exec, Apply;
    AlwaysStopInv(c, st, trace);
    WriteDueIsWroteSince(c, st, trace);
  }

  lemma {:induction false} PrefixRuns(c: Config, st: Status, trace: seq<Action>, i: nat)
    requires Exec(c, st, trace).Some? && i <= |trace|
    ensures Exec(c, st, trace[..i]).Some?
    ensures i < |trace| ==> Enabled(c, Exec(c, st, trace[..i]).value, trace[i]) &&
                            Exec(c, st, trace[..i + 1]) == Some(Apply(c, Exec(c, st, trace[..i]).value, trace[i]))
    decreases |trace|
  {
    hide Apply, Enabled;
    if i == |trace| {
      assert trace[..i] == trace;
    } else if i == |trace| - 1 {
      assert trace[..i + 1] == trace;
    } else {
      var p := trace[..|trace| - 1];
      PrefixRuns(c, st, p, i);
      assert p[..i] == trace[..i] && p[..i + 1] == trace[..i + 1];
    }
  }

  lemma SettledGrowsOne(c: Config, s: State, a: Action)
    requires Enabled(c, s, a) && s.settled <= |s.runs|
    ensures s.settled <= Apply(c, s, a).settled && |s.runs| <= |Apply(c, s, a).runs|
    ensures a.StopReturn? ==> Apply(c, s, a).settled == |s.runs|
  {
    hide Announced, Checked, Recorded, RetriedIn, RunStep, RunEnabled, ChangeStep, Possible;
    if ByRun(a) {
      RunStepFrame(c, s, a);
    } else if a.SendChange? {
      ChangeStepFrame(c, s, a.results);
    }
  }

  lemma {:induction false} SettledGrows(c: Config, st: Status, trace: seq<Action>, i: nat, j: nat)
    requires Exec(c, st, trace).Some? && i < j <= |trace| && trace[i].StopReturn?
    ensures Exec(c, st, trace[..i]).Some? && Exec(c, st, trace[..j]).Some?
    ensures |Exec(c, st, trace[..i]).value.runs| <= Exec(c, st, trace[..j]).value.settled
    decreases j
  {
    hide Exec, Apply, Enabled, Registered, WriteSeen;
    PrefixRuns(c, st, trace, i);
    PrefixRuns(c, st, trace, j - 1);
    var s := Exec(c, st, trace[..j - 1]).value;
    AlwaysStopInv(c, st, trace[..j - 1]);
    SettledGrowsOne(c, s, trace[j - 1]);
    if i < j - 1 {
      SettledGrows(c, st, trace, i, j - 1);
    }
  }

  /**
   * Once Stop has returned, a retry queued before does nothing more than close
   * its done channel: it sends no alert, writes no status, records no event.
   */
  lemma StoppedRetriesAreQuiet(c: Config, st: Status, trace: seq<Action>, i: nat, j: nat)
    requires Exec(c, st, trace).Some? && i < j < |trace| && trace[i].StopReturn? && ByRun(trace[j])
    ensures Exec(c, st, trace[..i]).Some?
    ensures trace[j].id < |Exec(c, st, trace[..i]).value.runs| ==> trace[j].RunClose?
  {
    hide Exec, Apply, Registered, WriteSeen, Possible;
    SettledGrows(c, st, trace, i, j);
    PrefixRuns(c, st, trace, j);
    AlwaysStopInv(c, st, trace[..j]);
    var s := Exec(c, st, trace[..j]).value;
    assert trace[j].id < s.settled ==> !Alive(s.runs[trace[j].id]);
  }
}

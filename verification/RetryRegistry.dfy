/**
 * Which retries of a monitor are pending, and whether one wrote its status:
 * the critical sections of AlertRetries in internal/controller/retry.go.
 */
module RetryRegistry {

  /** One monitor's part of the registry. A retry is known by its number. */
  datatype Entry = Entry(pending: seq<nat>, wrote: bool)

  /** The list without any occurrence of `run`. */
  function Without(runs: seq<nat>, run: nat): (r: seq<nat>)
    ensures forall x :: x in r <==> x in runs && x != run
  {
    if runs == [] then []
    else
      var n := |runs| - 1;
      Without(runs[..n], run) + if runs[n] == run then [] else [runs[n]]
  }

  lemma WithoutMore(runs: seq<nat>, n: nat, run: nat)
    requires n < |runs|
    ensures Without(runs[..n + 1], run) == Without(runs[..n], run) + if runs[n] == run then [] else [runs[n]]
  {
    assert runs[..n + 1][..n] == runs[..n];
  }

  class AlertRetries {
    var pending: map<string, seq<nat>>
    var wrote: set<string>

    function At(nn: string): Entry
      reads this
    {
      Entry(if nn in pending then pending[nn] else [], nn in wrote)
    }

    /** A monitor without pending retries takes no room. */
    predicate Valid()
      reads this
    {
      forall nn :: nn in pending ==> pending[nn] != []
    }

    constructor ()
      ensures Valid() && forall nn :: At(nn) == Entry([], false)
    {
      pending, wrote := map[], {};
    }

    /** What Stop takes first: the pending retries, and whether one wrote. */
    method TakePending(nn: string) returns (runs: seq<nat>, hasWritten: bool)
      requires Valid()
      modifies this
      ensures Valid() && Entry(runs, hasWritten) == old(At(nn)) && At(nn) == old(At(nn)).(pending := [])
      ensures forall other :: other != nn ==> At(other) == old(At(other))
    {
      runs := if nn in pending then pending[nn] else [];
      hasWritten := nn in wrote;
      pending := pending - {nn};
    }

    /** What Stop does last, once every retry it took is done. */
    method ForgetWrite(nn: string)
      requires Valid()
      modifies this
      ensures Valid() && At(nn) == old(At(nn)).(wrote := false)
      ensures forall other :: other != nn ==> At(other) == old(At(other))
    {
      wrote := wrote - {nn};
    }

    method NoteWrite(nn: string)
      requires Valid()
      modifies this
      ensures Valid() && At(nn) == old(At(nn)).(wrote := true)
      ensures forall other :: other != nn ==> At(other) == old(At(other))
    {
      wrote := wrote + {nn};
    }

    method Add(nn: string, run: nat)
      requires Valid()
      modifies this
      ensures Valid() && At(nn) == old(At(nn)).(pending := old(At(nn)).pending + [run])
      ensures forall other :: other != nn ==> At(other) == old(At(other))
    {
      pending := pending[nn := (if nn in pending then pending[nn] else []) + [run]];
    }

    method Remove(nn: string, run: nat)
      requires Valid()
      modifies this
      ensures Valid() && At(nn) == old(At(nn)).(pending := Without(old(At(nn)).pending, run))
      ensures forall other :: other != nn ==> At(other) == old(At(other))
    {
      hide Without;
      var before := if nn in pending then pending[nn] else [];
      var runs: seq<nat> := [];
      WithoutNothing(before, run);
      for i := 0 to |before|
        invariant runs == Without(before[..i], run) && pending == old(pending) && wrote == old(wrote)
      {
        WithoutMore(before, i, run);
        if before[i] != run {
          runs := runs + [before[i]];
        }
      }
      assert before[..|before|] == before;
      if runs == [] {
        pending := pending - {nn};
      } else {
        pending := pending[nn := runs];
      }
    }
  }

  lemma WithoutNothing(runs: seq<nat>, run: nat)
    ensures Without(runs[..0], run) == []
  {
  }
}

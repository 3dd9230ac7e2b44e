/**
  The three-state cell that a requesting session and the service loop race on:
  the loop commits, the timed-out requester cancels, and only one can win.
*/
module CommitCell {

  datatype Commit = Pending | Committed | Cancelled

  /** Compare-exchange from Pending: the new cell value, and whether the exchange happened. */
  function Exchange(cell: Commit, target: Commit): (r: (Commit, bool)) {
    if cell.Pending? then (target, true) else (cell, false)
  }

  class SystemActionCommit {
    var cell: Commit

    constructor ()
      ensures cell == Pending
    {
      cell := Pending;
    }

    method TryCommit() returns (ok: bool)
      modifies this
      ensures (cell, ok) == Exchange(old(cell), Committed)
    {
      ok := false;
      if cell == Pending {
        cell := Committed;
        ok := true;
      }
    }

    method Cancel() returns (ok: bool)
      modifies this
      ensures (cell, ok) == Exchange(old(cell), Cancelled)
    {
      ok := false;
      if cell == Pending {
        cell := Cancelled;
        ok := true;
      }
    }

    method IsCommitted() returns (yes: bool)
      ensures yes <==> cell == Committed
    {
      yes := cell == Committed;
    }
  }

  datatype Race = ServiceCommits | RequesterCancels

  function RaceStep(cell: Commit, turn: Race): (Commit, bool) {
    Exchange(cell, if turn.ServiceCommits? then Committed else Cancelled)
  }

  /** The cell after any interleaving of commit and cancel attempts, oldest first. */
  function AfterRace(turns: seq<Race>): Commit {
    if turns == [] then Pending else RaceStep(AfterRace(turns[..|turns| - 1]), turns[|turns| - 1]).0
  }

  /** In any interleaving exactly the first attempt succeeds, and its side owns the cell for good. */
  lemma {:induction false} FirstAttemptWins(turns: seq<Race>, i: nat)
    requires i < |turns|
    ensures RaceStep(AfterRace(turns[..i]), turns[i]).1 <==> i == 0
    ensures AfterRace(turns) == (if turns[0].ServiceCommits? then Committed else Cancelled)
    decreases |turns|
  {
    var before := turns[..|turns| - 1];
    if |turns| > 1 {
      FirstAttemptWins(before, if i < |before| then i else 0);
      if i < |before| {
        assert turns[..i] == before[..i];
      }
    } else {
      assert turns[..i] == [];
    }
  }
}

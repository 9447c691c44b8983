/** The in-memory outbox beside the SQLite one: the same scan, a laxer claim, and
    attempts that are never counted. */
module OutboxForms {
  import opened Common
  import opened Outbox

  function MemoryLease(e: Event, worker: string, until: int): Event {
    e.(state := Leased, leaseOwner := Some(worker), leaseUntil := Some(until), token := e.token + 1)
  }

  function MemoryClaim(rows: seq<Event>, i: nat, worker: string, now: int, until: int): Tx<seq<Event>, Event> {
    var known := i < |rows|;
    :- Need(known, NotFound);
    var e := rows[i];
    :- Need(e.state != Completed, Conflict);
    :- Need(!(e.leaseUntil.Some? && e.leaseUntil.value > now && e.leaseOwner != Some(worker)), Conflict);
    Commit(rows[i := MemoryLease(e, worker, until)], MemoryLease(e, worker, until))
  }

  function MemoryBackoff(attempts: nat): int { Min(PowerOfTwo(attempts), 300) }

  function MemoryFail(rows: seq<Event>, i: nat, worker: string, token: nat, now: int, limit: int): Tx<seq<Event>, Event> {
    var positive := limit >= 1;
    :- Need(positive, Conflict);
    :- Need(i < |rows|, NotFound);
    :- Need(Held(rows[i], worker, token, now), Conflict);
    var dead := rows[i].attempts >= limit;
    var e := rows[i].(state := if dead then Dead else Retry,
                      availableAt := Some(if dead then now else now + MemoryBackoff(rows[i].attempts)),
                      leaseOwner := None, leaseUntil := None);
    Commit(rows[i := e], e)
  }

  class InMemoryOutbox {
    var rows: seq<Event>

    constructor ()
      ensures rows == []
    { rows := []; }

    method ClaimOutbox(i: nat, worker: string, now: int, until: int) returns (r: Result<Event>)
      modifies this
      ensures Ran(MemoryClaim(old(rows), i, worker, now, until), old(rows), rows, r)
    {
      if i >= |rows| { return Err(NotFound); }
      var e := rows[i];
      if e.state == Completed { return Err(Conflict); }
      if e.leaseUntil.Some? && e.leaseUntil.value > now && e.leaseOwner != Some(worker) { return Err(Conflict); }
      e := e.(state := Leased, leaseOwner := Some(worker), leaseUntil := Some(until));
      e := e.(token := e.token + 1);
      rows := rows[i := e];
      r := Ok(e);
    }

    /** The scan decides which row is claimed; the choice is that of the SQL query. */
    method ClaimNextOutbox(worker: string, now: int, until: int) returns (r: Result<Option<nat>>)
      modifies this
      ensures match FirstClaimable(old(rows), now, 0)
              case None => rows == old(rows) && r == Ok(None)
              case Some(i) => match MemoryClaim(old(rows), i, worker, now, until)
                              case Commit(after, _) => rows == after && r == Ok(Some(i))
                              case Abort(f) => rows == old(rows) && r == Err(f)
    {
      var next := ScanForClaim(rows, now);
      if next.None? { return Ok(None); }
      var claimed := ClaimOutbox(next.value, worker, now, until);
      if claimed.Err? { return Err(claimed.failure); }
      r := Ok(next);
    }

    method FailOutbox(i: nat, worker: string, token: nat, now: int, limit: int) returns (r: Result<Event>)
      modifies this
      ensures Ran(MemoryFail(old(rows), i, worker, token, now, limit), old(rows), rows, r)
    {
      if limit < 1 { return Err(Conflict); }
      if i >= |rows| { return Err(NotFound); }
      var e := rows[i];
      if !Held(e, worker, token, now) { return Err(Conflict); }
      if e.attempts >= limit {
        e := e.(state := Dead, availableAt := Some(now));
      } else {
        e := e.(state := Retry, availableAt := Some(now + MemoryBackoff(e.attempts)));
      }
      e := e.(leaseOwner := None, leaseUntil := None);
      rows := rows[i := e];
      r := Ok(e);
    }
  }

  /** For a row the scan chose, both forms claim: they differ only in the attempts they count. */
  lemma ChosenRowsAgree(rows: seq<Event>, worker: string, now: int, until: int)
    requires FirstClaimable(rows, now, 0).Some?
    requires forall i | 0 <= i < |rows| :: rows[i].state == Leased <==> rows[i].leaseUntil.Some?
    ensures var i := FirstClaimable(rows, now, 0).value;
      && Claim(rows, i, worker, now, until).Commit? && MemoryClaim(rows, i, worker, now, until).Commit?
      && Claim(rows, i, worker, now, until).value
         == MemoryClaim(rows, i, worker, now, until).value.(attempts := rows[i].attempts + 1)
  {}

  datatype MemoryStep =
    | Append(aggregate: nat, now: int)
    | MemClaim(i: nat, worker: string, now: int, until: int)
    | MemClaimNext(worker: string, now: int, until: int)
    | MemCheckpoint(i: nat, worker: string, token: nat, now: int, completed: bool)
    | MemFail(i: nat, worker: string, token: nat, now: int, limit: int)

  /** The claim of `claim_next_outbox`: the scan's row, claimed by name. */
  function MemoryClaimNext(rows: seq<Event>, worker: string, now: int, until: int): seq<Event> {
    var next := FirstClaimable(rows, now, 0);
    if next.None? then rows
    else match MemoryClaim(rows, next.value, worker, now, until) case Commit(s, _) => s case Abort(_) => rows
  }

  function MemoryApply(rows: seq<Event>, step: MemoryStep): seq<Event> {
    match step
    case Append(aggregate, now) => rows + [NewEvent(aggregate, now)]
    case MemClaim(i, worker, now, until) => (match MemoryClaim(rows, i, worker, now, until) case Commit(s, _) => s case Abort(_) => rows)
    case MemClaimNext(worker, now, until) => MemoryClaimNext(rows, worker, now, until)
    case MemCheckpoint(i, worker, token, now, completed) => (match Checkpoint(rows, i, worker, token, now, completed) case Commit(s, _) => s case Abort(_) => rows)
    case MemFail(i, worker, token, now, limit) => (match MemoryFail(rows, i, worker, token, now, limit) case Commit(s, _) => s case Abort(_) => rows)
  }

  function MemoryAfter(steps: seq<MemoryStep>): seq<Event> {
    if steps == [] then [] else MemoryApply(MemoryAfter(steps[..|steps| - 1]), steps[|steps| - 1])
  }

  /** Every row an in-memory run can hold. */
  ghost predicate InMemoryRow(e: Event) {
    e.attempts == 0 && e.state != Dead && (e.state == Leased <==> e.leaseUntil.Some?) && (e.state == Retry ==> e.availableAt.Some?)
  }

  lemma {:induction false} RowsAre(steps: seq<MemoryStep>)
    ensures forall i | 0 <= i < |MemoryAfter(steps)| :: InMemoryRow(MemoryAfter(steps)[i])
  {
    if steps != [] {
      RowsAre(steps[..|steps| - 1]);
    }
  }

  /** In memory no event is ever given up: attempts stay at zero, so no limit is reached, over every run. */
  lemma NeverGivenUp(steps: seq<MemoryStep>)
    ensures forall i | 0 <= i < |MemoryAfter(steps)| :: MemoryAfter(steps)[i].attempts == 0 && MemoryAfter(steps)[i].state != Dead
  {
    RowsAre(steps);
  }

  /** A failure in memory puts the event back, for `claim_next` to take a second later. */
  lemma MemoryFailExact(steps: seq<MemoryStep>, i: nat, worker: string, token: nat, now: int, limit: int)
    ensures var (rows, tx) := (MemoryAfter(steps), MemoryFail(MemoryAfter(steps), i, worker, token, now, limit));
      && (tx.Commit? <==> limit >= 1 && i < |rows| && Held(rows[i], worker, token, now))
      && (tx.Commit? ==>
            && tx.state == rows[i := tx.value] && tx.value.token == token && tx.value.leaseOwner.None? && HeldByNobody(tx.state, i)
            && forall later :: Claimable(tx.state, i, later) <==> now + 1 <= later && Unblocked(rows, i))
  {
    RowsAre(steps);
    var (rows, tx) := (MemoryAfter(steps), MemoryFail(MemoryAfter(steps), i, worker, token, now, limit));
    if tx.Commit? {
      assert InMemoryRow(rows[i]) && PowerOfTwo(0) == 1;
      assert forall j | 0 <= j < i :: tx.state[j] == rows[j];
    }
  }

  /** `claim_next` leases the first event that is ready and not blocked, and nothing exactly when there is none. */
  lemma MemoryNextExact(steps: seq<MemoryStep>, worker: string, now: int, until: int)
    ensures var (rows, after) := (MemoryAfter(steps), MemoryClaimNext(MemoryAfter(steps), worker, now, until));
      || (after == rows && forall i | 0 <= i < |rows| :: !Claimable(rows, i, now))
      || exists i :: 0 <= i < |rows| && Claimable(rows, i, now) && (forall j | 0 <= j < i :: !Claimable(rows, j, now))
                     && after == rows[i := MemoryLease(rows[i], worker, until)]
  {
    RowsAre(steps);
    var rows := MemoryAfter(steps);
    var next := FirstClaimable(rows, now, 0);
    if next.Some? { assert Claimable(rows, next.value, now) && InMemoryRow(rows[next.value]); }
  }

  /** What the SQLite claim refuses and the in-memory one lets through: a retry
      before it is due, and an event its own holder claims again. */
  predicate OnlyInMemory(e: Event, worker: string, now: int) {
    || (e.state == Retry && e.availableAt.Some? && e.availableAt.value > now)
    || (e.state == Leased && e.leaseUntil.Some? && e.leaseUntil.value > now && e.leaseOwner == Some(worker))
  }

  /** On the rows an in-memory run holds, the two claims of a named event agree exactly
      outside these two cases; in them only the in-memory form claims. */
  lemma ClaimsDifferExactly(steps: seq<MemoryStep>, i: nat, worker: string, now: int, until: int)
    requires i < |MemoryAfter(steps)|
    ensures var rows := MemoryAfter(steps);
      && (MemoryClaim(rows, i, worker, now, until).Commit? && Claim(rows, i, worker, now, until).Abort? <==> OnlyInMemory(rows[i], worker, now))
      && (Claim(rows, i, worker, now, until).Commit? ==> MemoryClaim(rows, i, worker, now, until).Commit?)
  {
    RowsAre(steps);
    assert InMemoryRow(MemoryAfter(steps)[i]);
  }

  /** Both cases occur: a holder claims its live lease again, and a failed event is
      claimed by name before its retry is due. */
  lemma BothCasesOccur()
    ensures var held := MemoryAfter([Append(7, 0), MemClaim(0, "w", 0, 60)]);
      |held| == 1 && MemoryClaim(held, 0, "w", 1, 61).Commit? && Claim(held, 0, "w", 1, 61).Abort?
    ensures var failed := MemoryAfter([Append(7, 0), MemClaim(0, "w", 0, 60), MemFail(0, "w", 1, 1, 5)]);
      |failed| == 1 && MemoryClaim(failed, 0, "v", 1, 61).Commit? && Claim(failed, 0, "v", 1, 61).Abort?
  {
    var one := [Append(7, 0)];
    var two := [Append(7, 0), MemClaim(0, "w", 0, 60)];
    var three := [Append(7, 0), MemClaim(0, "w", 0, 60), MemFail(0, "w", 1, 1, 5)];
    assert one[..0] == [] && two[..1] == one && three[..2] == two;
    assert MemoryAfter(two) == [MemoryLease(NewEvent(7, 0), "w", 60)];
    assert MemoryBackoff(0) == 1;
  }

  // ------------------------------------------------------- order within an aggregate

  predicate NamedInMemory(rows: seq<Event>, step: MemoryStep) {
    step.MemClaim? && MemoryClaim(rows, step.i, step.worker, step.now, step.until).Commit?
  }

  /** The in-memory form: a step keeps every aggregate in order exactly when it is not
      an accepted claim by name of a blocked event. */
  lemma MemoryStepInOrder(rows: seq<Event>, step: MemoryStep)
    requires InOrder(rows) && forall i | 0 <= i < |rows| :: InMemoryRow(rows[i])
    ensures InOrder(MemoryApply(rows, step)) <==> (NamedInMemory(rows, step) ==> Unblocked(rows, step.i))
  {
    if NamedInMemory(rows, step) {
      TouchInOrder(rows, step.i, MemoryLease(rows[step.i], step.worker, step.until));
    } else if step.MemClaimNext? && FirstClaimable(rows, step.now, 0).Some? {
      var i := FirstClaimable(rows, step.now, 0).value;
      TouchInOrder(rows, i, MemoryLease(rows[i], step.worker, step.until));
    } else {
      var after := MemoryApply(rows, step);
      forall i, j | 0 <= i < j < |after| && after[i].aggregate == after[j].aggregate
        ensures Terminal(after[i].state) || after[j] == NewEvent(after[j].aggregate, after[j].createdAt)
      {
        if j < |rows| { assert rows[i].aggregate == rows[j].aggregate; }
      }
    }
  }

  ghost predicate MemoryInOrderAt(steps: seq<MemoryStep>, k: nat)
    requires k <= |steps|
  {
    InOrder(MemoryAfter(steps[..k]))
  }

  ghost predicate MemoryAlwaysInOrder(steps: seq<MemoryStep>) { forall k: nat | k <= |steps| :: MemoryInOrderAt(steps, k) }

  ghost predicate MemoryUnblockedAt(steps: seq<MemoryStep>, k: nat)
    requires k < |steps|
  {
    NamedInMemory(MemoryAfter(steps[..k]), steps[k]) ==> Unblocked(MemoryAfter(steps[..k]), steps[k].i)
  }

  ghost predicate MemoryUnblocked(steps: seq<MemoryStep>) { forall k: nat | k < |steps| :: MemoryUnblockedAt(steps, k) }

  lemma MemoryInOrderAtPrefix(steps: seq<MemoryStep>, k: nat)
    requires k < |steps|
    ensures MemoryInOrderAt(steps[..|steps| - 1], k) <==> MemoryInOrderAt(steps, k)
    ensures k < |steps| - 1 ==> (MemoryUnblockedAt(steps[..|steps| - 1], k) <==> MemoryUnblockedAt(steps, k))
  {
    hide MemoryAfter, InOrder, Unblocked, NamedInMemory;
    assert steps[..|steps| - 1][..k] == steps[..k];
  }

  lemma MemoryInOrderAtEnd(steps: seq<MemoryStep>)
    ensures MemoryInOrderAt(steps, |steps|) <==> InOrder(MemoryAfter(steps))
  {
    assert steps[..|steps|] == steps;
  }

  lemma MemoryAlwaysInOrderEnds(steps: seq<MemoryStep>)
    ensures MemoryAlwaysInOrder(steps) ==> MemoryInOrderAt(steps, |steps|)
  {
    hide MemoryInOrderAt;
  }

  lemma MemoryAlwaysInOrderSnoc(steps: seq<MemoryStep>)
    requires steps != []
    ensures MemoryAlwaysInOrder(steps) <==> MemoryAlwaysInOrder(steps[..|steps| - 1]) && MemoryInOrderAt(steps, |steps|)
    ensures MemoryUnblocked(steps) <==> MemoryUnblocked(steps[..|steps| - 1]) && MemoryUnblockedAt(steps, |steps| - 1)
  {
    hide MemoryInOrderAt, MemoryUnblockedAt;
    var (n, shorter) := (|steps| - 1, steps[..|steps| - 1]);
    forall k: nat | k <= n
      ensures MemoryInOrderAt(shorter, k) <==> MemoryInOrderAt(steps, k)
      ensures k < n ==> (MemoryUnblockedAt(shorter, k) <==> MemoryUnblockedAt(steps, k))
    {
      MemoryInOrderAtPrefix(steps, k);
    }
  }

  /** The same theorem about order as for the SQLite form, with the same guard. */
  lemma {:induction false} MemoryRunInOrder(steps: seq<MemoryStep>)
    ensures MemoryAlwaysInOrder(steps) <==> MemoryUnblocked(steps)
    ensures (forall k | 0 <= k < |steps| :: !steps[k].MemClaim?) ==> InOrder(MemoryAfter(steps))
  {
    if steps != [] {
      var shorter := steps[..|steps| - 1];
      MemoryRunInOrder(shorter);
      RowsAre(shorter);
      MemoryAlwaysInOrderSnoc(steps);
      MemoryInOrderAtEnd(steps);
      MemoryInOrderAtEnd(shorter);
      hide MemoryAlwaysInOrder, MemoryUnblocked, MemoryApply, Unblocked, NamedInMemory, InOrder, InMemoryRow;
      assert MemoryAlwaysInOrder(shorter) ==> MemoryInOrderAt(shorter, |shorter|) by { MemoryAlwaysInOrderEnds(shorter); }
      if InOrder(MemoryAfter(shorter)) { MemoryStepInOrder(MemoryAfter(shorter), steps[|steps| - 1]); }
    } else {
      MemoryInOrderAtEnd(steps);
    }
  }
}

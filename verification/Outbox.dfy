/** The outbox claim rule in its two forms (a scan with a blocked set, and a
    NOT EXISTS query), its leases, and its accounting over every run. */
module Outbox {
  import opened Common

  datatype EventState = Pending | Leased | Retry | Completed | Dead

  /** One row; `aggregate` identifies the entity whose events must be handled in order. */
  datatype Event = Event(aggregate: nat, state: EventState, createdAt: int, availableAt: Option<int>,
                         leaseOwner: Option<string>, leaseUntil: Option<int>, token: nat, attempts: nat,
                         completedAt: Option<int>)

  function NewEvent(aggregate: nat, now: int): Event {
    Event(aggregate, Pending, now, None, None, None, 0, 0, None)
  }

  predicate Terminal(s: EventState) { s in {Completed, Dead} }

  function DueAt(e: Event): int { if e.availableAt.Some? then e.availableAt.value else e.createdAt }

  predicate Ready(e: Event, now: int) {
    || (e.state in {Pending, Retry} && DueAt(e) <= now)
    || (e.state == Leased && e.leaseUntil.Some? && e.leaseUntil.value <= now)
  }

  /** No earlier event of the same aggregate is still open. */
  predicate Unblocked(rows: seq<Event>, i: nat)
    requires i < |rows|
  {
    forall j | 0 <= j < i :: rows[j].aggregate == rows[i].aggregate ==> Terminal(rows[j].state)
  }

  /** The SQL form: ready, and not blocked. */
  predicate Claimable(rows: seq<Event>, i: nat, now: int)
    requires i < |rows|
  {
    Ready(rows[i], now) && Unblocked(rows, i)
  }

  /** ORDER BY rowid LIMIT 1 over the claimable rows. */
  function FirstClaimable(rows: seq<Event>, now: int, from: nat): (found: Option<nat>)
    requires from <= |rows|
    ensures found.Some? ==> from <= found.value < |rows| && Claimable(rows, found.value, now)
    ensures found.Some? ==> forall i | from <= i < found.value :: !Claimable(rows, i, now)
    ensures found.None? ==> forall i | from <= i < |rows| :: !Claimable(rows, i, now)
    decreases |rows| - from
  {
    if from == |rows| then None
    else if Claimable(rows, from, now) then Some(from)
    else FirstClaimable(rows, now, from + 1)
  }

  /** The in-memory form: one pass that remembers the aggregates it may no longer touch. */
  method ScanForClaim(rows: seq<Event>, now: int) returns (found: Option<nat>)
    ensures found == FirstClaimable(rows, now, 0)
    ensures found.None? <==> forall i | 0 <= i < |rows| :: !Claimable(rows, i, now)
  {
    var blocked: set<nat> := {};
    for i := 0 to |rows|
      invariant blocked == set j | 0 <= j < i && !Terminal(rows[j].state) :: rows[j].aggregate
      invariant forall j | 0 <= j < i :: !Claimable(rows, j, now)
    {
      assert forall j | 0 <= j < i && !Terminal(rows[j].state) :: rows[j].aggregate in blocked;
      if Ready(rows[i], now) && rows[i].aggregate !in blocked {
        assert Claimable(rows, i, now);
        return Some(i);
      }
      assert Ready(rows[i], now) ==> exists j | 0 <= j < i :: !Terminal(rows[j].state) && rows[j].aggregate == rows[i].aggregate;
      if !Terminal(rows[i].state) {
        blocked := blocked + {rows[i].aggregate};
      }
    }
    found := None;
  }

  // ------------------------------------------------------ the SQLite repository

  function Lease(e: Event, worker: string, until: int): Event {
    e.(state := Leased, leaseOwner := Some(worker), leaseUntil := Some(until), token := e.token + 1, attempts := e.attempts + 1)
  }

  function Claim(rows: seq<Event>, i: nat, worker: string, now: int, until: int): Tx<seq<Event>, Event> {
    var known := i < |rows|;
    :- Need(known, NotFound);
    var e := rows[i];
    :- Need(!Terminal(e.state), Conflict);
    :- Need(!(e.state == Retry && e.availableAt.Some? && e.availableAt.value > now), Conflict);
    :- Need(!(e.leaseUntil.Some? && e.leaseUntil.value > now), Conflict);
    Commit(rows[i := Lease(e, worker, until)], Lease(e, worker, until))
  }

  /** The value is the row claimed, if any was ready. */
  function ClaimNext(rows: seq<Event>, worker: string, now: int, until: int): Tx<seq<Event>, Option<nat>> {
    var next := FirstClaimable(rows, now, 0);
    if next.None? then Commit(rows, None)
    else
      var (claimed, _) :- Claim(rows, next.value, worker, now, until);
      Commit(claimed, next)
  }

  predicate Held(e: Event, worker: string, token: nat, now: int) {
    e.state == Leased && e.leaseOwner == Some(worker) && e.token == token && e.leaseUntil.Some? && e.leaseUntil.value > now
  }

  function Checkpoint(rows: seq<Event>, i: nat, worker: string, token: nat, now: int, completed: bool): Tx<seq<Event>, Event> {
    var known := i < |rows|;
    :- Need(known, NotFound);
    :- Need(Held(rows[i], worker, token, now), Conflict);
    var e := if completed
             then rows[i].(state := Completed, completedAt := Some(now), leaseOwner := None, leaseUntil := None)
             else rows[i];
    Commit(rows[i := e], e)
  }

  function BackoffSeconds(attempts: nat): int {
    Min(3600, 30 * PowerOfTwo(if attempts == 0 then 0 else attempts - 1))
  }

  function FailEvent(rows: seq<Event>, i: nat, worker: string, token: nat, now: int, limit: int): Tx<seq<Event>, Event> {
    var positive := limit >= 1;
    :- Need(positive, Conflict);
    :- Need(i < |rows|, NotFound);
    :- Need(Held(rows[i], worker, token, now), Conflict);
    var dead := rows[i].attempts >= limit;
    var e := rows[i].(state := if dead then Dead else Retry,
                      availableAt := Some(if dead then now else now + BackoffSeconds(rows[i].attempts)),
                      leaseOwner := None, leaseUntil := None);
    Commit(rows[i := e], e)
  }

  class SqliteOutbox {
    var rows: seq<Event>

    constructor ()
      ensures rows == []
    { rows := []; }

    method Append(aggregate: nat, now: int)
      modifies this
      ensures rows == old(rows) + [NewEvent(aggregate, now)]
    { rows := rows + [NewEvent(aggregate, now)]; }

    method ClaimOutbox(i: nat, worker: string, now: int, until: int) returns (r: Result<Event>)
      modifies this
      ensures Ran(Claim(old(rows), i, worker, now, until), old(rows), rows, r)
    {
      if i >= |rows| { return Err(NotFound); }
      var e := rows[i];
      if e.state == Completed || e.state == Dead { return Err(Conflict); }
      if e.state == Retry && e.availableAt.Some? && e.availableAt.value > now { return Err(Conflict); }
      if e.leaseUntil.Some? && e.leaseUntil.value > now { return Err(Conflict); }
      e := e.(state := Leased, leaseOwner := Some(worker), leaseUntil := Some(until));
      e := e.(token := e.token + 1, attempts := e.attempts + 1);
      rows := rows[i := e];
      r := Ok(e);
    }

    method ClaimNextOutbox(worker: string, now: int, until: int) returns (r: Result<Option<nat>>)
      modifies this
      ensures Ran(ClaimNext(old(rows), worker, now, until), old(rows), rows, r)
    {
      var next := FirstClaimable(rows, now, 0);
      if next.None? { return Ok(None); }
      var claimed := ClaimOutbox(next.value, worker, now, until);
      if claimed.Err? { return Err(claimed.failure); }
      r := Ok(next);
    }

    method CheckpointOutbox(i: nat, worker: string, token: nat, now: int, completed: bool) returns (r: Result<Event>)
      modifies this
      ensures Ran(Checkpoint(old(rows), i, worker, token, now, completed), old(rows), rows, r)
    {
      if i >= |rows| { return Err(NotFound); }
      var e := rows[i];
      if !Held(e, worker, token, now) { return Err(Conflict); }
      if completed {
        e := e.(state := Completed, completedAt := Some(now), leaseOwner := None, leaseUntil := None);
      }
      rows := rows[i := e];
      r := Ok(e);
    }

    method FailOutbox(i: nat, worker: string, token: nat, now: int, limit: int) returns (r: Result<Event>)
      modifies this
      ensures Ran(FailEvent(old(rows), i, worker, token, now, limit), old(rows), rows, r)
    {
      if limit < 1 { return Err(Conflict); }
      if i >= |rows| { return Err(NotFound); }
      var e := rows[i];
      if !Held(e, worker, token, now) { return Err(Conflict); }
      if e.attempts >= limit {
        e := e.(state := Dead, availableAt := Some(now));
      } else {
        e := e.(state := Retry, availableAt := Some(now + BackoffSeconds(e.attempts)));
      }
      e := e.(leaseOwner := None, leaseUntil := None);
      rows := rows[i := e];
      r := Ok(e);
    }
  }

  // --------------------------------------------------------------- every run

  datatype Step =
    | DoAppend(aggregate: nat, now: int)
    | DoClaim(i: nat, worker: string, now: int, until: int)
    | DoClaimNext(worker: string, now: int, until: int)
    | DoCheckpoint(i: nat, worker: string, token: nat, now: int, completed: bool)
    | DoFail(i: nat, worker: string, token: nat, now: int, limit: int)

  /** How often an event was claimed, failed and completed so far. */
  datatype Tally = Tally(claims: nat, failures: nat, completions: nat)

  datatype System = System(rows: seq<Event>, tallies: seq<Tally>)

  function Bump(ts: seq<Tally>, i: nat, t: Tally): seq<Tally> {
    if i < |ts| then ts[i := Tally(ts[i].claims + t.claims, ts[i].failures + t.failures, ts[i].completions + t.completions)] else ts
  }

  function Apply(s: System, step: Step): System {
    match step
    case DoAppend(aggregate, now) => System(s.rows + [NewEvent(aggregate, now)], s.tallies + [Tally(0, 0, 0)])
    case DoClaim(i, worker, now, until) =>
      (match Claim(s.rows, i, worker, now, until)
       case Commit(rows, _) => System(rows, Bump(s.tallies, i, Tally(1, 0, 0)))
       case Abort(_) => s)
    case DoClaimNext(worker, now, until) =>
      (match ClaimNext(s.rows, worker, now, until)
       case Commit(rows, Some(i)) => System(rows, Bump(s.tallies, i, Tally(1, 0, 0)))
       case _ => s)
    case DoCheckpoint(i, worker, token, now, completed) =>
      (match Checkpoint(s.rows, i, worker, token, now, completed)
       case Commit(rows, _) => System(rows, Bump(s.tallies, i, Tally(0, 0, if completed then 1 else 0)))
       case Abort(_) => s)
    case DoFail(i, worker, token, now, limit) =>
      (match FailEvent(s.rows, i, worker, token, now, limit)
       case Commit(rows, _) => System(rows, Bump(s.tallies, i, Tally(0, 1, 0)))
       case Abort(_) => s)
  }

  function After(steps: seq<Step>): System {
    if steps == [] then System([], []) else Apply(After(steps[..|steps| - 1]), steps[|steps| - 1])
  }

  /** What holds of one row and its tally when every failure was judged against a limit of at most `limit`. */
  ghost predicate Accounted(e: Event, t: Tally, limit: int) {
    && e.token == e.attempts == t.claims
    && t.completions == (if e.state == Completed then 1 else 0)
    && t.failures <= limit
    && (e.state != Dead ==> t.failures < limit && t.failures <= e.attempts)
    && (e.state == Leased ==> t.failures < e.attempts)
    && (e.state == Leased <==> e.leaseUntil.Some?)
    && (e.state == Retry ==> e.availableAt.Some? && e.attempts < limit)
    && (e.state == Pending ==> e.attempts == 0)
  }

  ghost predicate Sound(s: System, limit: int) {
    |s.tallies| == |s.rows| && forall i | 0 <= i < |s.rows| :: Accounted(s.rows[i], s.tallies[i], limit)
  }

  ghost predicate LimitedTo(steps: seq<Step>, limit: int) {
    forall i | 0 <= i < |steps| :: steps[i].DoFail? ==> steps[i].limit <= limit
  }

  lemma StepAccounts(s: System, step: Step, limit: int)
    requires Sound(s, limit) && limit >= 1
    requires step.DoFail? ==> step.limit <= limit
    ensures Sound(Apply(s, step), limit)
  {
    hide BackoffSeconds, FirstClaimable, Unblocked;
  }

  /** Fencing token, attempts and number of claims are one number; an event
      fails at most `limit` times and completes at most once, over every run. */
  lemma {:induction false} RunAccounts(steps: seq<Step>, limit: int)
    requires limit >= 1 && LimitedTo(steps, limit)
    ensures Sound(After(steps), limit)
  {
    if steps != [] {
      RunAccounts(steps[..|steps| - 1], limit);
      StepAccounts(After(steps[..|steps| - 1]), steps[|steps| - 1], limit);
    }
  }

  lemma StepAbsorbs(s: System, step: Step, i: nat)
    requires i < |s.rows|
    ensures i < |Apply(s, step).rows|
    ensures Apply(s, step).rows[i].aggregate == s.rows[i].aggregate && Apply(s, step).rows[i].token >= s.rows[i].token
    ensures Terminal(s.rows[i].state) ==> Apply(s, step).rows[i] == s.rows[i]
  {}

  /** Completed and dead events absorb every further step; no event disappears or changes its aggregate. */
  lemma {:induction false} TerminalAbsorbs(steps: seq<Step>, n: nat, i: nat)
    requires n <= |steps| && i < |After(steps[..n]).rows|
    ensures i < |After(steps).rows|
    ensures After(steps).rows[i].aggregate == After(steps[..n]).rows[i].aggregate
    ensures After(steps).rows[i].token >= After(steps[..n]).rows[i].token
    ensures Terminal(After(steps[..n]).rows[i].state) ==> After(steps).rows[i] == After(steps[..n]).rows[i]
  {
    if n == |steps| {
      assert steps[..n] == steps;
    } else {
      var shorter := steps[..|steps| - 1];
      assert shorter[..n] == steps[..n];
      TerminalAbsorbs(shorter, n, i);
      StepAbsorbs(After(shorter), steps[|steps| - 1], i);
    }
  }

  // --------------------------------------------- what each operation means for later ones

  /** A claim by name is accepted exactly for an open event that is neither waiting for its
      retry nor under a live lease, and then it is that worker's alone until the lease ends. */
  lemma ClaimExact(rows: seq<Event>, i: nat, worker: string, now: int, until: int)
    ensures var tx := Claim(rows, i, worker, now, until);
      && (tx.Commit? <==>
            && i < |rows| && rows[i].state != Completed && rows[i].state != Dead
            && (rows[i].state == Retry && rows[i].availableAt.Some? ==> rows[i].availableAt.value <= now)
            && (rows[i].leaseUntil.Some? ==> rows[i].leaseUntil.value <= now))
      && (tx.Commit? ==>
            && HeldExactly(tx.state, i, worker, rows[i].token + 1, until)
            && tx.state == rows[i := tx.value] && tx.value.attempts == rows[i].attempts + 1 && tx.value.aggregate == rows[i].aggregate)
  {}

  /** Only this worker under this token can finish or fail the event, and only before
      `until`; from then on, and not before, anyone can claim it. */
  ghost predicate HeldExactly(rows: seq<Event>, i: nat, worker: string, token: nat, until: int) {
    && (forall other, t, now, completed :: Checkpoint(rows, i, other, t, now, completed).Commit? <==> other == worker && t == token && now < until)
    && (forall other, t, now, limit :: FailEvent(rows, i, other, t, now, limit).Commit? <==> other == worker && t == token && now < until && limit >= 1)
    && (forall other, now, later :: Claim(rows, i, other, now, later).Commit? <==> until <= now)
    && (forall now :: i < |rows| && Claimable(rows, i, now) <==> i < |rows| && until <= now && Unblocked(rows, i))
  }

  /** A new event can be claimed from its creation on. */
  lemma NewEventExact(rows: seq<Event>, aggregate: nat, at: int, worker: string, now: int, until: int)
    ensures var after := rows + [NewEvent(aggregate, at)];
      && HeldByNobody(after, |rows|) && after[|rows|].attempts == after[|rows|].token == 0
      && (Claimable(after, |rows|, now) <==> at <= now && forall j | 0 <= j < |rows| && rows[j].aggregate == aggregate :: Terminal(rows[j].state))
  {
    var after := rows + [NewEvent(aggregate, at)];
    assert forall j | 0 <= j < |rows| :: after[j] == rows[j];
  }

  ghost predicate HeldByNobody(rows: seq<Event>, i: nat) {
    && (forall other, t, now, completed :: Checkpoint(rows, i, other, t, now, completed).Abort?)
    && (forall other, t, now, limit :: FailEvent(rows, i, other, t, now, limit).Abort?)
  }

  ghost predicate Closed(rows: seq<Event>, i: nat) {
    HeldByNobody(rows, i) && forall other, now, later :: Claim(rows, i, other, now, later).Abort?
  }

  /** The holder's checkpoint closes the event for good, or leaves it as it was. */
  lemma CheckpointExact(rows: seq<Event>, i: nat, worker: string, token: nat, now: int, completed: bool)
    ensures var tx := Checkpoint(rows, i, worker, token, now, completed);
      tx.Commit? ==>
        if completed then Closed(tx.state, i) && tx.state[i].state == Completed && tx.state == rows[i := tx.state[i]]
                             && tx.state[i].completedAt == Some(now) && tx.state[i].leaseOwner.None?
        else tx.state == rows
  {}

  /** Half a minute after the first failure, twice as long after each further one, at most an hour. */
  lemma BackoffDoubles(attempts: nat)
    ensures BackoffSeconds(1) == 30
    ensures attempts >= 1 ==> BackoffSeconds(attempts + 1) == Min(3600, 2 * BackoffSeconds(attempts))
  {
    assert PowerOfTwo(0) == 1;
    if attempts >= 1 { assert PowerOfTwo(attempts) == 2 * PowerOfTwo(attempts - 1); }
  }

  /** A failure below the limit leaves an event nobody holds, which can be claimed again from
      the end of the wait on and not before, by name or, unless blocked, by `claim_next`;
      at the limit it closes the event. */
  lemma FailExact(rows: seq<Event>, i: nat, worker: string, token: nat, now: int, limit: int)
    ensures var tx := FailEvent(rows, i, worker, token, now, limit);
      tx.Commit? ==>
        && tx.state == rows[i := tx.value] && tx.value.attempts == rows[i].attempts && tx.value.token == rows[i].token && tx.value.leaseOwner.None?
        && (if rows[i].attempts >= limit then Closed(tx.state, i) && tx.value.state == Dead
            else
              && HeldByNobody(tx.state, i)
              && (forall other, later, until :: Claim(tx.state, i, other, later, until).Commit? <==> now + BackoffSeconds(rows[i].attempts) <= later)
              && (forall later :: Claimable(tx.state, i, later) <==> now + BackoffSeconds(rows[i].attempts) <= later && Unblocked(rows, i)))
  {
    var tx := FailEvent(rows, i, worker, token, now, limit);
    if tx.Commit? { assert forall j | 0 <= j < i :: tx.state[j] == rows[j]; }
  }

  ghost predicate LimitedFrom(steps: seq<Step>, limit: int) {
    forall k | 0 <= k < |steps| && steps[k].DoFail? :: steps[k].limit >= limit
  }

  /** An event is given up only after as many claims as every limit of the run demands. */
  lemma {:induction false} DeadWasTried(steps: seq<Step>, limit: int, i: nat)
    requires LimitedFrom(steps, limit) && i < |After(steps).rows| && After(steps).rows[i].state == Dead
    ensures i < |After(steps).tallies| && After(steps).tallies[i].claims >= limit
  {
    hide BackoffSeconds, FirstClaimable, Claimable;
    var s := After(steps[..|steps| - 1]);
    RowsTallied(steps[..|steps| - 1]);
    if i < |s.rows| && s.rows[i].state == Dead {
      DeadWasTried(steps[..|steps| - 1], limit, i);
    }
  }

  lemma {:induction false} RowsTallied(steps: seq<Step>)
    ensures |After(steps).tallies| == |After(steps).rows|
    ensures forall i | 0 <= i < |After(steps).rows| :: After(steps).tallies[i].claims == After(steps).rows[i].attempts
  {
    hide BackoffSeconds, FirstClaimable, Claimable;
    if steps != [] { RowsTallied(steps[..|steps| - 1]); }
  }

  /** The query picks a row the claim then accepts: `claim_next` never conflicts. It leases the
      first event that is ready and not blocked, and nothing exactly when there is none. */
  lemma ClaimNextNeverConflicts(steps: seq<Step>, limit: int, worker: string, now: int, until: int)
    requires limit >= 1 && LimitedTo(steps, limit)
    ensures ClaimNext(After(steps).rows, worker, now, until).Commit?
    ensures var (rows, tx) := (After(steps).rows, ClaimNext(After(steps).rows, worker, now, until));
      match tx.value
      case None => tx.state == rows && forall i | 0 <= i < |rows| :: !Claimable(rows, i, now)
      case Some(i) =>
        && i < |rows| && Claimable(rows, i, now) && (forall j | 0 <= j < i :: !Claimable(rows, j, now))
        && Claim(rows, i, worker, now, until).Commit? && tx.state == Claim(rows, i, worker, now, until).state
  {
    RunAccounts(steps, limit);
  }

  /** Per aggregate: a terminal prefix, at most one touched event, then events nobody has claimed. */
  ghost predicate InOrder(rows: seq<Event>) {
    forall i, j | 0 <= i < j < |rows| && rows[i].aggregate == rows[j].aggregate ::
      Terminal(rows[i].state) || rows[j] == NewEvent(rows[j].aggregate, rows[j].createdAt)
  }

  /** A row that was open is written as touched: the order survives exactly when the
      row was not blocked. */
  lemma TouchInOrder(rows: seq<Event>, i: nat, e: Event)
    requires InOrder(rows) && i < |rows| && !Terminal(rows[i].state) && e.aggregate == rows[i].aggregate
    requires e != NewEvent(e.aggregate, e.createdAt)
    ensures InOrder(rows[i := e]) <==> Unblocked(rows, i)
  {
    var after := rows[i := e];
    if InOrder(after) {
      forall j | 0 <= j < i && rows[j].aggregate == rows[i].aggregate ensures Terminal(rows[j].state) {
        assert after[j] == rows[j] && after[j].aggregate == after[i].aggregate;
      }
    }
    if Unblocked(rows, i) {
      forall j, k | 0 <= j < k < |after| && after[j].aggregate == after[k].aggregate
        ensures Terminal(after[j].state) || after[k] == NewEvent(after[k].aggregate, after[k].createdAt)
      {
        assert rows[j].aggregate == rows[k].aggregate;
      }
    }
  }

  /** The exact condition for claiming by name: an accepted claim keeps every aggregate in
      order if and only if all earlier events of the claimed event's aggregate are terminal. */
  lemma NamedClaimExact(rows: seq<Event>, i: nat, worker: string, now: int, until: int)
    requires InOrder(rows) && Claim(rows, i, worker, now, until).Commit?
    ensures InOrder(Claim(rows, i, worker, now, until).state) <==> Unblocked(rows, i)
  {
    TouchInOrder(rows, i, Lease(rows[i], worker, until));
  }

  predicate AcceptedByName(s: System, step: Step) {
    step.DoClaim? && Claim(s.rows, step.i, step.worker, step.now, step.until).Commit?
  }

  lemma StepInOrder(s: System, step: Step)
    requires InOrder(s.rows)
    ensures InOrder(Apply(s, step).rows) <==> (AcceptedByName(s, step) ==> Unblocked(s.rows, step.i))
  {
    if AcceptedByName(s, step) {
      NamedClaimExact(s.rows, step.i, step.worker, step.now, step.until);
    } else {
      var rows, after := s.rows, Apply(s, step).rows;
      forall i, j | 0 <= i < j < |after| && after[i].aggregate == after[j].aggregate
        ensures Terminal(after[i].state) || after[j] == NewEvent(after[j].aggregate, after[j].createdAt)
      {
        if j < |rows| { assert rows[i].aggregate == rows[j].aggregate; }
      }
    }
  }

  ghost predicate InOrderAt(steps: seq<Step>, k: nat)
    requires k <= |steps|
  {
    InOrder(After(steps[..k]).rows)
  }

  ghost predicate AlwaysInOrder(steps: seq<Step>) { forall k: nat | k <= |steps| :: InOrderAt(steps, k) }

  ghost predicate UnblockedAt(steps: seq<Step>, k: nat)
    requires k < |steps|
  {
    AcceptedByName(After(steps[..k]), steps[k]) ==> Unblocked(After(steps[..k]).rows, steps[k].i)
  }

  /** Every claim by name that was accepted found its event unblocked where it was made. */
  ghost predicate ClaimsUnblocked(steps: seq<Step>) { forall k: nat | k < |steps| :: UnblockedAt(steps, k) }

  lemma InOrderAtPrefix(steps: seq<Step>, k: nat)
    requires k < |steps|
    ensures InOrderAt(steps[..|steps| - 1], k) <==> InOrderAt(steps, k)
    ensures k < |steps| - 1 ==> (UnblockedAt(steps[..|steps| - 1], k) <==> UnblockedAt(steps, k))
  {
    hide After, InOrder, Unblocked, AcceptedByName;
    assert steps[..|steps| - 1][..k] == steps[..k];
  }

  lemma InOrderAtEnd(steps: seq<Step>)
    ensures InOrderAt(steps, |steps|) <==> InOrder(After(steps).rows)
  {
    assert steps[..|steps|] == steps;
  }

  lemma AlwaysInOrderEnds(steps: seq<Step>)
    ensures AlwaysInOrder(steps) ==> InOrderAt(steps, |steps|)
  {
    hide InOrderAt;
  }

  lemma AlwaysInOrderSnoc(steps: seq<Step>)
    requires steps != []
    ensures AlwaysInOrder(steps) <==> AlwaysInOrder(steps[..|steps| - 1]) && InOrderAt(steps, |steps|)
    ensures ClaimsUnblocked(steps) <==> ClaimsUnblocked(steps[..|steps| - 1]) && UnblockedAt(steps, |steps| - 1)
  {
    hide InOrderAt, UnblockedAt;
    var (n, shorter) := (|steps| - 1, steps[..|steps| - 1]);
    forall k: nat | k <= n
      ensures InOrderAt(shorter, k) <==> InOrderAt(steps, k)
      ensures k < n ==> (UnblockedAt(shorter, k) <==> UnblockedAt(steps, k))
    {
      InOrderAtPrefix(steps, k);
    }
  }

  /** A run handles each aggregate strictly in order all along if and only if its claims
      by name were unblocked; a run that only uses `claim_next` makes none. */
  lemma {:induction false} RunInOrder(steps: seq<Step>)
    ensures AlwaysInOrder(steps) <==> ClaimsUnblocked(steps)
    ensures (forall k | 0 <= k < |steps| :: !steps[k].DoClaim?) ==> InOrder(After(steps).rows)
  {
    if steps != [] {
      var shorter := steps[..|steps| - 1];
      RunInOrder(shorter);
      AlwaysInOrderSnoc(steps);
      InOrderAtEnd(steps);
      InOrderAtEnd(shorter);
      hide AlwaysInOrder, ClaimsUnblocked, Apply, Unblocked, AcceptedByName, InOrder;
      assert AlwaysInOrder(shorter) ==> InOrderAt(shorter, |shorter|) by { AlwaysInOrderEnds(shorter); }
      if InOrder(After(shorter).rows) { StepInOrder(After(shorter), steps[|steps| - 1]); }
    } else {
      InOrderAtEnd(steps);
    }
  }

  /** A run from the empty outbox whose named claim overtakes an open event. */
  lemma NamedClaimOvertakes()
    ensures !InOrder(After([DoAppend(7, 0), DoAppend(7, 0), DoClaim(1, "w", 0, 60)]).rows)
  {
    var first := [DoAppend(7, 0)];
    var two := [DoAppend(7, 0), DoAppend(7, 0)];
    var three := [DoAppend(7, 0), DoAppend(7, 0), DoClaim(1, "w", 0, 60)];
    assert first[..0] == [] && two[..1] == first && three[..2] == two;
    var rows := After(three).rows;
    assert rows[0] == NewEvent(7, 0) && rows[1].token == 1;
  }
}

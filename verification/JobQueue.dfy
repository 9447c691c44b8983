/** db.py and worker.py: the leased job queue, its crash recovery and its retry budget. */
module JobQueue {
  import opened Common

  datatype Status = Queued | Running | Done | Dead

  /** What a dev.task keeps between stages; other jobs leave it as it is. */
  datatype Stage = Spec | Implement | Verify | Publish | Finished

  datatype Progress = Progress(stage: Stage, fixRounds: nat, fixCompleted: nat, lastFailure: Option<string>,
                               testsPassed: bool, unreferenced: nat)

  const FRESH := Progress(Spec, 0, 0, None, false, 0)

  /** One row; `corrupt` says that its payload or checkpoint cannot be decoded. */
  datatype Job = Job(status: Status, attempts: int, availableAt: int, leasedUntil: Option<int>, worker: Option<string>,
                     corrupt: bool, progress: Progress)

  function NewJob(corrupt: bool, now: int): Job { Job(Queued, 0, now, None, None, corrupt, FRESH) }

  predicate Claimable(j: Job, now: int) {
    j.availableAt <= now && (j.status == Queued || (j.status == Running && j.leasedUntil.Some? && j.leasedUntil.value < now))
  }

  predicate Owned(j: Job, worker: string, now: int) {
    j.status == Running && j.worker == Some(worker) && j.leasedUntil.Some? && j.leasedUntil.value > now
  }

  /** ORDER BY id LIMIT 1. */
  function First(jobs: seq<Job>, now: int, from: nat): (found: Option<nat>)
    requires from <= |jobs|
    ensures found.Some? ==> from <= found.value < |jobs| && Claimable(jobs[found.value], now)
    ensures found.Some? ==> forall i | from <= i < found.value :: !Claimable(jobs[i], now)
    ensures found.None? ==> forall i | from <= i < |jobs| :: !Claimable(jobs[i], now)
    decreases |jobs| - from
  {
    if from == |jobs| then None else if Claimable(jobs[from], now) then Some(from) else First(jobs, now, from + 1)
  }

  function Lease(j: Job, worker: string, until: int): Job {
    j.(status := Running, attempts := j.attempts + 1, leasedUntil := Some(until), worker := Some(worker))
  }

  function Bury(j: Job): Job { j.(status := Dead, leasedUntil := None) }

  function Living(jobs: seq<Job>): nat {
    if jobs == [] then 0 else Living(jobs[..|jobs| - 1]) + if jobs[|jobs| - 1].status != Dead then 1 else 0
  }

  lemma {:induction false} BuryOne(jobs: seq<Job>, i: nat, dead: Job)
    requires i < |jobs| && jobs[i].status != Dead && dead.status == Dead
    ensures Living(jobs[i := dead]) == Living(jobs) - 1
  {
    var n := |jobs| - 1;
    if i == n {
      assert jobs[i := dead][..n] == jobs[..n];
    } else {
      assert jobs[i := dead][..n] == jobs[..n][i := dead];
      BuryOne(jobs[..n], i, dead);
    }
  }

  /** `claim`: leases the first claimable row; a corrupt one is dead-lettered where
      it stands and the search starts again, at the clock's next reading. */
  function Claim(jobs: seq<Job>, worker: string, seconds: int, clock: nat -> int, k: nat): (seq<Job>, Option<nat>)
    decreases Living(jobs)
  {
    var first := First(jobs, clock(k), 0);
    if first.None? then (jobs, None)
    else
      var i := first.value;
      var leased := Lease(jobs[i], worker, clock(k) + seconds);
      if !leased.corrupt then (jobs[i := leased], Some(i))
      else
        BuryOne(jobs, i, Bury(leased));
        Claim(jobs[i := Bury(leased)], worker, seconds, clock, k + 1)
  }

  function Guarded(jobs: seq<Job>, i: nat, worker: string, now: int): Check {
    Need(i < |jobs| && Owned(jobs[i], worker, now), Conflict)
  }

  function Heartbeat(jobs: seq<Job>, i: nat, worker: string, seconds: int, now: int): Tx<seq<Job>, ()> {
    var owned := Guarded(jobs, i, worker, now);
    :- owned;
    Commit(jobs[i := jobs[i].(leasedUntil := Some(now + seconds))], ())
  }

  function Checkpoint(jobs: seq<Job>, i: nat, worker: string, progress: Progress, now: int): Tx<seq<Job>, ()> {
    var owned := Guarded(jobs, i, worker, now);
    :- owned;
    Commit(jobs[i := jobs[i].(progress := progress)], ())
  }

  function Defer(jobs: seq<Job>, i: nat, worker: string, delay: int, now: int): Tx<seq<Job>, ()> {
    var owned := Guarded(jobs, i, worker, now);
    :- owned;
    Commit(jobs[i := jobs[i].(status := Queued, attempts := jobs[i].attempts - 1, leasedUntil := None, availableAt := now + delay)], ())
  }

  function Complete(jobs: seq<Job>, i: nat, worker: string, now: int): Tx<seq<Job>, ()> {
    var owned := Guarded(jobs, i, worker, now);
    :- owned;
    Commit(jobs[i := jobs[i].(status := Done, leasedUntil := None)], ())
  }

  function Delay(attempts: int): int { if attempts < 0 then 0 else Min(PowerOfTwo(attempts), 60) }

  function FailJob(jobs: seq<Job>, i: nat, worker: string, maxAttempts: int, permanent: bool, now: int): Tx<seq<Job>, Status> {
    var owned := Guarded(jobs, i, worker, now);
    :- owned;
    var status := if permanent || jobs[i].attempts >= maxAttempts then Dead else Queued;
    Commit(jobs[i := jobs[i].(status := status, availableAt := if status == Dead then now else now + Delay(jobs[i].attempts),
                              leasedUntil := None)], status)
  }

  // ---------------------------------------------------------------- the objects

  class StoreDB {
    var jobs: seq<Job>
    /** The rows of the audit log that name a job: completions and failures. */
    var completed: seq<nat>
    var failed: seq<nat>

    constructor ()
      ensures jobs == [] && completed == [] && failed == []
    { jobs, completed, failed := [], [], []; }

    method Enqueue(now: int) returns (i: nat)
      modifies this`jobs
      ensures i == |old(jobs)| && jobs == old(jobs) + [NewJob(false, now)]
    {
      i := |jobs|;
      jobs := jobs + [NewJob(false, now)];
    }

    method ClaimJob(worker: string, seconds: int, clock: nat -> int, k: nat) returns (claimed: Option<nat>)
      modifies this`jobs
      ensures (jobs, claimed) == Claim(old(jobs), worker, seconds, clock, k)
      decreases Living(jobs)
    {
      var now := clock(k);
      var first := First(jobs, now, 0);
      if first.None? { return None; }
      var i := first.value;
      var row := jobs[i];
      jobs := jobs[i := Lease(row, worker, now + seconds)];
      if !row.corrupt { return Some(i); }
      ghost var leased := jobs;
      jobs := jobs[i := jobs[i].(status := Dead, leasedUntil := None)];
      assert jobs == old(jobs)[i := Bury(Lease(row, worker, now + seconds))];
      BuryOne(old(jobs), i, jobs[i]);
      claimed := ClaimJob(worker, seconds, clock, k + 1);
    }

    method HeartbeatJob(i: nat, worker: string, seconds: int, now: int) returns (r: Result<()>)
      modifies this`jobs
      ensures Ran(Heartbeat(old(jobs), i, worker, seconds, now), old(jobs), jobs, r)
    {
      if i >= |jobs| || !Owned(jobs[i], worker, now) { return Err(Conflict); }
      jobs := jobs[i := jobs[i].(leasedUntil := Some(now + seconds))];
      r := Ok(());
    }

    method CheckpointJob(i: nat, worker: string, progress: Progress, now: int) returns (r: Result<()>)
      modifies this`jobs
      ensures Ran(Checkpoint(old(jobs), i, worker, progress, now), old(jobs), jobs, r)
    {
      if i >= |jobs| || !Owned(jobs[i], worker, now) { return Err(Conflict); }
      jobs := jobs[i := jobs[i].(progress := progress)];
      r := Ok(());
    }

    method DeferJob(i: nat, worker: string, delay: int, now: int) returns (r: Result<()>)
      modifies this`jobs
      ensures Ran(Defer(old(jobs), i, worker, delay, now), old(jobs), jobs, r)
    {
      if i >= |jobs| || !Owned(jobs[i], worker, now) { return Err(Conflict); }
      jobs := jobs[i := jobs[i].(status := Queued, attempts := jobs[i].attempts - 1, leasedUntil := None, availableAt := now + delay)];
      r := Ok(());
    }

    method CompleteJob(i: nat, worker: string, now: int) returns (r: Result<()>)
      modifies this`jobs, this`completed
      ensures Ran(Complete(old(jobs), i, worker, now), old(jobs), jobs, r)
      ensures completed == old(completed) + if r.Ok? then [i] else []
    {
      if i >= |jobs| || !Owned(jobs[i], worker, now) { return Err(Conflict); }
      jobs := jobs[i := jobs[i].(status := Done, leasedUntil := None)];
      completed := completed + [i];
      r := Ok(());
    }

    method Fail(i: nat, worker: string, maxAttempts: int, permanent: bool, now: int) returns (r: Result<Status>)
      modifies this`jobs, this`failed
      ensures Ran(FailJob(old(jobs), i, worker, maxAttempts, permanent, now), old(jobs), jobs, r)
      ensures failed == old(failed) + if r.Ok? then [i] else []
    {
      if i >= |jobs| || !Owned(jobs[i], worker, now) { return Err(Conflict); }
      var attempts := jobs[i].attempts;
      var status := if permanent || attempts >= maxAttempts then Dead else Queued;
      var available := now;
      if status == Queued { available := now + Delay(attempts); }
      jobs := jobs[i := jobs[i].(status := status, availableAt := available, leasedUntil := None)];
      failed := failed + [i];
      r := Ok(status);
    }
  }

  /** How a dispatched job ends: with a result, throttled, or with an exception. */
  datatype Ending = Finishes | Throttled(delay: int) | Breaks(permanent: bool)

  /** The state after one job's ending is recorded; a lost lease leaves the job to its new owner. */
  function Settle(jobs: seq<Job>, i: nat, worker: string, ending: Ending, maxAttempts: int, now: int): seq<Job> {
    match ending
    case Finishes => (match Complete(jobs, i, worker, now) case Commit(s, _) => s case Abort(_) => jobs)
    case Throttled(delay) => (match Defer(jobs, i, worker, delay, now) case Commit(s, _) => s case Abort(_) => jobs)
    case Breaks(permanent) => (match FailJob(jobs, i, worker, maxAttempts, permanent, now) case Commit(s, _) => s case Abort(_) => jobs)
  }

  /** worker.py `run_once` around a dispatch that does not itself touch the queue. */
  method RunOnce(db: StoreDB, worker: string, seconds: int, maxAttempts: int, endings: nat -> Ending, clock: nat -> int, later: int)
    returns (claimed: bool)
    modifies db
    ensures var (jobs, found) := Claim(old(db.jobs), worker, seconds, clock, 0);
            claimed == found.Some?
            && db.jobs == if found.None? then jobs else Settle(jobs, found.value, worker, endings(found.value), maxAttempts, later)
  {
    var found := db.ClaimJob(worker, seconds, clock, 0);
    if found.None? { return false; }
    var i := found.value;
    match endings(i) {
      case Throttled(delay) => var _ := db.DeferJob(i, worker, delay, later);
      case Breaks(permanent) => var _ := db.Fail(i, worker, maxAttempts, permanent, later);
      case Finishes => var _ := db.CompleteJob(i, worker, later);
    }
    claimed := true;
  }

  // --------------------------------------------- what each operation means for later ones

  /** Nobody owns the job, and it can be claimed from `t` on and not before. */
  ghost predicate WaitsUntil(j: Job, t: int) {
    j.leasedUntil.None? && (forall worker, now :: !Owned(j, worker, now)) && (forall now :: Claimable(j, now) <==> t <= now)
  }

  /** Nobody owns the job or can ever claim it again. */
  ghost predicate Closed(j: Job) {
    j.leasedUntil.None? && (forall worker, now :: !Owned(j, worker, now)) && (forall now :: !Claimable(j, now))
  }

  /** A new job waits for nothing but its time; a leased one is its worker's alone until the
      lease ends, and anyone's to claim once it has ended. */
  lemma LeaseExact(j: Job, worker: string, until: int, now: int, corrupt: bool)
    ensures WaitsUntil(NewJob(corrupt, now), now)
    ensures Claimable(j, now) <==>
              j.availableAt <= now
              && match j.status case Queued => true case Running => j.leasedUntil.Some? && j.leasedUntil.value < now case _ => false
    ensures var leased := Lease(j, worker, until);
      && (forall other, later :: Owned(leased, other, later) <==> other == worker && later < until)
      && (Claimable(j, now) && now <= until ==> forall later :: Claimable(leased, later) <==> until < later)
      && leased.progress == j.progress && leased.attempts == j.attempts + 1 && leased.corrupt == j.corrupt
    ensures Closed(Bury(j)) && Bury(j).progress == j.progress
  {}

  /** Two seconds after the first failed claim, twice as long after each further one, at most a minute. */
  lemma DelayDoubles(attempts: nat)
    ensures Delay(1) == 2 && Delay(attempts + 1) == Min(60, 2 * Delay(attempts))
  {
    assert PowerOfTwo(1) == 2 && PowerOfTwo(attempts + 1) == 2 * PowerOfTwo(attempts);
  }

  ghost predicate OwnerNow(jobs: seq<Job>, i: nat, worker: string, now: int) {
    i < |jobs| && jobs[i].status == Running && jobs[i].worker == Some(worker) && jobs[i].leasedUntil.Some? && now < jobs[i].leasedUntil.value
  }

  /** Each of the five operations is its owner's alone, touches one row, and leaves the job
      where it says: held for longer, with new progress, waiting again, or closed. */
  lemma OwnerExact(jobs: seq<Job>, i: nat, worker: string, now: int, seconds: int, progress: Progress, maxAttempts: int, permanent: bool)
    ensures var tx := Heartbeat(jobs, i, worker, seconds, now);
      && (tx.Commit? <==> OwnerNow(jobs, i, worker, now))
      && (tx.Commit? ==> tx.state == jobs[i := tx.state[i]]
                         && forall other, later :: Owned(tx.state[i], other, later) <==> other == worker && later < now + seconds)
    ensures var tx := Checkpoint(jobs, i, worker, progress, now);
      && (tx.Commit? <==> OwnerNow(jobs, i, worker, now))
      && (tx.Commit? ==> tx.state == jobs[i := tx.state[i]] && tx.state[i].progress == progress
                         && forall later :: Owned(tx.state[i], worker, later) <==> Owned(jobs[i], worker, later))
    ensures var tx := Defer(jobs, i, worker, seconds, now);
      && (tx.Commit? <==> OwnerNow(jobs, i, worker, now))
      && (tx.Commit? ==> tx.state == jobs[i := tx.state[i]] && tx.state[i].progress == jobs[i].progress
                         && WaitsUntil(tx.state[i], now + seconds) && tx.state[i].attempts == jobs[i].attempts - 1)
    ensures var tx := Complete(jobs, i, worker, now);
      && (tx.Commit? <==> OwnerNow(jobs, i, worker, now))
      && (tx.Commit? ==> tx.state == jobs[i := tx.state[i]] && tx.state[i].progress == jobs[i].progress
                         && Closed(tx.state[i]) && tx.state[i].status == Done)
    ensures var tx := FailJob(jobs, i, worker, maxAttempts, permanent, now);
      && (tx.Commit? <==> OwnerNow(jobs, i, worker, now))
      && (tx.Commit? ==> tx.state == jobs[i := tx.state[i]] && tx.state[i].progress == jobs[i].progress
                         && tx.value == tx.state[i].status && tx.state[i].attempts == jobs[i].attempts
                         && if permanent || jobs[i].attempts >= maxAttempts then Closed(tx.state[i]) && tx.value == Dead && tx.state[i].availableAt == now
                            else WaitsUntil(tx.state[i], now + Delay(jobs[i].attempts)) && tx.value == Queued)
  {
    hide PowerOfTwo;
  }

  /** What becomes of a job at the end of a poll: finished, handed back without spending the
      attempt, or failed; and nothing at all once its lease was lost. */
  lemma SettleExact(jobs: seq<Job>, i: nat, worker: string, ending: Ending, maxAttempts: int, now: int)
    ensures !OwnerNow(jobs, i, worker, now) ==> Settle(jobs, i, worker, ending, maxAttempts, now) == jobs
    ensures OwnerNow(jobs, i, worker, now) ==>
      var after := Settle(jobs, i, worker, ending, maxAttempts, now);
      && |after| == |jobs| && after == jobs[i := after[i]]
      && (match ending
          case Finishes => Closed(after[i]) && after[i].status == Done
          case Throttled(delay) => WaitsUntil(after[i], now + delay) && after[i].attempts == jobs[i].attempts - 1
          case Breaks(permanent) =>
            if permanent || jobs[i].attempts >= maxAttempts then Closed(after[i]) && after[i].status == Dead
            else WaitsUntil(after[i], now + Delay(jobs[i].attempts)) && after[i].attempts == jobs[i].attempts)
  {
    var (seconds, permanent) := (if ending.Throttled? then ending.delay else 0, ending.Breaks? && ending.permanent);
    OwnerExact(jobs, i, worker, now, seconds, FRESH, maxAttempts, permanent);
    hide Closed, WaitsUntil, Delay, Heartbeat, Complete, Defer, FailJob;
  }

  // --------------------------------------------------------------- what a claim picks

  /** What one claim does to the rows below `bound` at one clock reading. */
  ghost predicate BuriedBelow(jobs: seq<Job>, after: seq<Job>, worker: string, until: int, now: int, bound: nat) {
    |after| == |jobs| && forall i | 0 <= i < |jobs| && i != bound ::
      after[i] == if i < bound && Claimable(jobs[i], now) then Bury(Lease(jobs[i], worker, until)) else jobs[i]
  }

  /** At one clock reading, a claim leases the first decodable claimable row, and
      dead-letters exactly the claimable rows before it, which are all corrupt;
      without such a row it dead-letters every claimable row there is. */
  lemma {:induction false} ClaimExact(jobs: seq<Job>, worker: string, seconds: int, clock: nat -> int, k: nat, now: int)
    requires forall n :: clock(n) == now
    ensures var (after, found) := Claim(jobs, worker, seconds, clock, k); ClaimedAt(jobs, after, found, worker, seconds, now)
    decreases Living(jobs)
  {
    assert clock(k) == now;
    var first := First(jobs, now, 0);
    if first.Some? {
      var i := first.value;
      var leased := Lease(jobs[i], worker, now + seconds);
      if leased.corrupt {
        var next := jobs[i := Bury(leased)];
        BuryOne(jobs, i, Bury(leased));
        ClaimExact(next, worker, seconds, clock, k + 1, now);
        var (after, found) := Claim(next, worker, seconds, clock, k + 1);
        assert Claim(jobs, worker, seconds, clock, k) == (after, found);
        hide Claim, First;
        assert forall j | 0 <= j < i :: !Claimable(jobs[j], now);
        BuriedFirst(jobs, i, after, found, worker, seconds, now);
      }
    }
  }

  ghost predicate ClaimedAt(jobs: seq<Job>, after: seq<Job>, found: Option<nat>, worker: string, seconds: int, now: int) {
    var bound := if found.Some? then found.value else |jobs|;
    && bound <= |jobs| && BuriedBelow(jobs, after, worker, now + seconds, now, bound)
    && (forall i | 0 <= i < bound && Claimable(jobs[i], now) :: jobs[i].corrupt)
    && (found.Some? ==> bound < |jobs| && Claimable(jobs[bound], now) && !jobs[bound].corrupt
                        && after[bound] == Lease(jobs[bound], worker, now + seconds))
  }

  lemma BuriedFirst(jobs: seq<Job>, i: nat, after: seq<Job>, found: Option<nat>, worker: string, seconds: int, now: int)
    requires i < |jobs| && jobs[i].corrupt && Claimable(jobs[i], now) && forall j | 0 <= j < i :: !Claimable(jobs[j], now)
    requires ClaimedAt(jobs[i := Bury(Lease(jobs[i], worker, now + seconds))], after, found, worker, seconds, now)
    ensures ClaimedAt(jobs, after, found, worker, seconds, now)
  {
    var next := jobs[i := Bury(Lease(jobs[i], worker, now + seconds))];
    var bound := if found.Some? then found.value else |jobs|;
    assert !Claimable(next[i], now);
    assert forall j | 0 <= j < |jobs| && j != i :: next[j] == jobs[j];
    assert bound > i;
  }

  ghost predicate LeasedAtSomeReading(j: Job, after: Job, worker: string, seconds: int, clock: nat -> int) {
    !j.corrupt && j.status in {Queued, Running} && exists n: nat :: Claimable(j, clock(n)) && after == Lease(j, worker, clock(n) + seconds)
  }

  /** Only corrupt rows are dead-lettered, no row's progress is touched, and the
      row returned was claimable and decodable. */
  ghost predicate SafeClaim(jobs: seq<Job>, after: seq<Job>, found: Option<nat>, worker: string, seconds: int, clock: nat -> int) {
    && |after| == |jobs| && (forall i | 0 <= i < |jobs| :: after[i].progress == jobs[i].progress)
    && (forall i | 0 <= i < |jobs| && after[i] != jobs[i] && found != Some(i) :: jobs[i].corrupt && after[i].status == Dead)
    && (found.Some? ==> found.value < |jobs| && LeasedAtSomeReading(jobs[found.value], after[found.value], worker, seconds, clock))
  }

  lemma BuryingSafe(jobs: seq<Job>, i: nat, buried: Job, after: seq<Job>, found: Option<nat>, worker: string, seconds: int, clock: nat -> int)
    requires i < |jobs| && jobs[i].corrupt && buried.corrupt && buried.status == Dead && buried.progress == jobs[i].progress
    requires SafeClaim(jobs[i := buried], after, found, worker, seconds, clock)
    ensures SafeClaim(jobs, after, found, worker, seconds, clock)
  {
    var next := jobs[i := buried];
    assert forall j | 0 <= j < |jobs| && j != i :: next[j] == jobs[j];
    assert found != Some(i);
    hide LeasedAtSomeReading;
  }

  /** A claim is safe whatever the clock reads on the way. */
  lemma {:induction false} ClaimSafe(jobs: seq<Job>, worker: string, seconds: int, clock: nat -> int, k: nat)
    ensures var (after, found) := Claim(jobs, worker, seconds, clock, k); SafeClaim(jobs, after, found, worker, seconds, clock)
    decreases Living(jobs)
  {
    var first := First(jobs, clock(k), 0);
    if first.Some? {
      var i := first.value;
      var leased := Lease(jobs[i], worker, clock(k) + seconds);
      if leased.corrupt {
        BuryOne(jobs, i, Bury(leased));
        var next := jobs[i := Bury(leased)];
        ClaimSafe(next, worker, seconds, clock, k + 1);
        var (after, found) := Claim(next, worker, seconds, clock, k + 1);
        assert Claim(jobs, worker, seconds, clock, k) == (after, found);
        hide Claim;
        BuryingSafe(jobs, i, Bury(leased), after, found, worker, seconds, clock);
      }
    }
  }

  // ------------------------------------------------------------------- every run

  datatype Step =
    | DoEnqueue(corrupt: bool, now: int)
    | DoClaim(worker: string, seconds: int, clock: nat -> int)
    | ClaimThenDie(worker: string, seconds: int, now: int)   // the process dies before it reads the row
    | DoHeartbeat(job: nat, worker: string, seconds: int, now: int)
    | DoCheckpoint(job: nat, worker: string, progress: Progress, now: int)
    | DoDefer(job: nat, worker: string, delay: int, now: int)
    | DoComplete(job: nat, worker: string, now: int)
    | DoFail(job: nat, worker: string, maxAttempts: int, permanent: bool, now: int)

  /** How often a job was claimed, deferred, failed and completed so far. */
  datatype Tally = Tally(claims: nat, defers: nat, failures: nat, completions: nat)

  datatype System = System(jobs: seq<Job>, tallies: seq<Tally>)

  function Count(s: System, jobs: seq<Job>, i: nat, t: Tally): System {
    System(jobs, if i < |s.tallies| then
      s.tallies[i := Tally(s.tallies[i].claims + t.claims, s.tallies[i].defers + t.defers,
                           s.tallies[i].failures + t.failures, s.tallies[i].completions + t.completions)] else s.tallies)
  }

  const CLAIMED := Tally(1, 0, 0, 0)

  function Counted<T>(s: System, tx: Tx<seq<Job>, T>, i: nat, t: Tally): System {
    match tx case Commit(jobs, _) => Count(s, jobs, i, t) case Abort(_) => s
  }

  /** `Claim`, counting. */
  function Claiming(s: System, worker: string, seconds: int, clock: nat -> int, k: nat): System
    decreases Living(s.jobs)
  {
    var first := First(s.jobs, clock(k), 0);
    if first.None? then s
    else
      var i := first.value;
      var leased := Lease(s.jobs[i], worker, clock(k) + seconds);
      if !leased.corrupt then Count(s, s.jobs[i := leased], i, CLAIMED)
      else
        BuryOne(s.jobs, i, Bury(leased));
        Claiming(Count(s, s.jobs[i := Bury(leased)], i, CLAIMED), worker, seconds, clock, k + 1)
  }

  lemma {:induction false} ClaimingIsClaim(s: System, worker: string, seconds: int, clock: nat -> int, k: nat)
    ensures Claiming(s, worker, seconds, clock, k).jobs == Claim(s.jobs, worker, seconds, clock, k).0
    decreases Living(s.jobs)
  {
    var first := First(s.jobs, clock(k), 0);
    if first.Some? {
      var i := first.value;
      var leased := Lease(s.jobs[i], worker, clock(k) + seconds);
      if leased.corrupt {
        BuryOne(s.jobs, i, Bury(leased));
        ClaimingIsClaim(Count(s, s.jobs[i := Bury(leased)], i, CLAIMED), worker, seconds, clock, k + 1);
      }
    }
  }

  function Perform(s: System, step: Step): System {
    match step
    case DoEnqueue(corrupt, now) => System(s.jobs + [NewJob(corrupt, now)], s.tallies + [Tally(0, 0, 0, 0)])
    case DoClaim(worker, seconds, clock) => Claiming(s, worker, seconds, clock, 0)
    case ClaimThenDie(worker, seconds, now) =>
      var first := First(s.jobs, now, 0);
      if first.None? then s
      else Count(s, s.jobs[first.value := Lease(s.jobs[first.value], worker, now + seconds)], first.value, CLAIMED)
    case DoHeartbeat(i, worker, seconds, now) => Counted(s, Heartbeat(s.jobs, i, worker, seconds, now), i, Tally(0, 0, 0, 0))
    case DoCheckpoint(i, worker, progress, now) => Counted(s, Checkpoint(s.jobs, i, worker, progress, now), i, Tally(0, 0, 0, 0))
    case DoDefer(i, worker, delay, now) => Counted(s, Defer(s.jobs, i, worker, delay, now), i, Tally(0, 1, 0, 0))
    case DoComplete(i, worker, now) => Counted(s, Complete(s.jobs, i, worker, now), i, Tally(0, 0, 0, 1))
    case DoFail(i, worker, limit, permanent, now) => Counted(s, FailJob(s.jobs, i, worker, limit, permanent, now), i, Tally(0, 0, 1, 0))
  }

  /** What the queue's own transaction does to the rows, counting nothing. */
  function Rows(jobs: seq<Job>, step: Step): seq<Job> {
    match step
    case DoEnqueue(corrupt, now) => jobs + [NewJob(corrupt, now)]
    case DoClaim(worker, seconds, clock) => Claim(jobs, worker, seconds, clock, 0).0
    case ClaimThenDie(worker, seconds, now) =>
      var first := First(jobs, now, 0);
      if first.None? then jobs else jobs[first.value := Lease(jobs[first.value], worker, now + seconds)]
    case DoHeartbeat(i, worker, seconds, now) => RowsOr(jobs, Heartbeat(jobs, i, worker, seconds, now))
    case DoCheckpoint(i, worker, progress, now) => RowsOr(jobs, Checkpoint(jobs, i, worker, progress, now))
    case DoDefer(i, worker, delay, now) => Settle(jobs, i, worker, Throttled(delay), 0, now)
    case DoComplete(i, worker, now) => Settle(jobs, i, worker, Finishes, 0, now)
    case DoFail(i, worker, maxAttempts, permanent, now) => Settle(jobs, i, worker, Breaks(permanent), maxAttempts, now)
  }

  function RowsOr<T>(jobs: seq<Job>, tx: Tx<seq<Job>, T>): seq<Job> {
    match tx case Commit(s, _) => s case Abort(_) => jobs
  }

  /** The counted steps of a run do to the rows exactly what the queue's operations do. */
  lemma StepsAreOperations(s: System, step: Step)
    ensures Perform(s, step).jobs == Rows(s.jobs, step)
  {
    if step.DoClaim? { ClaimingIsClaim(s, step.worker, step.seconds, step.clock, 0); }
  }

  function After(steps: seq<Step>): System {
    if steps == [] then System([], []) else Perform(After(steps[..|steps| - 1]), steps[|steps| - 1])
  }

  /** The accounts of one job when every failure was judged against a limit of at most `limit`. */
  ghost predicate Accounted(j: Job, t: Tally, limit: int) {
    && j.attempts == t.claims - t.defers
    && j.attempts >= t.failures + (if j.status == Running then 1 else 0)
    && t.completions == (if j.status == Done then 1 else 0)
    && t.failures <= Max(1, limit) && (j.status != Dead ==> t.failures == 0 || t.failures < limit)
    && (j.status == Running ==> j.leasedUntil.Some? && j.worker.Some?)
  }

  ghost predicate Balanced(s: System, limit: int) {
    |s.tallies| == |s.jobs| && forall i | 0 <= i < |s.jobs| :: Accounted(s.jobs[i], s.tallies[i], limit)
  }

  lemma {:induction false} ClaimingKeeps(s: System, worker: string, seconds: int, clock: nat -> int, k: nat, limit: int)
    requires Balanced(s, limit)
    ensures Balanced(Claiming(s, worker, seconds, clock, k), limit)
    decreases Living(s.jobs)
  {
    var first := First(s.jobs, clock(k), 0);
    if first.Some? {
      var i := first.value;
      var leased := Lease(s.jobs[i], worker, clock(k) + seconds);
      if leased.corrupt {
        BuryOne(s.jobs, i, Bury(leased));
        ClaimingKeeps(Count(s, s.jobs[i := Bury(leased)], i, CLAIMED), worker, seconds, clock, k + 1, limit);
      }
    }
  }

  lemma StepBalances(s: System, step: Step, limit: int)
    requires Balanced(s, limit) && (step.DoFail? ==> step.maxAttempts <= limit)
    ensures Balanced(Perform(s, step), limit)
  {
    hide Claiming, Owned;
    if step.DoClaim? { ClaimingKeeps(s, step.worker, step.seconds, step.clock, 0, limit); }
    else { OwnedIsRunning(); }
  }

  lemma OwnedIsRunning()
    ensures forall j, worker, now | Owned(j, worker, now) :: j.status == Running
  {}

  /** Attempts are claims less defers and never negative; a job fails at most
      `limit` times (once, if the limit allows none) and completes at most once. */
  lemma {:induction false} RunAccounts(steps: seq<Step>, limit: int)
    requires forall i | 0 <= i < |steps| && steps[i].DoFail? :: steps[i].maxAttempts <= limit
    ensures Balanced(After(steps), limit)
    ensures forall i | 0 <= i < |After(steps).jobs| :: After(steps).jobs[i].attempts >= 0
  {
    if steps != [] {
      RunAccounts(steps[..|steps| - 1], limit);
      StepBalances(After(steps[..|steps| - 1]), steps[|steps| - 1], limit);
    }
  }

  lemma {:induction false} ClaimingSpares(s: System, worker: string, seconds: int, clock: nat -> int, k: nat, i: nat)
    requires i < |s.jobs|
    requires forall n :: !Claimable(s.jobs[i], clock(n))
    ensures i < |Claiming(s, worker, seconds, clock, k).jobs| && Claiming(s, worker, seconds, clock, k).jobs[i] == s.jobs[i]
    decreases Living(s.jobs)
  {
    var first := First(s.jobs, clock(k), 0);
    if first.Some? {
      var f := first.value;
      assert !Claimable(s.jobs[i], clock(k));
      var leased := Lease(s.jobs[f], worker, clock(k) + seconds);
      if leased.corrupt {
        BuryOne(s.jobs, f, Bury(leased));
        ClaimingSpares(Count(s, s.jobs[f := Bury(leased)], f, CLAIMED), worker, seconds, clock, k + 1, i);
      }
    }
  }

  /** Done and dead jobs absorb every step. */
  lemma {:induction false} TerminalAbsorbs(steps: seq<Step>, n: nat, i: nat)
    requires n <= |steps| && i < |After(steps[..n]).jobs| && After(steps[..n]).jobs[i].status in {Done, Dead}
    ensures i < |After(steps).jobs| && After(steps).jobs[i] == After(steps[..n]).jobs[i]
  {
    if n == |steps| {
      assert steps[..n] == steps;
    } else {
      var shorter := steps[..|steps| - 1];
      assert shorter[..n] == steps[..n];
      hide Perform;
      TerminalAbsorbs(shorter, n, i);
      StepAbsorbs(After(shorter), steps[|steps| - 1], i);
    }
  }

  lemma StepAbsorbs(s: System, step: Step, i: nat)
    requires i < |s.jobs| && s.jobs[i].status in {Done, Dead}
    ensures i < |Perform(s, step).jobs| && Perform(s, step).jobs[i] == s.jobs[i]
  {
    if step.DoClaim? { ClaimingSpares(s, step.worker, step.seconds, step.clock, 0, i); }
  }

  /** A step of another worker, or a claim, at a time when `worker` still owns the job. */
  ghost predicate DuringLease(step: Step, worker: string, until: int) {
    match step
    case DoEnqueue(_, _) => true
    case DoClaim(_, _, clock) => forall n :: clock(n) <= until
    case ClaimThenDie(_, _, now) => now <= until
    case DoHeartbeat(_, w, _, _) => w != worker
    case DoCheckpoint(_, w, _, _) => w != worker
    case DoDefer(_, w, _, _) => w != worker
    case DoComplete(_, w, _) => w != worker
    case DoFail(_, w, _, _, _) => w != worker
  }

  lemma StepSpares(s: System, step: Step, i: nat, worker: string, until: int)
    requires i < |s.jobs| && s.jobs[i].status == Running && s.jobs[i].worker == Some(worker) && s.jobs[i].leasedUntil == Some(until)
    requires DuringLease(step, worker, until)
    ensures i < |Perform(s, step).jobs| && Perform(s, step).jobs[i] == s.jobs[i]
  {
    if step.DoClaim? { ClaimingSpares(s, step.worker, step.seconds, step.clock, 0, i); }
  }

  /** Mutual exclusion: until its lease has run out, nobody but the owner changes a running job. */
  lemma {:induction false} LeaseExcludes(steps: seq<Step>, n: nat, i: nat, worker: string, until: int)
    requires n <= |steps| && i < |After(steps[..n]).jobs|
    requires var j := After(steps[..n]).jobs[i]; j.status == Running && j.worker == Some(worker) && j.leasedUntil == Some(until)
    requires forall k | n <= k < |steps| :: DuringLease(steps[k], worker, until)
    ensures i < |After(steps).jobs| && After(steps).jobs[i] == After(steps[..n]).jobs[i]
  {
    if n == |steps| {
      assert steps[..n] == steps;
    } else {
      var shorter := steps[..|steps| - 1];
      assert shorter[..n] == steps[..n];
      hide Perform;
      LeaseExcludes(shorter, n, i, worker, until);
      StepSpares(After(shorter), steps[|steps| - 1], i, worker, until);
    }
  }

  /** At no instant is a job both claimable and owned; at the very instant its lease ends it is neither. */
  lemma ClaimableOrOwned(j: Job, worker: string, now: int)
    requires j.status == Running && j.worker == Some(worker) && j.leasedUntil.Some? && j.availableAt <= now
    ensures !(Claimable(j, now) && Owned(j, worker, now))
    ensures !Claimable(j, now) && !Owned(j, worker, now) <==> j.leasedUntil.value == now
  {}
}

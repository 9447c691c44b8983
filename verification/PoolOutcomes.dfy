/** What each operation of the control pool means for a task: when it is claimed,
    reopened, remedied or handed on, said without the code that decides it. */
module PoolOutcomes {
  import opened Common
  import opened ControlPool

  // --------------------------------------------------------------------------- lanes

  /** A worker's name is a lane with a number behind a dash. */
  ghost predicate Numbered(worker: string, lane: string, number: string) {
    worker == lane + "-" + number && number != "" && forall i | 0 <= i < |number| :: number[i] in "0123456789"
  }

  /** The lane of a numbered worker is its name without the number; any other name is a lane of its own. */
  lemma LaneOfExact(worker: string)
    ensures (exists lane, number :: Numbered(worker, lane, number) && LaneOf(worker) == lane)
            || (LaneOf(worker) == worker && forall lane, number :: !Numbered(worker, lane, number))
  {
    var n := AfterDash(worker);
    if n > 0 && AllDigits(worker[n..]) {
      assert worker == worker[..n - 1] + "-" + worker[n..];
      forall i | 0 <= i < |worker[n..]| ensures worker[n..][i] in "0123456789" { DigitIs(worker[n..][i]); }
      assert Numbered(worker, worker[..n - 1], worker[n..]);
    } else {
      forall lane, number ensures !Numbered(worker, lane, number) {
        if Numbered(worker, lane, number) {
          forall i | 0 <= i < |number| ensures '0' <= number[i] <= '9' { DigitIs(number[i]); }
          LaneOfNumbered(lane, number);
        }
      }
    }
  }

  lemma DigitIs(c: char)
    ensures c in "0123456789" <==> '0' <= c <= '9'
  {}

  // ------------------------------------------------------------------------ capacity

  ghost function Holding(tasks: seq<Task>, lane: string): set<nat> {
    set i: nat | i < |tasks| && tasks[i].status == InProgress && LaneOf(tasks[i].worker) == lane
  }

  ghost function InReview(tasks: seq<Task>): set<nat> { set i: nat | i < |tasks| && tasks[i].status == Reviewing }

  ghost function InWork(tasks: seq<Task>): set<nat> { set i: nat | i < |tasks| && (tasks[i].status == InProgress || tasks[i].status == Reviewing) }

  ghost function Loaded(tasks: seq<Task>, load: Load): set<nat> { set i: nat | i < |tasks| && Counts(tasks[i], load) }

  lemma {:induction false} LoadedIs(tasks: seq<Task>, load: Load)
    ensures Count(tasks, load) == |Loaded(tasks, load)|
  {
    hide Counts;
    if tasks == [] {
      assert Loaded(tasks, load) == {};
    } else {
      var n := |tasks| - 1;
      LoadedIs(tasks[..n], load);
      assert Loaded(tasks, load) == Loaded(tasks[..n], load) + if Counts(tasks[n], load) then {n} else {};
    }
  }

  lemma HoldingIs(tasks: seq<Task>, lane: string)
    ensures Count(tasks, Held(lane)) == |Holding(tasks, lane)| && Count(tasks, UnderReview) == |InReview(tasks)|
  {
    LoadedIs(tasks, Held(lane));
    LoadedIs(tasks, UnderReview);
    hide Count, LaneOf;
    assert Loaded(tasks, Held(lane)) == Holding(tasks, lane) && Loaded(tasks, UnderReview) == InReview(tasks);
  }

  lemma {:induction false} InWorkIs(tasks: seq<Task>)
    ensures Active(tasks) == |InWork(tasks)|
  {
    hide LaneOf;
    if tasks == [] {
      assert InWork(tasks) == {};
    } else {
      var n := |tasks| - 1;
      assert Active(tasks) == Active(tasks[..n]) + if tasks[n].status == InProgress || tasks[n].status == Reviewing then 1 else 0;
      hide Active;
      assert forall i | 0 <= i < n :: tasks[..n][i] == tasks[i];
      InWorkIs(tasks[..n]);
      assert InWork(tasks) == InWork(tasks[..n]) + if tasks[n].status == InProgress || tasks[n].status == Reviewing then {n} else {};
    }
  }

  /** The first of two tasks goes first: the higher priority, the older among equals. */
  predicate Before(tasks: seq<Task>, i: nat, j: nat)
    requires i < |tasks| && j < |tasks|
  {
    tasks[i].priority > tasks[j].priority || (tasks[i].priority == tasks[j].priority && i < j)
  }

  predicate Open(t: Task, lane: string) { t.status == Ready && (t.preferred == None || t.preferred == Some(lane)) }

  /** A claim succeeds exactly while the lane has a free slot and a task is open to it; it
      gives the first of those to the worker and touches no other task. */
  lemma PoolClaimExact(tasks: seq<Task>, worker: string, lane: string, slots: nat)
    ensures var (after, found) := Claimed(tasks, worker, lane, slots);
      && (found.Some? <==>
            |Holding(tasks, lane)| + (if lane == "local-impl" then |InReview(tasks)| else 0) < slots
            && exists i :: 0 <= i < |tasks| && Open(tasks[i], lane))
      && (found.None? ==> after == tasks)
      && (found.Some? ==>
            && found.value < |tasks| && Open(tasks[found.value], lane)
            && (forall j | 0 <= j < |tasks| && j != found.value && Open(tasks[j], lane) :: Before(tasks, found.value, j))
            && after == tasks[found.value := tasks[found.value].(status := InProgress, worker := worker, needsClaude := false)])
  {
    hide Count, Pick, LaneOf;
    HoldingIs(tasks, lane);
    PickIsBest(tasks, ToImplement(lane), |tasks|);
    assert forall i | 0 <= i < |tasks| :: Wanted(tasks[i], i, ToImplement(lane)) <==> Open(tasks[i], lane);
  }

  /** A review is claimed exactly while the local slots are not all in use, by work or reviews. */
  lemma ReviewClaimExact(tasks: seq<Task>, reviewer: string, slots: nat)
    ensures var (after, found) := ReviewClaimed(tasks, reviewer, slots);
      && (found.Some? <==> |InWork(tasks)| < slots && exists i :: 0 <= i < |tasks| && tasks[i].status == NeedsReview)
      && (found.None? ==> after == tasks)
      && (found.Some? ==>
            && found.value < |tasks| && tasks[found.value].status == NeedsReview
            && (forall j | 0 <= j < |tasks| && j != found.value && tasks[j].status == NeedsReview :: Before(tasks, found.value, j))
            && after == tasks[found.value := tasks[found.value].(status := Reviewing, reviewer := reviewer, needsClaude := false)])
  {
    hide Count, Active, Pick, LaneOf;
    InWorkIs(tasks);
    PickIsBest(tasks, ToReview, |tasks|);
    assert forall i | 0 <= i < |tasks| :: Wanted(tasks[i], i, ToReview) <==> tasks[i].status == NeedsReview;
  }

  // ----------------------------------------------------------------------- the verdict

  /** Nothing but the last three failures alike, or six failures, is a loop. */
  predicate Looping(attempts: seq<Attempt>) {
    var n := |attempts|;
    n >= 6 || (n >= 3 && attempts[n - 1].signature == attempts[n - 2].signature == attempts[n - 3].signature)
  }

  ghost function After(attempts: seq<Attempt>, at: int): set<nat> { set i: nat | i < |attempts| && attempts[i].at > at }

  /** The last two failures since the remedy. */
  ghost predicate LastTwo(attempts: seq<Attempt>, at: int, i: nat, j: nat) {
    i < j < |attempts| && attempts[i].at > at && attempts[j].at > at && forall k | i < k < |attempts| && k != j :: attempts[k].at <= at
  }

  /** Since the remedy it failed three times, or the last two times alike. */
  ghost predicate Relapsed(attempts: seq<Attempt>, at: int) {
    |After(attempts, at)| >= 3 || exists i: nat, j: nat :: LastTwo(attempts, at, i, j) && attempts[i].signature == attempts[j].signature
  }

  lemma {:induction false} SinceIs(attempts: seq<Attempt>, at: int)
    ensures |Since(attempts, at)| == |After(attempts, at)|
  {
    if attempts == [] {
      assert After(attempts, at) == {};
    } else {
      var n := |attempts| - 1;
      SinceIs(attempts[..n], at);
      assert After(attempts, at) == After(attempts[..n], at) + if attempts[n].at > at then {n} else {};
    }
  }

  /** The last entry since the remedy, and the one before it. */
  lemma {:induction false} LastSince(attempts: seq<Attempt>, at: int) returns (j: nat)
    requires Since(attempts, at) != []
    ensures j < |attempts| && attempts[j].at > at && (forall k | j < k < |attempts| :: attempts[k].at <= at)
    ensures Since(attempts, at) == Since(attempts[..j], at) + [attempts[j]]
  {
    var n := |attempts| - 1;
    if attempts[n].at > at {
      j := n;
    } else {
      j := LastSince(attempts[..n], at);
      assert attempts[..n][..j] == attempts[..j];
    }
  }

  lemma RelapsedExact(attempts: seq<Attempt>, at: int)
    ensures Relapsed(attempts, at) <==> |Since(attempts, at)| >= 3 || SameTail(Since(attempts, at), 2)
  {
    SinceIs(attempts, at);
    var since := Since(attempts, at);
    hide Since;
    if |since| >= 2 {
      var j := LastSince(attempts, at);
      var i := LastSince(attempts[..j], at);
      assert LastTwo(attempts, at, i, j);
      assert since[|since| - 1] == attempts[j] && since[|since| - 2] == attempts[i];
      assert SameTail(since, 2) <==> attempts[i].signature == attempts[j].signature;
      forall x: nat, y: nat | LastTwo(attempts, at, x, y) ensures x == i && y == j {}
    } else {
      forall x: nat, y: nat ensures !LastTwo(attempts, at, x, y) {
        if LastTwo(attempts, at, x, y) {
          var both: set<nat> := {x, y};
          assert x != y && |both| == 2;
          assert both <= After(attempts, at);
          SubsetSize(both, After(attempts, at));
        }
      }
    }
  }

  lemma SubsetSize(a: set<nat>, b: set<nat>)
    requires a <= b
    ensures |a| <= |b|
  {
    assert b == a + (b - a);
  }

  ghost function Spent(attempts: seq<Attempt>): nat { if attempts == [] then 0 else attempts[0].seconds + Spent(attempts[1..]) }

  lemma {:induction false} SpentIs(attempts: seq<Attempt>)
    ensures Seconds(attempts) == Spent(attempts)
  {
    if attempts != [] {
      var (before, last) := (attempts[..|attempts| - 1], attempts[|attempts| - 1]);
      SpentJoins(before, last);
      SpentIs(before);
      assert attempts == before + [last];
    }
  }

  lemma {:induction false} SpentJoins(before: seq<Attempt>, last: Attempt)
    ensures Spent(before + [last]) == Spent(before) + last.seconds
  {
    if before != [] {
      assert (before + [last])[1..] == before[1..] + [last];
      SpentJoins(before[1..], last);
    } else {
      assert (before + [last])[1..] == [];
    }
  }

  /** When a task is stopped: after three hours of work, after a relapse, or in a loop that
      no instruction can end. When it gets its one remedy: in any other loop. Never
      without a failure behind it. */
  lemma VerdictExact(t: Task, red: bool)
    ensures t.attempts == [] ==> Verdict(t, red).None?
    ensures t.attempts != [] ==>
      var cause := t.attempts[|t.attempts| - 1].cause;
      var stopped := Spent(t.attempts) > 10800 || (t.guard.Some? && Relapsed(t.attempts, t.guard.value.at));
      var curable := cause in {StrayEdits, MaxTurns, WallClock, PatchApply, GateTests, Refusal, NoPlan} && !(cause == GateTests && red);
      && (Verdict(t, red) == Some(Remediate) <==> !stopped && t.guard.None? && Looping(t.attempts) && curable)
      && (Verdict(t, red).Some? && Verdict(t, red).value.Escalate? <==> stopped || (t.guard.None? && Looping(t.attempts) && !curable))
      && (Verdict(t, red) == Some(Escalate(true)) <==>
            (stopped && cause in {Orphaned, Infra}) || (!stopped && t.guard.None? && Looping(t.attempts) && (cause in {Orphaned, Infra} || (cause == GateTests && red))))
  {
    hide Seconds, Spent, Since, Relapsed;
    SpentIs(t.attempts);
    if t.guard.Some? { RelapsedExact(t.attempts, t.guard.value.at); }
    LoopingExact(t.attempts);
    hide Looping, SameTail;
  }

  lemma LoopingExact(attempts: seq<Attempt>)
    ensures Looping(attempts) <==> SameTail(attempts, 3) || |attempts| >= 6
  {
    var n := |attempts|;
    if n >= 3 {
      assert SameTail(attempts, 3) <==> attempts[n - 1].signature == attempts[n - 2].signature == attempts[n - 3].signature;
    }
  }

  // --------------------------------------------------------------------- triage

  predicate Free(t: Task) { t.worker == "" && t.reviewer == "" }

  /** The task is somebody else's now: Codex's, or left for Claude Code to act on. */
  predicate HandedOn(t: Task, codex: bool) {
    Free(t) && if codex then t.status == Escalated && t.handed && !t.needsClaude else t.status == Blocked && t.needsClaude
  }

  predicate SameRecord(t: Task, u: Task) { u.attempts == t.attempts && u.priority == t.priority && u.preferred == t.preferred }

  /** One triage of one task, by what it finds. The guard comes first: a remedy gives a fresh
      budget once and is remembered; a stopped task is handed on. Otherwise only blocked and
      escalated tasks move: requeued at no cost, handed on when the budget is spent, landed
      or taken back when Codex is done or dead. */
  lemma TriageExact(t: Task, f: Finding, at: int)
    ensures var u := TriagedTask(t, f, at);
      var verdict := if t.status in {Blocked, Ready, NeedsReview} && !t.needsClaude then Verdict(t, f.red) else None;
      SameRecord(t, u)
      && match verdict
         case Some(Remediate) => u.status == Ready && Free(u) && u.retries == 0 && u.guard == Some(Guard(at, false)) && !u.needsClaude && u.handed == t.handed
         case Some(Escalate(unfixable)) => HandedOn(u, f.codex && !unfixable) && u.guard == Some(Guard(at, true)) && u.retries == t.retries
         case None =>
           && u.guard == t.guard && u.retries == t.retries
           && (match t.status
               case Blocked =>
                 if f.reading == Requeue then u.status == Ready && Free(u) && !u.needsClaude && u.handed == t.handed
                 else if t.retries >= 3 && !t.needsClaude && !t.handed then HandedOn(u, f.codex)
                 else u == t
               case Escalated =>
                 (match f.outcome
                  case CodexDone => u == t.(status := Landed, needsClaude := false)
                  case CodexDead => u == t.(status := Blocked, needsClaude := true)
                  case CodexPending => u == t)
               case _ => u == t)
  {
    hide Verdict;
  }

  /** Nothing stays blocked unseen: after a triage every blocked task still has retries, has
      been to Codex, or waits for Claude Code. */
  lemma NothingStuck(tasks: seq<Task>, findings: nat -> Finding, at: int, i: nat)
    requires i < |tasks|
    ensures var u := Triaged(tasks, findings, at)[i];
      u.status == Blocked ==> u.retries < 3 || u.needsClaude || u.handed
  {
    hide Verdict;
    TriageExact(tasks[i], findings(i), at);
  }

  // ------------------------------------------------------------- finishing and landing

  /** A failure is remembered, the oldest of twenty forgotten. */
  predicate Remembers(t: Task, u: Task, a: Attempt) {
    if |t.attempts| < 20 then u.attempts == t.attempts + [a] else u.attempts == t.attempts[|t.attempts| - 19..] + [a]
  }

  predicate SameTask(t: Task, u: Task) {
    u.retries == t.retries && u.guard == t.guard && u.priority == t.priority && u.preferred == t.preferred && u.handed == t.handed
  }

  /** A new task is ready, nobody's, with its whole budget and no history. */
  lemma NewTaskExact(priority: int, preferred: Option<string>)
    ensures var t := NewTask(priority, preferred);
      t.status == Ready && Free(t) && t.retries == 0 && t.guard.None? && t.attempts == [] && !t.needsClaude && !t.handed
      && t.priority == priority && t.preferred == preferred
  {}

  /** What the end of an implementation, a review, a landing or a heartbeat leaves. */
  lemma EndingsExact(t: Task, r: ControlPool.Result, l: Landing, a: Attempt)
    ensures var u := FinishedTask(t, r);
      && SameTask(t, u) && u.worker == t.worker && u.reviewer == t.reviewer && !u.needsClaude
      && (match r
          case ToGate => u.status == NeedsReview && u.attempts == t.attempts
          case Passed => u.status == Reviewed && u.attempts == t.attempts
          case Undecided => u.status == NeedsDecision && u.attempts == t.attempts
          case Failing(failed) => u.status == Blocked && Remembers(t, u, failed))
    ensures var u := LandedTask(t, l);
      if t.status != Reviewed then u == t
      else
        && SameTask(t, u) && u.attempts == t.attempts && !u.needsClaude
        && (match l
            case LandDone => u.status == Landed && u.worker == t.worker
            case LandRebase => u.status == Ready && Free(u)
            case LandFails => u.status == Blocked && u.worker == t.worker)
    ensures var u := OrphanedTask(t, a);
      if t.status != InProgress && t.status != Reviewing then u == t
      else SameTask(t, u) && Free(u) && Remembers(t, u, a) && !u.needsClaude && u.status == if t.status == Reviewing then NeedsReview else Ready
  {
    var all := t.attempts + [a];
    if |t.attempts| >= 20 { assert all[|all| - 20..] == t.attempts[|t.attempts| - 19..] + [a]; }
    if r.Failing? && |t.attempts| >= 20 {
      var more := t.attempts + [r.attempt];
      assert more[|more| - 20..] == t.attempts[|t.attempts| - 19..] + [r.attempt];
    }
  }

  // -------------------------------------------------------------------- reopening

  /** A blocked task that may be tried again: retries left, and no loop to be looked at first. */
  predicate Retriable(t: Task, red: bool) { t.status == Blocked && t.retries < 3 && Verdict(t, red).None? }

  ghost function Candidates(tasks: seq<Task>, red: nat -> bool): set<nat> { set i: nat | i < |tasks| && Retriable(tasks[i], red(i)) }

  /** Which tasks a pass changed: each of them is ready again, one retry the poorer. */
  ghost predicate ReopenedExactly(tasks: seq<Task>, after: seq<Task>, chosen: set<nat>) {
    && |after| == |tasks|
    && (forall i | 0 <= i < |tasks| :: i in chosen ==>
          after[i].status == Ready && Free(after[i]) && !after[i].needsClaude && after[i].attempts == tasks[i].attempts
          && after[i].guard == tasks[i].guard && after[i].retries == tasks[i].retries + 1 && after[i].priority == tasks[i].priority
          && after[i].preferred == tasks[i].preferred && after[i].handed == tasks[i].handed)
    && (forall i | 0 <= i < |tasks| :: i !in chosen ==> after[i] == tasks[i])
  }

  /** One pass reopens the first `limit` candidates, or all when there are fewer, each once. */
  lemma {:induction false} RequeueExact(tasks: seq<Task>, limit: nat, red: nat -> bool) returns (chosen: set<nat>)
    ensures chosen <= Candidates(tasks, red) && |chosen| == Min(limit, |Candidates(tasks, red)|)
    ensures forall i, j | i in chosen && j in Candidates(tasks, red) && j !in chosen :: Before(tasks, i, j)
    ensures ReopenedExactly(tasks, RequeuedBlocked(tasks, limit, red), chosen)
    decreases limit
  {
    hide Pick, Verdict, Wanted, Retriable;
    if limit == 0 {
      chosen := {};
    } else {
      FirstCandidate(tasks, red);
      var next := Pick(tasks, ToRetry(red), |tasks|);
      hide Candidates, ReopenedExactly, Before;
      if next.None? {
        chosen := {};
        NothingReopened(tasks);
      } else {
        var i := next.value;
        var rest := RequeueExact(tasks[i := Reopened(tasks[i])], limit - 1, red);
        chosen := rest + {i};
        PassStep(tasks, i, limit, red, rest);
      }
    }
  }

  lemma NothingReopened(tasks: seq<Task>)
    ensures ReopenedExactly(tasks, tasks, {})
  {}

  /** What is picked for another try is the first candidate. */
  lemma FirstCandidate(tasks: seq<Task>, red: nat -> bool)
    ensures match Pick(tasks, ToRetry(red), |tasks|)
            case None => Candidates(tasks, red) == {}
            case Some(i) => i < |tasks| && i in Candidates(tasks, red) && forall j | j in Candidates(tasks, red) && j != i :: Before(tasks, i, j)
  {
    hide Pick, Verdict;
    PickIsBest(tasks, ToRetry(red), |tasks|);
    assert forall i | 0 <= i < |tasks| :: Wanted(tasks[i], i, ToRetry(red)) <==> i in Candidates(tasks, red);
  }

  lemma OneFewer(tasks: seq<Task>, i: nat, red: nat -> bool)
    requires i < |tasks| && i in Candidates(tasks, red)
    ensures |Candidates(tasks, red)| > 0 && Candidates(tasks[i := Reopened(tasks[i])], red) == Candidates(tasks, red) - {i}
  {
    hide Verdict;
  }

  lemma PassStep(tasks: seq<Task>, i: nat, limit: nat, red: nat -> bool, rest: set<nat>)
    requires limit > 0 && i < |tasks| && i in Candidates(tasks, red) && Pick(tasks, ToRetry(red), |tasks|) == Some(i)
    requires forall j | j in Candidates(tasks, red) && j != i :: Before(tasks, i, j)
    requires var later := tasks[i := Reopened(tasks[i])];
      && rest <= Candidates(later, red) && |rest| == Min(limit - 1, |Candidates(later, red)|)
      && (forall x, y | x in rest && y in Candidates(later, red) && y !in rest :: Before(later, x, y))
      && ReopenedExactly(later, RequeuedBlocked(later, limit - 1, red), rest)
    ensures var chosen := rest + {i};
      && chosen <= Candidates(tasks, red) && |chosen| == Min(limit, |Candidates(tasks, red)|)
      && (forall x, y | x in chosen && y in Candidates(tasks, red) && y !in chosen :: Before(tasks, x, y))
      && ReopenedExactly(tasks, RequeuedBlocked(tasks, limit, red), chosen)
  {
    hide *;
    PassUnfolds(tasks, i, limit, red);
    OneFewer(tasks, i, red);
    SamePriorities(tasks, i);
    CandidatesIn(tasks, red);
    assert i !in rest;
    ReopenedMore(tasks, i, RequeuedBlocked(tasks[i := Reopened(tasks[i])], limit - 1, red), rest);
    MinStep(limit, |Candidates(tasks, red)|);
  }

  lemma CandidatesIn(tasks: seq<Task>, red: nat -> bool)
    ensures forall i | i in Candidates(tasks, red) :: i < |tasks|
  {
    hide Retriable;
  }

  lemma MinStep(limit: nat, n: nat)
    requires limit > 0 && n > 0
    ensures Min(limit, n) == Min(limit - 1, n - 1) + 1
  {}

  lemma PassUnfolds(tasks: seq<Task>, i: nat, limit: nat, red: nat -> bool)
    requires limit > 0 && i < |tasks| && Pick(tasks, ToRetry(red), |tasks|) == Some(i)
    ensures RequeuedBlocked(tasks, limit, red) == RequeuedBlocked(tasks[i := Reopened(tasks[i])], limit - 1, red)
  {
    hide Pick;
  }

  lemma SamePriorities(tasks: seq<Task>, i: nat)
    requires i < |tasks|
    ensures forall x, y | 0 <= x < |tasks| && 0 <= y < |tasks| :: Before(tasks[i := Reopened(tasks[i])], x, y) <==> Before(tasks, x, y)
  {}

  lemma ReopenedMore(tasks: seq<Task>, i: nat, after: seq<Task>, rest: set<nat>)
    requires i < |tasks| && i !in rest && ReopenedExactly(tasks[i := Reopened(tasks[i])], after, rest)
    ensures ReopenedExactly(tasks, after, rest + {i})
  {}
}

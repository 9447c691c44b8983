/** pm.py, triage.py and loopguard.py: lanes of workers over one task ledger, and
    the budgets that keep a failing task from running for ever. */
module ControlPool {
  import opened Common

  const LOCAL := "local-impl"
  const MAX_RETRIES := 3
  const MAX_ATTEMPTS := 6
  const REPEAT_LIMIT := 3
  const AFTER_REMEDY_ATTEMPTS := 3
  const TIME_BUDGET_SECONDS := 3 * 3600
  const HISTORY := 20

  datatype Status = Ready | InProgress | NeedsReview | Reviewing | Reviewed | NeedsDecision | Blocked | Escalated | Landed

  datatype Cause = StrayEdits | MaxTurns | WallClock | PatchApply | GateTests | Refusal | NoPlan | Orphaned | Infra | OtherCause

  /** Causes for which an instruction to the next attempt exists. */
  predicate HasInstruction(c: Cause) { c !in {Orphaned, Infra, OtherCause} }

  predicate Unfixable(c: Cause) { c in {Orphaned, Infra} }

  datatype Attempt = Attempt(at: int, signature: string, cause: Cause, seconds: nat)

  datatype Guard = Guard(at: int, escalated: bool)

  datatype Task = Task(status: Status, worker: string, reviewer: string, retries: nat, guard: Option<Guard>, attempts: seq<Attempt>,
                       priority: int, preferred: Option<string>, needsClaude: bool, handed: bool)

  function NewTask(priority: int, preferred: Option<string>): Task {
    Task(Ready, "", "", 0, None, [], priority, preferred, false, false)
  }

  // ------------------------------------------------------------------------ lanes

  predicate AllDigits(s: string) { s != [] && forall i | 0 <= i < |s| :: '0' <= s[i] <= '9' }

  /** The position behind the last dash, or 0 when there is none. */
  function AfterDash(worker: string): (n: nat)
    ensures n <= |worker| && (n > 0 ==> worker[n - 1] == '-')
    ensures forall i | n <= i < |worker| :: worker[i] != '-'
  {
    if worker == [] then 0
    else if worker[|worker| - 1] == '-' then |worker|
    else AfterDash(worker[..|worker| - 1])
  }

  /** `lane_of`: a trailing number is the worker's, the rest names its lane. */
  function LaneOf(worker: string): string {
    var n := AfterDash(worker);
    if n > 0 && AllDigits(worker[n..]) then worker[..n - 1] else worker
  }

  lemma LaneOfNumbered(lane: string, number: string)
    requires AllDigits(number)
    ensures LaneOf(lane + "-" + number) == lane
  {
    var worker := lane + "-" + number;
    var n := AfterDash(worker);
    assert worker[|lane|] == '-';
    assert forall i | |lane| < i < |worker| :: worker[i] == number[i - |lane| - 1];
    assert n == |lane| + 1;
    assert worker[n..] == number && worker[..n - 1] == lane;
  }

  /** What counts against a lane: the tasks its workers hold, or the reviews. */
  datatype Load = Held(lane: string) | UnderReview

  predicate Counts(t: Task, load: Load) {
    match load
    case Held(lane) => t.status == InProgress && LaneOf(t.worker) == lane
    case UnderReview => t.status == Reviewing
  }

  function Count(tasks: seq<Task>, load: Load): nat {
    if tasks == [] then 0
    else Count(tasks[..|tasks| - 1], load) + if Counts(tasks[|tasks| - 1], load) then 1 else 0
  }

  function Active(tasks: seq<Task>): nat {
    if tasks == [] then 0
    else Active(tasks[..|tasks| - 1]) + if tasks[|tasks| - 1].status in {InProgress, Reviewing} then 1 else 0
  }

  // ---------------------------------------------------------------------- choosing

  /** Which tasks an operation may take. `red` tells whose failing tests fail elsewhere too. */
  datatype Want = ToImplement(lane: string) | ToReview | ToRetry(red: nat -> bool)

  predicate Wanted(t: Task, i: nat, want: Want) {
    match want
    case ToImplement(lane) => t.status == Ready && (t.preferred.None? || t.preferred.value == lane)
    case ToReview => t.status == NeedsReview
    case ToRetry(red) => t.status == Blocked && t.retries < MAX_RETRIES && Verdict(t, red(i)).None?
  }

  /** The wanted task of highest priority, the oldest among equals. */
  function Pick(tasks: seq<Task>, want: Want, n: nat): (found: Option<nat>)
    requires n <= |tasks|
    ensures found.Some? ==> found.value < n
  {
    if n == 0 then None
    else
      var before := Pick(tasks, want, n - 1);
      if Wanted(tasks[n - 1], n - 1, want) && (before.None? || tasks[n - 1].priority > tasks[before.value].priority) then Some(n - 1) else before
  }

  lemma {:induction false} PickIsBest(tasks: seq<Task>, want: Want, n: nat)
    requires n <= |tasks|
    ensures var found := Pick(tasks, want, n);
      && (found.None? <==> forall i | 0 <= i < n :: !Wanted(tasks[i], i, want))
      && (found.Some? ==> Wanted(tasks[found.value], found.value, want)
                          && forall i | 0 <= i < n && i != found.value && Wanted(tasks[i], i, want) ::
                               tasks[i].priority < tasks[found.value].priority
                               || (tasks[i].priority == tasks[found.value].priority && found.value < i))
  {
    hide Wanted;
    if n > 0 { PickIsBest(tasks, want, n - 1); }
  }

  // -------------------------------------------------------------------- loop guard

  datatype Action = Remediate | Escalate(unfixable: bool)

  function Seconds(attempts: seq<Attempt>): nat {
    if attempts == [] then 0 else Seconds(attempts[..|attempts| - 1]) + attempts[|attempts| - 1].seconds
  }

  /** Attempts made after the remedy. */
  function Since(attempts: seq<Attempt>, at: int): seq<Attempt> {
    if attempts == [] then []
    else
      var last := attempts[|attempts| - 1];
      Since(attempts[..|attempts| - 1], at) + if last.at > at then [last] else []
  }

  predicate SameTail(attempts: seq<Attempt>, n: nat) {
    |attempts| >= n && forall i | |attempts| - n <= i < |attempts| :: attempts[i].signature == attempts[|attempts| - 1].signature
  }

  function Verdict(t: Task, red: bool): Option<Action> {
    if t.attempts == [] then None
    else
      var cause := t.attempts[|t.attempts| - 1].cause;
      if Seconds(t.attempts) > TIME_BUDGET_SECONDS then Some(Escalate(Unfixable(cause)))
      else if t.guard.Some? then
        var recent := Since(t.attempts, t.guard.value.at);
        if SameTail(recent, 2) || |recent| >= AFTER_REMEDY_ATTEMPTS then Some(Escalate(Unfixable(cause))) else None
      else if SameTail(t.attempts, REPEAT_LIMIT) || |t.attempts| >= MAX_ATTEMPTS then
        if cause == GateTests && red then Some(Escalate(true))
        else if Unfixable(cause) || !HasInstruction(cause) then Some(Escalate(Unfixable(cause)))
        else Some(Remediate)
      else None
  }

  function Recorded(t: Task, a: Attempt): Task {
    var all := t.attempts + [a];
    t.(attempts := if |all| > HISTORY then all[|all| - HISTORY..] else all)
  }

  /** `_escalate`: to Codex when it can take the work, else to Claude Code. */
  function HandOver(t: Task, codex: bool): Task {
    if codex then t.(status := Escalated, handed := true, needsClaude := false, worker := "", reviewer := "")
    else t.(status := Blocked, needsClaude := true, worker := "", reviewer := "")
  }

  /** `_loop_guard`: the verdict applied; the flag says whether it acted. */
  function Guarded(t: Task, red: bool, codex: bool, at: int): (Task, bool) {
    if t.status !in {Blocked, Ready, NeedsReview} || t.needsClaude then (t, false)
    else match Verdict(t, red)
      case None => (t, false)
      case Some(Remediate) =>
        (t.(status := Ready, worker := "", reviewer := "", retries := 0, guard := Some(Guard(at, false)), needsClaude := false), true)
      case Some(Escalate(unfixable)) => (HandOver(t.(guard := Some(Guard(at, true))), codex && !unfixable), true)
  }

  // ----------------------------------------------------------------------- triage

  /** How a blocked task's note is read: requeued at no cost, or left to its retries. */
  datatype Reading = Requeue | Implementer

  datatype CodexOutcome = CodexDone | CodexDead | CodexPending

  /** What triage finds outside about one task. */
  datatype Finding = Finding(red: bool, codex: bool, reading: Reading, outcome: CodexOutcome)

  function TriagedTask(t: Task, f: Finding, at: int): Task {
    var (guarded, acted) := Guarded(t, f.red, f.codex, at);
    if acted then guarded
    else if t.status == Blocked then
      if f.reading == Requeue then t.(status := Ready, worker := "", reviewer := "", needsClaude := false)
      else if t.retries >= MAX_RETRIES && !t.needsClaude && !t.handed then HandOver(t, f.codex)
      else t
    else if t.status == Escalated then
      (match f.outcome
       case CodexDone => t.(status := Landed, needsClaude := false)
       case CodexDead => t.(status := Blocked, needsClaude := true)
       case CodexPending => t)
    else t
  }

  function Triaged(tasks: seq<Task>, findings: nat -> Finding, at: int): (after: seq<Task>)
    ensures |after| == |tasks| && forall i | 0 <= i < |tasks| :: after[i] == TriagedTask(tasks[i], findings(i), at)
  {
    seq(|tasks|, i requires 0 <= i < |tasks| => TriagedTask(tasks[i], findings(i), at))
  }

  // ---------------------------------------------------------------- ledger operations

  function Claimed(tasks: seq<Task>, worker: string, lane: string, slots: nat): (seq<Task>, Option<nat>) {
    var active := Count(tasks, Held(lane)) + if lane == LOCAL then Count(tasks, UnderReview) else 0;
    if slots <= active then (tasks, None)
    else match Pick(tasks, ToImplement(lane), |tasks|)
      case None => (tasks, None)
      case Some(i) => (tasks[i := tasks[i].(status := InProgress, worker := worker, needsClaude := false)], Some(i))
  }

  function ReviewClaimed(tasks: seq<Task>, reviewer: string, slots: nat): (seq<Task>, Option<nat>) {
    if slots <= Active(tasks) then (tasks, None)
    else match Pick(tasks, ToReview, |tasks|)
      case None => (tasks, None)
      case Some(i) => (tasks[i := tasks[i].(status := Reviewing, reviewer := reviewer, needsClaude := false)], Some(i))
  }

  /** How an implementation or a review ends; a failed one leaves an attempt behind. */
  datatype Result = ToGate | Passed | Undecided | Failing(attempt: Attempt)

  function FinishedTask(t: Task, r: Result): Task {
    match r
    case ToGate => t.(status := NeedsReview, needsClaude := false)
    case Passed => t.(status := Reviewed, needsClaude := false)
    case Undecided => t.(status := NeedsDecision, needsClaude := false)
    case Failing(a) => Recorded(t, a).(status := Blocked, needsClaude := false)
  }

  datatype Landing = LandDone | LandRebase | LandFails

  function LandedTask(t: Task, l: Landing): Task {
    if t.status != Reviewed then t
    else match l
      case LandDone => t.(status := Landed, needsClaude := false)
      case LandRebase => t.(status := Ready, worker := "", reviewer := "", needsClaude := false)
      case LandFails => t.(status := Blocked, needsClaude := false)
  }

  function OrphanedTask(t: Task, a: Attempt): Task {
    if t.status !in {InProgress, Reviewing} then t
    else Recorded(t, a).(status := if t.status == Reviewing then NeedsReview else Ready, worker := "", reviewer := "", needsClaude := false)
  }

  /** `requeue_stale`: the held tasks whose heartbeat stopped. */
  function Orphans(tasks: seq<Task>, stale: nat -> Option<Attempt>): (after: seq<Task>)
    ensures |after| == |tasks|
    ensures forall i | 0 <= i < |tasks| :: after[i] == if stale(i).Some? then OrphanedTask(tasks[i], stale(i).value) else tasks[i]
  {
    seq(|tasks|, i requires 0 <= i < |tasks| => if stale(i).Some? then OrphanedTask(tasks[i], stale(i).value) else tasks[i])
  }

  function Reopened(t: Task): Task {
    t.(status := Ready, worker := "", reviewer := "", retries := t.retries + 1, needsClaude := false)
  }

  /** `requeue_blocked`: the best `limit` candidates, one after another. */
  function RequeuedBlocked(tasks: seq<Task>, limit: nat, red: nat -> bool): seq<Task>
    decreases limit
  {
    if limit == 0 then tasks
    else match Pick(tasks, ToRetry(red), |tasks|)
      case None => tasks
      case Some(i) => RequeuedBlocked(tasks[i := Reopened(tasks[i])], limit - 1, red)
  }

  class TaskLedger {
    var tasks: seq<Task>

    constructor ()
      ensures tasks == []
    { tasks := []; }

    method CountHeld(load: Load) returns (n: nat)
      ensures n == Count(tasks, load)
    {
      n := 0;
      for i := 0 to |tasks|
        invariant n == Count(tasks[..i], load)
      {
        assert tasks[..i + 1][..i] == tasks[..i];
        if Counts(tasks[i], load) { n := n + 1; }
      }
      assert tasks[..|tasks|] == tasks;
    }

    method CountActive() returns (n: nat)
      ensures n == Active(tasks)
    {
      n := 0;
      for i := 0 to |tasks|
        invariant n == Active(tasks[..i])
      {
        assert tasks[..i + 1][..i] == tasks[..i];
        if tasks[i].status in {InProgress, Reviewing} { n := n + 1; }
      }
      assert tasks[..|tasks|] == tasks;
    }

    method Choose(want: Want) returns (found: Option<nat>)
      ensures found == Pick(tasks, want, |tasks|)
    {
      found := None;
      for i := 0 to |tasks|
        invariant found == Pick(tasks, want, i)
      {
        if Wanted(tasks[i], i, want) && (found.None? || tasks[i].priority > tasks[found.value].priority) { found := Some(i); }
      }
    }

    method Claim(worker: string, lane: string, slots: nat) returns (claimed: Option<nat>)
      modifies this
      ensures (tasks, claimed) == Claimed(old(tasks), worker, lane, slots)
    {
      hide Count, Pick;
      var active := CountHeld(Held(lane));
      if lane == LOCAL {
        var reviews := CountHeld(UnderReview);
        active := active + reviews;
      }
      if slots <= active { return None; }
      claimed := Choose(ToImplement(lane));
      if claimed.Some? {
        var i := claimed.value;
        tasks := tasks[i := tasks[i].(status := InProgress, worker := worker, needsClaude := false)];
      }
    }

    method ClaimReview(reviewer: string, slots: nat) returns (claimed: Option<nat>)
      modifies this
      ensures (tasks, claimed) == ReviewClaimed(old(tasks), reviewer, slots)
    {
      hide Active, Pick;
      var active := CountActive();
      if slots <= active { return None; }
      claimed := Choose(ToReview);
      if claimed.Some? {
        var i := claimed.value;
        tasks := tasks[i := tasks[i].(status := Reviewing, reviewer := reviewer, needsClaude := false)];
      }
    }

    method RequeueStale(stale: nat -> Option<Attempt>) returns (recovered: seq<nat>)
      modifies this
      ensures tasks == Orphans(old(tasks), stale)
      ensures forall i :: i in recovered <==> 0 <= i < |old(tasks)| && stale(i).Some? && old(tasks)[i].status in {InProgress, Reviewing}
    {
      recovered := [];
      for i := 0 to |tasks|
        invariant |tasks| == |old(tasks)|
        invariant forall k | 0 <= k < i :: tasks[k] == if stale(k).Some? then OrphanedTask(old(tasks)[k], stale(k).value) else old(tasks)[k]
        invariant forall k | i <= k < |tasks| :: tasks[k] == old(tasks)[k]
        invariant forall k :: k in recovered <==> 0 <= k < i && stale(k).Some? && old(tasks)[k].status in {InProgress, Reviewing}
      {
        if stale(i).Some? && tasks[i].status in {InProgress, Reviewing} {
          tasks := tasks[i := OrphanedTask(tasks[i], stale(i).value)];
          recovered := recovered + [i];
        }
      }
      assert tasks == Orphans(old(tasks), stale);
    }

    method RequeueBlocked(limit: nat, red: nat -> bool)
      modifies this
      ensures tasks == RequeuedBlocked(old(tasks), limit, red)
    {
      hide Pick;
      var left := limit;
      while left > 0
        invariant RequeuedBlocked(tasks, left, red) == RequeuedBlocked(old(tasks), limit, red)
      {
        var next := Choose(ToRetry(red));
        if next.None? { return; }
        tasks := tasks[next.value := Reopened(tasks[next.value])];
        left := left - 1;
      }
    }

    method RunTriage(findings: nat -> Finding, at: int)
      modifies this
      ensures tasks == Triaged(old(tasks), findings, at)
    {
      for i := 0 to |tasks|
        invariant |tasks| == |old(tasks)|
        invariant forall k | 0 <= k < i :: tasks[k] == TriagedTask(old(tasks)[k], findings(k), at)
        invariant forall k | i <= k < |tasks| :: tasks[k] == old(tasks)[k]
      {
        tasks := tasks[i := TriagedTask(tasks[i], findings(i), at)];
      }
      assert tasks == Triaged(old(tasks), findings, at);
    }
  }

  // -------------------------------------------------------------------- every run

  /** Everything the pool does without an operator. */
  datatype Step =
    | Enqueue(priority: int, preferred: Option<string>)
    | DoClaim(worker: string, lane: string)
    | DoClaimReview(reviewer: string)
    | DoFinish(task: nat, result: Result)     // whoever calls it: the holder is not checked
    | DoLand(task: nat, landing: Landing)
    | DoRequeueStale(stale: nat -> Option<Attempt>)
    | DoRequeueBlocked(limit: nat, red: nat -> bool)
    | DoTriage(findings: nat -> Finding, at: int)

  /** The ledger, and how often `requeue_blocked` has reopened each task. */
  datatype Pool = Pool(tasks: seq<Task>, reopened: seq<nat>)

  function ReopenAll(p: Pool, limit: nat, red: nat -> bool): Pool
    decreases limit
  {
    if limit == 0 then p
    else match Pick(p.tasks, ToRetry(red), |p.tasks|)
      case None => p
      case Some(i) =>
        ReopenAll(Pool(p.tasks[i := Reopened(p.tasks[i])], if i < |p.reopened| then p.reopened[i := p.reopened[i] + 1] else p.reopened), limit - 1, red)
  }

  lemma {:induction false} ReopenAllIsRequeue(p: Pool, limit: nat, red: nat -> bool)
    ensures ReopenAll(p, limit, red).tasks == RequeuedBlocked(p.tasks, limit, red)
    decreases limit
  {
    if limit > 0 {
      var next := Pick(p.tasks, ToRetry(red), |p.tasks|);
      if next.Some? {
        var i := next.value;
        ReopenAllIsRequeue(Pool(p.tasks[i := Reopened(p.tasks[i])], if i < |p.reopened| then p.reopened[i := p.reopened[i] + 1] else p.reopened), limit - 1, red);
      }
    }
  }

  /** `slots` is the effective capacity of each lane. */
  function Apply(p: Pool, step: Step, slots: string -> nat): Pool {
    match step
    case Enqueue(priority, preferred) => Pool(p.tasks + [NewTask(priority, preferred)], p.reopened + [0])
    case DoClaim(worker, lane) => p.(tasks := Claimed(p.tasks, worker, lane, slots(lane)).0)
    case DoClaimReview(reviewer) => p.(tasks := ReviewClaimed(p.tasks, reviewer, slots(LOCAL)).0)
    case DoFinish(i, result) => if i < |p.tasks| then p.(tasks := p.tasks[i := FinishedTask(p.tasks[i], result)]) else p
    case DoLand(i, landing) => if i < |p.tasks| then p.(tasks := p.tasks[i := LandedTask(p.tasks[i], landing)]) else p
    case DoRequeueStale(stale) => p.(tasks := Orphans(p.tasks, stale))
    case DoRequeueBlocked(limit, red) => ReopenAll(p, limit, red)
    case DoTriage(findings, at) => p.(tasks := Triaged(p.tasks, findings, at))
  }

  /** What the ledger's own operation does to the tasks, counting nothing. */
  function Ledger(tasks: seq<Task>, step: Step, slots: string -> nat): seq<Task> {
    match step
    case Enqueue(priority, preferred) => tasks + [NewTask(priority, preferred)]
    case DoClaim(worker, lane) => Claimed(tasks, worker, lane, slots(lane)).0
    case DoClaimReview(reviewer) => ReviewClaimed(tasks, reviewer, slots(LOCAL)).0
    case DoFinish(i, result) => if i < |tasks| then tasks[i := FinishedTask(tasks[i], result)] else tasks
    case DoLand(i, landing) => if i < |tasks| then tasks[i := LandedTask(tasks[i], landing)] else tasks
    case DoRequeueStale(stale) => Orphans(tasks, stale)
    case DoRequeueBlocked(limit, red) => RequeuedBlocked(tasks, limit, red)
    case DoTriage(findings, at) => Triaged(tasks, findings, at)
  }

  /** The counted steps of a run do to the tasks exactly what the ledger's operations do. */
  lemma StepsAreOperations(p: Pool, step: Step, slots: string -> nat)
    ensures Apply(p, step, slots).tasks == Ledger(p.tasks, step, slots)
  {
    hide Claimed, ReviewClaimed, Pick;
    if step.DoRequeueBlocked? { ReopenAllIsRequeue(p, step.limit, step.red); }
  }

  function After(steps: seq<Step>, slots: string -> nat): Pool {
    if steps == [] then Pool([], []) else Apply(After(steps[..|steps| - 1], slots), steps[|steps| - 1], slots)
  }

  // ------------------------------------------------------------------ retry budget

  /** What is left: the retries of this budget, and the one ready budget a remedy brings. */
  function Potential(t: Task): nat {
    (if t.retries < MAX_RETRIES then MAX_RETRIES - t.retries else 0) + if t.guard.None? then MAX_RETRIES else 0
  }

  ghost predicate WithinBudget(p: Pool) {
    |p.reopened| == |p.tasks| && forall i | 0 <= i < |p.tasks| :: p.reopened[i] + Potential(p.tasks[i]) <= 2 * MAX_RETRIES
  }

  /** Only a remedy gives a ready budget, and only to a task that never had one. */
  lemma GuardSpends(t: Task, red: bool, codex: bool, at: int)
    ensures Potential(Guarded(t, red, codex, at).0) <= Potential(t)
  {}

  lemma TriageSpends(t: Task, f: Finding, at: int)
    ensures Potential(TriagedTask(t, f, at)) <= Potential(t)
  {
    GuardSpends(t, f.red, f.codex, at);
    hide Verdict;
  }

  lemma {:induction false} ReopenAllSpends(p: Pool, limit: nat, red: nat -> bool)
    requires WithinBudget(p)
    ensures WithinBudget(ReopenAll(p, limit, red))
    decreases limit
  {
    hide Verdict, Pick;
    if limit > 0 {
      PickIsBest(p.tasks, ToRetry(red), |p.tasks|);
      var next := Pick(p.tasks, ToRetry(red), |p.tasks|);
      if next.Some? {
        var i := next.value;
        var q := Pool(p.tasks[i := Reopened(p.tasks[i])], p.reopened[i := p.reopened[i] + 1]);
        assert Potential(q.tasks[i]) + 1 == Potential(p.tasks[i]);
        hide Potential;
        ReopenAllSpends(q, limit - 1, red);
      }
    }
  }

  lemma StepSpends(p: Pool, step: Step, slots: string -> nat)
    requires WithinBudget(p)
    ensures WithinBudget(Apply(p, step, slots))
  {
    hide Verdict, Pick, Count, Active, Guarded;
    match step {
      case DoRequeueBlocked(limit, red) => ReopenAllSpends(p, limit, red);
      case DoTriage(findings, at) =>
        forall i | 0 <= i < |p.tasks| ensures Potential(TriagedTask(p.tasks[i], findings(i), at)) <= Potential(p.tasks[i]) {
          TriageSpends(p.tasks[i], findings(i), at);
        }
      case _ =>
    }
  }

  /** Without an operator, `requeue_blocked` reopens a task at most six times, however
      it is claimed, finished, orphaned, triaged and landed in between. */
  lemma {:induction false} ReopenedAtMostSixTimes(steps: seq<Step>, slots: string -> nat, i: nat)
    ensures WithinBudget(After(steps, slots))
    ensures i < |After(steps, slots).tasks| ==> i < |After(steps, slots).reopened| && After(steps, slots).reopened[i] <= 6
  {
    if steps != [] {
      ReopenedAtMostSixTimes(steps[..|steps| - 1], slots, i);
      hide Apply;
      StepSpends(After(steps[..|steps| - 1], slots), steps[|steps| - 1], slots);
    }
  }

  // ------------------------------------------------------------------------- slots

  /** Local work and reviews share the local slots; every other lane has its own. */
  ghost predicate WithinSlots(tasks: seq<Task>, slots: string -> nat) {
    && Count(tasks, Held(LOCAL)) + Count(tasks, UnderReview) <= slots(LOCAL)
    && forall lane | lane != LOCAL :: Count(tasks, Held(lane)) <= slots(lane)
  }

  lemma {:induction false} CountUpdates(tasks: seq<Task>, i: nat, t: Task, load: Load)
    requires i < |tasks|
    ensures Count(tasks[i := t], load) + (if Counts(tasks[i], load) then 1 else 0) == Count(tasks, load) + (if Counts(t, load) then 1 else 0)
  {
    var n := |tasks| - 1;
    if i == n {
      assert tasks[i := t][..n] == tasks[..n];
    } else {
      assert tasks[i := t][..n] == tasks[..n][i := t];
      CountUpdates(tasks[..n], i, t, load);
    }
  }

  lemma {:induction false} CountFalls(a: seq<Task>, b: seq<Task>, load: Load)
    requires |a| == |b| && forall i | 0 <= i < |a| && Counts(b[i], load) :: Counts(a[i], load)
    ensures Count(b, load) <= Count(a, load)
  {
    if a != [] {
      assert forall i | 0 <= i < |a| - 1 :: a[..|a| - 1][i] == a[i] && b[..|b| - 1][i] == b[i];
      CountFalls(a[..|a| - 1], b[..|b| - 1], load);
    }
  }

  lemma {:induction false} ActiveIsMore(tasks: seq<Task>)
    ensures Count(tasks, Held(LOCAL)) + Count(tasks, UnderReview) <= Active(tasks)
  {
    hide LaneOf;
    if tasks != [] { ActiveIsMore(tasks[..|tasks| - 1]); }
  }

  /** A change that takes nobody into work keeps every lane within its slots. */
  lemma QuietKeeps(a: seq<Task>, b: seq<Task>, slots: string -> nat)
    requires WithinSlots(a, slots) && |a| == |b|
    requires forall i | 0 <= i < |a| :: b[i] == a[i] || b[i].status !in {InProgress, Reviewing} || (b[i].status == a[i].status && b[i].worker == a[i].worker)
    ensures WithinSlots(b, slots)
  {
    hide LaneOf;
    CountFalls(a, b, Held(LOCAL));
    CountFalls(a, b, UnderReview);
    forall lane | lane != LOCAL ensures Count(b, Held(lane)) <= slots(lane) { CountFalls(a, b, Held(lane)); }
  }

  /** The worker's own lane has a free slot; reviews share the local slots. */
  predicate RoomFor(tasks: seq<Task>, worker: string, slots: string -> nat) {
    var own := LaneOf(worker);
    Count(tasks, Held(own)) + (if own == LOCAL then Count(tasks, UnderReview) else 0) < slots(own)
  }

  /** The exact condition: a successful claim keeps every lane within its slots if and only
      if it was made for the worker's own lane, or that lane has a free slot anyway. */
  lemma ClaimWithinExact(tasks: seq<Task>, worker: string, lane: string, slots: string -> nat)
    requires WithinSlots(tasks, slots) && Claimed(tasks, worker, lane, slots(lane)).1.Some?
    ensures WithinSlots(Claimed(tasks, worker, lane, slots(lane)).0, slots) <==> LaneOf(worker) == lane || RoomFor(tasks, worker, slots)
    ensures LaneOf(worker) == lane ==> RoomFor(tasks, worker, slots)
  {
    hide Count, Pick, LaneOf;
    var (after, found) := Claimed(tasks, worker, lane, slots(lane));
    PickIsBest(tasks, ToImplement(lane), |tasks|);
    var t := tasks[found.value].(status := InProgress, worker := worker, needsClaude := false);
    CountUpdates(tasks, found.value, t, Held(LOCAL));
    CountUpdates(tasks, found.value, t, UnderReview);
    CountUpdates(tasks, found.value, t, Held(LaneOf(worker)));
    if RoomFor(tasks, worker, slots) {
      forall other | other != LOCAL ensures Count(after, Held(other)) <= slots(other) {
        CountUpdates(tasks, found.value, t, Held(other));
      }
    }
  }

  lemma ReviewKeeps(tasks: seq<Task>, reviewer: string, slots: string -> nat)
    requires WithinSlots(tasks, slots)
    ensures WithinSlots(ReviewClaimed(tasks, reviewer, slots(LOCAL)).0, slots)
  {
    hide Count, Pick, Active, LaneOf;
    var (after, found) := ReviewClaimed(tasks, reviewer, slots(LOCAL));
    PickIsBest(tasks, ToReview, |tasks|);
    ActiveIsMore(tasks);
    if found.Some? {
      var t := tasks[found.value].(status := Reviewing, reviewer := reviewer, needsClaude := false);
      CountUpdates(tasks, found.value, t, Held(LOCAL));
      CountUpdates(tasks, found.value, t, UnderReview);
      forall other | other != LOCAL ensures Count(after, Held(other)) <= slots(other) {
        CountUpdates(tasks, found.value, t, Held(other));
      }
    }
  }

  lemma {:induction false} ReopeningQuiet(p: Pool, limit: nat, red: nat -> bool)
    ensures var after := ReopenAll(p, limit, red).tasks;
      |after| == |p.tasks| && forall i | 0 <= i < |after| :: after[i] == p.tasks[i] || after[i].status == Ready
    decreases limit
  {
    hide Verdict;
    if limit > 0 {
      var next := Pick(p.tasks, ToRetry(red), |p.tasks|);
      if next.Some? {
        var i := next.value;
        ReopeningQuiet(Pool(p.tasks[i := Reopened(p.tasks[i])], if i < |p.reopened| then p.reopened[i := p.reopened[i] + 1] else p.reopened), limit - 1, red);
      }
    }
  }

  lemma EnqueueKeeps(tasks: seq<Task>, t: Task, slots: string -> nat)
    requires WithinSlots(tasks, slots) && t.status == Ready
    ensures WithinSlots(tasks + [t], slots)
  {
    assert (tasks + [t])[..|tasks|] == tasks;
    hide LaneOf;
    forall load ensures Count(tasks + [t], load) == Count(tasks, load) { assert !Counts(t, load); }
  }

  lemma TriageQuiet(t: Task, f: Finding, at: int)
    ensures var u := TriagedTask(t, f, at); u == t || u.status !in {InProgress, Reviewing}
  {
    hide Verdict;
  }

  predicate Claims(p: Pool, step: Step, slots: string -> nat) {
    step.DoClaim? && Claimed(p.tasks, step.worker, step.lane, slots(step.lane)).1.Some?
  }

  lemma StepWithinSlots(p: Pool, step: Step, slots: string -> nat)
    requires WithinSlots(p.tasks, slots)
    ensures WithinSlots(Apply(p, step, slots).tasks, slots) <==> (Claims(p, step, slots) ==> RoomFor(p.tasks, step.worker, slots))
  {
    hide WithinSlots, ReviewClaimed, ReopenAll, TriagedTask, LaneOf, RoomFor;
    match step {
      case Enqueue(priority, preferred) => EnqueueKeeps(p.tasks, NewTask(priority, preferred), slots);
      case DoClaim(worker, lane) => if Claims(p, step, slots) { hide Claimed; ClaimWithinExact(p.tasks, worker, lane, slots); }
      case DoClaimReview(reviewer) => ReviewKeeps(p.tasks, reviewer, slots);
      case DoRequeueBlocked(limit, red) =>
        ReopeningQuiet(p, limit, red);
        QuietKeeps(p.tasks, ReopenAll(p, limit, red).tasks, slots);
      case DoTriage(findings, at) =>
        forall i | 0 <= i < |p.tasks| ensures var u := TriagedTask(p.tasks[i], findings(i), at); u == p.tasks[i] || u.status !in {InProgress, Reviewing} {
          TriageQuiet(p.tasks[i], findings(i), at);
        }
        QuietKeeps(p.tasks, Triaged(p.tasks, findings, at), slots);
      case _ => QuietKeeps(p.tasks, Apply(p, step, slots).tasks, slots);
    }
  }

  ghost predicate WithinAt(steps: seq<Step>, slots: string -> nat, k: nat)
    requires k <= |steps|
  {
    WithinSlots(After(steps[..k], slots).tasks, slots)
  }

  ghost predicate AlwaysWithin(steps: seq<Step>, slots: string -> nat) { forall k: nat | k <= |steps| :: WithinAt(steps, slots, k) }

  ghost predicate RoomAt(steps: seq<Step>, slots: string -> nat, k: nat)
    requires k < |steps|
  {
    Claims(After(steps[..k], slots), steps[k], slots) ==> RoomFor(After(steps[..k], slots).tasks, steps[k].worker, slots)
  }

  /** Every successful claim found a free slot in its worker's own lane. */
  ghost predicate ClaimsHaveRoom(steps: seq<Step>, slots: string -> nat) { forall k: nat | k < |steps| :: RoomAt(steps, slots, k) }

  lemma WithinAtPrefix(steps: seq<Step>, slots: string -> nat, k: nat)
    requires k < |steps|
    ensures WithinAt(steps[..|steps| - 1], slots, k) <==> WithinAt(steps, slots, k)
    ensures k < |steps| - 1 ==> (RoomAt(steps[..|steps| - 1], slots, k) <==> RoomAt(steps, slots, k))
  {
    hide After, WithinSlots, Claims, RoomFor;
    assert steps[..|steps| - 1][..k] == steps[..k];
  }

  lemma WithinAtEnd(steps: seq<Step>, slots: string -> nat)
    ensures WithinAt(steps, slots, |steps|) <==> WithinSlots(After(steps, slots).tasks, slots)
  {
    hide After, WithinSlots;
    assert steps[..|steps|] == steps;
  }

  lemma AlwaysWithinSnoc(steps: seq<Step>, slots: string -> nat)
    requires steps != []
    ensures AlwaysWithin(steps, slots) <==> AlwaysWithin(steps[..|steps| - 1], slots) && WithinAt(steps, slots, |steps|)
    ensures ClaimsHaveRoom(steps, slots) <==> ClaimsHaveRoom(steps[..|steps| - 1], slots) && RoomAt(steps, slots, |steps| - 1)
    ensures AlwaysWithin(steps[..|steps| - 1], slots) ==> WithinAt(steps[..|steps| - 1], slots, |steps| - 1)
  {
    hide WithinAt, RoomAt;
    var (n, shorter) := (|steps| - 1, steps[..|steps| - 1]);
    forall k: nat | k <= n
      ensures WithinAt(shorter, slots, k) <==> WithinAt(steps, slots, k)
      ensures k < n ==> (RoomAt(shorter, slots, k) <==> RoomAt(steps, slots, k))
    {
      WithinAtPrefix(steps, slots, k);
    }
  }

  /** While capacities stay as they are, no lane ever runs more than its slots, local
      implementation and reviews together included, if and only if every successful
      claim finds a free slot in its worker's own lane. */
  lemma {:induction false} LanesWithinSlots(steps: seq<Step>, slots: string -> nat)
    ensures AlwaysWithin(steps, slots) <==> ClaimsHaveRoom(steps, slots)
  {
    WithinAtEnd(steps, slots);
    if steps != [] {
      var shorter := steps[..|steps| - 1];
      LanesWithinSlots(shorter, slots);
      AlwaysWithinSnoc(steps, slots);
      WithinAtEnd(shorter, slots);
      hide AlwaysWithin, ClaimsHaveRoom, Apply, WithinSlots, Claims, RoomFor;
      if WithinSlots(After(shorter, slots).tasks, slots) { StepWithinSlots(After(shorter, slots), steps[|steps| - 1], slots); }
    } else {
      hide After, WithinSlots;
      assert WithinSlots([], slots) by { Unused(slots); }
      assert After(steps, slots) == Pool([], []) by { Nothing(slots); }
    }
  }

  lemma Nothing(slots: string -> nat)
    ensures After([], slots) == Pool([], [])
  {}

  lemma Unused(slots: string -> nat)
    ensures WithinSlots([], slots)
  {}

  /** Workers that claim for their own lane always have that room. */
  lemma {:induction false} OwnLanesWithinSlots(steps: seq<Step>, slots: string -> nat)
    requires forall k | 0 <= k < |steps| && steps[k].DoClaim? :: LaneOf(steps[k].worker) == steps[k].lane
    ensures WithinSlots(After(steps, slots).tasks, slots)
  {
    if steps != [] {
      var shorter := steps[..|steps| - 1];
      OwnLanesWithinSlots(shorter, slots);
      var (p, step) := (After(shorter, slots), steps[|steps| - 1]);
      hide Apply, WithinSlots, RoomFor;
      if Claims(p, step, slots) { hide Claimed; ClaimWithinExact(p.tasks, step.worker, step.lane, slots); }
      StepWithinSlots(p, step, slots);
    }
  }

  /** The worker's own lane is what counts: a claim made for another lane is charged
      to the worker's lane, whose slots nobody looked at. */
  lemma ForeignClaim(tasks: seq<Task>, worker: string, lane: string, slots: nat)
    requires LaneOf(worker) != lane && Claimed(tasks, worker, lane, slots).1.Some?
    ensures Count(Claimed(tasks, worker, lane, slots).0, Held(LaneOf(worker))) == Count(tasks, Held(LaneOf(worker))) + 1
    ensures Count(Claimed(tasks, worker, lane, slots).0, Held(lane)) == Count(tasks, Held(lane))
  {
    hide Count, Pick, LaneOf;
    PickIsBest(tasks, ToImplement(lane), |tasks|);
    var i := Claimed(tasks, worker, lane, slots).1.value;
    var t := tasks[i].(status := InProgress, worker := worker, needsClaude := false);
    CountUpdates(tasks, i, t, Held(LaneOf(worker)));
    CountUpdates(tasks, i, t, Held(lane));
  }

  /** Two tasks, and a worker of another lane that claims for its own lane and then, as
      the command line does by default, for the local one. */
  function OverrunningRun(worker: string): seq<Step> {
    [Enqueue(0, None)] + [Enqueue(0, None)] + [DoClaim(worker, LaneOf(worker))] + [DoClaim(worker, LOCAL)]
  }

  lemma AfterSnoc(steps: seq<Step>, step: Step, slots: string -> nat)
    ensures After(steps + [step], slots) == Apply(After(steps, slots), step, slots)
  {
    assert (steps + [step])[..|steps|] == steps;
  }

  /** From the empty ledger, with one slot everywhere, that lane comes to hold two tasks. */
  lemma ForeignLaneOverruns(worker: string, slots: string -> nat)
    requires LaneOf(worker) != LOCAL && forall lane :: slots(lane) == 1
    ensures Count(After(OverrunningRun(worker), slots).tasks, Held(LaneOf(worker))) == 2
  {
    hide LaneOf;
    var (own, ready) := (LaneOf(worker), NewTask(0, None));
    var held := ready.(status := InProgress, worker := worker);
    AfterSnoc([], Enqueue(0, None), slots);
    AfterSnoc([Enqueue(0, None)], Enqueue(0, None), slots);
    AfterSnoc([Enqueue(0, None)] + [Enqueue(0, None)], DoClaim(worker, own), slots);
    AfterSnoc([Enqueue(0, None)] + [Enqueue(0, None)] + [DoClaim(worker, own)], DoClaim(worker, LOCAL), slots);
    assert [] + [Enqueue(0, None)] == [Enqueue(0, None)];
    Nothing(slots);
    hide After;
    assert After([Enqueue(0, None)] + [Enqueue(0, None)], slots).tasks == [ready, ready];
    FirstOfTwo(ready, ready, ToImplement(own));
    FirstOfTwo(held, ready, ToImplement(LOCAL));
    TwoTasks(ready, ready, Held(own));
    TwoTasks(held, ready, Held(own));
    TwoTasks(held, ready, Held(LOCAL));
    TwoTasks(held, ready, UnderReview);
    TwoTasks(held, held, Held(own));
    hide Count, Pick;
    assert [ready, ready][0 := held] == [held, ready] && [held, ready][1 := held] == [held, held];
    assert Claimed([ready, ready], worker, own, slots(own)).0 == [held, ready];
    assert Claimed([held, ready], worker, LOCAL, slots(LOCAL)).0 == [held, held];
    assert After(OverrunningRun(worker), slots).tasks == [held, held];
  }

  lemma FirstOfTwo(a: Task, b: Task, want: Want)
    requires b == NewTask(0, None) && want.ToImplement? && (a == b || a.status == InProgress)
    ensures Pick([a, b], want, 2) == Some(if a == b then 0 else 1)
  {
    PickIsBest([a, b], want, 2);
    hide Pick;
    assert Wanted([a, b][1], 1, want) && (Wanted([a, b][0], 0, want) <==> a == b);
  }

  lemma TwoTasks(a: Task, b: Task, load: Load)
    ensures Count([a, b], load) == (if Counts(a, load) then 1 else 0) + (if Counts(b, load) then 1 else 0)
  {
    hide LaneOf;
    assert [a, b][..1] == [a] && [a][..0] == [];
    assert Count([a], load) == if Counts(a, load) then 1 else 0;
  }
}

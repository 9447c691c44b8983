/** dev_pipeline.py: a staged task that any number of workers may resume, its fix
    budget kept in the queue's checkpoint under a lease. */
module DevPipeline {
  import opened Common
  import opened JobQueue

  /** Between which two saves a running pipeline stands. `Fixing` holds the round of
      a model call that is due, `Fixed` of one that came back. A
      `Broken` pipeline has raised and only leaves its job. */
  datatype Phase = AtStage | Working | Judged(digest: string) | Fixing(round: nat) | Fixed(round: nat, worked: bool) | Broken

  /** A worker's pipeline: its job and its own copy of the checkpoint. */
  datatype Pipe = Pipe(job: nat, mine: Progress, phase: Phase)

  /** The queue, the pipelines alive, and for each job the rounds of its fix calls, in order. */
  datatype World = World(jobs: seq<Job>, pipes: map<string, Pipe>, fixes: map<nat, seq<nat>>)

  datatype Step =
    | Submit(now: int)
    | Start(worker: string, seconds: int, clock: nat -> int)
    | StartThenDie(worker: string, seconds: int, now: int)
    | Beat(worker: string, seconds: int, now: int)
    | StageDone(worker: string, now: int)
    | Tested(worker: string, passed: bool, missing: nat, digest: string, now: int)
    | PassOn(worker: string, now: int)
    | BeginFix(worker: string, now: int)
    | CallFix(worker: string, worked: bool)
    | EndFix(worker: string, now: int)
    | Published(worker: string, now: int)
    | Finish(worker: string, now: int)
    | Skip(worker: string, now: int)   // codex is off: the job is completed as it is
    | Quit(worker: string, ending: Ending, maxAttempts: int, now: int)
    | Vanish(worker: string)

  /** What the runs depend on: each job's own `max_fix_rounds`, if its payload gives
      one, and each worker's settings: its fallback for that, and whether codex is on. */
  datatype Config = Config(rounds: nat -> Option<nat>, fallback: string -> nat, codex: string -> bool)

  function LimitFor(config: Config, job: nat, worker: string): nat {
    if config.rounds(job).Some? then config.rounds(job).value else config.fallback(worker)
  }

  function Drop(w: World, worker: string): World { w.(pipes := w.pipes - {worker}) }

  function Break(w: World, worker: string): World
    requires worker in w.pipes
  {
    w.(pipes := w.pipes[worker := w.pipes[worker].(phase := Broken)])
  }

  /** `_save`: the checkpoint is written under the lease, or the pipeline breaks. */
  function Save(w: World, worker: string, mine: Progress, phase: Phase, now: int): World
    requires worker in w.pipes
  {
    match Checkpoint(w.jobs, w.pipes[worker].job, worker, mine, now)
    case Commit(jobs, _) => w.(jobs := jobs, pipes := w.pipes[worker := Pipe(w.pipes[worker].job, mine, phase)])
    case Abort(_) => Break(w, worker)
  }

  function Calls(w: World, job: nat): seq<nat> { if job in w.fixes then w.fixes[job] else [] }

  function NextStage(s: Stage): Stage {
    match s
    case Spec => Implement
    case Implement => Verify
    case Verify => Publish
    case Publish => Finished
    case Finished => Finished
  }

  predicate Passed(p: Progress) { p.testsPassed && p.unreferenced == 0 }

  /** A fix round that changed nothing about the failure. */
  predicate Stalled(p: Progress, digest: string) {
    p.fixRounds > 0 && p.fixCompleted == p.fixRounds && p.lastFailure == Some(digest)
  }

  function Judgement(w: World, worker: string, limit: nat, now: int): World
    requires worker in w.pipes && w.pipes[worker].phase.Judged?
  {
    var pipe := w.pipes[worker];
    var mine := pipe.mine;
    if mine.fixRounds >= limit || Stalled(mine, pipe.phase.digest) then
      Break(w, worker)
    else
      Save(w, worker, mine.(fixRounds := mine.fixRounds + 1, lastFailure := Some(pipe.phase.digest)), Fixing(mine.fixRounds + 1), now)
  }

  /** A claim whose process dies before it reads the row it leased. */
  function LeasedFirst(jobs: seq<Job>, worker: string, seconds: int, now: int): seq<Job> {
    var first := First(jobs, now, 0);
    if first.None? then jobs else jobs[first.value := Lease(jobs[first.value], worker, now + seconds)]
  }

  /** The model call of a fix round. */
  function Called(w: World, worker: string, worked: bool): World
    requires worker in w.pipes && w.pipes[worker].phase.Fixing?
  {
    var pipe := w.pipes[worker];
    w.(fixes := w.fixes[pipe.job := Calls(w, pipe.job) + [pipe.phase.round]],
       pipes := w.pipes[worker := pipe.(phase := Fixed(pipe.phase.round, worked))])
  }

  predicate Alive(w: World, worker: string) { worker in w.pipes }

  function Apply(w: World, step: Step, config: Config): World {
    match step
    case Submit(now) => w.(jobs := w.jobs + [NewJob(false, now)])
    case Start(worker, seconds, clock) =>
      if Alive(w, worker) then w
      else
        var (jobs, found) := Claim(w.jobs, worker, seconds, clock, 0);
        var u := w.(jobs := jobs);
        if found.Some? && found.value < |jobs| then u.(pipes := u.pipes[worker := Pipe(found.value, jobs[found.value].progress, AtStage)]) else u
    case StartThenDie(worker, seconds, now) =>
      if Alive(w, worker) then w else w.(jobs := LeasedFirst(w.jobs, worker, seconds, now))
    case Beat(worker, seconds, now) =>
      if !(Alive(w, worker) && config.codex(worker) && w.pipes[worker].phase.AtStage? && w.pipes[worker].mine.stage != Finished) then w
      else
        (match Heartbeat(w.jobs, w.pipes[worker].job, worker, seconds, now)
         case Commit(jobs, _) => w.(jobs := jobs, pipes := w.pipes[worker := w.pipes[worker].(phase := Working)])
         case Abort(_) => Break(w, worker))
    case StageDone(worker, now) =>
      if !(Alive(w, worker) && w.pipes[worker].phase.Working? && w.pipes[worker].mine.stage in {Spec, Implement}) then w
      else Save(w, worker, w.pipes[worker].mine.(stage := NextStage(w.pipes[worker].mine.stage)), AtStage, now)
    case Tested(worker, passed, missing, digest, now) =>
      if !(Alive(w, worker) && w.pipes[worker].phase.Working? && w.pipes[worker].mine.stage == Verify) then w
      else Save(w, worker, w.pipes[worker].mine.(testsPassed := passed, unreferenced := missing), Judged(digest), now)
    case PassOn(worker, now) =>
      if !(Alive(w, worker) && w.pipes[worker].phase.Judged? && Passed(w.pipes[worker].mine)) then w
      else Save(w, worker, w.pipes[worker].mine.(stage := Publish), AtStage, now)
    case BeginFix(worker, now) =>
      if !(Alive(w, worker) && w.pipes[worker].phase.Judged? && !Passed(w.pipes[worker].mine)) then w
      else Judgement(w, worker, LimitFor(config, w.pipes[worker].job, worker), now)
    case CallFix(worker, worked) =>
      if !(Alive(w, worker) && w.pipes[worker].phase.Fixing?) then w else Called(w, worker, worked)
    case EndFix(worker, now) =>
      if !(Alive(w, worker) && w.pipes[worker].phase.Fixed? && w.pipes[worker].phase.worked) then w
      else Save(w, worker, w.pipes[worker].mine.(fixCompleted := w.pipes[worker].phase.round), AtStage, now)
    case Published(worker, now) =>
      if !(Alive(w, worker) && w.pipes[worker].phase.Working? && w.pipes[worker].mine.stage == Publish) then w
      else Save(w, worker, w.pipes[worker].mine.(stage := Finished), AtStage, now)
    case Finish(worker, now) =>
      if !(Alive(w, worker) && config.codex(worker) && w.pipes[worker].phase.AtStage? && w.pipes[worker].mine.stage == Finished) then w
      else Drop(w.(jobs := Settle(w.jobs, w.pipes[worker].job, worker, Finishes, 0, now)), worker)
    case Skip(worker, now) =>
      if !(Alive(w, worker) && !config.codex(worker) && w.pipes[worker].phase.AtStage?) then w
      else Drop(w.(jobs := Settle(w.jobs, w.pipes[worker].job, worker, Finishes, 0, now)), worker)
    case Quit(worker, ending, maxAttempts, now) =>
      if !Alive(w, worker) || ending.Finishes? then w
      else Drop(w.(jobs := Settle(w.jobs, w.pipes[worker].job, worker, ending, maxAttempts, now)), worker)
    case Vanish(worker) => Drop(w, worker)
  }

  function Empty(): World { World([], map[], map[]) }

  function After(steps: seq<Step>, config: Config): World {
    if steps == [] then Empty() else Apply(After(steps[..|steps| - 1], config), steps[|steps| - 1], config)
  }

  // -------------------------------------------------------------------- invariant

  /** Rounds are only ever spent within the limit of some worker. */
  ghost predicate Within(config: Config, job: nat, rounds: nat) {
    rounds == 0 || exists worker :: rounds <= LimitFor(config, job, worker)
  }

  /** What a checkpoint may say: fixing within budget, publishing only what passed. */
  ghost predicate ProgressOk(config: Config, job: nat, p: Progress) {
    Within(config, job, p.fixRounds) && (p.stage in {Publish, Finished} ==> Passed(p))
  }

  /** A pipeline whose worker still holds the job has exactly the stored checkpoint;
      a stale one is at most behind. */
  ghost predicate PipeOk(w: World, worker: string, config: Config)
    requires worker in w.pipes
  {
    var pipe := w.pipes[worker];
    && pipe.job < |w.jobs| && ProgressOk(config, pipe.job, pipe.mine)
    && pipe.mine.fixRounds <= w.jobs[pipe.job].progress.fixRounds
    && (w.jobs[pipe.job].status == Running && w.jobs[pipe.job].worker == Some(worker) ==> w.jobs[pipe.job].progress == pipe.mine)
    && (pipe.phase.Judged? || pipe.phase.Fixing? || pipe.phase.Fixed? ==> pipe.mine.stage == Verify)
    && (pipe.phase.Fixing? ==>
          pipe.phase.round == pipe.mine.fixRounds && pipe.phase.round >= 1 && pipe.phase.round !in Calls(w, pipe.job))
  }

  /** No two pipelines are about to make the same round's fix call. */
  ghost predicate RoundsApart(w: World) {
    forall a, b | a in w.pipes && b in w.pipes && w.pipes[a].phase.Fixing? && w.pipes[b].phase.Fixing?
      && w.pipes[a].job == w.pipes[b].job && w.pipes[a].phase.round == w.pipes[b].phase.round :: a == b
  }

  ghost predicate Distinct(s: seq<nat>) { forall i, j | 0 <= i < j < |s| :: s[i] != s[j] }

  ghost predicate CallsOk(w: World, job: nat)
    requires job < |w.jobs|
  {
    Distinct(Calls(w, job)) && forall i | 0 <= i < |Calls(w, job)| :: 1 <= Calls(w, job)[i] <= w.jobs[job].progress.fixRounds
  }

  ghost predicate JobOk(config: Config, i: nat, j: Job) {
    ProgressOk(config, i, j.progress) && (j.status == Running ==> j.worker.Some?)
  }

  ghost predicate Sound(w: World, config: Config) {
    && (forall i | 0 <= i < |w.jobs| :: JobOk(config, i, w.jobs[i]) && CallsOk(w, i))
    && (forall i | i in w.fixes :: i < |w.jobs|)
    && (forall worker | worker in w.pipes :: PipeOk(w, worker, config))
    && RoundsApart(w)
  }

  // ------------------------------------------------------------------ every step

  /** Rows that move without touching a checkpoint: nobody gets a lease that has a
      pipeline already, and what gets done is finished. */
  ghost predicate RowsMove(w: World, jobs: seq<Job>) {
    && |w.jobs| <= |jobs|
    && (forall i | 0 <= i < |w.jobs| ::
          && jobs[i].progress == w.jobs[i].progress
          && (jobs[i].status == Running ==> jobs[i].worker.Some?)
          && (jobs[i].status == Running && jobs[i].worker.Some? && jobs[i].worker.value in w.pipes ==>
                w.jobs[i].status == Running && w.jobs[i].worker == jobs[i].worker))
    && (forall i | |w.jobs| <= i < |jobs| :: jobs[i].status == Queued && jobs[i].progress == FRESH)
  }

  lemma RowsKeep(w: World, jobs: seq<Job>, config: Config)
    requires Sound(w, config) && RowsMove(w, jobs)
    ensures Sound(w.(jobs := jobs), config)
  {
    var n := w.(jobs := jobs);
    forall i | 0 <= i < |n.jobs| ensures JobOk(config, i, n.jobs[i]) && CallsOk(n, i) {
      if i < |w.jobs| { assert JobOk(config, i, w.jobs[i]) && CallsOk(w, i); }
    }
    forall worker | worker in n.pipes ensures PipeOk(n, worker, config) { assert PipeOk(w, worker, config); }
  }

  lemma DropKeeps(w: World, worker: string, config: Config)
    requires Sound(w, config)
    ensures Sound(Drop(w, worker), config)
  {
    var n := Drop(w, worker);
    forall i | 0 <= i < |n.jobs| ensures CallsOk(n, i) { assert CallsOk(w, i); }
    forall v | v in n.pipes ensures PipeOk(n, v, config) { assert PipeOk(w, v, config); }
  }

  /** A pipeline moves on without a save. */
  lemma PhaseKeeps(w: World, worker: string, phase: Phase, config: Config)
    requires Sound(w, config) && worker in w.pipes && (phase.AtStage? || phase.Working? || phase.Broken?)
    ensures Sound(w.(pipes := w.pipes[worker := w.pipes[worker].(phase := phase)]), config)
  {
    var n := w.(pipes := w.pipes[worker := w.pipes[worker].(phase := phase)]);
    assert RoundsApart(n) by { hide PipeOk, JobOk, CallsOk; }
    hide RoundsApart, JobOk, ProgressOk, Distinct;
    forall i | 0 <= i < |n.jobs| ensures CallsOk(n, i) { assert CallsOk(w, i); }
    forall v | v in n.pipes ensures PipeOk(n, v, config) { assert PipeOk(w, v, config); }
  }

  /** A saved checkpoint: within budget, passed before it is published, and a fix
      round only ever one beyond the last. */
  lemma SaveKeeps(w: World, worker: string, mine: Progress, phase: Phase, now: int, config: Config)
    requires Sound(w, config) && worker in w.pipes && ProgressOk(config, w.pipes[worker].job, mine)
    requires mine.fixRounds >= w.pipes[worker].mine.fixRounds
    requires phase.Judged? || phase.Fixing? ==> mine.stage == Verify
    requires !phase.Fixed? && (phase.Fixing? ==> phase.round == mine.fixRounds == w.pipes[worker].mine.fixRounds + 1)
    ensures Sound(Save(w, worker, mine, phase, now), config)
  {
    var pipe := w.pipes[worker];
    var tx := Checkpoint(w.jobs, pipe.job, worker, mine, now);
    PhaseKeeps(w, worker, Broken, config);
    if tx.Commit? {
      var n := w.(jobs := tx.state, pipes := w.pipes[worker := Pipe(pipe.job, mine, phase)]);
      assert PipeOk(w, worker, config);
      forall i | 0 <= i < |n.jobs| ensures JobOk(config, i, n.jobs[i]) && CallsOk(n, i) {
        assert JobOk(config, i, w.jobs[i]) && CallsOk(w, i);
      }
      forall v | v in n.pipes ensures PipeOk(n, v, config) {
        assert PipeOk(w, v, config);
        if v == worker && phase.Fixing? { assert CallsOk(w, pipe.job); }
      }
      assert RoundsApart(n) by { SavedRound(w, worker, phase, config); }
    }
  }

  lemma SavedRound(w: World, worker: string, phase: Phase, config: Config)
    requires RoundsApart(w) && worker in w.pipes && w.pipes[worker].job < |w.jobs|
    requires forall a | a in w.pipes :: PipeOk(w, a, config)
    requires phase.Fixing? ==> phase.round == w.jobs[w.pipes[worker].job].progress.fixRounds + 1
    ensures forall a | a in w.pipes && a != worker && w.pipes[a].phase.Fixing? && w.pipes[a].job == w.pipes[worker].job && phase.Fixing? ::
      w.pipes[a].phase.round != phase.round
  {
    forall a | a in w.pipes && a != worker && w.pipes[a].phase.Fixing? && w.pipes[a].job == w.pipes[worker].job && phase.Fixing?
      ensures w.pipes[a].phase.round != phase.round
    {
      assert PipeOk(w, a, config);
    }
  }

  lemma ClaimMoves(w: World, jobs: seq<Job>, found: Option<nat>, worker: string, seconds: int, clock: nat -> int, config: Config)
    requires Sound(w, config) && worker !in w.pipes && SafeClaim(w.jobs, jobs, found, worker, seconds, clock)
    ensures RowsMove(w, jobs)
  {
    assert found.Some? ==> jobs[found.value].worker == Some(worker) && jobs[found.value].status == Running;
    forall i | 0 <= i < |w.jobs| && jobs[i].status == Running ensures jobs[i].worker.Some? {
      assert JobOk(config, i, w.jobs[i]);
    }
  }

  lemma StartKeeps(w: World, worker: string, seconds: int, clock: nat -> int, config: Config)
    requires Sound(w, config)
    ensures Sound(Apply(w, Start(worker, seconds, clock), config), config)
  {
    if worker !in w.pipes {
      ClaimSafe(w.jobs, worker, seconds, clock, 0);
      var (jobs, found) := Claim(w.jobs, worker, seconds, clock, 0);
      hide Claim;
      assert RowsMove(w, jobs) by { ClaimMoves(w, jobs, found, worker, seconds, clock, config); }
      RowsKeep(w, jobs, config);
      if found.Some? { NewPipe(w.(jobs := jobs), worker, found.value, config); }
    }
  }

  lemma NewPipe(w: World, worker: string, job: nat, config: Config)
    requires Sound(w, config) && worker !in w.pipes && job < |w.jobs|
    ensures Sound(w.(pipes := w.pipes[worker := Pipe(job, w.jobs[job].progress, AtStage)]), config)
  {
    var n := w.(pipes := w.pipes[worker := Pipe(job, w.jobs[job].progress, AtStage)]);
    forall i | 0 <= i < |n.jobs| ensures CallsOk(n, i) { assert CallsOk(w, i); }
    assert JobOk(config, job, w.jobs[job]);
    forall v | v in n.pipes ensures PipeOk(n, v, config) { if v != worker { assert PipeOk(w, v, config); } }
  }

  lemma CallKeeps(w: World, worker: string, worked: bool, config: Config)
    requires Sound(w, config) && worker in w.pipes && w.pipes[worker].phase.Fixing?
    ensures Sound(Called(w, worker, worked), config)
  {
    var n := Called(w, worker, worked);
    var pipe := w.pipes[worker];
    assert PipeOk(w, worker, config);
    forall i | 0 <= i < |n.jobs| ensures JobOk(config, i, n.jobs[i]) && CallsOk(n, i) {
      assert JobOk(config, i, w.jobs[i]) && CallsOk(w, i);
      if i == pipe.job { OneMoreCall(Calls(w, i), pipe.phase.round); }
    }
    hide JobOk, ProgressOk, CallsOk;
    forall v | v in n.pipes ensures PipeOk(n, v, config) { PipeAfterCall(w, worker, worked, v, config); }
    assert RoundsApart(n) by { hide PipeOk; }
  }

  lemma PipeAfterCall(w: World, worker: string, worked: bool, v: string, config: Config)
    requires worker in w.pipes && w.pipes[worker].phase.Fixing? && v in w.pipes && PipeOk(w, worker, config) && PipeOk(w, v, config) && RoundsApart(w)
    ensures PipeOk(Called(w, worker, worked), v, config)
  {
    hide ProgressOk;
    var n := Called(w, worker, worked);
    var pipe := w.pipes[worker];
    assert Calls(n, pipe.job) == Calls(w, pipe.job) + [pipe.phase.round];
    assert w.pipes[v].job != pipe.job ==> Calls(n, w.pipes[v].job) == Calls(w, w.pipes[v].job);
  }

  lemma OneMoreCall(s: seq<nat>, round: nat)
    requires Distinct(s) && round !in s
    ensures Distinct(s + [round])
  {
    assert forall k | 0 <= k < |s| :: s[k] in s;
  }

  /** An owner's way out of a job: deferred, failed, or done when it is finished. */
  lemma SettleKeeps(w: World, worker: string, ending: Ending, maxAttempts: int, now: int, config: Config)
    requires Sound(w, config) && worker in w.pipes
    ensures Sound(w.(jobs := Settle(w.jobs, w.pipes[worker].job, worker, ending, maxAttempts, now)), config)
  {
    assert PipeOk(w, worker, config);
    var jobs := Settle(w.jobs, w.pipes[worker].job, worker, ending, maxAttempts, now);
    assert forall i | 0 <= i < |w.jobs| :: JobOk(config, i, w.jobs[i]);
    assert RowsMove(w, jobs);
    RowsKeep(w, jobs, config);
  }

  lemma StepKeeps(w: World, step: Step, config: Config)
    requires Sound(w, config)
    ensures Sound(Apply(w, step, config), config)
  {
    hide RowsMove, Settle, Claim, Save, CallsOk, RoundsApart, Called, LeasedFirst;
    match step {
      case Submit(now) => SubmitKeeps(w, now, config);
      case Start(worker, seconds, clock) => StartKeeps(w, worker, seconds, clock, config);
      case StartThenDie(worker, seconds, now) => if worker !in w.pipes { DieKeeps(w, worker, seconds, now, config); }
      case Beat(worker, seconds, now) => BeatKeeps(w, worker, seconds, now, config);
      case CallFix(worker, worked) => if worker in w.pipes && w.pipes[worker].phase.Fixing? { CallKeeps(w, worker, worked, config); }
      case Vanish(worker) => DropKeeps(w, worker, config);
      case _ => SavingKeeps(w, step, config);
    }
  }

  lemma SubmitKeeps(w: World, now: int, config: Config)
    requires Sound(w, config)
    ensures Sound(w.(jobs := w.jobs + [NewJob(false, now)]), config)
  {
    assert forall i | 0 <= i < |w.jobs| :: JobOk(config, i, w.jobs[i]);
    RowsKeep(w, w.jobs + [NewJob(false, now)], config);
  }

  lemma DieKeeps(w: World, worker: string, seconds: int, now: int, config: Config)
    requires Sound(w, config) && worker !in w.pipes
    ensures Sound(w.(jobs := LeasedFirst(w.jobs, worker, seconds, now)), config)
  {
    assert RowsMove(w, LeasedFirst(w.jobs, worker, seconds, now)) by {
      assert forall i | 0 <= i < |w.jobs| :: JobOk(config, i, w.jobs[i]);
      hide PipeOk, RoundsApart, CallsOk;
    }
    RowsKeep(w, LeasedFirst(w.jobs, worker, seconds, now), config);
  }

  lemma BeatKeeps(w: World, worker: string, seconds: int, now: int, config: Config)
    requires Sound(w, config)
    ensures Sound(Apply(w, Beat(worker, seconds, now), config), config)
  {
    if worker in w.pipes {
      PhaseKeeps(w, worker, Broken, config);
      var tx := Heartbeat(w.jobs, w.pipes[worker].job, worker, seconds, now);
      if tx.Commit? {
        assert forall i | 0 <= i < |w.jobs| :: JobOk(config, i, w.jobs[i]);
        assert RowsMove(w, tx.state);
        RowsKeep(w, tx.state, config);
        PhaseKeeps(w.(jobs := tx.state), worker, Working, config);
      }
    }
  }

  lemma SavingKeeps(w: World, step: Step, config: Config)
    requires Sound(w, config)
    requires step.StageDone? || step.Tested? || step.PassOn? || step.BeginFix? || step.EndFix? || step.Published? || step.Finish? || step.Skip? || step.Quit?
    ensures Sound(Apply(w, step, config), config)
  {
    hide RowsMove, Settle, Save, CallsOk, RoundsApart;
    if step.worker in w.pipes {
      var pipe := w.pipes[step.worker];
      assert PipeOk(w, step.worker, config);
      match step {
        case StageDone(worker, now) =>
          if pipe.mine.stage in {Spec, Implement} {
            SaveKeeps(w, worker, pipe.mine.(stage := NextStage(pipe.mine.stage)), AtStage, now, config);
          }
        case Tested(worker, passed, missing, digest, now) =>
          if pipe.mine.stage == Verify {
            SaveKeeps(w, worker, pipe.mine.(testsPassed := passed, unreferenced := missing), Judged(digest), now, config);
          }
        case PassOn(worker, now) =>
          if Passed(pipe.mine) { SaveKeeps(w, worker, pipe.mine.(stage := Publish), AtStage, now, config); }
        case BeginFix(worker, now) =>
          if pipe.phase.Judged? {
            if pipe.mine.fixRounds >= LimitFor(config, pipe.job, worker) || Stalled(pipe.mine, pipe.phase.digest) {
              PhaseKeeps(w, worker, Broken, config);
            } else {
              SaveKeeps(w, worker, pipe.mine.(fixRounds := pipe.mine.fixRounds + 1, lastFailure := Some(pipe.phase.digest)),
                        Fixing(pipe.mine.fixRounds + 1), now, config);
            }
          }
        case EndFix(worker, now) =>
          if pipe.phase.Fixed? { SaveKeeps(w, worker, pipe.mine.(fixCompleted := pipe.phase.round), AtStage, now, config); }
        case Published(worker, now) =>
          if pipe.mine.stage == Publish { SaveKeeps(w, worker, pipe.mine.(stage := Finished), AtStage, now, config); }
        case Finish(worker, now) =>
          if pipe.mine.stage == Finished {
            SettleKeeps(w, worker, Finishes, 0, now, config);
            DropKeeps(w.(jobs := Settle(w.jobs, pipe.job, worker, Finishes, 0, now)), worker, config);
          }
        case Skip(worker, now) =>
          SettleKeeps(w, worker, Finishes, 0, now, config);
          DropKeeps(w.(jobs := Settle(w.jobs, pipe.job, worker, Finishes, 0, now)), worker, config);
        case Quit(worker, ending, maxAttempts, now) =>
          if !ending.Finishes? {
            SettleKeeps(w, worker, ending, maxAttempts, now, config);
            DropKeeps(w.(jobs := Settle(w.jobs, pipe.job, worker, ending, maxAttempts, now)), worker, config);
          }
      }
    }
  }

  lemma {:induction false} RunKeeps(steps: seq<Step>, config: Config)
    ensures Sound(After(steps, config), config)
  {
    hide Apply;
    if steps != [] {
      RunKeeps(steps[..|steps| - 1], config);
      StepKeeps(After(steps[..|steps| - 1], config), steps[|steps| - 1], config);
    }
  }

  /** Different numbers between 1 and n are at most n many. */
  lemma {:induction false} Pigeonhole(s: seq<nat>, n: nat)
    requires Distinct(s) && forall i | 0 <= i < |s| :: 1 <= s[i] <= n
    ensures |s| <= n
  {
    if s != [] {
      assert 1 <= s[0] <= n;
      if n in s {
        var k :| 0 <= k < |s| && s[k] == n;
        var rest := s[..k] + s[k + 1..];
        forall i | 0 <= i < |rest| ensures 1 <= rest[i] <= n - 1 { assert rest[i] == s[if i < k then i else i + 1]; }
        assert Distinct(rest);
        Pigeonhole(rest, n - 1);
      } else {
        forall i | 0 <= i < |s| ensures 1 <= s[i] <= n - 1 { assert s[i] in s; }
        Pigeonhole(s, n - 1);
      }
    }
  }

  /** Over all resumes, crashes, lost leases and overlapping workers, a job's fix
      calls carry different round numbers and never exceed its budget: the job's own
      limit, or, where its payload leaves that open, the largest limit of any worker. */
  lemma FixBudgetHolds(steps: seq<Step>, config: Config, job: nat)
    requires job < |After(steps, config).jobs|
    ensures Distinct(Calls(After(steps, config), job)) && Within(config, job, |Calls(After(steps, config), job)|)
    ensures config.rounds(job).Some? ==> |Calls(After(steps, config), job)| <= config.rounds(job).value
  {
    RunKeeps(steps, config);
    var w := After(steps, config);
    assert JobOk(config, job, w.jobs[job]) && CallsOk(w, job);
    Pigeonhole(Calls(w, job), w.jobs[job].progress.fixRounds);
    if w.jobs[job].progress.fixRounds > 0 {
      var worker :| w.jobs[job].progress.fixRounds <= LimitFor(config, job, worker);
      assert |Calls(w, job)| <= LimitFor(config, job, worker);
    }
  }

  /** A task is published only after a verification with passing tests and no
      unreferenced acceptance criterion. */
  lemma PublishedWasVerified(steps: seq<Step>, config: Config, job: nat)
    requires job < |After(steps, config).jobs|
    ensures var j := After(steps, config).jobs[job];
      j.progress.stage in {Publish, Finished} ==> j.progress.testsPassed && j.progress.unreferenced == 0
  {
    RunKeeps(steps, config);
    assert JobOk(config, job, After(steps, config).jobs[job]);
  }

  /** The step takes the job to done. */
  predicate Completes(w: World, n: World, job: nat) {
    job < |w.jobs| && job < |n.jobs| && w.jobs[job].status != Done && n.jobs[job].status == Done
  }

  /** What a completed job should look like: published after a passed verification. */
  predicate Delivered(p: Progress) { p.stage == Finished && Passed(p) }

  lemma OnlyEndingsComplete(w: World, step: Step, config: Config, job: nat)
    requires Completes(w, Apply(w, step, config), job)
    ensures (step.Finish? || step.Skip?) && step.worker in w.pipes && w.pipes[step.worker].job == job
    ensures Owned(w.jobs[job], step.worker, step.now) && Apply(w, step, config).jobs[job].progress == w.jobs[job].progress
    ensures if step.Finish? then config.codex(step.worker) && w.pipes[step.worker].mine.stage == Finished else !config.codex(step.worker)
  {
    hide Claim;
    if step.Start? { ClaimSafe(w.jobs, step.worker, step.seconds, step.clock, 0); }
  }

  /** The exact condition: a completion leaves a delivered task if and only if codex was on
      for the worker that completed it, or the checkpoint had already reached the end. */
  lemma CompletionExact(steps: seq<Step>, step: Step, config: Config, job: nat)
    requires Completes(After(steps, config), Apply(After(steps, config), step, config), job)
    ensures step.Finish? || step.Skip?
    ensures Delivered(Apply(After(steps, config), step, config).jobs[job].progress)
            <==> config.codex(step.worker) || After(steps, config).jobs[job].progress.stage == Finished
  {
    var w := After(steps, config);
    RunKeeps(steps, config);
    OnlyEndingsComplete(w, step, config, job);
    hide Apply, After;
    assert JobOk(config, job, w.jobs[job]) && PipeOk(w, step.worker, config);
  }

  /** Where codex is on for every worker, done means delivered, over every run. */
  lemma {:induction false} DoneIsDelivered(steps: seq<Step>, config: Config, job: nat)
    requires (forall worker :: config.codex(worker)) && job < |After(steps, config).jobs|
    requires After(steps, config).jobs[job].status == Done
    ensures Delivered(After(steps, config).jobs[job].progress)
  {
    var shorter := steps[..|steps| - 1];
    var step := steps[|steps| - 1];
    var w := After(shorter, config);
    DoneWasThere(w, step, config, job);
    if w.jobs[job].status == Done {
      DoneIsDelivered(shorter, config, job);
      DoneStays(w, step, config, job);
    } else {
      CompletionExact(shorter, step, config, job);
    }
  }

  lemma DoneStays(w: World, step: Step, config: Config, job: nat)
    requires job < |w.jobs| && w.jobs[job].status == Done
    ensures job < |Apply(w, step, config).jobs| && Apply(w, step, config).jobs[job] == w.jobs[job]
  {
    hide Claim;
    if step.Start? {
      var s := System(w.jobs, []);
      ClaimingIsClaim(s, step.worker, step.seconds, step.clock, 0);
      ClaimingSpares(s, step.worker, step.seconds, step.clock, 0, job);
    }
  }

  lemma DoneWasThere(w: World, step: Step, config: Config, job: nat)
    requires job < |Apply(w, step, config).jobs| && Apply(w, step, config).jobs[job].status == Done
    ensures job < |w.jobs|
  {
    hide Claim;
    if step.Start? { ClaimSafe(w.jobs, step.worker, step.seconds, step.clock, 0); }
  }

  /** The settings as they are by default: codex is off. */
  function Default(): Config { Config((job: nat) => None, (worker: string) => 3, (worker: string) => false) }

  function SkippingRun(): seq<Step> { [Submit(0)] + [Start("w", 300, (n: nat) => 0)] + [Skip("w", 1)] }

  /** With the default settings a run from the empty queue ends with a done job that
      was never specified, implemented or verified. */
  lemma DoneUnverified()
    ensures var w := After(SkippingRun(), Default());
      |w.jobs| == 1 && w.jobs[0].status == Done && w.jobs[0].progress.stage == Spec && !w.jobs[0].progress.testsPassed
  {
    var (config, clock) := (Default(), (n: nat) => 0);
    var submitted := Apply(Empty(), Submit(0), config);
    assert After([Submit(0)], config) == submitted by { assert [Submit(0)][..0] == []; }
    var (a, b) := ([Submit(0)], [Submit(0)] + [Start("w", 300, clock)]);
    assert b[..1] == a && SkippingRun()[..2] == b;
    assert First(submitted.jobs, 0, 0) == Some(0);
    assert submitted.jobs == [NewJob(false, 0)] && submitted.jobs[0 := Lease(NewJob(false, 0), "w", 300)] == [Lease(NewJob(false, 0), "w", 300)];
    assert Claim(submitted.jobs, "w", 300, clock, 0) == ([Lease(NewJob(false, 0), "w", 300)], Some(0));
    var started := Apply(submitted, Start("w", 300, clock), config);
    assert After(b, config) == started;
    assert After(SkippingRun(), config) == Apply(started, Skip("w", 1), config);
  }

  function Rank(s: Stage): nat {
    match s
    case Spec => 0
    case Implement => 1
    case Verify => 2
    case Publish => 3
    case Finished => 4
  }

  /** A checkpoint only moves forward. */
  ghost predicate Forward(before: seq<Job>, after: seq<Job>) {
    |before| <= |after| && forall i | 0 <= i < |before| ::
      Rank(before[i].progress.stage) <= Rank(after[i].progress.stage) && before[i].progress.fixRounds <= after[i].progress.fixRounds
  }

  lemma SaveForward(w: World, worker: string, mine: Progress, phase: Phase, now: int, config: Config)
    requires Sound(w, config) && worker in w.pipes
    requires Rank(w.pipes[worker].mine.stage) <= Rank(mine.stage) && w.pipes[worker].mine.fixRounds <= mine.fixRounds
    ensures Forward(w.jobs, Save(w, worker, mine, phase, now).jobs)
  {
    assert PipeOk(w, worker, config);
  }

  lemma StepForward(w: World, step: Step, config: Config)
    requires Sound(w, config)
    ensures Forward(w.jobs, Apply(w, step, config).jobs)
  {
    hide Sound, Save, Claim;
    if step.Start? { ClaimSafe(w.jobs, step.worker, step.seconds, step.clock, 0); }
    else if !step.Submit? && step.worker in w.pipes {
      var mine := w.pipes[step.worker].mine;
      match step
      case StageDone(worker, now) => SaveForward(w, worker, mine.(stage := NextStage(mine.stage)), AtStage, now, config);
      case Tested(worker, passed, missing, digest, now) =>
        SaveForward(w, worker, mine.(testsPassed := passed, unreferenced := missing), Judged(digest), now, config);
      case PassOn(worker, now) => JudgedIsVerify(w, worker, config); if mine.stage == Verify { SaveForward(w, worker, mine.(stage := Publish), AtStage, now, config); }
      case BeginFix(worker, now) =>
        if w.pipes[worker].phase.Judged? {
          SaveForward(w, worker, mine.(fixRounds := mine.fixRounds + 1, lastFailure := Some(w.pipes[worker].phase.digest)), Fixing(mine.fixRounds + 1), now, config);
        }
      case EndFix(worker, now) =>
        if w.pipes[worker].phase.Fixed? { SaveForward(w, worker, mine.(fixCompleted := w.pipes[worker].phase.round), AtStage, now, config); }
      case Published(worker, now) => SaveForward(w, worker, mine.(stage := Finished), AtStage, now, config);
      case _ =>
    }
  }

  lemma JudgedIsVerify(w: World, worker: string, config: Config)
    requires Sound(w, config) && worker in w.pipes
    ensures w.pipes[worker].phase.Judged? ==> w.pipes[worker].mine.stage == Verify
  {
    assert PipeOk(w, worker, config);
  }

  /** A resumed task never goes back a stage, and spent fix rounds stay spent. */
  lemma {:induction false} ResumesForward(steps: seq<Step>, n: nat, config: Config)
    requires n <= |steps|
    ensures Forward(After(steps[..n], config).jobs, After(steps, config).jobs)
  {
    hide Apply;
    if n == |steps| {
      assert steps[..n] == steps;
    } else {
      var shorter := steps[..|steps| - 1];
      assert shorter[..n] == steps[..n];
      ResumesForward(shorter, n, config);
      RunKeeps(shorter, config);
      hide Sound;
      StepForward(After(shorter, config), steps[|steps| - 1], config);
    }
  }

  // ------------------------------------------------------------- one pipeline object

  /** What one turn of the loop meets outside: whether the model and the worktree
      did their part, what the tests said, and how it ends when something breaks. */
  datatype Turn = Turn(worked: bool, passed: bool, missing: nat, digest: string, fixed: bool, trouble: Ending)

  function Reached(w: World, steps: seq<Step>, config: Config): World {
    if steps == [] then w else Apply(Reached(w, steps[..|steps| - 1], config), steps[|steps| - 1], config)
  }

  class Pipeline {
    const db: StoreDB
    const worker: string
    const job: nat
    const limit: nat
    const codex: bool
    var mine: Progress
    ghost const config: Config
    /** Where this object found the world, what it did since, and where that leads. */
    ghost const origin: World
    ghost var trace: seq<Step>
    ghost var world: World

    ghost predicate Tracked()
      reads this, db
    {
      LimitFor(config, job, worker) == limit && config.codex(worker) == codex && world.jobs == db.jobs && world == Reached(origin, trace, config) && Sound(world, config)
    }

    ghost predicate At(phase: Phase)
      reads this
    {
      worker in world.pipes && world.pipes[worker] == Pipe(job, mine, phase)
    }

    /** The pipeline has raised, but its worker still answers for the job. */
    ghost predicate Down()
      reads this
    {
      worker in world.pipes && world.pipes[worker].job == job
    }

    /** The pipeline starts from the checkpoint of the job its worker claimed. */
    constructor (db: StoreDB, worker: string, job: nat, limit: nat, codex: bool, ghost origin: World, ghost config: Config)
      requires Sound(origin, config) && origin.jobs == db.jobs && LimitFor(config, job, worker) == limit && config.codex(worker) == codex
      requires worker in origin.pipes && origin.pipes[worker].job == job && origin.pipes[worker].phase.AtStage?
      requires job < |db.jobs| && origin.pipes[worker].mine == db.jobs[job].progress
      ensures Tracked() && At(AtStage) && trace == [] && this.db == db && this.worker == worker && this.job == job && this.limit == limit && this.codex == codex
      ensures this.origin == origin && this.config == config
    {
      this.db, this.worker, this.job, this.limit, this.codex := db, worker, job, limit, codex;
      this.config, this.origin, trace, world := config, origin, [], origin;
      mine := db.jobs[job].progress;
    }

    ghost method Took(step: Step)
      requires world == Reached(origin, trace, config) && Sound(world, config)
      modifies this`trace, this`world
      ensures trace == old(trace) + [step]
      ensures world == Apply(old(world), step, config) && world == Reached(origin, trace, config) && Sound(world, config)
    {
      hide Apply, Sound;
      StepKeeps(world, step, config);
      trace := trace + [step];
      assert trace[..|trace| - 1] == old(trace);
      world := Apply(world, step, config);
    }

    method Heartbeat(seconds: int, now: int) returns (ok: bool)
      requires Tracked() && codex && At(AtStage) && mine.stage != Finished
      modifies this`trace, this`world, db
      ensures Tracked() && (if ok then At(Working) else Down())
    {
      hide Sound, Reached;
      var r := db.HeartbeatJob(job, worker, seconds, now);
      Took(Beat(worker, seconds, now));
      ok := r.Ok?;
    }

    /** `_save`: the own copy and the stored checkpoint move together, or the lease is lost. */
    method SaveAs(next: Progress, now: int, ghost step: Step, ghost from: Phase, ghost to: Phase) returns (ok: bool)
      requires Tracked() && At(from) && Apply(world, step, config) == Save(world, worker, next, to, now)
      modifies this`mine, this`trace, this`world, db
      ensures Tracked() && mine == next && (if ok then At(to) else Down())
    {
      hide Sound, Reached, Apply;
      mine := next;
      var r := db.CheckpointJob(job, worker, next, now);
      Took(step);
      ok := r.Ok?;
    }

    /** What a verification that did not pass leads to: a fix round within the budget,
        or an end when the budget is spent or the last fix changed nothing. */
    method FixRound(t: Turn, now: int, later: int) returns (ok: bool)
      requires Tracked() && At(Judged(t.digest)) && !Passed(mine) && mine.stage == Verify
      modifies this`mine, this`trace, this`world, db
      ensures Tracked() && Down()
      ensures ok ==> At(AtStage) && mine.stage == Verify && old(mine.fixRounds) < limit && mine.fixRounds == old(mine.fixRounds) + 1
    {
      hide Sound, Reached, Save;
      var rounds := mine.fixRounds;
      if rounds >= limit || Stalled(mine, t.digest) {
        Took(BeginFix(worker, now));
        return false;
      }
      ok := SaveAs(mine.(fixRounds := rounds + 1, lastFailure := Some(t.digest)), now, BeginFix(worker, now), Judged(t.digest), Fixing(rounds + 1));
      if !ok { return; }
      Took(CallFix(worker, t.fixed));
      if !t.fixed { return false; }
      ok := SaveAs(mine.(fixCompleted := rounds + 1), later, EndFix(worker, later), Fixed(rounds + 1, true), AtStage);
    }

    /** `_stage_verify`: the tests decide, and what they said is saved first. */
    method StageVerify(t: Turn, now: int, next: int, later: int) returns (ok: bool)
      requires Tracked() && At(Working) && mine.stage == Verify
      modifies this`mine, this`trace, this`world, db
      ensures Tracked() && Down()
      ensures ok ==> At(AtStage) && (mine.stage == Publish || (mine.stage == Verify && old(mine.fixRounds) < limit && mine.fixRounds == old(mine.fixRounds) + 1))
      ensures ok && mine.stage == Publish ==> Passed(mine) && t.passed && t.missing == 0
    {
      hide Sound, Reached, Save;
      ok := false;
      if !t.worked { return; }
      ok := SaveAs(mine.(testsPassed := t.passed, unreferenced := t.missing), now, Tested(worker, t.passed, t.missing, t.digest, now), Working, Judged(t.digest));
      if !ok { return; }
      if t.passed && t.missing == 0 {
        ok := SaveAs(mine.(stage := Publish), next, PassOn(worker, next), Judged(t.digest), AtStage);
      } else {
        ok := FixRound(t, next, later);
      }
    }

    method StageOther(t: Turn, now: int) returns (ok: bool)
      requires Tracked() && At(Working) && mine.stage in {Spec, Implement, Publish}
      modifies this`mine, this`trace, this`world, db
      ensures Tracked() && Down()
      ensures ok ==> At(AtStage) && mine == old(mine).(stage := NextStage(old(mine.stage)))
    {
      hide Sound, Reached;
      if !t.worked { return false; }
      if mine.stage == Publish {
        ok := SaveAs(mine.(stage := Finished), now, Published(worker, now), Working, AtStage);
      } else {
        ok := SaveAs(mine.(stage := NextStage(mine.stage)), now, StageDone(worker, now), Working, AtStage);
      }
    }

    function RoundsLeft(): nat
      reads this
    {
      if mine.fixRounds < limit then limit - mine.fixRounds else 0
    }

    /** One turn of the loop: a later stage, or one fix round less. */
    method OneTurn(seconds: int, t: Turn, now: int, next: int, later: int, last: int) returns (ok: bool)
      requires Tracked() && codex && At(AtStage) && mine.stage != Finished
      modifies this`mine, this`trace, this`world, db
      ensures Tracked() && Down()
      ensures ok ==> At(AtStage)
      ensures ok ==> Rank(mine.stage) > Rank(old(mine.stage)) || (mine.stage == old(mine.stage) && RoundsLeft() < old(RoundsLeft()))
    {
      hide Reached, Apply, Sound;
      ok := Heartbeat(seconds, now);
      if !ok { return; }
      if mine.stage == Verify {
        ok := StageVerify(t, next, later, last);
      } else {
        ok := StageOther(t, next);
      }
    }

    /** `run`: an uninterrupted pipeline ends, because each turn either reaches a later
        stage or spends one of the remaining fix rounds. With codex off it ends at once,
        successfully and without having done anything. */
    method Run(seconds: int, turns: nat -> Turn, clock: (nat, nat) -> int) returns (ok: bool)
      requires Tracked() && At(AtStage)
      modifies this`mine, this`trace, this`world, db
      ensures Tracked() && Down()
      ensures ok ==> At(AtStage) && (codex ==> Delivered(mine))
      ensures !codex ==> ok && mine == old(mine) && db.jobs == old(db.jobs)
    {
      hide Reached, Apply;
      if !codex { return true; }
      var k := 0;
      while mine.stage != Finished
        invariant Tracked() && At(AtStage)
        decreases 4 - Rank(mine.stage), RoundsLeft()
      {
        ok := OneTurn(seconds, turns(k), clock(k, 0), clock(k, 1), clock(k, 2), clock(k, 3));
        if !ok { return; }
        k := k + 1;
      }
      PipeProgress(world, worker, config);
      ok := true;
    }

    /** `run_once` around the pipeline: done when it returned, otherwise deferred or
        failed, unless the lease was lost. What is done is delivered exactly when codex
        is on or the checkpoint was at its end before. */
    method RunJob(seconds: int, maxAttempts: int, turns: nat -> Turn, clock: (nat, nat) -> int, trouble: Ending, now: int) returns (done: bool)
      requires Tracked() && At(AtStage) && !trouble.Finishes?
      modifies this`mine, this`trace, this`world, db
      ensures Tracked() && worker !in world.pipes
      ensures done ==> job < |db.jobs| && db.jobs[job].status == Done
                       && (Delivered(db.jobs[job].progress) <==> codex || old(mine.stage) == Finished)
    {
      hide Reached;
      hide Sound, Apply;
      done := Run(seconds, turns, clock);
      if done {
        done := Complete(now);
      } else {
        Abandon(maxAttempts, trouble, now);
      }
    }

    /** The job is handed back or failed, and the worker is free again. */
    method Abandon(maxAttempts: int, trouble: Ending, now: int)
      requires Tracked() && Down() && !trouble.Finishes?
      modifies this`trace, this`world, db
      ensures Tracked() && worker !in world.pipes && trace == old(trace) + [Quit(worker, trouble, maxAttempts, now)]
    {
      hide Reached, Sound;
      match trouble {
        case Throttled(delay) => var _ := db.DeferJob(job, worker, delay, now);
        case Breaks(permanent) => var _ := db.Fail(job, worker, maxAttempts, permanent, now);
      }
      Took(Quit(worker, trouble, maxAttempts, now));
    }

    method Complete(now: int) returns (done: bool)
      requires Tracked() && At(AtStage) && (codex ==> Delivered(mine))
      modifies this`trace, this`world, db
      ensures Tracked() && worker !in world.pipes
      ensures done ==> job < |db.jobs| && db.jobs[job].status == Done && db.jobs[job].progress == mine && (mine.stage == Finished ==> Passed(mine))
    {
      hide Reached;
      PipeProgress(world, worker, config);
      OwnedIsMine(world, worker, config, now);
      hide Sound;
      var r := db.CompleteJob(job, worker, now);
      Took(if codex then Finish(worker, now) else Skip(worker, now));
      done := r.Ok?;
    }
  }

  lemma PipeProgress(w: World, worker: string, config: Config)
    requires Sound(w, config) && worker in w.pipes
    ensures ProgressOk(config, w.pipes[worker].job, w.pipes[worker].mine)
  {
    assert PipeOk(w, worker, config);
  }

  lemma OwnedIsMine(w: World, worker: string, config: Config, now: int)
    requires Sound(w, config) && worker in w.pipes
    ensures var pipe := w.pipes[worker];
      pipe.job < |w.jobs| && (Owned(w.jobs[pipe.job], worker, now) ==> w.jobs[pipe.job].progress == pipe.mine)
  {
    assert PipeOk(w, worker, config);
  }
}

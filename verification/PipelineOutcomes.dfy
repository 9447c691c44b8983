/** What one turn of the pipeline leads to while its lease holds, stage by stage:
    what is saved, when a fix is tried, and when the attempt is given up. */
module PipelineOutcomes {
  import opened Common
  import opened JobQueue
  import opened DevPipeline

  /** A pipeline that stands before a stage and owns its job, which carries its checkpoint. */
  ghost predicate Standing(w: World, worker: string, now: int) {
    && worker in w.pipes && w.pipes[worker].phase == AtStage
    && OwnerNow(w.jobs, w.pipes[worker].job, worker, now) && w.jobs[w.pipes[worker].job].progress == w.pipes[worker].mine
  }

  /** The pipeline goes on with this checkpoint, saved under a lease to `until`; nothing else moved. */
  ghost predicate GoesOn(w: World, n: World, worker: string, mine: Progress, phase: Phase, until: int)
    requires worker in w.pipes && w.pipes[worker].job < |w.jobs|
  {
    var job := w.pipes[worker].job;
    && n.pipes == w.pipes[worker := Pipe(job, mine, phase)]
    && n.jobs == w.jobs[job := w.jobs[job].(progress := mine, leasedUntil := Some(until))]
  }

  lemma Beats(w: World, worker: string, config: Config, seconds: int, now: int)
    requires Standing(w, worker, now) && config.codex(worker) && w.pipes[worker].mine.stage != Finished
    ensures var n := Apply(w, Beat(worker, seconds, now), config);
      GoesOn(w, n, worker, w.pipes[worker].mine, Working, now + seconds) && n.fixes == w.fixes
  {
    hide Claim;
  }

  /** A save under the held lease. */
  lemma Saves(w: World, n: World, worker: string, mine: Progress, phase: Phase, now: int, until: int, before: Progress, was: Phase)
    requires worker in w.pipes && w.pipes[worker].job < |w.jobs| && w.jobs[w.pipes[worker].job].status == Running
    requires w.jobs[w.pipes[worker].job].worker == Some(worker) && GoesOn(w, n, worker, before, was, until) && now < until
    ensures GoesOn(w, Save(n, worker, mine, phase, now), worker, mine, phase, until) && Save(n, worker, mine, phase, now).fixes == n.fixes
  {
    var job := w.pipes[worker].job;
    assert w.jobs[job := w.jobs[job].(progress := before, leasedUntil := Some(until))][job].progress == before;
  }

  predicate Passing(passed: bool, missing: nat) { passed && missing == 0 }

  /** One turn at a stage that only does its work: the stage after it is next. */
  lemma WorkTurn(w: World, worker: string, config: Config, seconds: int, now: int, later: int)
    requires Standing(w, worker, now) && config.codex(worker) && w.pipes[worker].mine.stage in {Spec, Implement, Publish}
    requires later < now + seconds
    ensures var mine := w.pipes[worker].mine;
      var n := Apply(Apply(Apply(w, Beat(worker, seconds, now), config), StageDone(worker, later), config), Published(worker, later), config);
      var next := match mine.stage case Spec => Implement case Implement => Verify case _ => Finished;
      GoesOn(w, n, worker, mine.(stage := next), AtStage, now + seconds) && n.fixes == w.fixes
  {
    var mine := w.pipes[worker].mine;
    Beats(w, worker, config, seconds, now);
    var beat := Apply(w, Beat(worker, seconds, now), config);
    hide Save, Claim;
    if mine.stage == Publish {
      assert Apply(beat, StageDone(worker, later), config) == beat;
      Saves(w, beat, worker, mine.(stage := Finished), AtStage, later, now + seconds, mine, Working);
    } else {
      var next := mine.(stage := if mine.stage == Spec then Implement else Verify);
      Saves(w, beat, worker, next, AtStage, later, now + seconds, mine, Working);
      var done := Apply(beat, StageDone(worker, later), config);
      assert GoesOn(w, done, worker, next, AtStage, now + seconds);
      assert Apply(done, Published(worker, later), config) == done;
    }
  }

  /** What the steps of a verification do, one after another; those that do not apply do nothing. */
  function VerifyTurn(w: World, worker: string, config: Config, seconds: int, now: int, passed: bool, missing: nat, digest: string, worked: bool, later: int): World {
    var judged := Apply(Apply(w, Beat(worker, seconds, now), config), Tested(worker, passed, missing, digest, later), config);
    var onward := Apply(Apply(judged, PassOn(worker, later), config), BeginFix(worker, later), config);
    Apply(Apply(onward, CallFix(worker, worked), config), EndFix(worker, later), config)
  }

  /** The failure is the one the last completed round was meant to fix. */
  predicate SameFailure(p: Progress, digest: string) { p.fixRounds > 0 && p.fixCompleted == p.fixRounds && p.lastFailure == Some(digest) }

  /** A verification under a held lease, by what the tests say. Passing tests lead to
      publishing. Failing ones are fixed while rounds are left and the last fix changed
      something: the round is saved before its one call and counted as completed after it.
      Otherwise the attempt ends without a call, the result of the tests saved. */
  lemma VerifyExact(w: World, worker: string, config: Config, seconds: int, now: int, passed: bool, missing: nat, digest: string, worked: bool, later: int)
    requires Standing(w, worker, now) && config.codex(worker) && w.pipes[worker].mine.stage == Verify && later < now + seconds
    ensures var n := VerifyTurn(w, worker, config, seconds, now, passed, missing, digest, worked, later);
      var (job, mine) := (w.pipes[worker].job, w.pipes[worker].mine.(testsPassed := passed, unreferenced := missing));
      var round := mine.fixRounds + 1;
      var fixing := mine.(fixRounds := round, lastFailure := Some(digest));
      if Passing(passed, missing) then
        GoesOn(w, n, worker, mine.(stage := Publish), AtStage, now + seconds) && n.fixes == w.fixes
      else if mine.fixRounds < LimitFor(config, job, worker) && !SameFailure(mine, digest) then
        && n.fixes == w.fixes[job := Calls(w, job) + [round]]
        && (if worked then GoesOn(w, n, worker, fixing.(fixCompleted := round), AtStage, now + seconds)
            else GoesOn(w, n, worker, fixing, Fixed(round, false), now + seconds))
      else GoesOn(w, n, worker, mine, Broken, now + seconds) && n.fixes == w.fixes
  {
    var mine := w.pipes[worker].mine.(testsPassed := passed, unreferenced := missing);
    var until := now + seconds;
    Beats(w, worker, config, seconds, now);
    var beat := Apply(w, Beat(worker, seconds, now), config);
    Saves(w, beat, worker, mine, Judged(digest), later, until, w.pipes[worker].mine, Working);
    hide Claim, Settle, Heartbeat, Save;
    var judged := Apply(beat, Tested(worker, passed, missing, digest, later), config);
    assert GoesOn(w, judged, worker, mine, Judged(digest), until) && judged.fixes == w.fixes;
    if Passing(passed, missing) {
      PassedTurn(w, judged, worker, config, mine, digest, worked, later, until);
    } else {
      FailedTurn(w, judged, worker, config, mine, digest, worked, later, until);
    }
  }

  lemma PassedTurn(w: World, judged: World, worker: string, config: Config, mine: Progress, digest: string, worked: bool, later: int, until: int)
    requires worker in w.pipes && w.pipes[worker].job < |w.jobs| && w.jobs[w.pipes[worker].job].status == Running
    requires w.jobs[w.pipes[worker].job].worker == Some(worker) && later < until
    requires GoesOn(w, judged, worker, mine, Judged(digest), until) && mine.testsPassed && mine.unreferenced == 0
    ensures var onward := Apply(Apply(judged, PassOn(worker, later), config), BeginFix(worker, later), config);
      var n := Apply(Apply(onward, CallFix(worker, worked), config), EndFix(worker, later), config);
      GoesOn(w, n, worker, mine.(stage := Publish), AtStage, until) && n.fixes == judged.fixes
  {
    Saves(w, judged, worker, mine.(stage := Publish), AtStage, later, until, mine, Judged(digest));
    hide Claim, Settle, Heartbeat, Save;
    var passedOn := Apply(judged, PassOn(worker, later), config);
    assert GoesOn(w, passedOn, worker, mine.(stage := Publish), AtStage, until);
    StandsStill(passedOn, worker, config, later, worked);
  }

  /** The steps of a fix pass by a pipeline that stands before a stage, or is broken. */
  lemma StandsStill(w: World, worker: string, config: Config, now: int, worked: bool)
    requires worker in w.pipes && (w.pipes[worker].phase.AtStage? || w.pipes[worker].phase.Broken?)
    ensures Apply(w, BeginFix(worker, now), config) == w && Apply(w, CallFix(worker, worked), config) == w && Apply(w, EndFix(worker, now), config) == w
  {
    hide Claim, Settle, Heartbeat;
  }

  lemma FailedTurn(w: World, judged: World, worker: string, config: Config, mine: Progress, digest: string, worked: bool, later: int, until: int)
    requires worker in w.pipes && w.pipes[worker].job < |w.jobs| && w.jobs[w.pipes[worker].job].status == Running
    requires w.jobs[w.pipes[worker].job].worker == Some(worker) && later < until
    requires GoesOn(w, judged, worker, mine, Judged(digest), until) && !(mine.testsPassed && mine.unreferenced == 0)
    ensures var onward := Apply(Apply(judged, PassOn(worker, later), config), BeginFix(worker, later), config);
      var n := Apply(Apply(onward, CallFix(worker, worked), config), EndFix(worker, later), config);
      var (job, round) := (w.pipes[worker].job, mine.fixRounds + 1);
      var fixing := mine.(fixRounds := round, lastFailure := Some(digest));
      if mine.fixRounds < LimitFor(config, job, worker) && !SameFailure(mine, digest) then
        && n.fixes == judged.fixes[job := Calls(judged, job) + [round]]
        && (if worked then GoesOn(w, n, worker, fixing.(fixCompleted := round), AtStage, until)
            else GoesOn(w, n, worker, fixing, Fixed(round, false), until))
      else GoesOn(w, n, worker, mine, Broken, until) && n.fixes == judged.fixes
  {
    var (job, round) := (w.pipes[worker].job, mine.fixRounds + 1);
    var fixing := mine.(fixRounds := round, lastFailure := Some(digest));
    Saves(w, judged, worker, fixing, Fixing(round), later, until, mine, Judged(digest));
    hide Claim, Settle, Heartbeat, Save;
    assert Apply(judged, PassOn(worker, later), config) == judged;
    var begun := Apply(judged, BeginFix(worker, later), config);
    if mine.fixRounds < LimitFor(config, job, worker) && !SameFailure(mine, digest) {
      assert GoesOn(w, begun, worker, fixing, Fixing(round), until);
      FixCalled(w, begun, worker, config, fixing, round, worked, later, until);
    } else {
      assert GoesOn(w, begun, worker, mine, Broken, until);
      StandsStill(begun, worker, config, later, worked);
    }
  }

  lemma FixCalled(w: World, begun: World, worker: string, config: Config, fixing: Progress, round: nat, worked: bool, later: int, until: int)
    requires worker in w.pipes && w.pipes[worker].job < |w.jobs| && w.jobs[w.pipes[worker].job].status == Running
    requires w.jobs[w.pipes[worker].job].worker == Some(worker) && later < until && GoesOn(w, begun, worker, fixing, Fixing(round), until)
    ensures var n := Apply(Apply(begun, CallFix(worker, worked), config), EndFix(worker, later), config);
      && n.fixes == begun.fixes[w.pipes[worker].job := Calls(begun, w.pipes[worker].job) + [round]]
      && (if worked then GoesOn(w, n, worker, fixing.(fixCompleted := round), AtStage, until)
          else GoesOn(w, n, worker, fixing, Fixed(round, false), until))
  {
    hide Claim, Settle, Heartbeat;
    var called := Apply(begun, CallFix(worker, worked), config);
    assert GoesOn(w, called, worker, fixing, Fixed(round, worked), until);
    if worked { Saves(w, called, worker, fixing.(fixCompleted := round), AtStage, later, until, fixing, Fixed(round, true)); }
  }

  predicate Writes(step: DevPipeline.Step) {
    step.Beat? || step.StageDone? || step.Tested? || step.PassOn? || step.BeginFix? || step.EndFix? || step.Published? || step.Finish? || step.Skip? || step.Quit?
  }

  /** A pipeline whose lease has run out or gone to another worker changes no job, whatever it still does. */
  lemma LostLeaseIsHarmless(w: World, worker: string, config: Config, step: DevPipeline.Step)
    requires worker in w.pipes && Writes(step) && step.worker == worker && !OwnerNow(w.jobs, w.pipes[worker].job, worker, step.now)
    ensures Apply(w, step, config).jobs == w.jobs
  {
    hide Claim;
  }

  /** How a pipeline leaves its job: finished with its checkpoint, completed as it stands
      when codex is off, or, after a failure or a wait, as the queue says. */
  lemma LeavingExact(w: World, worker: string, config: Config, now: int, ending: Ending, maxAttempts: int)
    requires Standing(w, worker, now)
    ensures config.codex(worker) && w.pipes[worker].mine.stage == Finished ==>
              Left(w, Apply(w, Finish(worker, now), config), worker) && Apply(w, Finish(worker, now), config).jobs[w.pipes[worker].job].status == Done
    ensures !config.codex(worker) ==>
              Left(w, Apply(w, Skip(worker, now), config), worker) && Apply(w, Skip(worker, now), config).jobs[w.pipes[worker].job].status == Done
    ensures !ending.Finishes? ==>
              var (n, job) := (Apply(w, Quit(worker, ending, maxAttempts, now), config), w.pipes[worker].job);
              && Left(w, n, worker)
              && (match ending
                  case Throttled(delay) => WaitsUntil(n.jobs[job], now + delay) && n.jobs[job].attempts == w.jobs[job].attempts - 1
                  case Breaks(permanent) =>
                    if permanent || w.jobs[job].attempts >= maxAttempts then n.jobs[job].status == Dead
                    else WaitsUntil(n.jobs[job], now + Delay(w.jobs[job].attempts)))
  {
    var job := w.pipes[worker].job;
    SettleExact(w.jobs, job, worker, Finishes, 0, now);
    SettleExact(w.jobs, job, worker, ending, maxAttempts, now);
    SettleProgress(w.jobs, job, worker, Finishes, 0, now);
    SettleProgress(w.jobs, job, worker, ending, maxAttempts, now);
    hide Claim, Settle, WaitsUntil, Closed, Delay;
  }

  /** The pipeline is gone; its job keeps its checkpoint and the others are untouched. */
  ghost predicate Left(w: World, n: World, worker: string)
    requires worker in w.pipes && w.pipes[worker].job < |w.jobs|
  {
    var job := w.pipes[worker].job;
    n.pipes == w.pipes - {worker} && n.fixes == w.fixes && |n.jobs| == |w.jobs| && n.jobs == w.jobs[job := n.jobs[job]]
    && n.jobs[job].progress == w.jobs[job].progress
  }

  lemma SettleProgress(jobs: seq<Job>, i: nat, worker: string, ending: Ending, maxAttempts: int, now: int)
    ensures var after := Settle(jobs, i, worker, ending, maxAttempts, now);
      |after| == |jobs| && (i < |jobs| ==> after[i].progress == jobs[i].progress)
  {
    hide Delay;
  }
}

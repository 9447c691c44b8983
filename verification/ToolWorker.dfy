/** tool_worker.py and the tool gateway as objects: one poll of the worker is
    exactly a fixed script of protocol steps, whatever fails on the way and
    whatever the clock reads in between, so every theorem about runs of the
    protocol is a theorem about these objects. */
module ToolWorker {
  import opened Common
  import opened Domain
  import opened ControlPlane
  import opened SyntheticProvider
  import opened Execution
  import opened ToolGateway
  import opened ExactlyOnce
  import opened DemoExecution
  import opened EffectTheorems
  import Outbox

  /** What a poll does after it has claimed event `e`, as steps of process 0. A
      step that does not apply, because an earlier one failed, changes nothing. */
  function Script(e: nat, worker: string, ctx: Context, seconds: int, clock: nat -> int, mode: Mode, absence: bool, limit: int): seq<Step> {
    [TakeEvent(0, worker, e, clock(0), clock(0) + seconds)] + DriveScript(ctx, seconds, clock, mode, absence) + [GiveUp(0, clock(6), limit)]
  }

  /** `_drive`. */
  function DriveScript(ctx: Context, seconds: int, clock: nat -> int, mode: Mode, absence: bool): seq<Step> {
    [PrepareEvent(0, ctx, clock(1))] + AttemptScript(ctx, seconds, clock, mode, absence) + [Finish(0, clock(5))]
  }

  lemma Assembled(done: seq<Step>, ctx: Context, seconds: int, clock: nat -> int, mode: Mode, absence: bool)
    ensures done + [PrepareEvent(0, ctx, clock(1))] + AttemptScript(ctx, seconds, clock, mode, absence) + [Finish(0, clock(5))]
         == done + DriveScript(ctx, seconds, clock, mode, absence)
  {}

  function AttemptScript(ctx: Context, seconds: int, clock: nat -> int, mode: Mode, absence: bool): seq<Step> {
    [TakeAttempt(0, ctx, "", 0, 0, seconds, clock(2))] + CallScript(ctx, clock, mode, absence)
  }

  function CallScript(ctx: Context, clock: nat -> int, mode: Mode, absence: bool): seq<Step> {
    [Begin(0, ctx, ForDispatch, clock(3)), Begin(0, ctx, ForLookup, clock(3)), CallProvider(0, mode, absence), Record(0, ctx, clock(4))]
  }

  /** A process that holds no lease lets the steps of a provider call pass. */
  lemma CallIdle(w: World, ctx: Context, clock: nat -> int, mode: Mode, absence: bool, i: nat)
    requires 0 in w.procs && (w.procs[0].phase.HoldsEvent? || w.procs[0].phase.HasAttempt? || w.procs[0].phase.Settled?)
    requires i < 4
    ensures Apply(w, CallScript(ctx, clock, mode, absence)[i]) == w
  {}

  function PurposeFor(state: AttemptState): Purpose { if state == Prepared then ForDispatch else ForLookup }

  /** Of the two ways to begin, only the one the attempt's state allows takes effect. */
  lemma BeginOnce(w: World, ctx: Context, now: int)
    requires 0 in w.procs && w.procs[0].phase.HasLease? && w.procs[0].phase.attempt < |w.store.repo.attempts|
    requires w.store.repo.attempts[w.procs[0].phase.attempt].state in {Prepared, Unknown}
    ensures DoBegin(DoBegin(w, 0, ctx, ForDispatch, now), 0, ctx, ForLookup, now)
            == DoBegin(w, 0, ctx, PurposeFor(w.store.repo.attempts[w.procs[0].phase.attempt].state), now)
  {
    hide Gate, Require, Execution.Store;
  }

  function ReplyFor(begun: Tx<Repo, Attempt>, purpose: Purpose, ledger: Ledger, mode: Mode, absence: bool): (Ledger, Reply) {
    if purpose == ForDispatch then ExecuteFor(begun, ledger, mode) else LookupFor(begun, ledger, mode, absence)
  }

  lemma RefusedCallKeeps(ledger: Ledger, mode: Mode, absence: bool, key: OpKey, intent: Material)
    ensures Execute(ledger, mode, key, intent).1.BindingConflict? ==> Execute(ledger, mode, key, intent).0 == ledger
    ensures Lookup(ledger, mode, absence, key, intent).1.BindingConflict? ==> Lookup(ledger, mode, absence, key, intent).0 == ledger
  {}

  /** The only process goes to another phase. */
  lemma MoveSingle(w: World, proc: Process, phase: Phase)
    requires w.procs == map[0 := proc]
    ensures Move(w, 0, phase) == w.(procs := map[0 := proc.(phase := phase)])
  {}

  /** The two commits of a provider call and the call itself, as protocol steps. */
  lemma CallIsSteps(w: World, a: nat, token: nat, worker: string, job: Job, ctx: Context, purpose: Purpose, now: int, later: int,
                    mode: Mode, absence: bool, repo: Repo, ledger: Ledger, r: Result<Attempt>)
    requires w.procs == map[0 := Process(worker, Some(job), HasLease(a, token))]
    requires var begun := BeginTx(w.store.repo, ctx, a, worker, token, purpose, now);
      CallRan(begun, ReplyFor(begun, purpose, w.ledger, mode, absence), ctx, a, worker, token, later, w.store.repo, repo, w.ledger, ledger, r)
    ensures var n := DoRecord(DoCall(DoBegin(w, 0, ctx, purpose, now), 0, mode, absence), 0, ctx, later);
      && n == World(w.store.(repo := repo), ledger, n.procs)
      && (r.Ok? ==> n.procs == map[0 := Process(worker, Some(job), Settled(a, r.value.state))])
      && (r.Err? ==> n.procs.Keys == {0} && n.procs[0].worker == worker && n.procs[0].job == Some(job) && !n.procs[0].phase.Settled?)
  {
    hide Execute, Lookup, RecordObservation, BeginTx, ReplyFor, Move;
    var proc := Process(worker, Some(job), HasLease(a, token));
    var begun := BeginTx(w.store.repo, ctx, a, worker, token, purpose, now);
    BeginTxShape(w.store.repo, ctx, a, worker, token, purpose, now);
    if begun.Abort? {
      hide DoCall, DoRecord;
      CallPasses(w, ctx, later, mode, absence);
      return;
    }
    var w1 := WithRepo(w, begun.state).(procs := map[0 := proc.(phase := Calling(a, token, purpose))]);
    MoveSingle(WithRepo(w, begun.state), proc, Calling(a, token, purpose));
    assert DoBegin(w, 0, ctx, purpose, now) == w1;
    hide DoBegin;
    CalledSteps(w1, a, token, worker, job, ctx, begun.value, purpose, later, mode, absence, repo, ledger, r);
  }

  lemma CalledSteps(w: World, a: nat, token: nat, worker: string, job: Job, ctx: Context, v: Attempt, purpose: Purpose, later: int,
                    mode: Mode, absence: bool, repo: Repo, ledger: Ledger, r: Result<Attempt>)
    requires w.procs == map[0 := Process(worker, Some(job), Calling(a, token, purpose))]
    requires a < |w.store.repo.attempts| && w.store.repo.attempts[a] == v
    requires CallRan(Commit(w.store.repo, v), ReplyFor(Commit(w.store.repo, v), purpose, w.ledger, mode, absence), ctx, a, worker, token, later,
                     w.store.repo, repo, w.ledger, ledger, r)
    ensures var n := DoRecord(DoCall(w, 0, mode, absence), 0, ctx, later);
      && n == World(w.store.(repo := repo), ledger, n.procs)
      && (r.Ok? ==> n.procs == map[0 := Process(worker, Some(job), Settled(a, r.value.state))])
      && (r.Err? ==> n.procs.Keys == {0} && n.procs[0].worker == worker && n.procs[0].job == Some(job) && !n.procs[0].phase.Settled?)
  {
    hide Execute, Lookup, RecordObservation, Move;
    var proc := Process(worker, Some(job), Calling(a, token, purpose));
    RefusedCallKeeps(w.ledger, mode, absence, v.key, v.intent);
    var (after, reply) := ReplyFor(Commit(w.store.repo, v), purpose, w.ledger, mode, absence);
    if reply.BindingConflict? {
      assert DoCall(w, 0, mode, absence) == w;
      return;
    }
    var heard := Heard(a, token, purpose, HeardFrom(reply));
    MoveSingle(w.(ledger := after), proc, heard);
    var w2 := w.(ledger := after, procs := map[0 := proc.(phase := heard)]);
    assert DoCall(w, 0, mode, absence) == w2;
    hide DoCall, ReplyFor, HeardFrom;
    if r.Ok? { MoveSingle(WithRepo(w2, repo), proc.(phase := heard), Settled(a, r.value.state)); }
  }

  lemma CallPasses(w: World, ctx: Context, later: int, mode: Mode, absence: bool)
    requires 0 in w.procs && w.procs[0].phase.HasLease?
    ensures DoRecord(DoCall(w, 0, mode, absence), 0, ctx, later) == w
  {}

  lemma BeginTxShape(r: Repo, ctx: Context, a: nat, worker: string, token: nat, purpose: Purpose, now: int)
    ensures match BeginTx(r, ctx, a, worker, token, purpose, now)
            case Commit(s, v) => a < |s.attempts| && s.attempts[a] == v
            case Abort(_) => true
  {
    hide BeginDispatch, BeginReconciliation;
    BeginShape(r, ctx, a, worker, token, now);
  }

  /** The claim step of the only process, which holds a prepared or unknown attempt. */
  lemma TakesLease(w: World, worker: string, job: Job, a: nat, version: int, state: AttemptState, ctx: Context, seconds: int, now: int)
    requires w.procs == map[0 := Process(worker, Some(job), HasAttempt(a, version, state))]
    ensures Apply(w, TakeAttempt(0, ctx, "", 0, 0, seconds, now))
      == match ClaimAttempt(w.store.repo, ctx, a, worker, version, seconds, now)
         case Commit(r, v) => World(w.store.(repo := r), w.ledger, map[0 := Process(worker, Some(job), HasLease(a, v.token))])
         case Abort(_) => w
  {
    hide ClaimAttempt, Move;
    var tx := ClaimAttempt(w.store.repo, ctx, a, worker, version, seconds, now);
    if tx.Commit? { MoveSingle(WithRepo(w, tx.state), w.procs[0], HasLease(a, tx.value.token)); }
  }

  lemma IdleClaim(w: World, ctx: Context, seconds: int, now: int)
    requires 0 in w.procs && (w.procs[0].phase.HoldsEvent? || w.procs[0].phase.Settled?)
    ensures Apply(w, TakeAttempt(0, ctx, "", 0, 0, seconds, now)) == w
  {}

  lemma UnsettledFinish(w: World, now: int)
    requires 0 in w.procs && !w.procs[0].phase.Settled?
    ensures DoFinish(w, 0, now) == w
  {}

  lemma ClaimShape(r: Repo, ctx: Context, a: nat, worker: string, expected: int, seconds: int, now: int)
    requires a < |r.attempts| && r.attempts[a].state in {Prepared, Unknown}
    ensures match ClaimAttempt(r, ctx, a, worker, expected, seconds, now)
            case Commit(s, v) => a < |s.attempts| && s.attempts[a] == v && v.state == r.attempts[a].state
                                 && v.adapterVersion == r.attempts[a].adapterVersion && Require(s.plane, ctx, TenantAdmin).Pass?
            case Abort(_) => true
  {
    hide Require;
  }

  /** The attempt prepared for an event is one the worker's provider may serve. */
  lemma PreparedVersion(s: ToolGateway.Store, ctx: Context, e: nat, now: int)
    ensures match PrepareForEvent(s, ctx, e, now)
            case Commit(r, a) => a < |r.attempts| && r.attempts[a].adapterVersion == ADAPTER_VERSION
            case Abort(_) => true
  {
    hide Gate, Require, PrepareExecution;
  }

  lemma SaveReplacesPlane(s: ToolGateway.Store, plane: Plane, value: ToolCommand, now: int)
    ensures SaveTool(s.(repo := s.repo.(plane := plane)), plane, value, now) == SaveTool(s, plane, value, now)
  {}

  class DemoToolCommandWorker {
    const service: DemoExecutionControlPlane
    const outbox: Outbox.SqliteOutbox
    const provider: DurableSyntheticProvider
    const worker: string
    const seconds: int
    var tools: seq<ToolCommand>
    /** The protocol steps performed so far, and the world they lead to. */
    ghost var trace: seq<Step>
    ghost var world: World

    ghost function Here(procs: map<nat, Process>): World
      reads this, service, service.service, outbox, provider
    {
      World(Store(service.View(), tools, outbox.rows), provider.ledger, procs)
    }

    /** The objects hold what a run of the protocol reaches. */
    ghost predicate Valid()
      reads this, service, service.service, outbox, provider
    {
      world == After(service.tenant, trace) && world == Here(map[]) && Apart()
    }

    /** The provider's ledger is not in the service's own database. */
    predicate Apart() { service.path != Some(provider.path) }

    constructor (service: DemoExecutionControlPlane, outbox: Outbox.SqliteOutbox, provider: DurableSyntheticProvider, worker: string, seconds: int)
      requires service.View() == Repo(service.tenant, EmptyPlane(), [], map[]) && outbox.rows == [] && provider.ledger == map[]
      requires service.path != Some(provider.path)
      ensures Valid() && trace == [] && this.service == service && this.outbox == outbox && this.provider == provider
      ensures this.worker == worker && this.seconds == seconds
    {
      this.service, this.outbox, this.provider, this.worker, this.seconds := service, outbox, provider, worker, seconds;
      tools, trace, world := [], [], Initial(service.tenant);
    }

    /** A step taken by these objects or by anyone else sharing them. */
    ghost method Take(step: Step)
      requires world == After(service.tenant, trace)
      modifies this`trace, this`world
      ensures trace == old(trace) + [step] && world == Apply(old(world), step) == After(service.tenant, trace)
    {
      hide Apply;
      trace := trace + [step];
      assert trace[..|trace| - 1] == old(trace);
      world := Apply(world, step);
    }

    ghost method TakeCall(ctx: Context, clock: nat -> int, mode: Mode, absence: bool)
      requires world == After(service.tenant, trace)
      modifies this`trace, this`world
      ensures trace == old(trace) + CallScript(ctx, clock, mode, absence) && world == After(service.tenant, trace)
      ensures world == DoRecord(DoCall(DoBegin(DoBegin(old(world), 0, ctx, ForDispatch, clock(3)), 0, ctx, ForLookup, clock(3)), 0, mode, absence), 0, ctx, clock(4))
    {
      hide After, Apply, DoBegin, DoCall, DoRecord;
      ghost var w := world;
      CallApplies(w, 0, ctx, ForDispatch, clock(3), mode, absence);
      CallApplies(DoBegin(w, 0, ctx, ForDispatch, clock(3)), 0, ctx, ForLookup, clock(3), mode, absence);
      ghost var begun := DoBegin(DoBegin(w, 0, ctx, ForDispatch, clock(3)), 0, ctx, ForLookup, clock(3));
      CallApplies(begun, 0, ctx, ForLookup, clock(3), mode, absence);
      CallApplies(DoCall(begun, 0, mode, absence), 0, ctx, ForLookup, clock(4), mode, absence);
      Take(Begin(0, ctx, ForDispatch, clock(3)));
      Take(Begin(0, ctx, ForLookup, clock(3)));
      Take(CallProvider(0, mode, absence));
      Take(Record(0, ctx, clock(4)));
    }

    ghost method TakePrepare(ctx: Context, now: int)
      requires world == After(service.tenant, trace)
      modifies this`trace, this`world
      ensures trace == old(trace) + [PrepareEvent(0, ctx, now)]
      ensures world == After(service.tenant, trace) == DoPrepareEvent(old(world), 0, ctx, now)
    {
      hide After, DoPrepareEvent;
      Take(PrepareEvent(0, ctx, now));
    }

    ghost method TakeFinish(now: int)
      requires world == After(service.tenant, trace)
      modifies this`trace, this`world
      ensures trace == old(trace) + [Finish(0, now)]
      ensures world == After(service.tenant, trace) == DoFinish(old(world), 0, now)
    {
      hide After, DoFinish;
      Take(Finish(0, now));
    }

    /** Steps that do not apply. */
    ghost method PassCall(ctx: Context, clock: nat -> int, mode: Mode, absence: bool)
      requires world == After(service.tenant, trace)
      requires 0 in world.procs && (world.procs[0].phase.HoldsEvent? || world.procs[0].phase.HasAttempt? || world.procs[0].phase.Settled?)
      modifies this`trace, this`world
      ensures trace == old(trace) + CallScript(ctx, clock, mode, absence) && world == old(world) == After(service.tenant, trace)
    {
      hide Apply, After;
      CallIdle(world, ctx, clock, mode, absence, 0);
      CallIdle(world, ctx, clock, mode, absence, 1);
      CallIdle(world, ctx, clock, mode, absence, 2);
      CallIdle(world, ctx, clock, mode, absence, 3);
      Take(Begin(0, ctx, ForDispatch, clock(3)));
      Take(Begin(0, ctx, ForLookup, clock(3)));
      Take(CallProvider(0, mode, absence));
      Take(Record(0, ctx, clock(4)));
    }

    /** `_drive` up to the attempt. */
    method PrepareFor(ctx: Context, e: nat, now: int) returns (r: Result<nat>)
      modifies service`attempts, service.service
      ensures var s := Store(old(service.View()), tools, outbox.rows);
              Ran(PrepareForEvent(s, ctx, e, now), s.repo, service.View(), r)
    {
      hide Execution.PrepareAttempt;
      var plane := service.service;
      if e >= |outbox.rows| || outbox.rows[e].aggregate >= |tools| { return Err(NotFound); }
      var t := tools[outbox.rows[e].aggregate];
      if t.state != Accepted || t.approvalCommand.None? || t.digest.None? { return Err(Conflict); }
      var c := t.approvalCommand.value;
      if c !in plane.intents || plane.intents[c].digest != t.digest.value { return Err(Conflict); }
      var prepared := service.PrepareAttempt(ctx, c, t.request.policyVersion, plane.intents[c].targetVersion,
                                             ADAPTER_VERSION, PROVIDER, CONNECTION, now);
      if prepared.Err? { return Err(prepared.failure); }
      r := Ok(prepared.value.0);
    }

    /** Claims the prepared or unknown attempt, calls the provider, records the answer. */
    method DriveAttempt(ctx: Context, a: nat, job: Job, clock: nat -> int) returns (r: Result<Attempt>)
      requires world == After(service.tenant, trace) && a < |service.attempts| && service.attempts[a].state in {Prepared, Unknown}
      requires Apart() && service.attempts[a].adapterVersion == provider.version
      requires world == Here(map[0 := Process(worker, Some(job), HasAttempt(a, service.attempts[a].version, service.attempts[a].state))])
      modifies this`trace, this`world, service, service.service, provider`ledger
      ensures trace == old(trace) + AttemptScript(ctx, seconds, clock, provider.mode, provider.authoritativeAbsence)
      ensures world == After(service.tenant, trace) && world == Here(world.procs)
      ensures r.Ok? ==> world.procs == map[0 := Process(worker, Some(job), Settled(a, r.value.state))]
      ensures r.Err? ==> Unsettled(world.procs, job)
    {
      hide After, Execution.ClaimAttempt, Apply, CallScript;
      var value := service.attempts[a];
      ClaimShape(service.View(), ctx, a, worker, value.version, seconds, clock(2));
      var leased := service.ClaimAttempt(ctx, a, worker, value.version, seconds, clock(2));
      TakesLease(world, worker, job, a, value.version, value.state, ctx, seconds, clock(2));
      Take(TakeAttempt(0, ctx, "", 0, 0, seconds, clock(2)));
      if leased.Err? {
        PassCall(ctx, clock, provider.mode, provider.authoritativeAbsence);
        return Err(leased.failure);
      }
      r := CallProviderFor(ctx, a, leased.value.token, job, clock);
    }

    /** The process still answers for the event, and has nothing to report. */
    ghost predicate Unsettled(procs: map<nat, Process>, job: Job) {
      procs.Keys == {0} && procs[0].worker == worker && procs[0].job == Some(job) && !procs[0].phase.Settled?
    }

    method CallProviderFor(ctx: Context, a: nat, token: nat, job: Job, clock: nat -> int) returns (r: Result<Attempt>)
      requires world == After(service.tenant, trace) && a < |service.attempts| && service.attempts[a].state in {Prepared, Unknown}
      requires world == Here(map[0 := Process(worker, Some(job), HasLease(a, token))])
      requires Admitted(service.View(), ctx, a, provider.version, Apart()).Pass?
      modifies this`trace, this`world, service, service.service, provider`ledger
      ensures trace == old(trace) + CallScript(ctx, clock, provider.mode, provider.authoritativeAbsence)
      ensures world == After(service.tenant, trace) && world == Here(world.procs)
      ensures r.Ok? ==> world.procs == map[0 := Process(worker, Some(job), Settled(a, r.value.state))]
      ensures r.Err? ==> Unsettled(world.procs, job)
    {
      hide After, CallRan, BeginTx, ReplyFor, DoBegin, DoCall, DoRecord, WorldInv;
      ghost var w := world;
      ghost var purpose := PurposeFor(service.attempts[a].state);
      RunKeeps(service.tenant, trace);
      InvDefinite(w);
      BeginOnce(w, ctx, clock(3));
      r := ProviderCall(ctx, a, token, clock(3), clock(4));
      CallIsSteps(w, a, token, worker, job, ctx, purpose, clock(3), clock(4), provider.mode, provider.authoritativeAbsence, service.View(), provider.ledger, r);
      TakeCall(ctx, clock, provider.mode, provider.authoritativeAbsence);
    }

    method ProviderCall(ctx: Context, a: nat, token: nat, now: int, later: int) returns (r: Result<Attempt>)
      requires a < |service.attempts| && Definite(provider.ledger)
      requires Admitted(service.View(), ctx, a, provider.version, Apart()).Pass?
      modifies service, service.service, provider`ledger
      ensures var purpose := PurposeFor(old(service.attempts)[a].state);
              var begun := BeginTx(old(service.View()), ctx, a, worker, token, purpose, now);
              CallRan(begun, ReplyFor(begun, purpose, old(provider.ledger), provider.mode, provider.authoritativeAbsence), ctx, a, worker, token, later,
                      old(service.View()), service.View(), old(provider.ledger), provider.ledger, r)
    {
      hide BeginDispatch, BeginReconciliation, CallRan;
      if service.attempts[a].state == Prepared {
        r := service.DispatchDemo(ctx, a, worker, token, provider, now, later);
      } else {
        r := service.ReconcileAttempt(ctx, a, worker, token, provider, now, later);
      }
    }

    method Drive(ctx: Context, job: Job, clock: nat -> int) returns (r: Result<nat>)
      requires world == After(service.tenant, trace) && Apart()
      requires world == Here(map[0 := Process(worker, Some(job), HoldsEvent)])
      modifies this`trace, this`world, service, service.service, provider`ledger, outbox
      ensures trace == old(trace) + DriveScript(ctx, seconds, clock, provider.mode, provider.authoritativeAbsence)
      ensures world == After(service.tenant, trace) && world == Here(world.procs)
      ensures r.Ok? ==> world.procs == map[]
      ensures r.Err? ==> world.procs.Keys == {0} && world.procs[0].worker == worker && world.procs[0].job == Some(job)
    {
      hide After, Apply, DoFinish, AttemptScript, DriveScript;
      Assembled(trace, ctx, seconds, clock, provider.mode, provider.authoritativeAbsence);
      var prepared := PrepareStage(ctx, job, clock(1));
      if prepared.Err? {
        PassAttempt(ctx, clock);
        UnsettledFinish(world, clock(5));
        TakeFinish(clock(5));
        return Err(prepared.failure);
      }
      var attempt := AttemptStage(ctx, prepared.value.0, prepared.value.1, job, clock);
      if attempt.Err? {
        UnsettledFinish(world, clock(5));
        TakeFinish(clock(5));
        return Err(attempt.failure);
      }
      var finished := FinishEvent(prepared.value.0, attempt.value, job, clock(5));
      r := if finished.Ok? then Ok(prepared.value.0) else Err(finished.failure);
    }

    method PrepareStage(ctx: Context, job: Job, now: int) returns (r: Result<(nat, AttemptState)>)
      requires world == After(service.tenant, trace) && world == Here(map[0 := Process(worker, Some(job), HoldsEvent)])
      modifies this`trace, this`world, service`attempts, service.service
      ensures trace == old(trace) + [PrepareEvent(0, ctx, now)] && world == After(service.tenant, trace) && world == Here(world.procs)
      ensures r.Err? ==> world.procs == map[0 := Process(worker, Some(job), HoldsEvent)]
      ensures r.Ok? ==> Reported(r.value.0, r.value.1, job)
    {
      hide After, Apply, PrepareForEvent;
      PreparedVersion(world.store, ctx, job.event, now);
      var prepared := PrepareFor(ctx, job.event, now);
      TakePrepare(ctx, now);
      if prepared.Err? { return Err(prepared.failure); }
      var a := prepared.value;
      r := Ok((a, if a < |service.attempts| then service.attempts[a].state else ManualReview));
    }

    /** What the process goes on with: an attempt to drive, or a state to report as it is. */
    ghost predicate Reported(a: nat, state: AttemptState, job: Job)
      reads this, service
    {
      if state in {Prepared, Unknown} then
        a < |service.attempts| && service.attempts[a].state == state && service.attempts[a].adapterVersion == provider.version
        && world.procs == map[0 := Process(worker, Some(job), HasAttempt(a, service.attempts[a].version, state))]
      else world.procs == map[0 := Process(worker, Some(job), Settled(a, state))]
    }

    ghost method PassAttempt(ctx: Context, clock: nat -> int)
      requires world == After(service.tenant, trace)
      requires 0 in world.procs && (world.procs[0].phase.HoldsEvent? || world.procs[0].phase.Settled?)
      modifies this`trace, this`world
      ensures trace == old(trace) + AttemptScript(ctx, seconds, clock, provider.mode, provider.authoritativeAbsence)
      ensures world == old(world) == After(service.tenant, trace)
    {
      hide After, Apply;
      IdleClaim(world, ctx, seconds, clock(2));
      Take(TakeAttempt(0, ctx, "", 0, 0, seconds, clock(2)));
      PassCall(ctx, clock, provider.mode, provider.authoritativeAbsence);
    }

    method AttemptStage(ctx: Context, a: nat, state: AttemptState, job: Job, clock: nat -> int) returns (r: Result<AttemptState>)
      requires world == After(service.tenant, trace) && world == Here(world.procs) && Reported(a, state, job) && Apart()
      modifies this`trace, this`world, service, service.service, provider`ledger
      ensures trace == old(trace) + AttemptScript(ctx, seconds, clock, provider.mode, provider.authoritativeAbsence)
      ensures world == After(service.tenant, trace) && world == Here(world.procs)
      ensures r.Ok? ==> world.procs == map[0 := Process(worker, Some(job), Settled(a, r.value))]
      ensures r.Err? ==> Unsettled(world.procs, job)
    {
      hide After, Apply, AttemptScript;
      if state == Prepared || state == Unknown {
        var attempt := DriveAttempt(ctx, a, job, clock);
        r := if attempt.Ok? then Ok(attempt.value.state) else Err(attempt.failure);
      } else {
        PassAttempt(ctx, clock);
        r := Ok(state);
      }
    }

    method FinishEvent(a: nat, state: AttemptState, job: Job, now: int) returns (r: Result<()>)
      requires world == After(service.tenant, trace)
      requires world == Here(map[0 := Process(worker, Some(job), Settled(a, state))])
      modifies this`trace, this`world, outbox
      ensures trace == old(trace) + [Finish(0, now)]
      ensures world == After(service.tenant, trace) && world == Here(world.procs)
      ensures r.Ok? ==> world.procs == map[]
      ensures r.Err? ==> world.procs.Keys == {0} && world.procs[0].worker == worker && world.procs[0].job == Some(job)
    {
      hide After, Outbox.Checkpoint;
      var checked := outbox.CheckpointOutbox(job.event, worker, job.token, now, Terminal(state));
      TakeFinish(now);
      r := if checked.Ok? then Ok(()) else Err(checked.failure);
    }

    /** The outbox claim that starts a poll, as the step of a new process 0. */
    ghost method TakeClaim(e: nat, rows: seq<Outbox.Event>, now: int)
      requires world == After(service.tenant, trace) && world.procs == map[]
      requires Outbox.Claim(world.store.events, e, worker, now, now + seconds).Commit?
      requires rows == Outbox.Claim(world.store.events, e, worker, now, now + seconds).state
      modifies this`trace, this`world
      ensures trace == old(trace) + [TakeEvent(0, worker, e, now, now + seconds)] && world == After(service.tenant, trace)
      ensures e < |rows|
      ensures world == World(old(world).store.(events := rows), old(world).ledger, map[0 := Process(worker, Some(Job(e, rows[e].token)), HoldsEvent)])
    {
      hide After;
      Take(TakeEvent(0, worker, e, now, now + seconds));
    }

    /** The end of a poll: a process that is still there gives its event up. */
    method GivingUp(job: Job, now: int, limit: int) returns (r: Result<()>)
      requires world == After(service.tenant, trace) && world == Here(world.procs)
      requires world.procs.Keys == {0} && world.procs[0].worker == worker && world.procs[0].job == Some(job) && Apart()
      modifies this`trace, this`world, outbox
      ensures Valid() && trace == old(trace) + [GiveUp(0, now, limit)]
    {
      hide After, Outbox.FailEvent;
      var failed := outbox.FailOutbox(job.event, worker, job.token, now, limit);
      Take(GiveUp(0, now, limit));
      r := if failed.Ok? then Ok(()) else Err(failed.failure);
    }

    ghost method PassGiveUp(now: int, limit: int)
      requires world == After(service.tenant, trace) && world.procs == map[]
      modifies this`trace, this`world
      ensures trace == old(trace) + [GiveUp(0, now, limit)] && world == old(world) == After(service.tenant, trace)
    {
      hide After;
      Take(GiveUp(0, now, limit));
    }

    /** `process_next`: a failure while driving is recorded against the event, so a poll never gets stuck on it. */
    method ProcessNext(ctx: Context, limit: int, clock: nat -> int) returns (r: Result<Option<nat>>)
      requires Valid()
      modifies this`trace, this`world, service, service.service, provider`ledger, outbox
      ensures Valid()
      ensures var admin := Require(old(service.service.View()), ctx, TenantAdmin);
              admin.Fail? ==> r == Err(admin.failure) && trace == old(trace)
      ensures Require(old(service.service.View()), ctx, TenantAdmin).Pass? ==>
              match Outbox.ClaimNext(old(outbox.rows), worker, clock(0), clock(0) + seconds)
              case Abort(f) => r == Err(f) && trace == old(trace)
              case Commit(_, None) => r == Ok(None) && trace == old(trace)
              case Commit(_, Some(e)) =>
                trace == old(trace) + Script(e, worker, ctx, seconds, clock, provider.mode, provider.authoritativeAbsence, limit)
    {
      hide After, Apply, Require, DriveScript, Outbox.Claim;
      var admin := Require(service.service.View(), ctx, TenantAdmin);
      if admin.Fail? { return Err(admin.failure); }
      ghost var rows := outbox.rows;
      var claimed := outbox.ClaimNextOutbox(worker, clock(0), clock(0) + seconds);
      if claimed.Err? { return Err(claimed.failure); }
      if claimed.value.None? { return Ok(None); }
      var e := claimed.value.value;
      TakeClaim(e, outbox.rows, clock(0));
      var job := Job(e, outbox.rows[e].token);
      var driven := Drive(ctx, job, clock);
      if driven.Err? {
        var failed := GivingUp(job, clock(6), limit);
        r := if failed.Ok? then Ok(None) else Err(failed.failure);
      } else {
        PassGiveUp(clock(6), limit);
        r := Ok(Some(driven.value));
      }
    }

    /** `process`: one named event; a failure reaches the caller and leaves the event leased. */
    method ProcessNamed(ctx: Context, e: nat, clock: nat -> int) returns (r: Result<nat>)
      requires Valid()
      modifies this`trace, this`world, service, service.service, provider`ledger, outbox
      ensures Valid()
      ensures Require(old(service.service.View()), ctx, TenantAdmin).Pass? && Outbox.Claim(old(outbox.rows), e, worker, clock(0), clock(0) + seconds).Commit? ==>
                trace == old(trace) + [TakeEvent(0, worker, e, clock(0), clock(0) + seconds)]
                         + DriveScript(ctx, seconds, clock, provider.mode, provider.authoritativeAbsence) + [Crash(0)]
      ensures Require(old(service.service.View()), ctx, TenantAdmin).Fail? || Outbox.Claim(old(outbox.rows), e, worker, clock(0), clock(0) + seconds).Abort? ==>
                r.Err? && trace == old(trace)
    {
      hide After, Apply, Require, DriveScript, Outbox.Claim;
      var admin := Require(service.service.View(), ctx, TenantAdmin);
      if admin.Fail? { return Err(admin.failure); }
      var claimed := outbox.ClaimOutbox(e, worker, clock(0), clock(0) + seconds);
      if claimed.Err? { return Err(claimed.failure); }
      TakeClaim(e, outbox.rows, clock(0));
      r := Drive(ctx, Job(e, outbox.rows[e].token), clock);
      TakeCrash();
    }

    ghost method TakeCrash()
      requires world == After(service.tenant, trace) && world == Here(world.procs)
      requires (world.procs == map[] || world.procs.Keys == {0}) && Apart()
      modifies this`trace, this`world
      ensures Valid() && trace == old(trace) + [Crash(0)]
    {
      hide After;
      Take(Crash(0));
      assert world.procs == map[];
    }

    method SubmitTool(ctx: Context, q: ToolGateway.Request, now: int) returns (r: Result<nat>)
      requires Valid()
      modifies this, service.service, outbox
      ensures Valid() && trace == old(trace) + [Submit(ctx, q, now)]
      ensures var s := Store(old(service.View()), old(tools), old(outbox.rows));
              Ran(ToolGateway.SubmitTool(s, ctx, q, now), s, Store(service.View(), tools, outbox.rows), r)
    {
      ghost var s := Store(service.View(), tools, outbox.rows);
      r := SubmitCore(ctx, q, now);
      Take(Submit(ctx, q, now));
    }

    /** The approval given with a command, checked; a failure is reported to the caller. */
    method ValidatedApproval(ctx: Context, q: ToolGateway.Request, now: int) returns (r: Result<Option<Material>>)
      modifies service.service
      ensures Ran(ValidateApproval(old(service.service.View()), tools, ctx, q, now), old(service.service.View()), service.service.View(), r)
    {
      hide PrepareExecution;
      var plane := service.service;
      if q.approval.None? || q.approval.value >= |plane.approvals| { return Err(NotFound); }
      var c := q.approval.value;
      if c >= |plane.commands| { return Err(NotFound); }
      if c !in plane.intents { return Err(Conflict); }
      var command, intent := plane.commands[c], plane.intents[c];
      if command.kind !in ApprovalKinds(q.tool) || command.targetRef != TypeName(q.targetType) + ":" + q.targetId
         || command.payload != q.input || intent.policyVersion != q.policyVersion { return Err(Conflict); }
      var used := UsedByAnother(tools, c, q.key);
      if used { return Err(Conflict); }
      var prepared := plane.PrepareExecution(ctx, c, q.policyVersion, intent.targetVersion, now);
      if prepared.Err? { return Err(prepared.failure); }
      r := Ok(if prepared.value.digest == intent.digest then Some(prepared.value.digest) else None);
    }

    method SubmitCore(ctx: Context, q: ToolGateway.Request, now: int) returns (r: Result<nat>)
      modifies this`tools, service.service, outbox
      ensures var s := Store(old(service.View()), old(tools), old(outbox.rows));
              Ran(ToolGateway.SubmitTool(s, ctx, q, now), s, Store(service.View(), tools, outbox.rows), r)
    {
      hide ValidateApproval, SaveTool;
      var plane := service.service;
      var snapshot := plane.View();
      var admin := Require(plane.View(), ctx, TenantAdmin);
      if admin.Fail? { return Err(admin.failure); }
      if q.policyVersion < 1 { return Err(Conflict); }
      var value := ToolCommand(q.(approval := None), Accepted, None, None);
      if StopActive(plane.View(), if q.targetType == ChannelTarget then Some(q.targetId) else None) {
        value := value.(state := Blocked);
      } else if Mutating(q.tool) {
        if q.approval.None? {
          value := value.(state := ApprovalNeeded);
        } else {
          var valid := ValidatedApproval(ctx, q, now);
          if valid.Err? || valid.value.None? {
            value := value.(state := Blocked);
          } else {
            value := ToolCommand(q, Accepted, q.approval, Some(valid.value.value));
          }
        }
      }
      assert (plane.View(), value) == Judge(snapshot, tools, ctx, q, now);
      SaveReplacesPlane(Store(Repo(service.tenant, snapshot, service.attempts, service.observations), tools, outbox.rows), plane.View(), value, now);
      r := Save(value, now);
      if r.Err? { plane.Restore(snapshot); }
    }

    /** `save_tool_command` and the event of a new accepted, approved command. */
    method Save(value: ToolCommand, now: int) returns (r: Result<nat>)
      modifies this`tools, service.service`outbox, outbox
      ensures var s := Store(old(service.View()), old(tools), old(outbox.rows));
              Ran(SaveTool(s, s.repo.plane, value, now), s, Store(service.View(), tools, outbox.rows), r)
    {
      var prior := RowForKey(tools, value.request.key);
      if prior.Some? {
        if tools[prior.value].request != value.request { return Err(Conflict); }
        return Ok(prior.value);
      }
      var id := |tools|;
      if value.state == Accepted && value.approvalCommand.Some? {
        var emitted := service.service.AppendOutbox(ToolAccepted(id));
        if emitted.Err? { return Err(Conflict); }
        outbox.Append(id, now);
      }
      tools := tools + [value];
      r := Ok(id);
    }
  }

  /** `any(...)` over the stored commands. */
  method UsedByAnother(tools: seq<ToolCommand>, approval: nat, key: string) returns (used: bool)
    ensures used <==> UsedElsewhere(tools, approval, key)
  {
    for i := 0 to |tools|
      invariant !UsedElsewhere(tools[..i], approval, key)
    {
      if tools[i].request.approval == Some(approval) && tools[i].state == Accepted && tools[i].request.key != key { return true; }
    }
    assert tools[..|tools|] == tools;
    used := false;
  }

  method RowForKey(tools: seq<ToolCommand>, key: string) returns (found: Option<nat>)
    ensures found == KeyRow(tools, key, 0)
  {
    for i := 0 to |tools|
      invariant KeyRow(tools, key, 0) == KeyRow(tools, key, i)
    {
      if tools[i].request.key == key { return Some(i); }
    }
    found := None;
  }
}

/** The whole protocol as a step system: approvals change, several workers claim,
    dispatch, call the provider and record, replies get lost, leases expire and
    processes crash at any point, in any order and at any clock reading. */
module ExactlyOnce {
  import opened Common
  import opened Domain
  import opened ControlPlane
  import opened SyntheticProvider
  import opened Execution
  import opened ToolGateway
  import opened ExecutionSafety
  import Outbox

  datatype Purpose = ForDispatch | ForLookup

  /** The outbox lease under which a tool worker drives an attempt. */
  datatype Job = Job(event: nat, token: nat)

  /** Where a process stands between two commits. */
  datatype Phase =
    | HoldsEvent
    | HasAttempt(attempt: nat, version: int, state: AttemptState)
    | HasLease(attempt: nat, token: nat)
    | Calling(attempt: nat, token: nat, purpose: Purpose)
    | Heard(attempt: nat, token: nat, purpose: Purpose, observation: Observation)
    | Settled(attempt: nat, state: AttemptState)

  datatype Process = Process(worker: string, job: Option<Job>, phase: Phase)

  datatype World = World(store: Store, ledger: Ledger, procs: map<nat, Process>)

  datatype Step =
    // the environment of an execution: any change of members, controls, stops and manifests
    | SetMember(user: string, membership: Membership)
    | SetControl(command: nat, control: Control)
    | SetStop(scope: StopScope, stopped: bool)
    | SetManifest(provider: string, connection: string, manifest: Manifest)
    | ForeignEffect(effect: OpKey, row: Row)
    // approvals
    | RequestStep(ctx: Context, kind: ApprovalKind, target: string, payload: Payload, key: CommandKey, policyVersion: int, targetVersion: int, evidence: string, now: int)
    | DecideStep(ctx: Context, command: nat, approve: bool, now: int)
    | SupersedeStep(ctx: Context, command: nat, payload: Payload, key: CommandKey, now: int)
    | ExpireStep(command: nat, now: int)
    // tool commands, attempts and workers
    | Submit(ctx: Context, request: ToolGateway.Request, now: int)
    | PrepareDirect(ctx: Context, command: nat, policyVersion: int, targetVersion: int, adapterVersion: string, provider: string, connection: string, now: int)
    | TakeEvent(proc: nat, worker: string, event: nat, now: int, until: int)
    | PrepareEvent(proc: nat, ctx: Context, now: int)
    | TakeAttempt(proc: nat, ctx: Context, worker: string, attempt: nat, expected: int, seconds: int, now: int)
    | Begin(proc: nat, ctx: Context, purpose: Purpose, now: int)
    | CallProvider(proc: nat, mode: Mode, absence: bool)
    | Record(proc: nat, ctx: Context, now: int)
    | Finish(proc: nat, now: int)
    | GiveUp(proc: nat, now: int, limit: int)
    | Crash(proc: nat)

  function WithPlane(w: World, p: Plane): World { w.(store := w.store.(repo := w.store.repo.(plane := p))) }

  function WithRepo(w: World, r: Repo): World { w.(store := w.store.(repo := r)) }

  function Move(w: World, proc: nat, phase: Phase): World
    requires proc in w.procs
  {
    w.(procs := w.procs[proc := w.procs[proc].(phase := phase)])
  }

  function Drop(w: World, proc: nat): World { w.(procs := w.procs - {proc}) }

  function Environment(p: Plane, step: Step): Plane {
    match step
    case SetMember(u, m) => p.(members := p.members[u := m])
    case SetControl(c, control) => if c < |p.commands| then p.(controls := p.controls[c := control]) else p
    case SetStop(s, on) => p.(stops := if on then p.stops + {s} else p.stops - {s})
    case SetManifest(provider, connection, m) => p.(manifests := p.manifests[(provider, connection) := m])
    case _ => p
  }

  function Apply(w: World, step: Step): World {
    match step
    case ForeignEffect(key, row) => Foreign(w, key, row)
    case Submit(ctx, q, now) =>
      (match SubmitTool(w.store, ctx, q, now) case Commit(s, _) => w.(store := s) case Abort(_) => w)
    case PrepareDirect(ctx, c, pv, tv, adapterVersion, provider, connection, now) =>
      (match PrepareAttempt(w.store.repo, ctx, c, pv, tv, adapterVersion, provider, connection, now)
       case Commit(r, _) => WithRepo(w, r) case Abort(_) => w)
    case TakeEvent(p, worker, e, now, until) => DoTakeEvent(w, p, worker, e, now, until)
    case PrepareEvent(p, ctx, now) => DoPrepareEvent(w, p, ctx, now)
    case TakeAttempt(p, ctx, worker, a, expected, seconds, now) => DoTakeAttempt(w, p, ctx, worker, a, expected, seconds, now)
    case Begin(p, ctx, purpose, now) => DoBegin(w, p, ctx, purpose, now)
    case CallProvider(p, mode, absence) => DoCall(w, p, mode, absence)
    case Record(p, ctx, now) => DoRecord(w, p, ctx, now)
    case Finish(p, now) => DoFinish(w, p, now)
    case GiveUp(p, now, limit) => DoGiveUp(w, p, now, limit)
    case Crash(p) => Drop(w, p)
    case _ => WithPlane(w, PlaneAfter(w.store.repo.plane, step))
  }

  /** Other tenants use the same provider under their own keys. */
  function Foreign(w: World, key: OpKey, row: Row): World {
    if key.tenant != w.store.repo.tenant && row.kind in {FoundSuccess, FoundFailure} then w.(ledger := w.ledger[key := row]) else w
  }

  function DoTakeEvent(w: World, p: nat, worker: string, e: nat, now: int, until: int): World {
    if p in w.procs then w
    else match Outbox.Claim(w.store.events, e, worker, now, until)
      case Commit(events, claimed) =>
        World(w.store.(events := events), w.ledger, w.procs[p := Process(worker, Some(Job(e, claimed.token)), HoldsEvent)])
      case Abort(_) => w
  }

  /** The worker goes on only from a prepared or an unknown attempt; any other state is reported as it is. */
  function DoPrepareEvent(w: World, p: nat, ctx: Context, now: int): World {
    if !(p in w.procs && w.procs[p].job.Some? && w.procs[p].phase.HoldsEvent?) then w
    else match PrepareForEvent(w.store, ctx, w.procs[p].job.value.event, now)
      case Commit(r, a) =>
        var state := if a < |r.attempts| then r.attempts[a].state else ManualReview;
        var version := if a < |r.attempts| then r.attempts[a].version else 0;
        Move(WithRepo(w, r), p, if state in {Prepared, Unknown} then HasAttempt(a, version, state) else Settled(a, state))
      case Abort(_) => w
  }

  function DoTakeAttempt(w: World, p: nat, ctx: Context, worker: string, a: nat, expected: int, seconds: int, now: int): World {
    if p in w.procs then
      var proc := w.procs[p];
      if !proc.phase.HasAttempt? then w
      else match ClaimAttempt(w.store.repo, ctx, proc.phase.attempt, proc.worker, proc.phase.version, seconds, now)
        case Commit(r, v) => Move(WithRepo(w, r), p, HasLease(proc.phase.attempt, v.token))
        case Abort(_) => w
    else match ClaimAttempt(w.store.repo, ctx, a, worker, expected, seconds, now)
      case Commit(r, v) => WithRepo(w, r).(procs := w.procs[p := Process(worker, None, HasLease(a, v.token))])
      case Abort(_) => w
  }

  function BeginTx(r: Repo, ctx: Context, a: nat, worker: string, token: nat, purpose: Purpose, now: int): Tx<Repo, Attempt> {
    if purpose == ForDispatch then BeginDispatch(r, ctx, a, worker, token, now) else BeginReconciliation(r, ctx, a, worker, token, now)
  }

  function DoBegin(w: World, p: nat, ctx: Context, purpose: Purpose, now: int): World {
    if !(p in w.procs && w.procs[p].phase.HasLease?) then w
    else
      var ph := w.procs[p].phase;
      match BeginTx(w.store.repo, ctx, ph.attempt, w.procs[p].worker, ph.token, purpose, now)
      case Commit(r, _) => Move(WithRepo(w, r), p, Calling(ph.attempt, ph.token, purpose))
      case Abort(_) => w
  }

  /** The provider commits on its own; its mode may differ at every call. */
  function DoCall(w: World, p: nat, mode: Mode, absence: bool): World {
    if !(p in w.procs && w.procs[p].phase.Calling? && w.procs[p].phase.attempt < |w.store.repo.attempts|) then w
    else
      var ph := w.procs[p].phase;
      var v := w.store.repo.attempts[ph.attempt];
      var (ledger, reply) := if ph.purpose == ForDispatch then Execute(w.ledger, mode, v.key, v.intent)
                             else Lookup(w.ledger, mode, absence, v.key, v.intent);
      if reply.BindingConflict? then w
      else Move(w.(ledger := ledger), p, Heard(ph.attempt, ph.token, ph.purpose, HeardFrom(reply)))
  }

  function DoRecord(w: World, p: nat, ctx: Context, now: int): World {
    if !(p in w.procs && w.procs[p].phase.Heard?) then w
    else
      var proc := w.procs[p];
      var ph := proc.phase;
      match RecordObservation(w.store.repo, ctx, ph.attempt, proc.worker, ph.token, ph.observation, now)
      case Commit(r, v) =>
        if proc.job.Some? then Move(WithRepo(w, r), p, Settled(ph.attempt, v.state)) else Drop(WithRepo(w, r), p)
      case Abort(_) => w
  }

  /** The event is completed exactly when the state the worker last saw was terminal. */
  function DoFinish(w: World, p: nat, now: int): World {
    if !(p in w.procs && w.procs[p].job.Some? && w.procs[p].phase.Settled?) then w
    else
      var proc := w.procs[p];
      match Outbox.Checkpoint(w.store.events, proc.job.value.event, proc.worker, proc.job.value.token, now,
                              Execution.Terminal(proc.phase.state))
      case Commit(events, _) => Drop(w.(store := w.store.(events := events)), p)
      case Abort(_) => w
  }

  function DoGiveUp(w: World, p: nat, now: int, limit: int): World {
    if !(p in w.procs && w.procs[p].job.Some?) then w
    else
      var proc := w.procs[p];
      match Outbox.FailEvent(w.store.events, proc.job.value.event, proc.worker, proc.job.value.token, now, limit)
      case Commit(events, _) => Drop(w.(store := w.store.(events := events)), p)
      case Abort(_) => Drop(w, p)
  }

  function Initial(tenant: string): World {
    World(Store(Repo(tenant, EmptyPlane(), [], map[]), [], []), map[], map[])
  }

  function After(tenant: string, steps: seq<Step>): World {
    if steps == [] then Initial(tenant) else Apply(After(tenant, steps[..|steps| - 1]), steps[|steps| - 1])
  }

  // --------------------------------------------------------------- invariants

  predicate InCall(ph: Phase) { ph.Calling? || ph.Heard? }

  function ExpectedState(purpose: Purpose): AttemptState { if purpose == ForDispatch then Dispatching else Reconciling }

  /** The approved command an outbox event stands for. */
  function EventCommand(s: Store, e: nat): Option<nat> {
    if e < |s.events| && s.events[e].aggregate < |s.tools| then s.tools[s.events[e].aggregate].approvalCommand else None
  }

  /** A process whose token is still current finds the attempt in the state it left it in, under its own lease. */
  ghost predicate ProcOk(s: Store, ledger: Ledger, proc: Process) {
    var attempts := s.repo.attempts;
    && (proc.job.Some? ==> proc.job.value.event < |s.events|)
    && (proc.phase.HoldsEvent? || proc.phase.attempt < |attempts|)
    && (proc.job.Some? && !proc.phase.HoldsEvent? ==>
          Some(attempts[proc.phase.attempt].command) == EventCommand(s, proc.job.value.event))
    && (proc.phase.HasLease? ==> proc.phase.token <= attempts[proc.phase.attempt].token)
    && (proc.phase.Settled? && Execution.Terminal(proc.phase.state) ==> attempts[proc.phase.attempt].state == proc.phase.state)
    && (InCall(proc.phase) ==>
          && proc.phase.token <= attempts[proc.phase.attempt].token
          && (proc.phase.token == attempts[proc.phase.attempt].token ==>
                attempts[proc.phase.attempt].state == ExpectedState(proc.phase.purpose)
                && attempts[proc.phase.attempt].leaseOwner == Some(proc.worker)))
    && (proc.phase.Heard? ==>
          && Truthful(ledger, attempts[proc.phase.attempt].key, attempts[proc.phase.attempt].intent, proc.phase.observation)
          && (proc.phase.observation.kind == Absent ==> proc.phase.purpose == ForLookup))
  }

  /** No two processes are in a provider call under the same lease. */
  ghost predicate OneCallPerLease(procs: map<nat, Process>) {
    forall p, q | p in procs && q in procs && InCall(procs[p].phase) && InCall(procs[q].phase)
      && procs[p].phase.attempt == procs[q].phase.attempt && procs[p].phase.token == procs[q].phase.token :: p == q
  }

  /** A verified attempt rests on an effect of that kind bound to its intent. */
  ghost predicate VerdictTrue(ledger: Ledger, v: Attempt) {
    && (v.state == VerifiedSuccess ==> v.key in ledger && ledger[v.key].intent == v.intent && ledger[v.key].kind == FoundSuccess)
    && (v.state == VerifiedFailure ==> v.key in ledger && ledger[v.key].intent == v.intent && ledger[v.key].kind == FoundFailure)
  }

  /** Every effect of this tenant belongs to one of its attempts and to that attempt's intent. */
  ghost predicate EffectsOwned(r: Repo, ledger: Ledger) {
    forall k | k in ledger && k.tenant == r.tenant ::
      exists a :: 0 <= a < |r.attempts| && r.attempts[a].key == k && r.attempts[a].intent == ledger[k].intent
  }

  /** A completed event's command has an attempt that reached its end. */
  ghost predicate CompletedSettled(s: Store) {
    forall e | 0 <= e < |s.events| && s.events[e].state == Outbox.Completed ::
      exists a :: 0 <= a < |s.repo.attempts| && Some(s.repo.attempts[a].command) == EventCommand(s, e)
                  && Execution.Terminal(s.repo.attempts[a].state)
  }

  ghost predicate WorldInv(w: World) {
    && StoreInv(w.store) && Definite(w.ledger)
    && (forall p | p in w.procs :: ProcOk(w.store, w.ledger, w.procs[p]))
    && OneCallPerLease(w.procs)
    && (forall a | 0 <= a < |w.store.repo.attempts| :: VerdictTrue(w.ledger, w.store.repo.attempts[a]))
    && EffectsOwned(w.store.repo, w.ledger)
    && CompletedSettled(w.store)
  }

  /** What the rest of the world may do to one process's view: everything it
      relies on grows, and an attempt it is calling for is touched only under a newer token. */
  ghost predicate StoreGrows(s: Store, t: Store) {
    && RepoGrows(s.repo, t.repo) && s.tools <= t.tools && |s.events| <= |t.events|
    && (forall e | 0 <= e < |s.events| :: t.events[e].aggregate == s.events[e].aggregate)
  }

  /** Process `proc` is not disturbed: its attempt is untouched, or was taken over under a newer token. */
  ghost predicate Undisturbed(s: Store, t: Store, proc: Process) {
    InCall(proc.phase) && proc.phase.attempt < |s.repo.attempts| && proc.phase.attempt < |t.repo.attempts| ==>
      || t.repo.attempts[proc.phase.attempt] == s.repo.attempts[proc.phase.attempt]
      || proc.phase.token < t.repo.attempts[proc.phase.attempt].token
  }

  lemma FrameProc(s: Store, t: Store, ledger: Ledger, after: Ledger, proc: Process)
    requires StoreInv(s) && ProcOk(s, ledger, proc)
    requires StoreGrows(s, t) && Keeps(ledger, after) && Undisturbed(s, t, proc)
    ensures ProcOk(t, after, proc)
  {
    if !proc.phase.HoldsEvent? {
      assert AttemptGrows(s.repo.attempts[proc.phase.attempt], t.repo.attempts[proc.phase.attempt]);
    }
  }

  /** One transition preserves the invariant when it grows the stores, leaves the
      other processes undisturbed, and accounts for what it changed itself. */
  lemma Preserve(w: World, n: World)
    requires WorldInv(w)
    requires StoreInv(n.store) && StoreGrows(w.store, n.store) && Keeps(w.ledger, n.ledger) && Definite(n.ledger)
    requires forall p | p in n.procs ::
      (p in w.procs && n.procs[p] == w.procs[p] && Undisturbed(w.store, n.store, n.procs[p])) || ProcOk(n.store, n.ledger, n.procs[p])
    requires OneCallPerLease(n.procs)
    requires forall a | 0 <= a < |n.store.repo.attempts| ::
      (a < |w.store.repo.attempts| && n.store.repo.attempts[a].state == w.store.repo.attempts[a].state)
      || VerdictTrue(n.ledger, n.store.repo.attempts[a])
    requires forall k | k in n.ledger && k.tenant == n.store.repo.tenant && k !in w.ledger ::
      exists a :: 0 <= a < |n.store.repo.attempts| && n.store.repo.attempts[a].key == k && n.store.repo.attempts[a].intent == n.ledger[k].intent
    requires forall e | 0 <= e < |n.store.events| && n.store.events[e].state == Outbox.Completed ::
      (e < |w.store.events| && w.store.events[e].state == Outbox.Completed)
      || exists a :: 0 <= a < |n.store.repo.attempts| && Some(n.store.repo.attempts[a].command) == EventCommand(n.store, e)
                     && Execution.Terminal(n.store.repo.attempts[a].state)
    ensures WorldInv(n)
  {
    var r, r' := w.store.repo, n.store.repo;
    forall p | p in n.procs ensures ProcOk(n.store, n.ledger, n.procs[p]) {
      if !ProcOk(n.store, n.ledger, n.procs[p]) { FrameProc(w.store, n.store, w.ledger, n.ledger, w.procs[p]); }
    }
    forall a | 0 <= a < |r'.attempts| ensures VerdictTrue(n.ledger, r'.attempts[a]) {
      if a < |r.attempts| { assert VerdictTrue(w.ledger, r.attempts[a]) && AttemptGrows(r.attempts[a], r'.attempts[a]); }
    }
    forall k | k in n.ledger && k.tenant == r'.tenant
      ensures exists a :: 0 <= a < |r'.attempts| && r'.attempts[a].key == k && r'.attempts[a].intent == n.ledger[k].intent
    {
      if k in w.ledger {
        var a :| 0 <= a < |r.attempts| && r.attempts[a].key == k && r.attempts[a].intent == w.ledger[k].intent;
        assert AttemptGrows(r.attempts[a], r'.attempts[a]);
      }
    }
    forall e | 0 <= e < |n.store.events| && n.store.events[e].state == Outbox.Completed
      ensures exists a :: 0 <= a < |r'.attempts| && Some(r'.attempts[a].command) == EventCommand(n.store, e)
                          && Execution.Terminal(r'.attempts[a].state)
    {
      if e < |w.store.events| && w.store.events[e].state == Outbox.Completed {
        var a :| 0 <= a < |r.attempts| && Some(r.attempts[a].command) == EventCommand(w.store, e)
                 && Execution.Terminal(r.attempts[a].state);
        assert AttemptGrows(r.attempts[a], r'.attempts[a]);
      }
    }
  }

  /** A repository that writes no attempt disturbs nobody. */
  lemma NewRepo(w: World, r: Repo)
    requires WorldInv(w) && RepoInv(r) && RepoGrows(w.store.repo, r) && SameToolKeys(w.store.repo.plane, r.plane)
    requires forall a | 0 <= a < |w.store.repo.attempts| :: r.attempts[a] == w.store.repo.attempts[a]
    requires forall a | |w.store.repo.attempts| <= a < |r.attempts| :: r.attempts[a].state == Prepared
    ensures WorldInv(WithRepo(w, r)) && StoreGrows(w.store, WithRepo(w, r).store)
  {
    RepoStepKeepsStore(w.store, r);
    Preserve(w, WithRepo(w, r));
  }

  lemma NewPlane(w: World, p: Plane)
    requires WorldInv(w) && PlaneStepOk(w.store.repo.plane, p)
    ensures WorldInv(WithPlane(w, p)) && StoreGrows(w.store, WithPlane(w, p).store)
  {
    PlaneStepKeepsRepo(w.store.repo, p);
    NewRepo(w, w.store.repo.(plane := p));
  }

  lemma Dropped(w: World, p: nat)
    requires WorldInv(w)
    ensures WorldInv(Drop(w, p)) && StoreGrows(w.store, Drop(w, p).store)
  {
    Preserve(w, Drop(w, p));
  }

  lemma Moved(w: World, p: nat, phase: Phase)
    requires WorldInv(w) && p in w.procs && !InCall(phase)
    requires ProcOk(w.store, w.ledger, w.procs[p].(phase := phase))
    ensures WorldInv(Move(w, p, phase))
  {
    Preserve(w, Move(w, p, phase));
  }

  lemma Spawned(w: World, p: nat, proc: Process)
    requires WorldInv(w) && p !in w.procs && !InCall(proc.phase) && ProcOk(w.store, w.ledger, proc)
    ensures WorldInv(w.(procs := w.procs[p := proc]))
  {
    Preserve(w, w.(procs := w.procs[p := proc]));
  }

  lemma NewEvents(w: World, events: seq<Outbox.Event>, e: nat)
    requires WorldInv(w) && e < |w.store.events| && |events| == |w.store.events|
    requires events == w.store.events[e := events[e]] && events[e].aggregate == w.store.events[e].aggregate
    requires events[e].state == Outbox.Completed ==>
      exists a :: 0 <= a < |w.store.repo.attempts| && Some(w.store.repo.attempts[a].command) == EventCommand(w.store, e)
                  && Execution.Terminal(w.store.repo.attempts[a].state)
    ensures WorldInv(w.(store := w.store.(events := events)))
    ensures StoreGrows(w.store, w.store.(events := events))
  {
    var n := w.(store := w.store.(events := events));
    EventsKeepStore(w.store, events);
    Preserve(w, n);
  }

  // -------------------------------------------------------------- every step

  /** The approval tables after a step that touches nothing else. */
  function PlaneAfter(p: Plane, step: Step): Plane {
    match step
    case RequestStep(ctx, kind, target, payload, key, pv, tv, evidence, now) =>
      StateOr(p, RequestApproval(p, ctx, kind, target, payload, key, pv, tv, evidence, now))
    case DecideStep(ctx, c, approve, now) => StateOr(p, Decide(p, ctx, c, approve, now))
    case SupersedeStep(ctx, c, payload, key, now) => StateOr(p, Supersede(p, ctx, c, payload, key, now))
    case ExpireStep(c, now) => StateOr(p, ExpireDue(p, c, now))
    case _ => Environment(p, step)
  }

  function StateOr<T>(p: Plane, tx: Tx<Plane, T>): Plane {
    match tx case Commit(q, _) => q case Abort(_) => p
  }

  lemma PlaneAfterOk(p: Plane, step: Step)
    requires PlaneInv(p)
    ensures PlaneStepOk(p, PlaneAfter(p, step))
  {
    hide RequestApproval, Decide, Supersede, ExpireDue, PlaneInv;
    match step {
      case RequestStep(ctx, kind, target, payload, key, pv, tv, evidence, now) =>
        RequestApprovalKeeps(p, ctx, kind, target, payload, key, pv, tv, evidence, now);
      case DecideStep(ctx, c, approve, now) => DecideKeeps(p, ctx, c, approve, now);
      case SupersedeStep(ctx, c, payload, key, now) => SupersedeKeeps(p, ctx, c, payload, key, now);
      case ExpireStep(c, now) => ExpireDueKeeps(p, c, now);
      case _ => EnvironmentKeeps(p, step);
    }
  }

  predicate PlaneStep(step: Step) {
    step.SetMember? || step.SetControl? || step.SetStop? || step.SetManifest?
    || step.RequestStep? || step.DecideStep? || step.SupersedeStep? || step.ExpireStep?
  }

  lemma PlaneSteps(w: World, step: Step)
    requires WorldInv(w) && PlaneStep(step)
    ensures WorldInv(Apply(w, step)) && StoreGrows(w.store, Apply(w, step).store)
  {
    hide PlaneAfter;
    PlaneAfterOk(w.store.repo.plane, step);
    NewPlane(w, PlaneAfter(w.store.repo.plane, step));
  }

  lemma EnvironmentKeeps(p: Plane, step: Step)
    requires PlaneInv(p)
    ensures PlaneStepOk(p, Environment(p, step))
  {}

  lemma SubmitStep(w: World, ctx: Context, q: ToolGateway.Request, now: int)
    requires WorldInv(w)
    ensures WorldInv(Apply(w, Submit(ctx, q, now))) && StoreGrows(w.store, Apply(w, Submit(ctx, q, now)).store)
  {
    hide SubmitTool;
    SubmitKeeps(w.store, ctx, q, now);
    var tx := SubmitTool(w.store, ctx, q, now);
    if tx.Commit? { Preserve(w, w.(store := tx.state)); }
  }

  lemma PrepareDirectStep(w: World, step: Step)
    requires WorldInv(w) && step.PrepareDirect?
    ensures WorldInv(Apply(w, step)) && StoreGrows(w.store, Apply(w, step).store)
  {
    hide PrepareAttempt, AttemptBound;
    var r := w.store.repo;
    PrepareAttemptKeeps(r, step.ctx, step.command, step.policyVersion, step.targetVersion, step.adapterVersion,
                        step.provider, step.connection, step.now);
    var tx := PrepareAttempt(r, step.ctx, step.command, step.policyVersion, step.targetVersion, step.adapterVersion,
                             step.provider, step.connection, step.now);
    if tx.Commit? { NewRepo(w, tx.state); }
  }

  lemma TakeEventStep(w: World, p: nat, worker: string, e: nat, now: int, until: int)
    requires WorldInv(w)
    ensures var n := DoTakeEvent(w, p, worker, e, now, until); WorldInv(n) && StoreGrows(w.store, n.store)
  {
    var tx := Outbox.Claim(w.store.events, e, worker, now, until);
    if p !in w.procs && tx.Commit? {
      NewEvents(w, tx.state, e);
      Spawned(w.(store := w.store.(events := tx.state)), p, Process(worker, Some(Job(e, tx.value.token)), HoldsEvent));
    }
  }

  lemma PrepareEventStep(w: World, p: nat, ctx: Context, now: int)
    requires WorldInv(w)
    ensures var n := DoPrepareEvent(w, p, ctx, now); WorldInv(n) && StoreGrows(w.store, n.store)
  {
    hide PrepareForEvent, AttemptBound, ToolBound, OncePerApproval;
    if p in w.procs && w.procs[p].job.Some? && w.procs[p].phase.HoldsEvent? {
      var e := w.procs[p].job.value.event;
      PrepareForEventKeeps(w.store, ctx, e, now);
      var tx := PrepareForEvent(w.store, ctx, e, now);
      if tx.Commit? {
        NewRepo(w, tx.state);
        var n := WithRepo(w, tx.state);
        var a := tx.state.attempts[tx.value];
        Moved(n, p, if a.state in {Prepared, Unknown} then HasAttempt(tx.value, a.version, a.state) else Settled(tx.value, a.state));
      }
    }
  }

  /** Writing one attempt back leaves every other process undisturbed when the
      writer's own call ends, or the token moves on. */
  lemma WroteAttempt(w: World, r: Repo, a: nat, v: Attempt, procs: map<nat, Process>)
    requires WorldInv(w) && Wrote(w.store.repo, r, a, v)
    requires VerdictTrue(w.ledger, v)
    requires forall p | p in procs ::
      (p in w.procs && procs[p] == w.procs[p] && (InCall(procs[p].phase) && procs[p].phase.attempt == a ==> procs[p].phase.token < v.token))
      || ProcOk(w.store.(repo := r), w.ledger, procs[p])
    requires OneCallPerLease(procs)
    ensures WorldInv(World(w.store.(repo := r), w.ledger, procs))
    ensures StoreGrows(w.store, w.store.(repo := r))
  {
    RepoStepKeepsStore(w.store, r);
    var n := World(w.store.(repo := r), w.ledger, procs);
    forall p | p in procs
      ensures (p in w.procs && procs[p] == w.procs[p] && Undisturbed(w.store, n.store, procs[p])) || ProcOk(n.store, n.ledger, procs[p])
    {}
    Preserve(w, n);
  }

  lemma TakeAttemptStep(w: World, p: nat, ctx: Context, worker: string, a: nat, expected: int, seconds: int, now: int)
    requires WorldInv(w)
    ensures var n := DoTakeAttempt(w, p, ctx, worker, a, expected, seconds, now); WorldInv(n) && StoreGrows(w.store, n.store)
  {
    hide ClaimAttempt, AttemptBound, ToolBound, OncePerApproval, QueuedOnce;
    var taken := p in w.procs;
    if taken && !w.procs[p].phase.HasAttempt? { return; }
    var (b, owner, version) := if taken then (w.procs[p].phase.attempt, w.procs[p].worker, w.procs[p].phase.version) else (a, worker, expected);
    ClaimKeeps(w.store.repo, ctx, b, owner, version, seconds, now);
    var tx := ClaimAttempt(w.store.repo, ctx, b, owner, version, seconds, now);
    if tx.Commit? {
      assert VerdictTrue(w.ledger, w.store.repo.attempts[b]);
      forall q | q in w.procs && InCall(w.procs[q].phase) && w.procs[q].phase.attempt == b
        ensures w.procs[q].phase.token < tx.value.token
      { assert ProcOk(w.store, w.ledger, w.procs[q]); }
      WroteAttempt(w, tx.state, b, tx.value, w.procs);
      var n := WithRepo(w, tx.state);
      if taken { Moved(n, p, HasLease(b, tx.value.token)); }
      else { Spawned(n, p, Process(worker, None, HasLease(a, tx.value.token))); }
    }
  }

  /** Under the current token the attempt was idle, so nobody else is calling under it. */
  lemma CallBegan(w: World, r: Repo, p: nat, v: Attempt, purpose: Purpose)
    requires WorldInv(w) && p in w.procs && w.procs[p].phase.HasLease?
    requires Wrote(w.store.repo, r, w.procs[p].phase.attempt, v)
    requires w.store.repo.attempts[w.procs[p].phase.attempt].state in {Prepared, Unknown}
    requires w.store.repo.attempts[w.procs[p].phase.attempt].token == w.procs[p].phase.token == v.token
    requires v.state == ExpectedState(purpose) && v.leaseOwner == Some(w.procs[p].worker)
    ensures var n := Move(WithRepo(w, r), p, Calling(w.procs[p].phase.attempt, w.procs[p].phase.token, purpose));
            WorldInv(n) && StoreGrows(w.store, n.store)
  {
    hide AttemptBound, ToolBound, OncePerApproval, QueuedOnce;
    var proc := w.procs[p];
    var a := proc.phase.attempt;
    forall q | q in w.procs && InCall(w.procs[q].phase) && w.procs[q].phase.attempt == a
      ensures w.procs[q].phase.token < v.token
    { assert ProcOk(w.store, w.ledger, w.procs[q]); }
    assert ProcOk(w.store, w.ledger, proc);
    var procs := w.procs[p := proc.(phase := Calling(a, proc.phase.token, purpose))];
    assert ProcOk(w.store.(repo := r), w.ledger, procs[p]);
    WroteAttempt(w, r, a, v, procs);
  }

  lemma BeginStep(w: World, p: nat, ctx: Context, purpose: Purpose, now: int)
    requires WorldInv(w)
    ensures var n := DoBegin(w, p, ctx, purpose, now); WorldInv(n) && StoreGrows(w.store, n.store)
  {
    if p in w.procs && w.procs[p].phase.HasLease? {
      var worker, a, token := w.procs[p].worker, w.procs[p].phase.attempt, w.procs[p].phase.token;
      if purpose == ForDispatch { BeginDispatchKeeps(w.store.repo, ctx, a, worker, token, now); }
      else { BeginReconciliationKeeps(w.store.repo, ctx, a, worker, token, now); }
      var tx := BeginTx(w.store.repo, ctx, a, worker, token, purpose, now);
      if tx.Commit? { CallBegan(w, tx.state, p, tx.value, purpose); }
    }
  }

  lemma CallStep(w: World, p: nat, mode: Mode, absence: bool)
    requires WorldInv(w)
    ensures var n := DoCall(w, p, mode, absence); WorldInv(n) && StoreGrows(w.store, n.store)
  {
    hide Execute, Lookup, StoreInv;
    if p in w.procs && w.procs[p].phase.Calling? {
      var proc := w.procs[p];
      assert ProcOk(w.store, w.ledger, proc);
      var v := w.store.repo.attempts[proc.phase.attempt];
      ExecuteOnce(w.ledger, mode, v.key, v.intent);
      LookupReadsOnly(w.ledger, mode, absence, v.key, v.intent);
      NoBindingConflict(w, proc.phase.attempt);
      var (ledger, reply) := if proc.phase.purpose == ForDispatch then Execute(w.ledger, mode, v.key, v.intent)
                             else Lookup(w.ledger, mode, absence, v.key, v.intent);
      CallReturned(w, p, ledger, HeardFrom(reply));
    }
  }

  lemma CallReturned(w: World, p: nat, ledger: Ledger, o: Observation)
    requires WorldInv(w) && p in w.procs && w.procs[p].phase.Calling? && w.procs[p].phase.attempt < |w.store.repo.attempts|
    requires Keeps(w.ledger, ledger) && Definite(ledger)
    requires var v := w.store.repo.attempts[w.procs[p].phase.attempt];
      && Truthful(ledger, v.key, v.intent, o) && (o.kind == Absent ==> w.procs[p].phase.purpose == ForLookup)
      && ledger.Keys <= w.ledger.Keys + {v.key} && (v.key in ledger ==> ledger[v.key].intent == v.intent)
    ensures var ph := w.procs[p].phase;
      var n := Move(w.(ledger := ledger), p, Heard(ph.attempt, ph.token, ph.purpose, o));
      WorldInv(n) && StoreGrows(w.store, n.store)
  {
    hide StoreInv;
    var ph := w.procs[p].phase;
    var n := Move(w.(ledger := ledger), p, Heard(ph.attempt, ph.token, ph.purpose, o));
    assert ProcOk(w.store, w.ledger, w.procs[p]);
    assert ProcOk(n.store, n.ledger, n.procs[p]);
    Preserve(w, n);
  }

  /** A key is never bound to two intents: the provider's conflict branch is dead. */
  lemma NoBindingConflict(w: World, a: nat)
    requires WorldInv(w) && a < |w.store.repo.attempts|
    ensures var v := w.store.repo.attempts[a]; v.key in w.ledger ==> w.ledger[v.key].intent == v.intent
  {
    var r := w.store.repo;
    var v := r.attempts[a];
    assert AttemptBound(r, a);
    if v.key in w.ledger {
      var b :| 0 <= b < |r.attempts| && r.attempts[b].key == v.key && r.attempts[b].intent == w.ledger[v.key].intent;
      assert AttemptBound(r, b);
    }
  }

  /** The recorder was the only caller under the current token, and its verdict is true. */
  lemma Recorded(w: World, r: Repo, p: nat, v: Attempt)
    requires WorldInv(w) && p in w.procs && w.procs[p].phase.Heard?
    requires Wrote(w.store.repo, r, w.procs[p].phase.attempt, v)
    requires w.procs[p].phase.token == w.store.repo.attempts[w.procs[p].phase.attempt].token == v.token
    requires v.state == VerifiedSuccess ==> w.procs[p].phase.observation.kind == FoundSuccess
    requires v.state == VerifiedFailure ==> w.procs[p].phase.observation.kind == FoundFailure
    ensures var n := if w.procs[p].job.Some? then Move(WithRepo(w, r), p, Settled(w.procs[p].phase.attempt, v.state)) else Drop(WithRepo(w, r), p);
            WorldInv(n) && StoreGrows(w.store, n.store)
  {
    var proc := w.procs[p];
    var a := proc.phase.attempt;
    assert ProcOk(w.store, w.ledger, proc);
    CallersBehind(w, p, a, v.token);
    var procs := if proc.job.Some? then w.procs[p := proc.(phase := Settled(a, v.state))] else w.procs - {p};
    assert OneCallPerLease(procs) by { FewerCalls(w.procs, procs, p); }
    hide StoreInv, RepoInv, OneCallPerLease, EffectsOwned, CompletedSettled;
    WroteAttempt(w, r, a, v, procs);
  }

  lemma FewerCalls(before: map<nat, Process>, after: map<nat, Process>, p: nat)
    requires OneCallPerLease(before) && forall q | q in after && q != p :: q in before && after[q] == before[q]
    requires p in after ==> !InCall(after[p].phase)
    ensures OneCallPerLease(after)
  {}

  /** Whoever else is calling for the attempt does so under an older token than the one in call. */
  lemma CallersBehind(w: World, p: nat, a: nat, token: nat)
    requires WorldInv(w) && p in w.procs && InCall(w.procs[p].phase) && w.procs[p].phase.attempt == a && a < |w.store.repo.attempts|
    requires w.procs[p].phase.token == w.store.repo.attempts[a].token == token
    ensures forall q | q in w.procs && q != p && InCall(w.procs[q].phase) && w.procs[q].phase.attempt == a :: w.procs[q].phase.token < token
  {
    hide StoreInv, EffectsOwned, CompletedSettled;
    forall q | q in w.procs && q != p && InCall(w.procs[q].phase) && w.procs[q].phase.attempt == a
      ensures w.procs[q].phase.token < token
    { assert ProcOk(w.store, w.ledger, w.procs[q]); }
  }

  lemma RecordStep(w: World, p: nat, ctx: Context, now: int)
    requires WorldInv(w)
    ensures var n := DoRecord(w, p, ctx, now); WorldInv(n) && StoreGrows(w.store, n.store)
  {
    if p in w.procs && w.procs[p].phase.Heard? {
      var ph := w.procs[p].phase;
      RecordExact(w.store.repo, ctx, ph.attempt, w.procs[p].worker, ph.token, ph.observation, now);
      var tx := RecordObservation(w.store.repo, ctx, ph.attempt, w.procs[p].worker, ph.token, ph.observation, now);
      if tx.Commit? { Recorded(w, tx.state, p, tx.value); }
    }
  }

  lemma FinishStep(w: World, p: nat, now: int)
    requires WorldInv(w)
    ensures var n := DoFinish(w, p, now); WorldInv(n) && StoreGrows(w.store, n.store)
  {
    Dropped(w, p);
    if p in w.procs && w.procs[p].job.Some? && w.procs[p].phase.Settled? {
      var proc := w.procs[p];
      assert ProcOk(w.store, w.ledger, proc);
      var tx := Outbox.Checkpoint(w.store.events, proc.job.value.event, proc.worker, proc.job.value.token, now,
                                  Execution.Terminal(proc.phase.state));
      if tx.Commit? {
        NewEvents(w, tx.state, proc.job.value.event);
        Dropped(w.(store := w.store.(events := tx.state)), p);
      }
    }
  }

  lemma GiveUpStep(w: World, p: nat, now: int, limit: int)
    requires WorldInv(w)
    ensures var n := DoGiveUp(w, p, now, limit); WorldInv(n) && StoreGrows(w.store, n.store)
  {
    Dropped(w, p);
    if p in w.procs && w.procs[p].job.Some? {
      var proc := w.procs[p];
      var tx := Outbox.FailEvent(w.store.events, proc.job.value.event, proc.worker, proc.job.value.token, now, limit);
      if tx.Commit? {
        NewEvents(w, tx.state, proc.job.value.event);
        Dropped(w.(store := w.store.(events := tx.state)), p);
      }
    }
  }

  lemma ForeignStep(w: World, key: OpKey, row: Row)
    requires WorldInv(w)
    ensures var n := Foreign(w, key, row); WorldInv(n) && StoreGrows(w.store, n.store)
  {
    var n := Foreign(w, key, row);
    forall a | 0 <= a < |w.store.repo.attempts| ensures w.store.repo.attempts[a].key.tenant == w.store.repo.tenant {
      assert AttemptBound(w.store.repo, a);
    }
    ForeignUnseen(w, n);
  }

  /** Rows of other tenants concern nobody here. */
  lemma ForeignUnseen(w: World, n: World)
    requires WorldInv(w) && n.store == w.store && n.procs == w.procs && Definite(n.ledger)
    requires forall a | 0 <= a < |w.store.repo.attempts| :: w.store.repo.attempts[a].key.tenant == w.store.repo.tenant
    requires forall k: OpKey | k.tenant == w.store.repo.tenant :: (k in n.ledger <==> k in w.ledger) && (k in w.ledger ==> n.ledger[k] == w.ledger[k])
    ensures WorldInv(n)
  {
    hide StoreInv, CompletedSettled;
    forall a | 0 <= a < |w.store.repo.attempts| ensures VerdictTrue(n.ledger, w.store.repo.attempts[a]) {
      assert VerdictTrue(w.ledger, w.store.repo.attempts[a]);
    }
    forall p | p in n.procs ensures ProcOk(n.store, n.ledger, n.procs[p]) {
      assert ProcOk(w.store, w.ledger, w.procs[p]);
    }
  }

  predicate EventStep(step: Step) { step.TakeEvent? || step.PrepareEvent? || step.Finish? || step.GiveUp? }

  predicate AttemptStep(step: Step) { step.TakeAttempt? || step.Begin? || step.CallProvider? || step.Record? || step.Crash? }

  lemma EventSteps(w: World, step: Step)
    requires WorldInv(w) && EventStep(step)
    ensures WorldInv(Apply(w, step)) && StoreGrows(w.store, Apply(w, step).store)
  {
    hide WorldInv, StoreGrows, DoTakeEvent, DoPrepareEvent, DoFinish, DoGiveUp;
    match step {
      case TakeEvent(p, worker, e, now, until) => TakeEventStep(w, p, worker, e, now, until);
      case PrepareEvent(p, ctx, now) => PrepareEventStep(w, p, ctx, now);
      case Finish(p, now) => FinishStep(w, p, now);
      case GiveUp(p, now, limit) => GiveUpStep(w, p, now, limit);
    }
  }

  lemma AttemptSteps(w: World, step: Step)
    requires WorldInv(w) && AttemptStep(step)
    ensures WorldInv(Apply(w, step)) && StoreGrows(w.store, Apply(w, step).store)
  {
    hide WorldInv, StoreGrows, DoTakeAttempt, DoBegin, DoCall, DoRecord;
    match step {
      case TakeAttempt(p, ctx, worker, a, expected, seconds, now) => TakeAttemptStep(w, p, ctx, worker, a, expected, seconds, now);
      case Begin(p, ctx, purpose, now) => BeginStep(w, p, ctx, purpose, now);
      case CallProvider(p, mode, absence) => CallStep(w, p, mode, absence);
      case Record(p, ctx, now) => RecordStep(w, p, ctx, now);
      case Crash(p) => Dropped(w, p);
    }
  }

  lemma StepKeeps(w: World, step: Step)
    requires WorldInv(w)
    ensures WorldInv(Apply(w, step)) && StoreGrows(w.store, Apply(w, step).store)
  {
    hide WorldInv, StoreGrows, Foreign, PlaneAfter, SubmitTool, PrepareAttempt;
    match step {
      case ForeignEffect(key, row) => ForeignStep(w, key, row);
      case Submit(ctx, q, now) => SubmitStep(w, ctx, q, now);
      case PrepareDirect(_, _, _, _, _, _, _, _) => PrepareDirectStep(w, step);
      case _ =>
        if EventStep(step) { EventSteps(w, step); } else if AttemptStep(step) { AttemptSteps(w, step); } else { PlaneSteps(w, step); }
    }
  }

  /** The invariant holds after every run. */
  lemma {:induction false} RunKeeps(tenant: string, steps: seq<Step>)
    ensures WorldInv(After(tenant, steps))
  {
    if steps != [] {
      RunKeeps(tenant, steps[..|steps| - 1]);
      StepKeeps(After(tenant, steps[..|steps| - 1]), steps[|steps| - 1]);
    }
  }
}

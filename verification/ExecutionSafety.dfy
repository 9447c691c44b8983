/** What every transaction of the service keeps: the binding from approval to
    attempt, and the facts that only ever grow. */
module ExecutionSafety {
  import opened Common
  import opened Domain
  import opened ControlPlane
  import opened SyntheticProvider
  import opened Execution
  import opened ToolGateway
  import Outbox

  ghost predicate PlaneInv(p: Plane) {
    && |p.approvals| == |p.commands|
    && (forall c | c in p.intents :: c < |p.commands|)
    && (forall c | c in p.preparations :: c in p.intents && p.preparations[c].digest == p.intents[c].digest)
    && (forall c | 0 <= c < |p.approvals| && p.approvals[c].decidedBy.Some? :: p.approvals[c].decidedBy.value in p.members)
    && (forall c | ExecutionPrepared(c) in p.outbox :: c in p.preparations)
  }

  /** Nothing an execution relies on is ever taken away. */
  ghost predicate PlaneGrows(p: Plane, q: Plane) {
    && |p.commands| <= |q.commands|
    && (forall c | c in p.intents :: c in q.intents && q.intents[c] == p.intents[c])
    && (forall c | c in p.preparations :: c in q.preparations && q.preparations[c] == p.preparations[c])
    && p.controls.Keys <= q.controls.Keys && p.members.Keys <= q.members.Keys
  }

  /** Outbox keys of attempts are added only by attempt transactions. */
  ghost predicate SameAttemptKeys(p: Plane, q: Plane) {
    forall t, a, v :: AttemptEvent(t, a, v) in q.outbox ==> AttemptEvent(t, a, v) in p.outbox
  }

  /** Nor are those of tool commands added by anything but a submission. */
  ghost predicate SameToolKeys(p: Plane, q: Plane) {
    forall t :: ToolAccepted(t) in q.outbox ==> ToolAccepted(t) in p.outbox
  }

  ghost predicate PlaneMoves(p: Plane, q: Plane) {
    PlaneInv(q) && PlaneGrows(p, q) && SameAttemptKeys(p, q)
  }

  ghost predicate PlaneStepOk(p: Plane, q: Plane) { PlaneMoves(p, q) && SameToolKeys(p, q) }

  lemma AddCommandKeeps(p: Plane, c: Command, a: Approval)
    requires PlaneInv(p) && a.decidedBy.None?
    ensures PlaneStepOk(p, AddCommand(p, c, a))
  {}

  lemma AddPreparationKeeps(p: Plane, c: nat, prepared: Preparation)
    requires PlaneInv(p) && c in p.intents && prepared.digest == p.intents[c].digest && c !in p.preparations
    ensures PlaneStepOk(p, AddPreparation(p, c, prepared))
  {}

  lemma AddIntentKeeps(p: Plane, c: nat, i: Intent)
    requires PlaneInv(p) && c < |p.commands| && c !in p.intents
    ensures PlaneStepOk(p, p.(intents := p.intents[c := i]))
  {}

  lemma CreateCommandKeeps(p: Plane, ctx: Context, kind: ApprovalKind, target: string, payload: Payload, key: CommandKey, evidence: string, now: int)
    requires PlaneInv(p)
    ensures var tx := CreateCommand(p, ctx, kind, target, payload, key, evidence, now);
      tx.Commit? ==> PlaneStepOk(p, tx.state) && tx.value < |tx.state.commands|
  {
    if key !in p.keys {
      AddCommandKeeps(p, Command(kind, target, payload, key, Pending), Approval(Pending, now + APPROVAL_LIFETIME, evidence, None));
    }
  }

  lemma RequestApprovalKeeps(p: Plane, ctx: Context, kind: ApprovalKind, target: string, payload: Payload, key: CommandKey,
                             policyVersion: int, targetVersion: int, evidence: string, now: int)
    requires PlaneInv(p)
    ensures var tx := RequestApproval(p, ctx, kind, target, payload, key, policyVersion, targetVersion, evidence, now);
      tx.Commit? ==> PlaneStepOk(p, tx.state)
  {
    CreateCommandKeeps(p, ctx, kind, target, payload, key, evidence, now);
    var created := CreateCommand(p, ctx, kind, target, payload, key, evidence, now);
    if created.Commit? && created.value !in created.state.intents {
      var digest := Material(kind, target, payload, evidence, created.state.approvals[created.value].expiresAt, policyVersion, targetVersion);
      AddIntentKeeps(created.state, created.value, Intent(digest, policyVersion, targetVersion));
    }
  }

  lemma SetStateKeeps(p: Plane, c: nat, s: DecisionState, decider: Option<string>)
    requires PlaneInv(p) && c < |p.commands|
    requires decider.Some? ==> decider.value in p.members
    ensures PlaneStepOk(p, SetState(p, c, s, decider))
  {}

  lemma DecideKeeps(p: Plane, ctx: Context, c: nat, approve: bool, now: int)
    requires PlaneInv(p)
    ensures var tx := Decide(p, ctx, c, approve, now); tx.Commit? ==> PlaneStepOk(p, tx.state)
  {
    if Decide(p, ctx, c, approve, now).Commit? {
      var expired := now >= p.approvals[c].expiresAt;
      var q := p.(outbox := p.outbox + {if expired then ApprovalExpired(c) else ApprovalDecided(c)});
      if expired { SetStateKeeps(q, c, Expired, p.approvals[c].decidedBy); }
      else { SetStateKeeps(q, c, if approve then Approved else Rejected, Some(ctx.user)); }
    }
  }

  lemma SupersedeKeeps(p: Plane, ctx: Context, c: nat, payload: Payload, key: CommandKey, now: int)
    requires PlaneInv(p)
    ensures var tx := Supersede(p, ctx, c, payload, key, now); tx.Commit? ==> PlaneStepOk(p, tx.state)
  {
    if c < |p.commands| {
      var q := SetState(p, c, Superseded, p.approvals[c].decidedBy);
      CreateCommandKeeps(q, ctx, p.commands[c].kind, p.commands[c].targetRef, payload, key, p.approvals[c].evidence, now);
    }
  }

  lemma ExpireDueKeeps(p: Plane, c: nat, now: int)
    requires PlaneInv(p)
    ensures var tx := ExpireDue(p, c, now); tx.Commit? ==> PlaneStepOk(p, tx.state)
  {
    var tx := ExpireDue(p, c, now);
    if tx.Commit? && tx.value {
      SetStateKeeps(p.(outbox := p.outbox + {ApprovalExpired(c)}), c, Expired, p.approvals[c].decidedBy);
    }
  }

  lemma PrepareExecutionKeeps(p: Plane, ctx: Context, c: nat, policyVersion: int, targetVersion: int, now: int)
    requires PlaneInv(p)
    ensures var tx := PrepareExecution(p, ctx, c, policyVersion, targetVersion, now);
      tx.Commit? ==>
        && PlaneStepOk(p, tx.state) && c in tx.state.preparations && tx.state.preparations[c] == tx.value
        && tx.state.intents == p.intents && tx.state.controls == p.controls
        && (c in p.preparations ==> tx.state == p)
  {
    if c in p.intents && c !in p.preparations {
      AddPreparationKeeps(p, c, Preparation(p.intents[c].digest, ctx.user, now));
    }
  }

  lemma GateKeeps(p: Plane, ctx: Context, c: nat, connection: string, now: int)
    requires PlaneInv(p)
    ensures var tx := Gate(p, ctx, c, connection, now);
      tx.Commit? ==>
        && PlaneStepOk(p, tx.state) && c in tx.state.preparations && tx.state.preparations[c] == tx.value
        && tx.state.intents == p.intents && tx.state.controls == p.controls && c in p.controls
        && (c in p.preparations ==> tx.state == p)
        && Authorised(p, ctx, c, connection, now)
  {
    GateExact(p, ctx, c, connection, now);
    if c in p.controls {
      PrepareExecutionKeeps(p, ctx, c, p.controls[c].policyVersion, p.controls[c].targetVersion, now);
    }
  }

  // ---------------------------------------------------------------- attempts

  /** One attempt per approved command, bound to that command's immutable intent. */
  ghost predicate AttemptBound(r: Repo, a: nat)
    requires a < |r.attempts|
  {
    var v := r.attempts[a];
    && v.command in r.plane.preparations && v.command in r.plane.controls && v.command in r.plane.intents
    && v.key == OpKey(r.tenant, v.command)
    && v.intent == r.plane.intents[v.command].digest
  }

  ghost predicate RepoInv(r: Repo) {
    && PlaneInv(r.plane)
    && (forall a | 0 <= a < |r.attempts| :: AttemptBound(r, a))
    && (forall a, b | 0 <= a < |r.attempts| && 0 <= b < |r.attempts| && r.attempts[a].command == r.attempts[b].command :: a == b)
    && (forall a | a in r.observations :: a < |r.attempts|)
    && (forall t: string, a: nat, v: int | AttemptEvent(t, a, v) in r.plane.outbox :: a < |r.attempts| && v <= r.attempts[a].version)
  }

  /** Attempts keep their operation, their version and token only grow, and terminal ones never change. */
  ghost predicate RepoGrows(r: Repo, s: Repo) {
    && r.tenant == s.tenant && PlaneGrows(r.plane, s.plane) && |r.attempts| <= |s.attempts|
    && forall a | 0 <= a < |r.attempts| :: AttemptGrows(r.attempts[a], s.attempts[a])
  }

  ghost predicate AttemptGrows(v: Attempt, w: Attempt) {
    && SameOperation(v, w) && v.version <= w.version && v.token <= w.token
    && (v.version == w.version ==> v == w)
    && (Execution.Terminal(v.state) ==> v == w)
  }

  lemma PlaneStepKeepsRepo(r: Repo, p: Plane)
    requires RepoInv(r) && PlaneMoves(r.plane, p)
    ensures RepoInv(r.(plane := p)) && RepoGrows(r, r.(plane := p))
  {
    var s := r.(plane := p);
    forall a | 0 <= a < |s.attempts| ensures AttemptBound(s, a) { assert AttemptBound(r, a); }
  }

  lemma PrepareAttemptKeeps(r: Repo, ctx: Context, c: nat, policyVersion: int, targetVersion: int, adapterVersion: string,
                            provider: string, connection: string, now: int)
    requires RepoInv(r)
    ensures var tx := PrepareAttempt(r, ctx, c, policyVersion, targetVersion, adapterVersion, provider, connection, now);
      tx.Commit? ==>
        && RepoInv(tx.state) && RepoGrows(r, tx.state)
        && tx.value.0 < |tx.state.attempts| && tx.state.attempts[tx.value.0].command == c
        && |tx.state.attempts| == |r.attempts| + (if tx.value.1 then 0 else 1)
        && SameToolKeys(r.plane, tx.state.plane)
        && (forall a | 0 <= a < |r.attempts| :: tx.state.attempts[a] == r.attempts[a])
        && (!tx.value.1 ==> tx.value.0 == |r.attempts| && tx.state.attempts[tx.value.0].state == Prepared
                            && tx.state.attempts[tx.value.0].token == 0)
        && tx.state.observations == r.observations
  {
    var tx := PrepareAttempt(r, ctx, c, policyVersion, targetVersion, adapterVersion, provider, connection, now);
    if tx.Commit? {
      GateKeeps(r.plane, ctx, c, connection, now);
      var gated := Gate(r.plane, ctx, c, connection, now).state;
      PrepareExecutionKeeps(gated, ctx, c, policyVersion, targetVersion, now);
      var plane := PrepareExecution(gated, ctx, c, policyVersion, targetVersion, now).state;
      PlaneStepKeepsRepo(r, plane);
      if AttemptForKey(r.attempts, OpKey(r.tenant, c)).None? {
        forall a | 0 <= a < |r.attempts| ensures r.attempts[a].command != c { assert AttemptBound(r, a); }
        InsertAttemptKeeps(r.(plane := plane), plane, tx.state.attempts[tx.value.0]);
      } else {
        assert AttemptBound(r, tx.value.0);
      }
    }
  }

  /** The connection has an adapter of this version that may execute and look up. */
  predicate ManifestFits(p: Plane, provider: string, connection: string, version: string) {
    (provider, connection) in p.manifests
    && p.manifests[(provider, connection)].adapterVersion == version
    && DemoExecute in p.manifests[(provider, connection)].capabilities && DemoLookup in p.manifests[(provider, connection)].capabilities
  }

  /** The attempt as it is first stored. */
  function NewAttempt(r: Repo, c: nat, adapterVersion: string, provider: string, connection: string): Attempt
    requires c in r.plane.intents
  {
    Attempt(c, OpKey(r.tenant, c), r.plane.intents[c].digest, adapterVersion, provider, connection, Prepared, 1, None, None, 0, None, None, None)
  }

  /** Exactly when an attempt is prepared: by an administrator, through the open gate, at the
      approved versions, over a matching adapter, which for a command already attempted must
      be the same one; and the row that is found or left. */
  lemma PrepareAttemptExact(r: Repo, ctx: Context, c: nat, policyVersion: int, targetVersion: int, adapterVersion: string,
                            provider: string, connection: string, now: int)
    requires RepoInv(r)
    ensures var tx := PrepareAttempt(r, ctx, c, policyVersion, targetVersion, adapterVersion, provider, connection, now);
      && (tx.Commit? <==>
            && Administrator(r.plane, ctx) && ManifestFits(r.plane, provider, connection, adapterVersion) && Authorised(r.plane, ctx, c, connection, now)
            && policyVersion == r.plane.intents[c].policyVersion && targetVersion == r.plane.intents[c].targetVersion
            && (forall a | 0 <= a < |r.attempts| && r.attempts[a].command == c ::
                  r.attempts[a].adapterVersion == adapterVersion && r.attempts[a].provider == provider && r.attempts[a].connection == connection))
      && (tx.Commit? ==>
            && tx.state == Repo(r.tenant, r.plane.(preparations := tx.state.plane.preparations, outbox := tx.state.plane.outbox), tx.state.attempts, r.observations)
            && c in tx.state.plane.preparations
            && (if tx.value.1 then tx.value.0 < |r.attempts| && r.attempts[tx.value.0].command == c && tx.state.attempts == r.attempts
                else tx.value.0 == |r.attempts| && tx.state.attempts == r.attempts + [NewAttempt(r, c, adapterVersion, provider, connection)]
                     && AttemptEvent("attempt.prepared", tx.value.0, 1) in tx.state.plane.outbox))
  {
    AdministratorExact(r.plane, ctx);
    GateKeeps(r.plane, ctx, c, connection, now);
    GateExact(r.plane, ctx, c, connection, now);
    if Gate(r.plane, ctx, c, connection, now).Commit? {
      GateVersions(r.plane, ctx, c, connection, policyVersion, targetVersion, now);
      assert AttemptEvent("attempt.prepared", |r.attempts|, 1) !in r.plane.outbox;
      KeyIsCommands(r, c);
      hide Gate, PrepareExecution, Require, RepoInv, Authorised, PlaneInv;
    }
  }

  /** Behind the open gate a preparation succeeds exactly at the approved versions, and adds no attempt event. */
  lemma GateVersions(p: Plane, ctx: Context, c: nat, connection: string, policyVersion: int, targetVersion: int, now: int)
    requires PlaneInv(p) && Gate(p, ctx, c, connection, now).Commit?
    ensures c in p.intents
    ensures var (gated, tx) := (Gate(p, ctx, c, connection, now), PrepareExecution(Gate(p, ctx, c, connection, now).state, ctx, c, policyVersion, targetVersion, now));
      && (tx.Commit? <==> policyVersion == p.intents[c].policyVersion && targetVersion == p.intents[c].targetVersion)
      && (tx.Commit? ==> tx.state == gated.state && c in tx.state.preparations)
      && gated.state == p.(preparations := gated.state.preparations, outbox := gated.state.outbox)
      && gated.value.digest == p.intents[c].digest && SameAttemptKeys(p, gated.state)
  {
    GateKeeps(p, ctx, c, connection, now);
  }

  lemma KeyIsCommands(r: Repo, c: nat)
    requires RepoInv(r)
    ensures forall a | 0 <= a < |r.attempts| :: r.attempts[a].key == OpKey(r.tenant, c) <==> r.attempts[a].command == c
    ensures forall a, b | 0 <= a < |r.attempts| && 0 <= b < |r.attempts| && r.attempts[a].command == r.attempts[b].command :: a == b
  {
    forall a | 0 <= a < |r.attempts| ensures r.attempts[a].key == OpKey(r.tenant, c) <==> r.attempts[a].command == c { assert AttemptBound(r, a); }
  }

  lemma InsertAttemptKeeps(r: Repo, plane: Plane, v: Attempt)
    requires RepoInv(r) && plane == r.plane && v.version == 1
    requires v.command in plane.preparations && v.command in plane.controls && v.key == OpKey(r.tenant, v.command)
    requires v.intent == plane.intents[v.command].digest
    requires forall a | 0 <= a < |r.attempts| :: r.attempts[a].command != v.command
    ensures RepoInv(InsertAttempt(r, plane, v)) && RepoGrows(r, InsertAttempt(r, plane, v))
  {
    var s := InsertAttempt(r, plane, v);
    forall a | 0 <= a < |s.attempts| ensures AttemptBound(s, a) {
      if a < |r.attempts| { assert AttemptBound(r, a); }
    }
  }

  /** The shape shared by every transaction that writes one attempt back. */
  ghost predicate Wrote(r: Repo, s: Repo, a: nat, w: Attempt) {
    && a < |r.attempts| && s.attempts == r.attempts[a := w]
    && RepoInv(s) && RepoGrows(r, s) && SameToolKeys(r.plane, s.plane)
  }

  lemma WriteKeeps(r: Repo, s: Repo, plane: Plane, a: nat, w: Attempt, topic: string, emitted: bool)
    requires RepoInv(r) && PlaneStepOk(r.plane, plane) && a < |r.attempts|
    requires SameOperation(r.attempts[a], w) && w.version == r.attempts[a].version + 1 && w.token >= r.attempts[a].token
    requires !Execution.Terminal(r.attempts[a].state)
    requires s.attempts == r.attempts[a := w] && s.tenant == r.tenant && s.observations.Keys <= r.observations.Keys + {a}
    requires s.plane == if emitted then plane.(outbox := plane.outbox + {EventKey(topic, a, w.version)}) else plane
    ensures Wrote(r, s, a, w)
  {
    forall b | 0 <= b < |s.attempts| ensures AttemptBound(s, b) { assert AttemptBound(r, b); }
  }

  predicate Past(t: Option<int>, now: int) { t.Some? ==> t.value <= now }

  /** A claim never takes over a live lease, whoever asks; it raises the fencing token
      and turns a crashed call into UNKNOWN. */
  lemma ClaimKeeps(r: Repo, ctx: Context, a: nat, worker: string, expected: int, seconds: int, now: int)
    requires RepoInv(r)
    ensures var tx := ClaimAttempt(r, ctx, a, worker, expected, seconds, now);
      tx.Commit? ==>
        && Wrote(r, tx.state, a, tx.value) && tx.state.observations == r.observations
        && tx.value.token == r.attempts[a].token + 1 && r.attempts[a].version == expected
        && tx.value.state == (if r.attempts[a].state in {Dispatching, Reconciling} then Unknown else r.attempts[a].state)
        && Past(r.attempts[a].leaseUntil, now)
  {
    var tx := ClaimAttempt(r, ctx, a, worker, expected, seconds, now);
    if tx.Commit? {
      WriteKeeps(r, tx.state, r.plane, a, tx.value, "attempt.recovered_unknown", r.attempts[a].state in {Dispatching, Reconciling});
    }
  }

  /** Exactly when an attempt can be claimed, and the lease the claim gives: it is the
      worker's alone, under a token nobody had before, until `seconds` from now. */
  lemma ClaimExact(r: Repo, ctx: Context, a: nat, worker: string, expected: int, seconds: int, now: int)
    requires RepoInv(r)
    ensures var tx := ClaimAttempt(r, ctx, a, worker, expected, seconds, now);
      && (tx.Commit? <==>
            && Administrator(r.plane, ctx) && 1 <= seconds <= 300 && a < |r.attempts|
            && r.attempts[a].version == expected && r.attempts[a].state !in {VerifiedSuccess, VerifiedFailure, ManualReview}
            && Past(r.attempts[a].leaseUntil, now) && Past(r.attempts[a].nextCheckAt, now))
      && (tx.Commit? ==>
            && Wrote(r, tx.state, a, tx.value) && tx.value.nextCheckAt == r.attempts[a].nextCheckAt
            && (forall other, token, later :: LeaseHeld(tx.value, other, token, later) <==>
                  other == worker && token == r.attempts[a].token + 1 && later < now + seconds))
  {
    if a < |r.attempts| { assert AttemptEvent("attempt.recovered_unknown", a, r.attempts[a].version + 1) !in r.plane.outbox; }
    AdministratorExact(r.plane, ctx);
    ClaimKeeps(r, ctx, a, worker, expected, seconds, now);
  }

  /** A caller who administers the tenant: an active member of that role, in a session no older than the membership. */
  predicate Administrator(p: Plane, ctx: Context) { ActiveWith(p, ctx.user, TenantAdmin) && p.members[ctx.user].version == ctx.version }

  lemma AdministratorExact(p: Plane, ctx: Context)
    ensures Require(p, ctx, TenantAdmin).Pass? <==> Administrator(p, ctx)
  {}

  lemma BeginDispatchKeeps(r: Repo, ctx: Context, a: nat, worker: string, token: nat, now: int)
    requires RepoInv(r)
    ensures var tx := BeginDispatch(r, ctx, a, worker, token, now);
      tx.Commit? ==>
        && Wrote(r, tx.state, a, tx.value) && tx.state.observations == r.observations
        && r.attempts[a].state == Prepared && tx.value.state == Dispatching
        && LeaseHeld(r.attempts[a], worker, token, now) && tx.value.token == token && tx.value.leaseOwner == Some(worker)
        && Authorised(r.plane, ctx, r.attempts[a].command, r.attempts[a].connection, now)
        && ManifestCheck(r.plane, r.attempts[a].provider, r.attempts[a].connection, r.attempts[a].adapterVersion).Pass?
  {
    var tx := BeginDispatch(r, ctx, a, worker, token, now);
    if tx.Commit? {
      var v := r.attempts[a];
      assert AttemptBound(r, a);
      GateKeeps(r.plane, ctx, v.command, v.connection, now);
      WriteKeeps(r, tx.state, r.plane, a, tx.value, "attempt.dispatching", true);
    }
  }

  lemma BeginReconciliationKeeps(r: Repo, ctx: Context, a: nat, worker: string, token: nat, now: int)
    requires RepoInv(r)
    ensures var tx := BeginReconciliation(r, ctx, a, worker, token, now);
      tx.Commit? ==>
        && Wrote(r, tx.state, a, tx.value) && tx.state.observations == r.observations
        && r.attempts[a].state == Unknown && tx.value.state == Reconciling
        && LeaseHeld(r.attempts[a], worker, token, now) && tx.value.token == token && tx.value.leaseOwner == Some(worker)
  {
    var tx := BeginReconciliation(r, ctx, a, worker, token, now);
    if tx.Commit? { WriteKeeps(r, tx.state, r.plane, a, tx.value, "attempt.reconciling", true); }
  }

  predicate ManifestMatches(p: Plane, v: Attempt) { ManifestFits(p, v.provider, v.connection, v.adapterVersion) }

  /** Exactly when a dispatch begins; it leaves the attempt DISPATCHING under the same lease. */
  lemma BeginDispatchExact(r: Repo, ctx: Context, a: nat, worker: string, token: nat, now: int)
    requires RepoInv(r)
    ensures var tx := BeginDispatch(r, ctx, a, worker, token, now);
      && (tx.Commit? <==>
            && Administrator(r.plane, ctx) && a < |r.attempts|
            && LeaseHeld(r.attempts[a], worker, token, now) && r.attempts[a].state == Prepared
            && Authorised(r.plane, ctx, r.attempts[a].command, r.attempts[a].connection, now) && ManifestMatches(r.plane, r.attempts[a]))
      && (tx.Commit? ==> tx.value == r.attempts[a].(state := Dispatching, version := r.attempts[a].version + 1))
  {
    AdministratorExact(r.plane, ctx);
    if a < |r.attempts| {
      var v := r.attempts[a];
      assert AttemptBound(r, a);
      GateKeeps(r.plane, ctx, v.command, v.connection, now);
      GateExact(r.plane, ctx, v.command, v.connection, now);
      assert AttemptEvent("attempt.dispatching", a, v.version + 1) !in r.plane.outbox;
      hide Gate, Require, Authorised, RepoInv, AttemptBound;
    }
  }

  lemma BeginReconciliationExact(r: Repo, ctx: Context, a: nat, worker: string, token: nat, now: int)
    requires RepoInv(r)
    ensures var tx := BeginReconciliation(r, ctx, a, worker, token, now);
      && (tx.Commit? <==>
            Administrator(r.plane, ctx) && a < |r.attempts| && LeaseHeld(r.attempts[a], worker, token, now) && r.attempts[a].state == Unknown)
      && (tx.Commit? ==> tx.value == r.attempts[a].(state := Reconciling, version := r.attempts[a].version + 1))
  {
    AdministratorExact(r.plane, ctx);
    if a < |r.attempts| { assert AttemptEvent("attempt.reconciling", a, r.attempts[a].version + 1) !in r.plane.outbox; }
  }

  /** The state an observation resolves to, without the code that computes it. */
  ghost predicate Outcome(r: Repo, ctx: Context, v: Attempt, o: Observation, prior: nat, now: int, s: AttemptState) {
    match o.kind
    case FoundSuccess => s == VerifiedSuccess
    case FoundFailure => s == VerifiedFailure
    case Inconclusive => s == if prior >= 4 then ManualReview else Unknown
    case Absent => s == if o.authoritative && Authorised(r.plane, ctx, v.command, v.connection, now) then Prepared else ManualReview
  }

  /** For an attempt that exists, resolving an observation never fails: the
      rows the repeated gate reads cannot have disappeared. */
  lemma ResolveTotal(r: Repo, ctx: Context, a: nat, o: Observation, prior: nat, now: int)
    requires RepoInv(r) && a < |r.attempts| && Require(r.plane, ctx, TenantAdmin).Pass?
    ensures var tx := Resolve(r, ctx, r.attempts[a], o, prior, now);
      tx.Commit? && tx.state == r.plane && Outcome(r, ctx, r.attempts[a], o, prior, now, tx.value)
  {
    var v := r.attempts[a];
    assert AttemptBound(r, a);
    GateKeeps(r.plane, ctx, v.command, v.connection, now);
    GateExact(r.plane, ctx, v.command, v.connection, now);
    assert Gate(r.plane, ctx, v.command, v.connection, now) != Abort(NotFound);
  }

  /** The wait before the next check doubles from half a minute; a fifth inconclusive answer ends in review. */
  function NextCheck(prior: nat): int { match prior case 0 => 30 case 1 => 60 case 2 => 120 case 3 => 240 case _ => 300 }

  lemma BackoffIs(prior: nat)
    ensures Backoff(prior) == NextCheck(prior)
  {
    assert PowerOfTwo(0) == 1 && PowerOfTwo(1) == 2 && PowerOfTwo(2) == 4 && PowerOfTwo(3) == 8 && PowerOfTwo(4) == 16;
  }

  /** Recording an observation: exactly when it is accepted, and what it leaves. */
  lemma RecordExact(r: Repo, ctx: Context, a: nat, worker: string, token: nat, o: Observation, now: int)
    requires RepoInv(r)
    ensures var tx := RecordObservation(r, ctx, a, worker, token, o, now);
      && (tx.Commit? <==>
            && Require(r.plane, ctx, TenantAdmin).Pass? && a < |r.attempts|
            && LeaseHeld(r.attempts[a], worker, token, now)
            && (r.attempts[a].state == Reconciling || (r.attempts[a].state == Dispatching && o.kind != Absent)))
      && (tx.Commit? ==>
            && Wrote(r, tx.state, a, tx.value)
            && Outcome(r, ctx, r.attempts[a], o, |ObservationsFor(r, a)|, now, tx.value.state)
            && tx.value.leaseOwner == None && tx.value.leaseUntil == None && tx.value.token == token
            && tx.value.lastObservedAt == Some(now)
            && tx.value.reference == (if o.reference.Some? then o.reference else r.attempts[a].reference)
            && tx.value.nextCheckAt == (if tx.value.state == Unknown then Some(now + NextCheck(|ObservationsFor(r, a)|)) else None)
            && tx.state.observations == r.observations[a := ObservationsFor(r, a) + [o]])
  {
    var tx := RecordObservation(r, ctx, a, worker, token, o, now);
    if Require(r.plane, ctx, TenantAdmin).Pass? && a < |r.attempts| {
      var v := r.attempts[a];
      var prior := |ObservationsFor(r, a)|;
      ResolveTotal(r, ctx, a, o, prior, now);
      BackoffIs(prior);
      assert EventKey("attempt.observed", a, v.version + 1) !in r.plane.outbox;
      if tx.Commit? {
        WriteKeeps(r, tx.state, r.plane, a, tx.value, "attempt.observed", true);
      }
    }
  }

  // ------------------------------------------------------------ tool commands

  ghost predicate ToolBound(s: Store, t: nat)
    requires t < |s.tools|
  {
    s.tools[t].state == Accepted && s.tools[t].approvalCommand.Some? ==>
      && s.tools[t].request.approval == s.tools[t].approvalCommand
      && var c := s.tools[t].approvalCommand.value;
         c in s.repo.plane.intents && c in s.repo.plane.preparations && s.tools[t].digest == Some(s.repo.plane.intents[c].digest)
  }

  ghost predicate OncePerApproval(tools: seq<ToolCommand>) {
    forall i, j | 0 <= i < |tools| && 0 <= j < |tools| && tools[i].state == Accepted && tools[j].state == Accepted
      && tools[i].request.approval.Some? && tools[i].request.approval == tools[j].request.approval :: i == j
  }

  /** An accepted command on an approval is queued, once; every event stands for such a command. */
  predicate Queueable(v: ToolCommand) { v.state == Accepted && v.approvalCommand.Some? }

  ghost predicate HasEvent(events: seq<Outbox.Event>, t: nat) { exists e :: 0 <= e < |events| && events[e].aggregate == t }

  ghost predicate QueuedOnce(tools: seq<ToolCommand>, events: seq<Outbox.Event>) {
    && (forall t | 0 <= t < |tools| && Queueable(tools[t]) :: HasEvent(events, t))
    && (forall e | 0 <= e < |events| :: events[e].aggregate < |tools| && Queueable(tools[events[e].aggregate]))
    && (forall e, f | 0 <= e < |events| && 0 <= f < |events| && events[e].aggregate == events[f].aggregate :: e == f)
  }

  ghost predicate StoreInv(s: Store) {
    && RepoInv(s.repo)
    && (forall t | 0 <= t < |s.tools| :: ToolBound(s, t))
    && (forall t | 0 <= t < |s.tools| && s.tools[t].request.approval.Some? :: s.tools[t].approvalCommand == s.tools[t].request.approval)
    && OncePerApproval(s.tools)
    && (forall i, j | 0 <= i < |s.tools| && 0 <= j < |s.tools| && s.tools[i].request.key == s.tools[j].request.key :: i == j)
    && QueuedOnce(s.tools, s.events)
    && (forall t: nat | ToolAccepted(t) in s.repo.plane.outbox :: t < |s.tools|)
  }

  lemma RepoStepKeepsStore(s: Store, r: Repo)
    requires StoreInv(s) && RepoInv(r) && RepoGrows(s.repo, r) && SameToolKeys(s.repo.plane, r.plane)
    ensures StoreInv(s.(repo := r))
  {
    var n := s.(repo := r);
    forall t | 0 <= t < |n.tools| ensures ToolBound(n, t) { assert ToolBound(s, t); }
  }

  /** Rewriting events without moving them to other commands keeps all of it. */
  lemma EventsKeepStore(s: Store, events: seq<Outbox.Event>)
    requires StoreInv(s) && |events| == |s.events| && forall e | 0 <= e < |events| :: events[e].aggregate == s.events[e].aggregate
    ensures StoreInv(s.(events := events))
  {
    var n := s.(events := events);
    forall t | 0 <= t < |n.tools| ensures ToolBound(n, t) { assert ToolBound(s, t); }
    forall t | 0 <= t < |n.tools| && Queueable(n.tools[t]) ensures HasEvent(events, t) {
      assert HasEvent(s.events, t);
      var e :| 0 <= e < |s.events| && s.events[e].aggregate == t;
      assert events[e].aggregate == t;
    }
  }

  /** A command fit to be saved: on an approval only when the approval's intent is
      prepared, its digest is carried along, and no other key has used it. */
  ghost predicate Fit(tools: seq<ToolCommand>, p: Plane, v: ToolCommand) {
    && v.approvalCommand == v.request.approval
    && (v.request.approval.Some? ==>
          && var c := v.request.approval.value;
             c in p.intents && c in p.preparations && v.digest == Some(p.intents[c].digest)
             && !UsedElsewhere(tools, c, v.request.key))
  }

  /** The approval stands now and covers this exact request. */
  ghost predicate Covers(p: Plane, c: nat, q: Request, now: int) {
    && c < |p.commands| && c < |p.approvals| && c in p.intents
    && p.commands[c].payload == q.input && p.commands[c].kind in ApprovalKinds(q.tool)
    && p.commands[c].targetRef == TypeName(q.targetType) + ":" + q.targetId
    && p.intents[c].policyVersion == q.policyVersion
    && p.approvals[c].state == Approved && now < p.approvals[c].expiresAt
  }

  lemma ValidateKeeps(p: Plane, tools: seq<ToolCommand>, ctx: Context, q: Request, now: int)
    requires PlaneInv(p)
    ensures var tx := ValidateApproval(p, tools, ctx, q, now);
      tx.Commit? ==>
        && PlaneStepOk(p, tx.state) && tx.value.Some? && q.approval.Some?
        && Covers(p, q.approval.value, q, now)
        && Fit(tools, tx.state, ToolCommand(q, Accepted, q.approval, tx.value))
  {
    if q.approval.Some? && q.approval.value in p.intents {
      PrepareExecutionKeeps(p, ctx, q.approval.value, q.policyVersion, p.intents[q.approval.value].targetVersion, now);
    }
  }

  /** What a judged command promises. */
  lemma JudgeKeeps(s: Store, ctx: Context, q: Request, now: int)
    requires PlaneInv(s.repo.plane)
    ensures var (plane, v) := Judge(s.repo.plane, s.tools, ctx, q, now);
      && PlaneStepOk(s.repo.plane, plane) && Fit(s.tools, plane, v) && v.request.key == q.key
      && (v.request.approval.Some? ==>
            v.state == Accepted && v.request.approval == q.approval && Covers(s.repo.plane, q.approval.value, q, now))
  {
    ValidateKeeps(s.repo.plane, s.tools, ctx, q, now);
  }

  lemma SubmitKeeps(s: Store, ctx: Context, q: Request, now: int)
    requires StoreInv(s)
    ensures var tx := SubmitTool(s, ctx, q, now); tx.Commit? ==> Saved(s, tx.state, tx.value, q.key)
  {
    if SubmitTool(s, ctx, q, now).Commit? {
      JudgeKeeps(s, ctx, q, now);
      var (plane, v) := Judge(s.repo.plane, s.tools, ctx, q, now);
      SaveKeeps(s, plane, v, now);
    }
  }

  ghost predicate Saved(s: Store, n: Store, t: nat, key: string) {
    && StoreInv(n) && RepoGrows(s.repo, n.repo)
    && n.repo.attempts == s.repo.attempts && n.repo.observations == s.repo.observations
    && s.tools <= n.tools && s.events <= n.events
    && (n.events == s.events || exists now :: n.events == s.events + [Outbox.NewEvent(|s.tools|, now)])
    && t < |n.tools| && n.tools[t].request.key == key
  }

  lemma EmitToolKeeps(p: Plane, q: Plane, t: nat)
    requires PlaneStepOk(p, q)
    ensures PlaneMoves(p, q.(outbox := q.outbox + {ToolAccepted(t)}))
  {}

  lemma PlaneIntoStore(s: Store, plane: Plane)
    requires StoreInv(s) && PlaneStepOk(s.repo.plane, plane)
    ensures var n := s.(repo := s.repo.(plane := plane)); StoreInv(n) && RepoGrows(s.repo, n.repo)
  {
    PlaneStepKeepsRepo(s.repo, plane);
    RepoStepKeepsStore(s, s.repo.(plane := plane));
  }

  lemma SaveKeeps(s: Store, plane: Plane, v: ToolCommand, now: int)
    requires StoreInv(s) && PlaneStepOk(s.repo.plane, plane) && Fit(s.tools, plane, v)
    ensures var tx := SaveTool(s, plane, v, now); tx.Commit? ==> Saved(s, tx.state, tx.value, v.request.key)
  {
    var tx := SaveTool(s, plane, v, now);
    if tx.Commit? {
      if KeyRow(s.tools, v.request.key, 0).Some? {
        PlaneIntoStore(s, plane);
      } else {
        PlaneIntoStore(s, plane);
        EmitToolKeeps(s.repo.plane, plane, |s.tools|);
        PlaneStepKeepsRepo(s.repo, tx.state.repo.plane);
        AppendToolKeeps(s, plane, tx.state, v);
      }
    }
  }

  lemma AppendToolKeeps(s: Store, plane: Plane, n: Store, v: ToolCommand)
    requires StoreInv(s.(repo := s.repo.(plane := plane))) && Fit(s.tools, plane, v)
    requires n.repo == s.repo.(plane := n.repo.plane) && RepoInv(n.repo) && n.tools == s.tools + [v]
    requires forall i | 0 <= i < |s.tools| :: s.tools[i].request.key != v.request.key
    requires if Queueable(v) then n.repo.plane == plane.(outbox := plane.outbox + {ToolAccepted(|s.tools|)})
                                  && exists now :: n.events == s.events + [Outbox.NewEvent(|s.tools|, now)]
             else n.repo.plane == plane && n.events == s.events
    ensures StoreInv(n)
  {
    var before := s.(repo := s.repo.(plane := plane));
    forall t | 0 <= t < |n.tools| ensures ToolBound(n, t) {
      if t < |s.tools| { assert ToolBound(before, t); }
    }
    OncePerApprovalExtends(s.tools, v);
    QueuedOnceExtends(s.tools, s.events, v, n.events);
  }

  lemma QueuedOnceExtends(tools: seq<ToolCommand>, events: seq<Outbox.Event>, v: ToolCommand, after: seq<Outbox.Event>)
    requires QueuedOnce(tools, events)
    requires if Queueable(v) then exists now :: after == events + [Outbox.NewEvent(|tools|, now)] else after == events
    ensures QueuedOnce(tools + [v], after)
  {
    forall t | 0 <= t < |tools + [v]| && Queueable((tools + [v])[t]) ensures HasEvent(after, t) {
      if t < |tools| {
        assert HasEvent(events, t);
        var e :| 0 <= e < |events| && events[e].aggregate == t;
        assert after[e].aggregate == t;
      } else {
        assert after[|events|].aggregate == t;
      }
    }
  }

  lemma OncePerApprovalExtends(tools: seq<ToolCommand>, v: ToolCommand)
    requires OncePerApproval(tools)
    requires forall i | 0 <= i < |tools| :: tools[i].request.key != v.request.key
    requires v.request.approval.Some? ==> !UsedElsewhere(tools, v.request.approval.value, v.request.key)
    ensures OncePerApproval(tools + [v])
  {
    assert v.request.approval.Some? ==>
      forall i | 0 <= i < |tools| && tools[i].state == Accepted :: tools[i].request.approval != v.request.approval;
  }

  lemma PrepareForEventKeeps(s: Store, ctx: Context, e: nat, now: int)
    requires StoreInv(s)
    ensures var tx := PrepareForEvent(s, ctx, e, now);
      tx.Commit? ==>
        && StoreInv(s.(repo := tx.state)) && RepoGrows(s.repo, tx.state) && SameToolKeys(s.repo.plane, tx.state.plane)
        && e < |s.events| && tx.value < |tx.state.attempts|
        && Some(tx.state.attempts[tx.value].command) == s.tools[s.events[e].aggregate].approvalCommand
        && (forall a | 0 <= a < |s.repo.attempts| :: tx.state.attempts[a] == s.repo.attempts[a])
        && (forall a | |s.repo.attempts| <= a < |tx.state.attempts| :: tx.state.attempts[a].state == Prepared && tx.state.attempts[a].token == 0)
        && tx.state.observations == s.repo.observations
  {
    var tx := PrepareForEvent(s, ctx, e, now);
    if tx.Commit? {
      var t := s.tools[s.events[e].aggregate];
      var c := t.approvalCommand.value;
      PrepareAttemptKeeps(s.repo, ctx, c, t.request.policyVersion, s.repo.plane.intents[c].targetVersion,
                          ADAPTER_VERSION, PROVIDER, CONNECTION, now);
      RepoStepKeepsStore(s, tx.state);
    }
  }

  /** Exactly when the worker gets an attempt for an event. That the event is still bound to an
      accepted command with an unchanged intent is never in the way: it always is. */
  lemma PrepareForEventExact(s: Store, ctx: Context, e: nat, now: int)
    requires StoreInv(s)
    ensures PrepareForEvent(s, ctx, e, now).Commit? <==>
              && e < |s.events|
              && var t := s.tools[s.events[e].aggregate];
                 var c := t.approvalCommand.value;
                 && Administrator(s.repo.plane, ctx) && ManifestFits(s.repo.plane, "synthetic", "demo", "synthetic-v1")
                 && Authorised(s.repo.plane, ctx, c, "demo", now)
                 && t.request.policyVersion == s.repo.plane.intents[c].policyVersion
                 && (forall a | 0 <= a < |s.repo.attempts| && s.repo.attempts[a].command == c ::
                       s.repo.attempts[a].adapterVersion == "synthetic-v1" && s.repo.attempts[a].provider == "synthetic" && s.repo.attempts[a].connection == "demo")
  {
    if e < |s.events| {
      EventBound(s, e);
      var t := s.tools[s.events[e].aggregate];
      var c := t.approvalCommand.value;
      PrepareAttemptExact(s.repo, ctx, c, t.request.policyVersion, s.repo.plane.intents[c].targetVersion, "synthetic-v1", "synthetic", "demo", now);
      hide PrepareAttempt, Administrator, Authorised, RepoInv, StoreInv, ManifestFits;
    }
  }

  lemma EventBound(s: Store, e: nat)
    requires StoreInv(s) && e < |s.events|
    ensures s.events[e].aggregate < |s.tools| && Queueable(s.tools[s.events[e].aggregate]) && ToolBound(s, s.events[e].aggregate) && RepoInv(s.repo)
  {
    assert ToolBound(s, s.events[e].aggregate);
  }
}

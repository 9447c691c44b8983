/** service.py: approvals bound to immutable intents, and the gate every execution passes. */
module ControlPlane {
  import opened Common
  import opened Domain

  /** The approval tables of one tenant. A command and its approval share their row number. */
  datatype Plane = Plane(
    members: map<string, Membership>,
    commands: seq<Command>,
    approvals: seq<Approval>,
    keys: map<CommandKey, nat>,
    intents: map<nat, Intent>,
    preparations: map<nat, Preparation>,
    controls: map<nat, Control>,
    stops: set<StopScope>,
    manifests: map<(string, string), Manifest>,
    outbox: set<OutKey>)

  const APPROVAL_LIFETIME := 24 * 3600

  function EmptyPlane(): Plane {
    Plane(map[], [], [], map[], map[], map[], map[], {}, map[], {})
  }

  // ---------------------------------------------------------------- sessions

  function MembershipCheck(p: Plane, ctx: Context): Check {
    if ctx.user !in p.members then Fail(NotFound)
    else if !p.members[ctx.user].active || p.members[ctx.user].version != ctx.version then Fail(Authorization)
    else Pass
  }

  function Require(p: Plane, ctx: Context, cap: Capability): Check {
    var m := MembershipCheck(p, ctx);
    if m.Fail? then m
    else if cap in CapabilitiesOf(p.members[ctx.user].roles) then Pass
    else Fail(Authorization)
  }

  /** `context_for` followed by `require`: the deciding member must still be active and capable. */
  function RequireApprover(p: Plane, user: string, cap: Capability): Check {
    if user !in p.members then Fail(NotFound)
    else if !p.members[user].active then Fail(Authorization)
    else Require(p, Context(user, p.members[user].version), cap)
  }

  function AppendOutbox(p: Plane, key: OutKey): Tx<Plane, ()> {
    if key in p.outbox then Abort(Conflict)
    else Commit(p.(outbox := p.outbox + {key}), ())
  }

  // ----------------------------------------------------------------- intents

  function IntentDigest(c: Command, a: Approval, policyVersion: int, targetVersion: int): Material {
    Material(c.kind, c.targetRef, c.payload, a.evidence, a.expiresAt, policyVersion, targetVersion)
  }

  predicate IntentUnchanged(c: Command, a: Approval, i: Intent) {
    IntentDigest(c, a, i.policyVersion, i.targetVersion) == i.digest
  }

  function CreateCommand(p: Plane, ctx: Context, kind: ApprovalKind, target: string, payload: Payload,
                         key: CommandKey, evidence: string, now: int): Tx<Plane, nat> {
    var permitted := Require(p, ctx, ApprovalCapability(kind));
    :- permitted;
    if key in p.keys then
      var existing := p.keys[key];
      :- Need(existing < |p.commands|, NotFound);
      var c := p.commands[existing];
      :- Need(c.kind == kind && c.targetRef == target && c.payload == payload, Conflict);
      :- Need(existing < |p.approvals|, NotFound);
      Commit(p, existing)
    else
      :- Need(ApprovalRequested(|p.commands|) !in p.outbox, Conflict);
      Commit(AddCommand(p, Command(kind, target, payload, key, Pending),
                        Approval(Pending, now + APPROVAL_LIFETIME, evidence, None)), |p.commands|)
  }

  function AddCommand(p: Plane, c: Command, a: Approval): Plane {
    p.(commands := p.commands + [c], approvals := p.approvals + [a], keys := p.keys[c.key := |p.commands|],
       outbox := p.outbox + {ApprovalRequested(|p.commands|)})
  }

  function RequestApproval(p: Plane, ctx: Context, kind: ApprovalKind, target: string, payload: Payload, key: CommandKey,
                           policyVersion: int, targetVersion: int, evidence: string, now: int): Tx<Plane, nat> {
    var positive := policyVersion >= 1 && targetVersion >= 1;
    :- Need(positive, Conflict);
    var (q, c) :- CreateCommand(p, ctx, kind, target, payload, key, evidence, now);
    :- Need(c < |q.commands| && c < |q.approvals|, NotFound);
    // The newly supplied evidence is hashed, so a replay cannot change it.
    var digest := Material(kind, target, payload, evidence, q.approvals[c].expiresAt, policyVersion, targetVersion);
    if c in q.intents then
      :- Need(q.intents[c].digest == digest && IntentUnchanged(q.commands[c], q.approvals[c], q.intents[c]), Conflict);
      Commit(q, c)
    else
      :- Need(q.approvals[c].state == Pending
              && IntentDigest(q.commands[c], q.approvals[c], policyVersion, targetVersion) == digest, Conflict);
      Commit(q.(intents := q.intents[c := Intent(digest, policyVersion, targetVersion)]), c)
  }

  /** `_decide`: the value says whether the approval turned out to be expired. */
  function Decide(p: Plane, ctx: Context, c: nat, approve: bool, now: int): Tx<Plane, bool> {
    var known := c < |p.commands| && c < |p.approvals|;
    :- Need(known, NotFound);
    :- Require(p, ctx, ApprovalCapability(p.commands[c].kind));
    :- Need(c in p.intents ==> IntentUnchanged(p.commands[c], p.approvals[c], p.intents[c]), Conflict);
    :- Need(p.approvals[c].state == Pending, Conflict);
    if now >= p.approvals[c].expiresAt then
      var (q, _) :- AppendOutbox(p, ApprovalExpired(c));
      Commit(SetState(q, c, Expired, p.approvals[c].decidedBy), true)
    else
      var (q, _) :- AppendOutbox(p, ApprovalDecided(c));
      Commit(SetState(q, c, if approve then Approved else Rejected, Some(ctx.user)), false)
  }

  function SetState(p: Plane, c: nat, s: DecisionState, decider: Option<string>): Plane
    requires c < |p.commands| && c < |p.approvals|
  {
    p.(commands := p.commands[c := p.commands[c].(state := s)],
       approvals := p.approvals[c := p.approvals[c].(state := s, decidedBy := decider)])
  }

  /** `supersede`: the old approval is withdrawn and a new command takes its place. */
  function Supersede(p: Plane, ctx: Context, c: nat, payload: Payload, key: CommandKey, now: int): Tx<Plane, nat> {
    var known := c < |p.commands| && c < |p.approvals|;
    :- Need(known, NotFound);
    :- Need(p.commands[c].payload != payload, Conflict);
    :- Need(p.approvals[c].state in {Pending, Approved}, Conflict);
    var q := SetState(p, c, Superseded, p.approvals[c].decidedBy);
    CreateCommand(q, ctx, p.commands[c].kind, p.commands[c].targetRef, payload, key, p.approvals[c].evidence, now)
  }

  /** One approval of the expiry sweep: false when there was nothing to expire. */
  function ExpireDue(p: Plane, c: nat, now: int): Tx<Plane, bool> {
    if !(c < |p.commands| && c < |p.approvals|) || p.approvals[c].state != Pending || p.approvals[c].expiresAt > now then
      Commit(p, false)
    else
      :- Need(p.commands[c].state == Pending, Conflict);
      var (q, _) :- AppendOutbox(p, ApprovalExpired(c));
      Commit(SetState(q, c, Expired, p.approvals[c].decidedBy), true)
  }

  // -------------------------------------------------------------------- gate

  function PrepareExecution(p: Plane, ctx: Context, c: nat, policyVersion: int, targetVersion: int, now: int)
    : Tx<Plane, Preparation>
  {
    var member := MembershipCheck(p, ctx);
    :- member;
    :- Need(c < |p.commands|, NotFound);
    var cap := ApprovalCapability(p.commands[c].kind);
    :- Require(p, ctx, cap);
    :- Need(c < |p.approvals|, NotFound);
    :- Need(c in p.intents, Conflict);
    :- Need(p.commands[c].state == Approved && p.approvals[c].state == Approved, Conflict);
    :- Need(now < p.approvals[c].expiresAt, Conflict);
    :- Need(policyVersion >= 1 && targetVersion >= 1
            && policyVersion == p.intents[c].policyVersion && targetVersion == p.intents[c].targetVersion, Conflict);
    :- Need(IntentUnchanged(p.commands[c], p.approvals[c], p.intents[c]), Conflict);
    :- Need(p.approvals[c].decidedBy.Some?, Conflict);
    :- RequireApprover(p, p.approvals[c].decidedBy.value, cap);
    if c in p.preparations then Commit(p, p.preparations[c])
    else
      var prepared := Preparation(p.intents[c].digest, ctx.user, now);
      :- Need(ExecutionPrepared(c) !in p.outbox, Conflict);
      Commit(AddPreparation(p, c, prepared), prepared)
  }

  function AddPreparation(p: Plane, c: nat, prepared: Preparation): Plane {
    p.(preparations := p.preparations[c := prepared], outbox := p.outbox + {ExecutionPrepared(c)})
  }

  predicate StopActive(p: Plane, connection: Option<string>) {
    exists s | s in p.stops ::
      s.GlobalScope? || s.TenantScope? || (connection.Some? && s == ConnectionScope(connection.value))
  }

  /** `_gate`: stops and the command's own control first, then the approval itself. */
  function Gate(p: Plane, ctx: Context, c: nat, connection: string, now: int): Tx<Plane, Preparation> {
    var stopped := StopActive(p, Some(connection));
    :- Need(!stopped, Conflict);
    :- Need(c in p.controls, NotFound);
    :- Need(!p.controls[c].stopped, Conflict);
    PrepareExecution(p, ctx, c, p.controls[c].policyVersion, p.controls[c].targetVersion, now)
  }

  // --------------------------------------------------- what the gate stands for

  predicate ActiveWith(p: Plane, user: string, cap: Capability) {
    user in p.members && p.members[user].active && cap in CapabilitiesOf(p.members[user].roles)
  }

  /** The promise of an execution gate, stated without its code: nothing is
      stopped, an unexpired approval of exactly this intent stands, at the
      versions now in force, and both the caller and the member who decided it
      still hold the capability. */
  ghost predicate Authorised(p: Plane, ctx: Context, c: nat, connection: string, now: int) {
    && (forall s | s in p.stops :: s.ConnectionScope? && s.connection != connection)
    && c < |p.commands| && c < |p.approvals| && c in p.intents && c in p.controls
    && p.controls[c] == Control(p.intents[c].policyVersion, p.intents[c].targetVersion, false)
    && p.intents[c].policyVersion >= 1 && p.intents[c].targetVersion >= 1
    && p.commands[c].state == Approved && p.approvals[c].state == Approved && now < p.approvals[c].expiresAt
    && p.intents[c].digest == IntentDigest(p.commands[c], p.approvals[c], p.intents[c].policyVersion, p.intents[c].targetVersion)
    && var cap := ApprovalCapability(p.commands[c].kind);
       && ActiveWith(p, ctx.user, cap) && p.members[ctx.user].version == ctx.version
       && p.approvals[c].decidedBy.Some? && ActiveWith(p, p.approvals[c].decidedBy.value, cap)
  }

  /** The gate opens exactly when execution is authorised (a first preparation also needs its outbox key free). */
  lemma GateExact(p: Plane, ctx: Context, c: nat, connection: string, now: int)
    requires c in p.preparations || ExecutionPrepared(c) !in p.outbox
    ensures Gate(p, ctx, c, connection, now).Commit? <==> Authorised(p, ctx, c, connection, now)
  {
    StopExact(p, connection);
  }

  lemma StopExact(p: Plane, connection: string)
    ensures StopActive(p, Some(connection)) <==> !(forall s | s in p.stops :: s.ConnectionScope? && s.connection != connection)
  {
    if s :| s in p.stops && !(s.ConnectionScope? && s.connection != connection) {
      assert s.GlobalScope? || s.TenantScope? || s == ConnectionScope(connection);
    }
  }
}

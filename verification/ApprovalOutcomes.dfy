/** Exactly when each operation on the approval tables succeeds, and every row it leaves. */
module ApprovalOutcomes {
  import opened Common
  import opened Domain
  import opened ControlPlane
  import opened ExecutionSafety
  import opened PurchaseSafety
  import opened ApprovalExpiry

  /** A caller in a current session who holds the capability. */
  predicate Entitled(p: Plane, ctx: Context, cap: Capability) { ActiveWith(p, ctx.user, cap) && p.members[ctx.user].version == ctx.version }

  lemma EntitledExact(p: Plane, ctx: Context, cap: Capability)
    ensures Require(p, ctx, cap).Pass? <==> Entitled(p, ctx, cap)
  {}

  /** One approval and its command move to `s`, announced by `event`; nothing else changes. */
  ghost predicate Ended(p: Plane, q: Plane, c: nat, s: DecisionState, decider: Option<string>, event: OutKey) {
    && c < |p.commands| && c < |p.approvals|
    && q == p.(commands := p.commands[c := p.commands[c].(state := s)],
               approvals := p.approvals[c := p.approvals[c].(state := s, decidedBy := decider)], outbox := p.outbox + {event})
  }

  /** A decision is taken exactly on a pending approval by somebody entitled to its kind; in
      time it is that member's decision, from the expiry on it is an expiry. */
  lemma DecideOutcome(p: Plane, ctx: Context, c: nat, approve: bool, now: int)
    requires PlaneSound(p)
    ensures var tx := Decide(p, ctx, c, approve, now);
      && (tx.Commit? <==>
            c < |p.commands| && c < |p.approvals| && Entitled(p, ctx, ApprovalCapability(p.commands[c].kind)) && p.approvals[c].state == Pending)
      && (tx.Commit? ==>
            if p.approvals[c].expiresAt <= now then tx.value && Ended(p, tx.state, c, Expired, p.approvals[c].decidedBy, ApprovalExpired(c))
            else !tx.value && Ended(p, tx.state, c, if approve then Approved else Rejected, Some(ctx.user), ApprovalDecided(c)))
  {
    PlaneSoundIs(p);
    if c < |p.commands| { EntitledExact(p, ctx, ApprovalCapability(p.commands[c].kind)); }
    hide Require, Entitled, PlaneSound, PlaneInv, KeysBind;
  }

  /** The sweeper never fails; it ends exactly a pending approval that is due. */
  lemma ExpireOutcome(p: Plane, c: nat, now: int)
    requires PlaneSound(p) && Together(p)
    ensures var tx := ExpireDue(p, c, now);
      && tx.Commit? && (tx.value <==> c < |p.approvals| && p.approvals[c].state == Pending && p.approvals[c].expiresAt <= now)
      && (if tx.value then Ended(p, tx.state, c, Expired, p.approvals[c].decidedBy, ApprovalExpired(c)) else tx.state == p)
  {
    PlaneSoundIs(p);
    hide PlaneSound, PlaneInv, KeysBind;
  }

  /** A new command with its approval, pending for a day, found from now on under its key. */
  ghost predicate Added(p: Plane, q: Plane, kind: ApprovalKind, target: string, payload: Payload, key: CommandKey, evidence: string, now: int) {
    q == p.(commands := p.commands + [Command(kind, target, payload, key, Pending)],
            approvals := p.approvals + [Approval(Pending, now + 86400, evidence, None)],
            keys := p.keys[key := |p.commands|], outbox := p.outbox + {ApprovalRequested(|p.commands|)})
  }

  /** Superseding withdraws a pending or granted approval in favour of another content: a new
      command of the same kind and target, or the one its key already names for that content. */
  lemma SupersedeOutcome(p: Plane, ctx: Context, c: nat, payload: Payload, key: CommandKey, now: int)
    requires PlaneSound(p) && c < |p.commands|
    ensures var (was, tx) := (p.commands[c], Supersede(p, ctx, c, payload, key, now));
      && (tx.Commit? <==>
            && c < |p.approvals| && was.payload != payload && p.approvals[c].state in {Pending, Approved}
            && Entitled(p, ctx, ApprovalCapability(was.kind))
            && (key in p.keys ==> var d := p.commands[p.keys[key]]; d.kind == was.kind && d.targetRef == was.targetRef && d.payload == payload))
      && (tx.Commit? ==>
            var withdrawn := p.(commands := p.commands[c := was.(state := Superseded)], approvals := p.approvals[c := p.approvals[c].(state := Superseded)]);
            if key in p.keys then tx.value == p.keys[key] && tx.state == withdrawn
            else tx.value == |p.commands| && Added(withdrawn, tx.state, was.kind, was.targetRef, payload, key, p.approvals[c].evidence, now))
  {
    PlaneSoundIs(p);
    if c < |p.approvals| {
      var q := SetState(p, c, Superseded, p.approvals[c].decidedBy);
      WithdrawCalm(p, c);
      CalmIs(p, q);
      EntitledExact(p, ctx, ApprovalCapability(p.commands[c].kind));
      SameMembers(p, q, ctx, ApprovalCapability(p.commands[c].kind));
      CreateOutcome(q, ctx, p.commands[c].kind, p.commands[c].targetRef, payload, key, p.approvals[c].evidence, now);
      hide PlaneSound, PlaneInv, KeysBind, Announced, IntentsBind, CreateCommand, Require, Entitled, Calm;
    }
  }

  lemma SameMembers(p: Plane, q: Plane, ctx: Context, cap: Capability)
    requires q.members == p.members
    ensures Require(q, ctx, cap) == Require(p, ctx, cap)
  {}

  lemma CreateOutcome(p: Plane, ctx: Context, kind: ApprovalKind, target: string, payload: Payload, key: CommandKey, evidence: string, now: int)
    requires PlaneSound(p)
    ensures var tx := CreateCommand(p, ctx, kind, target, payload, key, evidence, now);
      && (tx.Commit? <==>
            && Require(p, ctx, ApprovalCapability(kind)).Pass?
            && (key in p.keys ==> var d := p.commands[p.keys[key]]; d.kind == kind && d.targetRef == target && d.payload == payload))
      && (tx.Commit? ==> if key in p.keys then tx.value == p.keys[key] && tx.state == p
                         else tx.value == |p.commands| && Added(p, tx.state, kind, target, payload, key, evidence, now))
  {
    PlaneSoundIs(p);
    hide Require, PlaneSound, IntentsBind;
  }

  /** What a request that succeeds leaves: under a new key a command, its approval and its intent
      with the digest of exactly this request; under a used one at most the intent that was missing. */
  lemma RequestOutcome(p: Plane, ctx: Context, kind: ApprovalKind, target: string, payload: Payload, key: CommandKey,
                       policyVersion: int, targetVersion: int, evidence: string, now: int)
    requires PlaneSound(p)
    ensures var tx := RequestApproval(p, ctx, kind, target, payload, key, policyVersion, targetVersion, evidence, now);
      tx.Commit? ==>
        && policyVersion >= 1 && targetVersion >= 1 && tx.value < |tx.state.commands| && tx.value < |tx.state.approvals|
        && tx.value == (if key in p.keys then p.keys[key] else |p.commands|)
        && (tx.value in p.intents ==> tx.state == p)
        && tx.value in tx.state.intents
        && tx.state.intents[tx.value] == Intent(Material(kind, target, payload, evidence, tx.state.approvals[tx.value].expiresAt, policyVersion, targetVersion),
                                                policyVersion, targetVersion)
        && (tx.value !in p.intents ==> tx.state.intents == p.intents[tx.value := tx.state.intents[tx.value]])
        && (key in p.keys ==> tx.state == p.(intents := tx.state.intents))
        && (key !in p.keys ==> Added(p, tx.state.(intents := p.intents), kind, target, payload, key, evidence, now))
  {
    RequestShape(p, ctx, kind, target, payload, key, policyVersion, targetVersion, evidence, now);
    CreateOutcome(p, ctx, kind, target, payload, key, evidence, now);
    FreshHasNone(p);
    RequestDigest(p, ctx, kind, target, payload, key, policyVersion, targetVersion, evidence, now);
    hide CreateCommand, RequestApproval, Require, PlaneSound;
  }

  /** Whatever row a request finds or makes, its intent is that of this request. */
  lemma RequestDigest(p: Plane, ctx: Context, kind: ApprovalKind, target: string, payload: Payload, key: CommandKey,
                      policyVersion: int, targetVersion: int, evidence: string, now: int)
    requires PlaneSound(p)
    ensures var tx := RequestApproval(p, ctx, kind, target, payload, key, policyVersion, targetVersion, evidence, now);
      tx.Commit? ==>
        && policyVersion >= 1 && targetVersion >= 1 && tx.value < |tx.state.approvals| && tx.value in tx.state.intents
        && tx.state.intents[tx.value] == Intent(Material(kind, target, payload, evidence, tx.state.approvals[tx.value].expiresAt, policyVersion, targetVersion),
                                                policyVersion, targetVersion)
  {
    RequestShape(p, ctx, kind, target, payload, key, policyVersion, targetVersion, evidence, now);
    TakenDigest(p, ctx, kind, target, payload, key, policyVersion, targetVersion, evidence, now);
    CreatedIntents(p, ctx, kind, target, payload, key, evidence, now);
    CreateOutcome(p, ctx, kind, target, payload, key, evidence, now);
    CreatedFits(p, ctx, kind, target, payload, key, evidence, now);
    hide CreateCommand, RequestApproval, Require, PlaneSound, Added;
  }

  /** What a request accepts has the digest it asked for, and versions that were positive. */
  lemma TakenDigest(p: Plane, ctx: Context, kind: ApprovalKind, target: string, payload: Payload, key: CommandKey,
                    policyVersion: int, targetVersion: int, evidence: string, now: int)
    ensures var created := CreateCommand(p, ctx, kind, target, payload, key, evidence, now);
      RequestApproval(p, ctx, kind, target, payload, key, policyVersion, targetVersion, evidence, now).Commit? ==>
        && policyVersion >= 1 && targetVersion >= 1 && created.Commit? && created.value < |created.state.approvals| && created.value < |created.state.commands|
        && var digest := Material(kind, target, payload, evidence, created.state.approvals[created.value].expiresAt, policyVersion, targetVersion);
           if created.value in created.state.intents then created.state.intents[created.value].digest == digest
           else IntentDigest(created.state.commands[created.value], created.state.approvals[created.value], policyVersion, targetVersion) == digest
  {
    hide CreateCommand, IntentUnchanged, IntentDigest;
  }

  lemma CreatedIntents(p: Plane, ctx: Context, kind: ApprovalKind, target: string, payload: Payload, key: CommandKey, evidence: string, now: int)
    requires PlaneSound(p)
    ensures var tx := CreateCommand(p, ctx, kind, target, payload, key, evidence, now);
      tx.Commit? ==> forall c | c in tx.state.intents ::
        c < |tx.state.commands| && c < |tx.state.approvals|
        && tx.state.intents[c].digest == IntentDigest(tx.state.commands[c], tx.state.approvals[c], tx.state.intents[c].policyVersion, tx.state.intents[c].targetVersion)
  {
    PlaneSoundIs(p);
    CreateOutcome(p, ctx, kind, target, payload, key, evidence, now);
    FreshHasNone(p);
    hide CreateCommand, Require, PlaneSound, KeysBind, Announced, PlaneInv;
  }

  lemma FreshHasNone(p: Plane)
    requires PlaneSound(p)
    ensures |p.commands| !in p.intents && |p.commands| == |p.approvals| && forall c | c in p.intents :: c < |p.commands|
  {}

  /** A preparation is made exactly once, by the caller, of the approved digest, and announced; a second call finds it. */
  lemma PrepareOutcome(p: Plane, ctx: Context, c: nat, policyVersion: int, targetVersion: int, now: int)
    requires PlaneSound(p)
    ensures var tx := PrepareExecution(p, ctx, c, policyVersion, targetVersion, now);
      && (tx.Commit? <==>
            && c < |p.commands| && c < |p.approvals| && c in p.intents
            && Entitled(p, ctx, ApprovalCapability(p.commands[c].kind))
            && p.commands[c].state == Approved && p.approvals[c].state == Approved && now < p.approvals[c].expiresAt
            && policyVersion >= 1 && targetVersion >= 1
            && policyVersion == p.intents[c].policyVersion && targetVersion == p.intents[c].targetVersion
            && p.approvals[c].decidedBy.Some? && ActiveWith(p, p.approvals[c].decidedBy.value, ApprovalCapability(p.commands[c].kind)))
      && (tx.Commit? ==>
            if c in p.preparations then tx.state == p && tx.value == p.preparations[c]
            else tx.value == Preparation(p.intents[c].digest, ctx.user, now)
                 && tx.state == p.(preparations := p.preparations[c := tx.value], outbox := p.outbox + {ExecutionPrepared(c)}))
  {
    PlaneSoundIs(p);
    hide PlaneSound, Announced, KeysBind;
  }
}

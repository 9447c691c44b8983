/** What holds of purchase orders in every reachable state: approvals that match
    the routing and the order's version, prepared submissions, frozen cancellations. */
module PurchaseSafety {
  import opened Common
  import opened Domain
  import opened ControlPlane
  import opened Routing
  import opened PurchaseOrders
  import opened ExecutionSafety
  import E = ExactlyOnce
  import Text

  // ------------------------------------------------------- the approval tables

  /** Every command ever issued keeps what was asked for and when it expires. */
  ghost predicate ContentsFixed(p: Plane, q: Plane) {
    && |p.commands| <= |q.commands| && |p.approvals| <= |q.approvals|
    && (forall c | 0 <= c < |p.commands| ::
          q.commands[c].kind == p.commands[c].kind && q.commands[c].targetRef == p.commands[c].targetRef
          && q.commands[c].payload == p.commands[c].payload && q.commands[c].key == p.commands[c].key)
    && (forall c | 0 <= c < |p.approvals| ::
          q.approvals[c].expiresAt == p.approvals[c].expiresAt && q.approvals[c].evidence == p.approvals[c].evidence)
  }

  predicate PurchaseEvent(k: OutKey) {
    k.PoDecided? || k.PoRegenerated? || k.PoSubmitted? || k.PoResponse? || k.PoCancelRequested? || k.CancelledOrder?
  }

  ghost predicate SamePurchaseEvents(p: Plane, q: Plane) {
    forall k | PurchaseEvent(k) :: k in q.outbox <==> k in p.outbox
  }

  /** An approval whose decision or expiry was announced is no longer pending. */
  ghost predicate Announced(p: Plane) {
    && (forall c: nat | ApprovalDecided(c) in p.outbox || ApprovalExpired(c) in p.outbox ::
          c < |p.approvals| && p.approvals[c].state != Pending)
    && (forall c: nat | ApprovalRequested(c) in p.outbox :: c < |p.commands|)
  }

  /** The digest of an intent is that of the command and approval it belongs to. */
  ghost predicate IntentsBind(p: Plane) {
    forall c | c in p.intents :: c < |p.commands| && c < |p.approvals| && IntentUnchanged(p.commands[c], p.approvals[c], p.intents[c])
  }

  /** Every key in use belongs to the command that carries it. */
  ghost predicate KeysBind(p: Plane) {
    forall k | k in p.keys :: p.keys[k] < |p.commands| && p.keys[k] < |p.approvals| && p.commands[p.keys[k]].key == k
  }

  ghost predicate PlaneSound(p: Plane) { PlaneInv(p) && Announced(p) && IntentsBind(p) && KeysBind(p) }

  ghost predicate Calm(p: Plane, q: Plane) {
    PlaneSound(q) && PlaneGrows(p, q) && ContentsFixed(p, q) && SamePurchaseEvents(p, q)
  }

  lemma ChangeState(p: Plane, c: nat, s: DecisionState, decider: Option<string>, key: OutKey)
    requires PlaneSound(p) && c < |p.commands| && s != Pending && (decider.Some? ==> decider.value in p.members)
    requires key == ApprovalDecided(c) || key == ApprovalExpired(c)
    ensures Calm(p, SetState(p.(outbox := p.outbox + {key}), c, s, decider))
    ensures SetState(p.(outbox := p.outbox + {key}), c, s, decider).keys == p.keys
  {}

  lemma DecideCalm(p: Plane, ctx: Context, c: nat, approve: bool, now: int)
    requires PlaneSound(p)
    ensures var tx := Decide(p, ctx, c, approve, now);
      tx.Commit? ==>
        && Calm(p, tx.state) && tx.state.keys == p.keys && tx.state.members == p.members && tx.state.preparations == p.preparations
        && c < |p.commands| && tx.value == (now >= p.approvals[c].expiresAt)
        && tx.state.approvals[c].state == (if tx.value then Expired else if approve then Approved else Rejected)
        && (!tx.value ==> tx.state.approvals[c].decidedBy == Some(ctx.user))
  {
    hide Calm, PlaneSound;
    if Decide(p, ctx, c, approve, now).Commit? {
      assert PlaneInv(p) by { PlaneSoundIs(p); }
      if now >= p.approvals[c].expiresAt { ChangeState(p, c, Expired, p.approvals[c].decidedBy, ApprovalExpired(c)); }
      else { ChangeState(p, c, if approve then Approved else Rejected, Some(ctx.user), ApprovalDecided(c)); }
    }
  }

  lemma PlaneSoundIs(p: Plane)
    requires PlaneSound(p)
    ensures PlaneInv(p) && Announced(p) && IntentsBind(p) && KeysBind(p)
  {}

  lemma ExpireCalm(p: Plane, c: nat, now: int)
    requires PlaneSound(p)
    ensures var tx := ExpireDue(p, c, now); tx.Commit? ==> Calm(p, tx.state) && tx.state.keys == p.keys
  {
    hide Calm, SetState, PlaneSound, Announced, IntentsBind, KeysBind, PlaneGrows;
    var tx := ExpireDue(p, c, now);
    CalmReflexive(p);
    PlaneSoundIs(p);
    if tx.Commit? && tx.value { ChangeState(p, c, Expired, p.approvals[c].decidedBy, ApprovalExpired(c)); }
  }

  /** A command under a new key: a new row, pending until a day from now. */
  lemma CreateCalm(p: Plane, ctx: Context, kind: ApprovalKind, target: string, payload: Payload, key: CommandKey, evidence: string, now: int)
    requires PlaneSound(p)
    ensures var tx := CreateCommand(p, ctx, kind, target, payload, key, evidence, now);
      tx.Commit? ==>
        && Calm(p, tx.state) && tx.state.intents == p.intents && tx.state.preparations == p.preparations
        && (key in p.keys ==> tx.state == p && tx.value == p.keys[key])
        && (key !in p.keys ==>
              && tx.value == |p.commands| && tx.state.keys == p.keys[key := tx.value]
              && |tx.state.commands| == |p.commands| + 1 && p.commands <= tx.state.commands && p.approvals <= tx.state.approvals
              && tx.state.commands[tx.value] == Command(kind, target, payload, key, Pending)
              && tx.state.approvals[tx.value] == Approval(Pending, now + APPROVAL_LIFETIME, evidence, None))
    ensures key !in p.keys ==> (CreateCommand(p, ctx, kind, target, payload, key, evidence, now).Commit? <==> Require(p, ctx, ApprovalCapability(kind)).Pass?)
  {
    if key !in p.keys {
      AddCommandKeeps(p, Command(kind, target, payload, key, Pending), Approval(Pending, now + APPROVAL_LIFETIME, evidence, None));
    }
  }

  lemma AttachIntent(p: Plane, c: nat, policyVersion: int, targetVersion: int)
    requires PlaneSound(p) && c < |p.commands| && c < |p.approvals| && c !in p.intents
    ensures Calm(p, Attached(p, c, policyVersion, targetVersion))
  {
    var q := Attached(p, c, policyVersion, targetVersion);
    PlaneSoundIs(p);
    hide PlaneSound;
    assert PlaneInv(q) && PlaneGrows(p, q) && Announced(q);
    hide PlaneInv, PlaneGrows, Announced;
    assert IntentsBind(q) && KeysBind(q);
    hide IntentsBind, KeysBind;
    assert PlaneSound(q) by { SoundFrom(q); }
  }

  lemma SoundFrom(p: Plane)
    requires PlaneInv(p) && Announced(p) && IntentsBind(p) && KeysBind(p)
    ensures PlaneSound(p)
  {}

  lemma CalmTransitive(p: Plane, q: Plane, r: Plane)
    requires Calm(p, q) && Calm(q, r)
    ensures Calm(p, r)
  {}

  /** A request is a command, and its intent if it has none yet. */
  lemma RequestShape(p: Plane, ctx: Context, kind: ApprovalKind, target: string, payload: Payload, key: CommandKey,
                     policyVersion: int, targetVersion: int, evidence: string, now: int)
    ensures var created := CreateCommand(p, ctx, kind, target, payload, key, evidence, now);
      var tx := RequestApproval(p, ctx, kind, target, payload, key, policyVersion, targetVersion, evidence, now);
      tx.Commit? ==>
        && created.Commit? && tx.value == created.value && tx.value < |created.state.commands| && tx.value < |created.state.approvals|
        && (tx.value in created.state.intents ==> tx.state == created.state)
        && (tx.value !in created.state.intents ==> tx.state == Attached(created.state, tx.value, policyVersion, targetVersion))
  {
    hide CreateCommand;
  }

  function Attached(p: Plane, c: nat, policyVersion: int, targetVersion: int): Plane
    requires c < |p.commands| && c < |p.approvals|
  {
    p.(intents := p.intents[c := Intent(IntentDigest(p.commands[c], p.approvals[c], policyVersion, targetVersion), policyVersion, targetVersion)])
  }

  /** Command `c` asks for exactly this, at these versions. */
  ghost predicate Bound(q: Plane, c: nat, kind: ApprovalKind, payload: Payload, policyVersion: int, targetVersion: int) {
    && c < |q.commands| && c < |q.approvals| && q.commands[c].payload == payload && q.commands[c].kind == kind
    && c in q.intents && q.intents[c].targetVersion == targetVersion && q.intents[c].policyVersion == policyVersion
  }

  /** An approval that was granted or found: in either case its command asks for exactly
      this; under a new key it is a fresh command, otherwise the one the key names. */
  lemma RequestCalm(p: Plane, ctx: Context, kind: ApprovalKind, target: string, payload: Payload, key: CommandKey,
                    policyVersion: int, targetVersion: int, evidence: string, now: int)
    requires PlaneSound(p)
    ensures var tx := RequestApproval(p, ctx, kind, target, payload, key, policyVersion, targetVersion, evidence, now);
      tx.Commit? ==>
        && Calm(p, tx.state) && tx.state.preparations == p.preparations
        && Bound(tx.state, tx.value, kind, payload, policyVersion, targetVersion)
        && p.commands <= tx.state.commands && p.approvals <= tx.state.approvals
        && tx.state.keys == p.keys[key := tx.value] && tx.state.intents.Keys == p.intents.Keys + {tx.value}
        && (key in p.keys ==> tx.value == p.keys[key] && tx.state == p.(intents := tx.state.intents))
        && (key !in p.keys ==> Issued(p, tx.state, tx.value, key, now))
  {
    hide Calm, CreateCommand, PlaneSound;
    RequestShape(p, ctx, kind, target, payload, key, policyVersion, targetVersion, evidence, now);
    CreateCalm(p, ctx, kind, target, payload, key, evidence, now);
    CreatedFits(p, ctx, kind, target, payload, key, evidence, now);
    var tx := RequestApproval(p, ctx, kind, target, payload, key, policyVersion, targetVersion, evidence, now);
    if tx.Commit? {
      var q := CreateCommand(p, ctx, kind, target, payload, key, evidence, now).state;
      FreshHasNoIntent(p, q);
      if tx.value !in q.intents {
        AttachIntent(q, tx.value, policyVersion, targetVersion);
        CalmTransitive(p, q, tx.state);
      }
    }
  }

  /** The command a creation returns asks for what was asked. */
  lemma CreatedFits(p: Plane, ctx: Context, kind: ApprovalKind, target: string, payload: Payload, key: CommandKey, evidence: string, now: int)
    requires PlaneSound(p)
    ensures var tx := CreateCommand(p, ctx, kind, target, payload, key, evidence, now);
      tx.Commit? ==> tx.value < |tx.state.commands| && tx.state.commands[tx.value].kind == kind
                     && tx.state.commands[tx.value].targetRef == target && tx.state.commands[tx.value].payload == payload
  {
    hide Require, PlaneSound;
  }

  lemma FreshHasNoIntent(p: Plane, q: Plane)
    requires PlaneSound(p) && Calm(p, q)
    ensures |p.commands| !in p.intents && PlaneSound(q) && |q.approvals| == |q.commands|
  {}

  lemma RequestMembers(p: Plane, ctx: Context, kind: ApprovalKind, target: string, payload: Payload, key: CommandKey,
                       policyVersion: int, targetVersion: int, evidence: string, now: int)
    ensures var tx := RequestApproval(p, ctx, kind, target, payload, key, policyVersion, targetVersion, evidence, now);
      tx.Commit? ==> tx.state.members == p.members
  {
    hide Require, IntentDigest, IntentUnchanged;
  }

  /** The key is free, or its command asks for the same: same content, and an intent with
      the same digest, or none yet while the approval is pending with the same evidence. */
  ghost predicate KeyOpen(p: Plane, kind: ApprovalKind, target: string, payload: Payload, key: CommandKey,
                          policyVersion: int, targetVersion: int, evidence: string) {
    key in p.keys ==>
      var c := p.keys[key];
      && c < |p.commands| && c < |p.approvals|
      && p.commands[c].kind == kind && p.commands[c].targetRef == target && p.commands[c].payload == payload
      && p.approvals[c].evidence == evidence
      && if c in p.intents then p.intents[c].policyVersion == policyVersion && p.intents[c].targetVersion == targetVersion
         else p.approvals[c].state == Pending
  }

  /** A request succeeds exactly for a caller with the capability whose key is open. */
  lemma RequestExact(p: Plane, ctx: Context, kind: ApprovalKind, target: string, payload: Payload, key: CommandKey,
                     policyVersion: int, targetVersion: int, evidence: string, now: int)
    requires PlaneSound(p) && policyVersion >= 1 && targetVersion >= 1
    ensures RequestApproval(p, ctx, kind, target, payload, key, policyVersion, targetVersion, evidence, now).Commit?
            <==> Require(p, ctx, ApprovalCapability(kind)).Pass? && KeyOpen(p, kind, target, payload, key, policyVersion, targetVersion, evidence)
  {
    hide Require, PlaneSound, RequestApproval;
    if key in p.keys {
      TakenRequest(p, ctx, kind, target, payload, key, policyVersion, targetVersion, evidence, now);
    } else {
      FreshRequest(p, ctx, kind, target, payload, key, policyVersion, targetVersion, evidence, now);
    }
  }

  lemma TakenCommand(p: Plane, ctx: Context, kind: ApprovalKind, target: string, payload: Payload, key: CommandKey, evidence: string, now: int)
    requires KeysBind(p) && key in p.keys
    ensures CreateCommand(p, ctx, kind, target, payload, key, evidence, now)
            == match Require(p, ctx, ApprovalCapability(kind))
               case Fail(f) => Abort(f)
               case Pass =>
                 var c := p.keys[key];
                 if p.commands[c].kind == kind && p.commands[c].targetRef == target && p.commands[c].payload == payload then Commit(p, c) else Abort(Conflict)
  {
    hide Require;
  }

  lemma TakenRequest(p: Plane, ctx: Context, kind: ApprovalKind, target: string, payload: Payload, key: CommandKey,
                     policyVersion: int, targetVersion: int, evidence: string, now: int)
    requires PlaneSound(p) && key in p.keys && policyVersion >= 1 && targetVersion >= 1
    ensures RequestApproval(p, ctx, kind, target, payload, key, policyVersion, targetVersion, evidence, now).Commit?
            <==> Require(p, ctx, ApprovalCapability(kind)).Pass? && KeyOpen(p, kind, target, payload, key, policyVersion, targetVersion, evidence)
  {
    hide Require, PlaneSound, PlaneInv, Announced;
    PlaneSoundIs(p);
    var c := p.keys[key];
    assert c in p.intents ==> IntentUnchanged(p.commands[c], p.approvals[c], p.intents[c]);
    TakenCommand(p, ctx, kind, target, payload, key, evidence, now);
    assert c < |p.commands| && c < |p.approvals|;
    hide CreateCommand, IntentsBind, KeysBind;
  }

  /** A request under one key leaves every other key as open as it was. */
  lemma OtherKeysStay(p: Plane, ctx: Context, kind: ApprovalKind, target: string, payload: Payload, key: CommandKey,
                      policyVersion: int, targetVersion: int, evidence: string, now: int,
                      aim: string, content: Payload, other: CommandKey)
    requires PlaneSound(p) && other != key
    ensures var tx := RequestApproval(p, ctx, kind, target, payload, key, policyVersion, targetVersion, evidence, now);
      tx.Commit? ==> (KeyOpen(p, kind, aim, content, other, policyVersion, targetVersion, evidence)
                      <==> KeyOpen(tx.state, kind, aim, content, other, policyVersion, targetVersion, evidence))
  {
    hide RequestApproval, Calm, PlaneSound, Bound, Issued, KeyOpen;
    RequestCalm(p, ctx, kind, target, payload, key, policyVersion, targetVersion, evidence, now);
    var tx := RequestApproval(p, ctx, kind, target, payload, key, policyVersion, targetVersion, evidence, now);
    if tx.Commit? {
      CalmIs(p, tx.state);
      PlaneSoundIs(p);
      PlaneSoundIs(tx.state);
      hide PlaneInv, Announced, IntentsBind;
      OpenAlike(p, tx.state, key, tx.value, kind, policyVersion, targetVersion, evidence, aim, content, other);
    }
  }

  lemma OpenAlike(p: Plane, q: Plane, key: CommandKey, c: nat, kind: ApprovalKind, policyVersion: int, targetVersion: int, evidence: string,
                  aim: string, content: Payload, other: CommandKey)
    requires KeysBind(p) && KeysBind(q) && p.commands <= q.commands && p.approvals <= q.approvals && q.keys == p.keys[key := c]
    requires q.intents.Keys == p.intents.Keys + {c} && (forall d | d in p.intents :: q.intents[d] == p.intents[d]) && other != key
    ensures KeyOpen(p, kind, aim, content, other, policyVersion, targetVersion, evidence)
            <==> KeyOpen(q, kind, aim, content, other, policyVersion, targetVersion, evidence)
  {
    if other in p.keys {
      var d := p.keys[other];
      assert key in q.keys && q.keys[key] == c && other in q.keys && q.keys[other] == d;
      assert q.commands[d].key == other && q.commands[c].key == key;
      assert d in q.intents <==> d in p.intents;
    }
  }

  lemma FreshRequest(p: Plane, ctx: Context, kind: ApprovalKind, target: string, payload: Payload, key: CommandKey,
                     policyVersion: int, targetVersion: int, evidence: string, now: int)
    requires PlaneSound(p) && key !in p.keys && policyVersion >= 1 && targetVersion >= 1
    ensures RequestApproval(p, ctx, kind, target, payload, key, policyVersion, targetVersion, evidence, now).Commit?
            <==> Require(p, ctx, ApprovalCapability(kind)).Pass?
  {
    CreateCalm(p, ctx, kind, target, payload, key, evidence, now);
    hide CreateCommand, Calm, Require;
  }

  lemma CalmIs(p: Plane, q: Plane)
    requires Calm(p, q)
    ensures PlaneSound(q) && PlaneGrows(p, q) && ContentsFixed(p, q) && SamePurchaseEvents(p, q)
    ensures PlaneInv(q) && Announced(q) && IntentsBind(q)
  {}

  /** A new command and its pending approval, good for a day. */
  ghost predicate Issued(p: Plane, q: Plane, c: nat, key: CommandKey, now: int) {
    && c == |p.commands| && q.keys == p.keys[key := c] && |q.commands| == |p.commands| + 1 && |q.approvals| == |q.commands|
    && q.commands[c].state == Pending && q.approvals[c].state == Pending && q.approvals[c].expiresAt == now + APPROVAL_LIFETIME
  }

  lemma WithdrawCalm(p: Plane, c: nat)
    requires PlaneSound(p) && c < |p.commands| && c < |p.approvals|
    ensures Calm(p, SetState(p, c, Superseded, p.approvals[c].decidedBy))
  {}

  lemma SupersedeCalm(p: Plane, ctx: Context, c: nat, payload: Payload, key: CommandKey, now: int)
    requires PlaneSound(p)
    ensures var tx := Supersede(p, ctx, c, payload, key, now);
      tx.Commit? ==> Calm(p, tx.state)
  {
    var tx := Supersede(p, ctx, c, payload, key, now);
    hide Calm, CreateCommand;
    if tx.Commit? {
      WithdrawCalm(p, c);
      var q := SetState(p, c, Superseded, p.approvals[c].decidedBy);
      CalmIs(p, q);
      CreateCalm(q, ctx, p.commands[c].kind, p.commands[c].targetRef, payload, key, p.approvals[c].evidence, now);
      CalmTransitive(p, q, tx.state);
    }
  }

  lemma PrepareCalm(p: Plane, ctx: Context, c: nat, policyVersion: int, targetVersion: int, now: int)
    requires PlaneSound(p)
    ensures var tx := PrepareExecution(p, ctx, c, policyVersion, targetVersion, now);
      tx.Commit? ==>
        && Calm(p, tx.state) && tx.state.keys == p.keys && c in tx.state.preparations
        && tx.state.commands == p.commands && tx.state.approvals == p.approvals
  {
    hide Calm, AddPreparation;
    CalmReflexive(p);
    PlaneSoundIs(p);
    if c in p.intents && c !in p.preparations {
      AddPreparationCalm(p, c, Preparation(p.intents[c].digest, ctx.user, now));
    }
  }

  lemma AddPreparationCalm(p: Plane, c: nat, prepared: Preparation)
    requires PlaneSound(p) && c in p.intents && prepared.digest == p.intents[c].digest && c !in p.preparations
    ensures var q := AddPreparation(p, c, prepared);
      Calm(p, q) && q.keys == p.keys && c in q.preparations && q.commands == p.commands && q.approvals == p.approvals
  {
    AddPreparationKeeps(p, c, prepared);
    hide PlaneInv, PlaneGrows, SameAttemptKeys;
  }

  /** Whatever anyone does to the approval tables, under whatever command key. */
  lemma OthersCalm(p: Plane, step: E.Step)
    requires PlaneSound(p)
    ensures Calm(p, E.PlaneAfter(p, step))
  {
    hide Calm, RequestApproval, Decide, Supersede, ExpireDue;
    CalmReflexive(p);
    match step {
      case RequestStep(ctx, kind, target, payload, key, pv, tv, evidence, now) =>
        RequestCalm(p, ctx, kind, target, payload, key, pv, tv, evidence, now);
      case DecideStep(ctx, c, approve, now) => DecideCalm(p, ctx, c, approve, now);
      case SupersedeStep(ctx, c, payload, key, now) => SupersedeCalm(p, ctx, c, payload, key, now);
      case ExpireStep(c, now) => ExpireCalm(p, c, now);
      case _ => EnvironmentCalm(p, step);
    }
  }

  lemma CalmReflexive(p: Plane)
    requires PlaneSound(p)
    ensures Calm(p, p)
  {}

  lemma SurroundingsCalm(p: Plane, members: map<string, Membership>, controls: map<nat, Control>, stops: set<StopScope>,
                         manifests: map<(string, string), Manifest>)
    requires PlaneSound(p) && p.members.Keys <= members.Keys && p.controls.Keys <= controls.Keys
    ensures Calm(p, p.(members := members, controls := controls, stops := stops, manifests := manifests))
  {}

  lemma EnvironmentCalm(p: Plane, step: E.Step)
    requires PlaneSound(p)
    ensures Calm(p, E.Environment(p, step))
  {
    hide Calm, PlaneSound;
    var q := E.Environment(p, step);
    CalmReflexive(p);
    SurroundingsCalm(p, q.members, q.controls, q.stops, q.manifests);
  }
}

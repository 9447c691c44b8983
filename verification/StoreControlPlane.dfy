/** service.py as the object it is: tables updated in place, each method proved
    against the transaction it performs. */
module StoreService {
  import opened Common
  import opened Domain
  import Spec = ControlPlane
  import opened ControlPlane

  class StoreControlPlane {
    var members: map<string, Membership>
    var commands: seq<Command>
    var approvals: seq<Approval>
    var keys: map<CommandKey, nat>
    var intents: map<nat, Intent>
    var preparations: map<nat, Preparation>
    var controls: map<nat, Control>
    var stops: set<StopScope>
    var manifests: map<(string, string), Manifest>
    var outbox: set<OutKey>

    function View(): Plane
      reads this
    {
      Plane(members, commands, approvals, keys, intents, preparations, controls, stops, manifests, outbox)
    }

    constructor ()
      ensures View() == EmptyPlane()
    {
      members, commands, approvals, keys, intents := map[], [], [], map[], map[];
      preparations, controls, stops, manifests, outbox := map[], map[], {}, map[], {};
    }

    /** The rollback of `transaction()`: every table gets its snapshot back. */
    method Restore(snapshot: Plane)
      modifies this
      ensures View() == snapshot
    {
      members, commands, approvals, keys := snapshot.members, snapshot.commands, snapshot.approvals, snapshot.keys;
      intents, preparations, controls := snapshot.intents, snapshot.preparations, snapshot.controls;
      stops, manifests, outbox := snapshot.stops, snapshot.manifests, snapshot.outbox;
    }

    method AppendOutbox(key: OutKey) returns (r: Result<()>)
      modifies this`outbox
      ensures Ran(Spec.AppendOutbox(old(View()), key), old(View()), View(), r)
    {
      if key in outbox { return Err(Conflict); }
      outbox := outbox + {key};
      r := Ok(());
    }

    method CreateCommand(ctx: Context, kind: ApprovalKind, target: string, payload: Payload, key: CommandKey,
                         evidence: string, now: int) returns (r: Result<nat>)
      modifies this
      ensures Ran(Spec.CreateCommand(old(View()), ctx, kind, target, payload, key, evidence, now), old(View()), View(), r)
    {
      var permitted := Require(View(), ctx, ApprovalCapability(kind));
      if permitted.Fail? { return Err(permitted.failure); }
      if key in keys {
        var existing := keys[key];
        if existing >= |commands| { return Err(NotFound); }
        var c := commands[existing];
        if c.kind != kind || c.targetRef != target || c.payload != payload { return Err(Conflict); }
        if existing >= |approvals| { return Err(NotFound); }
        return Ok(existing);
      }
      var id := |commands|;
      if ApprovalRequested(id) in outbox { return Err(Conflict); }
      commands := commands + [Command(kind, target, payload, key, Pending)];
      approvals := approvals + [Approval(Pending, now + APPROVAL_LIFETIME, evidence, None)];
      keys := keys[key := id];
      outbox := outbox + {ApprovalRequested(id)};
      r := Ok(id);
    }

    method RequestApproval(ctx: Context, kind: ApprovalKind, target: string, payload: Payload, key: CommandKey,
                           policyVersion: int, targetVersion: int, evidence: string, now: int) returns (r: Result<nat>)
      modifies this
      ensures Ran(Spec.RequestApproval(old(View()), ctx, kind, target, payload, key, policyVersion, targetVersion, evidence, now),
                  old(View()), View(), r)
    {
      if policyVersion < 1 || targetVersion < 1 { return Err(Conflict); }
      var snapshot := View();
      var created := CreateCommand(ctx, kind, target, payload, key, evidence, now);
      if created.Err? { return Err(created.failure); }
      var c := created.value;
      if c >= |commands| || c >= |approvals| { Restore(snapshot); return Err(NotFound); }
      var digest := Material(kind, target, payload, evidence, approvals[c].expiresAt, policyVersion, targetVersion);
      if c in intents {
        if intents[c].digest != digest || !IntentUnchanged(commands[c], approvals[c], intents[c]) {
          Restore(snapshot);
          return Err(Conflict);
        }
      } else {
        if approvals[c].state != Pending || IntentDigest(commands[c], approvals[c], policyVersion, targetVersion) != digest {
          Restore(snapshot);
          return Err(Conflict);
        }
        intents := intents[c := Intent(digest, policyVersion, targetVersion)];
      }
      r := Ok(c);
    }

    method SetDecision(c: nat, s: DecisionState, decider: Option<string>)
      requires c < |commands| && c < |approvals|
      modifies this`commands, this`approvals
      ensures View() == SetState(old(View()), c, s, decider)
    {
      commands := commands[c := commands[c].(state := s)];
      approvals := approvals[c := approvals[c].(state := s, decidedBy := decider)];
    }

    method Decide(ctx: Context, c: nat, approve: bool, now: int) returns (r: Result<bool>)
      modifies this
      ensures Ran(Spec.Decide(old(View()), ctx, c, approve, now), old(View()), View(), r)
    {
      if c >= |commands| || c >= |approvals| { return Err(NotFound); }
      var permitted := Require(View(), ctx, ApprovalCapability(commands[c].kind));
      if permitted.Fail? { return Err(permitted.failure); }
      if c in intents && !IntentUnchanged(commands[c], approvals[c], intents[c]) { return Err(Conflict); }
      if approvals[c].state != Pending { return Err(Conflict); }
      if now >= approvals[c].expiresAt {
        if ApprovalExpired(c) in outbox { return Err(Conflict); }
        SetDecision(c, Expired, approvals[c].decidedBy);
        outbox := outbox + {ApprovalExpired(c)};
        return Ok(true);
      }
      if ApprovalDecided(c) in outbox { return Err(Conflict); }
      SetDecision(c, if approve then Approved else Rejected, Some(ctx.user));
      outbox := outbox + {ApprovalDecided(c)};
      r := Ok(false);
    }

    method Supersede(ctx: Context, c: nat, payload: Payload, key: CommandKey, now: int) returns (r: Result<nat>)
      modifies this
      ensures Ran(Spec.Supersede(old(View()), ctx, c, payload, key, now), old(View()), View(), r)
    {
      if c >= |commands| || c >= |approvals| { return Err(NotFound); }
      if commands[c].payload == payload { return Err(Conflict); }
      if approvals[c].state != Pending && approvals[c].state != Approved { return Err(Conflict); }
      var snapshot := View();
      var command, evidence := commands[c], approvals[c].evidence;
      SetDecision(c, Superseded, approvals[c].decidedBy);
      r := CreateCommand(ctx, command.kind, command.targetRef, payload, key, evidence, now);
      if r.Err? { Restore(snapshot); }
    }

    method ExpireDue(c: nat, now: int) returns (r: Result<bool>)
      modifies this
      ensures Ran(Spec.ExpireDue(old(View()), c, now), old(View()), View(), r)
    {
      if c >= |commands| || c >= |approvals| || approvals[c].state != Pending || approvals[c].expiresAt > now { return Ok(false); }
      if commands[c].state != Pending || ApprovalExpired(c) in outbox { return Err(Conflict); }
      SetDecision(c, Expired, approvals[c].decidedBy);
      outbox := outbox + {ApprovalExpired(c)};
      r := Ok(true);
    }

    method PrepareExecution(ctx: Context, c: nat, policyVersion: int, targetVersion: int, now: int) returns (r: Result<Preparation>)
      modifies this`preparations, this`outbox
      ensures Ran(Spec.PrepareExecution(old(View()), ctx, c, policyVersion, targetVersion, now), old(View()), View(), r)
    {
      var member := MembershipCheck(View(), ctx);
      if member.Fail? { return Err(member.failure); }
      if c >= |commands| { return Err(NotFound); }
      var cap := ApprovalCapability(commands[c].kind);
      var permitted := Require(View(), ctx, cap);
      if permitted.Fail? { return Err(permitted.failure); }
      if c >= |approvals| { return Err(NotFound); }
      if c !in intents { return Err(Conflict); }
      if commands[c].state != Approved || approvals[c].state != Approved { return Err(Conflict); }
      if now >= approvals[c].expiresAt { return Err(Conflict); }
      if policyVersion < 1 || targetVersion < 1 { return Err(Conflict); }
      if policyVersion != intents[c].policyVersion || targetVersion != intents[c].targetVersion { return Err(Conflict); }
      if !IntentUnchanged(commands[c], approvals[c], intents[c]) { return Err(Conflict); }
      if approvals[c].decidedBy.None? { return Err(Conflict); }
      var approver := RequireApprover(View(), approvals[c].decidedBy.value, cap);
      if approver.Fail? { return Err(approver.failure); }
      if c in preparations { return Ok(preparations[c]); }
      if ExecutionPrepared(c) in outbox { return Err(Conflict); }
      var prepared := Preparation(intents[c].digest, ctx.user, now);
      preparations := preparations[c := prepared];
      outbox := outbox + {ExecutionPrepared(c)};
      r := Ok(prepared);
    }

    method Gate(ctx: Context, c: nat, connection: string, now: int) returns (r: Result<Preparation>)
      modifies this`preparations, this`outbox
      ensures Ran(Spec.Gate(old(View()), ctx, c, connection, now), old(View()), View(), r)
    {
      if StopActive(View(), Some(connection)) { return Err(Conflict); }
      if c !in controls { return Err(NotFound); }
      if controls[c].stopped { return Err(Conflict); }
      r := PrepareExecution(ctx, c, controls[c].policyVersion, controls[c].targetVersion, now);
    }
  }
}

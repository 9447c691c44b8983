/** The composed service as its callers hold it: members, manifests, controls and
    approvals move on the objects a worker shares, each call one protocol step, so
    what is proved of runs is true of the tables and of the provider's ledger. */
module DemoPlatform {
  import opened Common
  import opened Domain
  import opened ControlPlane
  import opened SyntheticProvider
  import opened Execution
  import opened ToolGateway
  import opened ExactlyOnce
  import opened EffectTheorems
  import opened StoreService
  import opened DemoExecution
  import opened ToolWorker

  class Platform {
    const worker: DemoToolCommandWorker
    const plane: StoreControlPlane

    ghost predicate Valid()
      reads this, worker, worker.service, worker.service.service, worker.outbox, worker.provider
    {
      plane == worker.service.service && worker.Valid()
    }

    constructor (worker: DemoToolCommandWorker)
      requires worker.Valid()
      ensures Valid() && this.worker == worker
    {
      this.worker, this.plane := worker, worker.service.service;
    }

    /** A caller's change of the approval tables, as the step it is. */
    ghost method Did(step: Step)
      requires plane == worker.service.service && worker.Apart()
      requires worker.world == After(worker.service.tenant, worker.trace)
      requires Apply(worker.world, step) == worker.Here(map[])
      modifies worker`trace, worker`world
      ensures Valid() && worker.trace == old(worker.trace) + [step]
    {
      hide After, Apply;
      worker.Take(step);
    }

    method SaveMembership(user: string, membership: Membership)
      requires Valid()
      modifies plane`members, worker`trace, worker`world
      ensures Valid() && worker.trace == old(worker.trace) + [SetMember(user, membership)]
    {
      hide After;
      plane.members := plane.members[user := membership];
      Did(SetMember(user, membership));
    }

    method SaveAdapterManifest(provider: string, connection: string, manifest: Manifest)
      requires Valid()
      modifies plane`manifests, worker`trace, worker`world
      ensures Valid() && worker.trace == old(worker.trace) + [SetManifest(provider, connection, manifest)]
    {
      hide After;
      plane.manifests := plane.manifests[(provider, connection) := manifest];
      Did(SetManifest(provider, connection, manifest));
    }

    method SaveExecutionControl(c: nat, control: Control)
      requires Valid()
      modifies plane`controls, worker`trace, worker`world
      ensures Valid() && worker.trace == old(worker.trace) + [SetControl(c, control)]
    {
      hide After;
      if c < |plane.commands| { plane.controls := plane.controls[c := control]; }
      Did(SetControl(c, control));
    }

    method SetEmergencyStop(scope: StopScope, stopped: bool)
      requires Valid()
      modifies plane`stops, worker`trace, worker`world
      ensures Valid() && worker.trace == old(worker.trace) + [SetStop(scope, stopped)]
    {
      hide After;
      plane.stops := if stopped then plane.stops + {scope} else plane.stops - {scope};
      Did(SetStop(scope, stopped));
    }

    method RequestApproval(ctx: Context, kind: ApprovalKind, target: string, payload: Payload, key: CommandKey,
                           policyVersion: int, targetVersion: int, evidence: string, now: int) returns (r: Result<nat>)
      requires Valid()
      modifies plane, worker`trace, worker`world
      ensures Valid()
      ensures worker.trace == old(worker.trace) + [RequestStep(ctx, kind, target, payload, key, policyVersion, targetVersion, evidence, now)]
      ensures Ran(ControlPlane.RequestApproval(old(plane.View()), ctx, kind, target, payload, key, policyVersion, targetVersion, evidence, now),
                  old(plane.View()), plane.View(), r)
    {
      hide After, ControlPlane.RequestApproval;
      r := plane.RequestApproval(ctx, kind, target, payload, key, policyVersion, targetVersion, evidence, now);
      Did(RequestStep(ctx, kind, target, payload, key, policyVersion, targetVersion, evidence, now));
    }

    method Decide(ctx: Context, c: nat, approve: bool, now: int) returns (r: Result<bool>)
      requires Valid()
      modifies plane, worker`trace, worker`world
      ensures Valid() && worker.trace == old(worker.trace) + [DecideStep(ctx, c, approve, now)]
      ensures Ran(ControlPlane.Decide(old(plane.View()), ctx, c, approve, now), old(plane.View()), plane.View(), r)
    {
      hide After, ControlPlane.Decide;
      r := plane.Decide(ctx, c, approve, now);
      Did(DecideStep(ctx, c, approve, now));
    }

    method Supersede(ctx: Context, c: nat, payload: Payload, key: CommandKey, now: int) returns (r: Result<nat>)
      requires Valid()
      modifies plane, worker`trace, worker`world
      ensures Valid() && worker.trace == old(worker.trace) + [SupersedeStep(ctx, c, payload, key, now)]
      ensures Ran(ControlPlane.Supersede(old(plane.View()), ctx, c, payload, key, now), old(plane.View()), plane.View(), r)
    {
      hide After, ControlPlane.Supersede;
      r := plane.Supersede(ctx, c, payload, key, now);
      Did(SupersedeStep(ctx, c, payload, key, now));
    }

    method ExpireDue(c: nat, now: int) returns (r: Result<bool>)
      requires Valid()
      modifies plane, worker`trace, worker`world
      ensures Valid() && worker.trace == old(worker.trace) + [ExpireStep(c, now)]
      ensures Ran(ControlPlane.ExpireDue(old(plane.View()), c, now), old(plane.View()), plane.View(), r)
    {
      hide After, ControlPlane.ExpireDue;
      r := plane.ExpireDue(c, now);
      Did(ExpireStep(c, now));
    }
  }

  /** No two accepted tool commands rest on one approval, no two attempts serve one command. */
  ghost predicate OneEach(tools: seq<ToolCommand>, attempts: seq<Attempt>) {
    && (forall i, j | 0 <= i < |tools| && 0 <= j < |tools| && tools[i].state == Accepted && tools[j].state == Accepted
          && tools[i].request.approval.Some? && tools[i].request.approval == tools[j].request.approval :: i == j)
    && (forall a, b | 0 <= a < |attempts| && 0 <= b < |attempts| && attempts[a].command == attempts[b].command :: a == b)
  }

  lemma OneEachInRuns(tenant: string, steps: seq<Step>)
    ensures OneEach(After(tenant, steps).store.tools, After(tenant, steps).store.repo.attempts)
  {
    OneEffectPerApproval(tenant, steps);
  }

  /** Whatever calls were made on the objects, their ledger holds for this tenant
      only effects inserted once, each of an intent its callers had requested. */
  lemma ObjectsKeepTheLaw(p: Platform)
    requires p.Valid()
    ensures OneEach(p.worker.tools, p.worker.service.attempts)
    ensures forall k | k in p.worker.provider.ledger && k.tenant == p.worker.service.tenant ::
              && Inserts(p.worker.service.tenant, p.worker.trace, k) == 1
              && k.command in p.plane.intents && p.worker.provider.ledger[k].intent == p.plane.intents[k.command].digest
  {
    hide After, Apply, OneEach;
    OneEachInRuns(p.worker.service.tenant, p.worker.trace);
    OneEffectPerApproval(p.worker.service.tenant, p.worker.trace);
  }
}

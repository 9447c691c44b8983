/** What an execution lease is worth over a run: until it ends nobody but its
    holder changes the attempt, and a submitted command is queued exactly once. */
module LeaseTheorems {
  import opened Common
  import opened Domain
  import opened ControlPlane
  import opened SyntheticProvider
  import opened Execution
  import opened ToolGateway
  import opened ExecutionSafety
  import opened ExactlyOnce
  import opened EffectTheorems
  import opened LateEffects
  import Outbox

  /** The step is the lease holder's own begin or record, made while the lease lives. */
  predicate HolderActs(w: World, step: Step, a: nat)
    requires a < |w.store.repo.attempts|
  {
    && (step.Begin? || step.Record?) && step.proc in w.procs
    && (w.procs[step.proc].phase.HasLease? || w.procs[step.proc].phase.Heard?) && w.procs[step.proc].phase.attempt == a
    && LeaseHeld(w.store.repo.attempts[a], w.procs[step.proc].worker, w.procs[step.proc].phase.token, step.now)
  }

  /** A claim that could take the lease over is one made when it has run out. */
  predicate ClaimsBefore(step: Step, until: int) { step.TakeAttempt? ==> step.now < until }

  lemma LeaseStep(w: World, step: Step, a: nat)
    requires WorldInv(w) && a < |w.store.repo.attempts| && w.store.repo.attempts[a].leaseUntil.Some?
    requires ClaimsBefore(step, w.store.repo.attempts[a].leaseUntil.value)
    ensures a < |Apply(w, step).store.repo.attempts|
    ensures HolderActs(w, step, a) || Apply(w, step).store.repo.attempts[a] == w.store.repo.attempts[a]
  {
    hide WorldInv, Authorised, SubmitTool, PrepareAttempt, PrepareForEvent, DoPrepareEvent, DoTakeAttempt, DoBegin, DoRecord, PlaneAfter, RepoInv, StoreInv, HolderActs, Wrote;
    RepoOf(w);
    StoreOf(w);
    match step {
      case Submit(ctx, q, now) => SubmitKeeps(w.store, ctx, q, now);
      case PrepareDirect(ctx, c, pv, tv, adapterVersion, provider, connection, now) =>
        PrepareAttemptKeeps(w.store.repo, ctx, c, pv, tv, adapterVersion, provider, connection, now);
      case PrepareEvent(p, ctx, now) => PrepareEventSpares(w, p, ctx, now, a);
      case TakeAttempt(p, ctx, worker, b, expected, seconds, now) => TakeSpares(w, step, a);
      case Begin(p, ctx, purpose, now) => BeginIsHolders(w, step, a);
      case Record(p, ctx, now) => RecordIsHolders(w, step, a);
      case _ =>
    }
  }

  lemma PrepareEventSpares(w: World, p: nat, ctx: Context, now: int, a: nat)
    requires StoreInv(w.store) && a < |w.store.repo.attempts|
    ensures var n := DoPrepareEvent(w, p, ctx, now);
      a < |n.store.repo.attempts| && n.store.repo.attempts[a] == w.store.repo.attempts[a]
  {
    hide PrepareForEvent, StoreInv, RepoInv;
    if p in w.procs && w.procs[p].job.Some? { PrepareForEventKeeps(w.store, ctx, w.procs[p].job.value.event, now); }
  }

  lemma TakeSpares(w: World, step: Step, a: nat)
    requires RepoInv(w.store.repo) && step.TakeAttempt? && a < |w.store.repo.attempts|
    requires w.store.repo.attempts[a].leaseUntil.Some? && step.now < w.store.repo.attempts[a].leaseUntil.value
    ensures |Apply(w, step).store.repo.attempts| == |w.store.repo.attempts|
    ensures Apply(w, step).store.repo.attempts[a] == w.store.repo.attempts[a]
  {
    hide RepoInv, RepoGrows, ClaimAttempt;
    var r := w.store.repo;
    if step.proc !in w.procs {
      ClaimKeeps(r, step.ctx, step.attempt, step.worker, step.expected, step.seconds, step.now);
    } else if w.procs[step.proc].phase.HasAttempt? {
      var ph := w.procs[step.proc].phase;
      ClaimKeeps(r, step.ctx, ph.attempt, w.procs[step.proc].worker, ph.version, step.seconds, step.now);
    }
  }

  lemma BeginIsHolders(w: World, step: Step, a: nat)
    requires RepoInv(w.store.repo) && step.Begin? && a < |w.store.repo.attempts|
    ensures |Apply(w, step).store.repo.attempts| == |w.store.repo.attempts|
    ensures HolderActs(w, step, a) || Apply(w, step).store.repo.attempts[a] == w.store.repo.attempts[a]
  {
    hide RepoInv, RepoGrows, Authorised, BeginDispatch, BeginReconciliation, LeaseHeld;
    if step.proc in w.procs && w.procs[step.proc].phase.HasLease? {
      var proc := w.procs[step.proc];
      BeginDispatchKeeps(w.store.repo, step.ctx, proc.phase.attempt, proc.worker, proc.phase.token, step.now);
      BeginReconciliationKeeps(w.store.repo, step.ctx, proc.phase.attempt, proc.worker, proc.phase.token, step.now);
    }
  }

  lemma RecordIsHolders(w: World, step: Step, a: nat)
    requires RepoInv(w.store.repo) && step.Record? && a < |w.store.repo.attempts|
    ensures |Apply(w, step).store.repo.attempts| == |w.store.repo.attempts|
    ensures HolderActs(w, step, a) || Apply(w, step).store.repo.attempts[a] == w.store.repo.attempts[a]
  {
    hide RepoInv, RepoGrows, Authorised, RecordObservation, LeaseHeld, Outcome;
    if step.proc in w.procs && w.procs[step.proc].phase.Heard? {
      var proc := w.procs[step.proc];
      RecordExact(w.store.repo, step.ctx, proc.phase.attempt, proc.worker, proc.phase.token, proc.phase.observation, step.now);
    }
  }

  ghost predicate HolderActsAt(tenant: string, steps: seq<Step>, more: seq<Step>, k: nat, a: nat)
    requires k < |more|
  {
    var w := After(tenant, steps + more[..k]);
    a < |w.store.repo.attempts| && HolderActs(w, more[k], a)
  }

  /** Until its lease ends, whatever else happens in the tenant, an attempt stands as it is
      as long as its holder does nothing: nobody claims it, begins a call, or records for it. */
  lemma {:induction false} LeaseExcludes(tenant: string, steps: seq<Step>, more: seq<Step>, a: nat)
    requires a < |After(tenant, steps).store.repo.attempts|
    requires After(tenant, steps).store.repo.attempts[a].leaseUntil.Some?
    requires forall k | 0 <= k < |more| :: ClaimsBefore(more[k], After(tenant, steps).store.repo.attempts[a].leaseUntil.value)
    requires forall k | 0 <= k < |more| :: !HolderActsAt(tenant, steps, more, k, a)
    ensures a < |After(tenant, steps + more).store.repo.attempts|
    ensures After(tenant, steps + more).store.repo.attempts[a] == After(tenant, steps).store.repo.attempts[a]
  {
    hide After, Apply, WorldInv, HolderActs, ClaimsBefore;
    if more == [] {
      assert steps + more == steps;
    } else {
      var n := |more| - 1;
      var fewer := more[..n];
      forall k | 0 <= k < n ensures !HolderActsAt(tenant, steps, fewer, k, a) && ClaimsBefore(fewer[k], After(tenant, steps).store.repo.attempts[a].leaseUntil.value) {
        assert fewer[..k] == more[..k] && !HolderActsAt(tenant, steps, more, k, a);
      }
      LeaseExcludes(tenant, steps, fewer, a);
      RunKeeps(tenant, steps + fewer);
      assert !HolderActsAt(tenant, steps, more, n, a);
      LeaseStep(After(tenant, steps + fewer), more[n], a);
      AfterJoin(tenant, steps, more);
    }
  }

  // ------------------------------------------------------------- submitted commands

  /** In every run each accepted command on an approval is queued for the worker, by
      exactly one event, and stays so. */
  lemma AcceptedIsQueued(tenant: string, steps: seq<Step>, t: nat) returns (e: nat)
    requires var s := After(tenant, steps).store; t < |s.tools| && s.tools[t].state == Accepted && s.tools[t].request.approval.Some?
    ensures var s := After(tenant, steps).store;
      && e < |s.events| && s.events[e].aggregate == t
      && forall f | 0 <= f < |s.events| && s.events[f].aggregate == t :: f == e
  {
    RunKeeps(tenant, steps);
    var s := After(tenant, steps).store;
    hide After;
    StoreOf(After(tenant, steps));
    assert HasEvent(s.events, t) by { assert s.tools[t].approvalCommand == s.tools[t].request.approval; }
    e :| 0 <= e < |s.events| && s.events[e].aggregate == t;
  }

  /** No stop reaches the command: none is global or of the tenant, nor of the channel it is for. */
  predicate Unstopped(p: Plane, q: Request) {
    forall s | s in p.stops :: s.ConnectionScope? && (q.targetType == ChannelTarget ==> s.connection != q.targetId)
  }

  lemma UnstoppedExact(p: Plane, q: Request)
    ensures StopActive(p, if q.targetType == ChannelTarget then Some(q.targetId) else None) <==> !Unstopped(p, q)
  {
    if s :| s in p.stops && !(s.ConnectionScope? && (q.targetType == ChannelTarget ==> s.connection != q.targetId)) {
      assert s.GlobalScope? || s.TenantScope? || (q.targetType == ChannelTarget && s == ConnectionScope(q.targetId));
    }
  }

  /** The approval a request names stands, covers exactly this request, belongs to a caller and
      an approver who still have the right, and serves no other accepted command. */
  ghost predicate Approves(s: Store, ctx: Context, q: Request, now: int) {
    q.approval.Some?
    && var p, c := s.repo.plane, q.approval.value;
       && Covers(p, c, q, now) && p.commands[c].state == Approved
       && p.intents[c].policyVersion >= 1 && p.intents[c].targetVersion >= 1
       && p.intents[c].digest == IntentDigest(p.commands[c], p.approvals[c], p.intents[c].policyVersion, p.intents[c].targetVersion)
       && (forall i | 0 <= i < |s.tools| && s.tools[i].state == Accepted && s.tools[i].request.approval == q.approval :: s.tools[i].request.key == q.key)
       && var cap := ApprovalCapability(p.commands[c].kind);
          && ActiveWith(p, ctx.user, cap) && p.members[ctx.user].version == ctx.version
          && p.approvals[c].decidedBy.Some? && ActiveWith(p, p.approvals[c].decidedBy.value, cap)
  }

  lemma ApprovesExact(s: Store, ctx: Context, q: Request, now: int)
    requires StoreInv(s)
    ensures var tx := ValidateApproval(s.repo.plane, s.tools, ctx, q, now);
      (tx.Commit? <==> Approves(s, ctx, q, now)) && (tx.Commit? ==> tx.value == Some(s.repo.plane.intents[q.approval.value].digest))
  {
    ValidateKeeps(s.repo.plane, s.tools, ctx, q, now);
  }

  /** Exactly how a submission under a new key is answered. Only an administrator's is
      saved; a stop blocks it whatever else holds; of the rest, those that change nothing and
      those with a standing approval are accepted, and an approval is asked for where none is given.
      What is accepted on an approval is queued, nothing else is. */
  lemma SubmitExact(s: Store, ctx: Context, q: Request, now: int)
    requires StoreInv(s) && forall i | 0 <= i < |s.tools| :: s.tools[i].request.key != q.key
    ensures var tx := SubmitTool(s, ctx, q, now);
      && (tx.Commit? <==> Administrator(s.repo.plane, ctx) && q.policyVersion >= 1)
      && (tx.Commit? ==>
            && tx.value == |s.tools| && |tx.state.tools| == |s.tools| + 1 && s.tools <= tx.state.tools
            && var v := tx.state.tools[tx.value];
               && v.request.(approval := None) == q.(approval := None)
               && (v.state == Accepted <==> Unstopped(s.repo.plane, q) && (q.tool == Reconcile || Approves(s, ctx, q, now)))
               && (v.state == ApprovalNeeded <==> Unstopped(s.repo.plane, q) && q.tool != Reconcile && q.approval.None?)
               && v.request.approval == (if v.state == Accepted && q.tool != Reconcile then q.approval else None)
               && tx.state.events == s.events + (if v.request.approval.Some? then [Outbox.NewEvent(tx.value, now)] else []))
  {
    hide ValidateApproval, Approves;
    AdministratorExact(s.repo.plane, ctx);
    UnstoppedExact(s.repo.plane, q);
    ApprovesExact(s, ctx, q, now);
    ValidateKeeps(s.repo.plane, s.tools, ctx, q, now);
    ToolKeyFree(s, ctx, q, now);
    NoRow(s.tools, q.key);
  }

  lemma NoRow(tools: seq<ToolCommand>, key: string)
    requires forall i | 0 <= i < |tools| :: tools[i].request.key != key
    ensures KeyRow(tools, key, 0).None?
  {}

  lemma ToolKeyFree(s: Store, ctx: Context, q: Request, now: int)
    requires StoreInv(s)
    ensures ToolAccepted(|s.tools|) !in Judge(s.repo.plane, s.tools, ctx, q, now).0.outbox
  {
    hide Judge;
    JudgeKeeps(s, ctx, q, now);
  }

  /** A key already used answers only what it was first saved as, adds nothing and queues nothing. */
  lemma ResubmitExact(s: Store, ctx: Context, q: Request, now: int, t: nat)
    requires StoreInv(s) && t < |s.tools| && s.tools[t].request.key == q.key
    ensures var tx := SubmitTool(s, ctx, q, now);
      var approved := Unstopped(s.repo.plane, q) && q.tool != Reconcile && Approves(s, ctx, q, now);
      && (tx.Commit? <==>
            Administrator(s.repo.plane, ctx) && q.policyVersion >= 1 && s.tools[t].request == if approved then q else q.(approval := None))
      && (tx.Commit? ==> tx.value == t && tx.state.tools == s.tools && tx.state.events == s.events)
  {
    hide ValidateApproval, Approves;
    AdministratorExact(s.repo.plane, ctx);
    UnstoppedExact(s.repo.plane, q);
    ApprovesExact(s, ctx, q, now);
    ApprovesSome(s, ctx, q, now);
  }

  lemma ApprovesSome(s: Store, ctx: Context, q: Request, now: int)
    ensures Approves(s, ctx, q, now) ==> q.approval.Some?
  {}
}

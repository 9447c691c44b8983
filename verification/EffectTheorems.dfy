/** What the protocol promises over every run: one effect per approval, true and
    final verdicts, no effect without a passed gate, bounded observation. */
module EffectTheorems {
  import opened Common
  import opened Domain
  import opened ControlPlane
  import opened SyntheticProvider
  import opened Execution
  import opened ToolGateway
  import opened ExecutionSafety
  import opened ExactlyOnce
  import Outbox

  // ------------------------------------------------------------------ growth

  lemma GrowsTransitive(s: Store, t: Store, u: Store)
    requires StoreGrows(s, t) && StoreGrows(t, u)
    ensures StoreGrows(s, u)
  {
    forall a | 0 <= a < |s.repo.attempts| ensures AttemptGrows(s.repo.attempts[a], u.repo.attempts[a]) {
      assert AttemptGrows(s.repo.attempts[a], t.repo.attempts[a]) && AttemptGrows(t.repo.attempts[a], u.repo.attempts[a]);
    }
  }

  /** Versions and fencing tokens only grow, operations stay fixed, and a
      terminal attempt absorbs every further step of every run. */
  lemma {:induction false} RunGrows(tenant: string, steps: seq<Step>, n: nat)
    requires n <= |steps|
    ensures StoreGrows(After(tenant, steps[..n]).store, After(tenant, steps).store)
    decreases |steps|
  {
    if n == |steps| {
      assert steps[..n] == steps;
    } else {
      var shorter := steps[..|steps| - 1];
      assert shorter[..n] == steps[..n];
      RunGrows(tenant, shorter, n);
      RunKeeps(tenant, shorter);
      StepKeeps(After(tenant, shorter), steps[|steps| - 1]);
      GrowsTransitive(After(tenant, steps[..n]).store, After(tenant, shorter).store, After(tenant, steps).store);
    }
  }

  // ------------------------------------------------------------- one effect

  /** How often a run inserted an effect under `key`. */
  function Inserts(tenant: string, steps: seq<Step>, key: OpKey): nat {
    if steps == [] then 0
    else Inserts(tenant, steps[..|steps| - 1], key)
         + if key in After(tenant, steps).ledger && key !in After(tenant, steps[..|steps| - 1]).ledger then 1 else 0
  }

  /** Only provider calls and other tenants write the ledger, and no row of this tenant is ever lost or altered. */
  lemma LedgerStep(w: World, step: Step, key: OpKey)
    requires WorldInv(w) && key.tenant == w.store.repo.tenant
    ensures key in w.ledger ==> key in Apply(w, step).ledger && Apply(w, step).ledger[key].kind == w.ledger[key].kind
                                && Apply(w, step).ledger[key].intent == w.ledger[key].intent
    ensures key !in w.ledger && key in Apply(w, step).ledger ==>
      && step.CallProvider? && step.proc in w.procs && w.procs[step.proc].phase.Calling? && w.procs[step.proc].phase.purpose == ForDispatch
      && w.procs[step.proc].phase.attempt < |w.store.repo.attempts| && w.store.repo.attempts[w.procs[step.proc].phase.attempt].key == key
  {
    hide WorldInv, Execute, Lookup, SubmitTool, PrepareAttempt, PrepareForEvent, ClaimAttempt, BeginTx, RecordObservation, PlaneAfter;
    if step.CallProvider? && step.proc in w.procs && w.procs[step.proc].phase.Calling?
       && w.procs[step.proc].phase.attempt < |w.store.repo.attempts| {
      var v := w.store.repo.attempts[w.procs[step.proc].phase.attempt];
      InvDefinite(w);
      ExecuteOnce(w.ledger, step.mode, v.key, v.intent);
      LookupReadsOnly(w.ledger, step.mode, step.absence, v.key, v.intent);
    }
  }

  lemma InvDefinite(w: World)
    requires WorldInv(w)
    ensures Definite(w.ledger)
  {}

  /** An operation takes effect at most once, whatever is re-dispatched, however late. */
  lemma {:induction false} EffectAtMostOnce(tenant: string, steps: seq<Step>, key: OpKey)
    requires key.tenant == tenant
    ensures Inserts(tenant, steps, key) == if key in After(tenant, steps).ledger then 1 else 0
  {
    TenantFixed(tenant, steps);
    if steps != [] {
      var shorter := steps[..|steps| - 1];
      EffectAtMostOnce(tenant, shorter, key);
      RunKeeps(tenant, shorter);
      TenantFixed(tenant, shorter);
      LedgerStep(After(tenant, shorter), steps[|steps| - 1], key);
    }
  }

  lemma TenantFixed(tenant: string, steps: seq<Step>)
    ensures After(tenant, steps).store.repo.tenant == tenant
  {
    RunGrows(tenant, steps, 0);
  }

  /** At most one provider effect per approval: an approval is accepted by at most
      one tool command, an approved command has at most one attempt, and an
      effect under that command's key carries the very intent that was approved. */
  lemma OneEffectPerApproval(tenant: string, steps: seq<Step>)
    ensures var w := After(tenant, steps);
      && (forall i, j | 0 <= i < |w.store.tools| && 0 <= j < |w.store.tools|
            && w.store.tools[i].state == Accepted && w.store.tools[j].state == Accepted
            && w.store.tools[i].request.approval.Some? && w.store.tools[i].request.approval == w.store.tools[j].request.approval
            :: i == j)
      && (forall a, b | 0 <= a < |w.store.repo.attempts| && 0 <= b < |w.store.repo.attempts|
            && w.store.repo.attempts[a].command == w.store.repo.attempts[b].command :: a == b)
      && (forall k | k in w.ledger && k.tenant == tenant ::
            && Inserts(tenant, steps, k) == 1
            && k.command in w.store.repo.plane.intents
            && w.ledger[k].intent == w.store.repo.plane.intents[k.command].digest)
  {
    RunKeeps(tenant, steps);
    TenantFixed(tenant, steps);
    var w := After(tenant, steps);
    forall k | k in w.ledger && k.tenant == tenant
      ensures Inserts(tenant, steps, k) == 1 && k.command in w.store.repo.plane.intents
              && w.ledger[k].intent == w.store.repo.plane.intents[k.command].digest
    {
      EffectAtMostOnce(tenant, steps, k);
      var a :| 0 <= a < |w.store.repo.attempts| && w.store.repo.attempts[a].key == k && w.store.repo.attempts[a].intent == w.ledger[k].intent;
      assert AttemptBound(w.store.repo, a);
    }
  }

  // ---------------------------------------------------------------- verdicts

  /** A verdict reached at any point of a run is true then and stands, unchanged and still true, at its end. */
  lemma VerdictTrueAndFinal(tenant: string, steps: seq<Step>, n: nat, a: nat)
    requires n <= |steps| && a < |After(tenant, steps[..n]).store.repo.attempts|
    requires Execution.Terminal(After(tenant, steps[..n]).store.repo.attempts[a].state)
    ensures var v := After(tenant, steps[..n]).store.repo.attempts[a];
      && a < |After(tenant, steps).store.repo.attempts| && After(tenant, steps).store.repo.attempts[a] == v
      && VerdictTrue(After(tenant, steps[..n]).ledger, v) && VerdictTrue(After(tenant, steps).ledger, v)
  {
    RunGrows(tenant, steps, n);
    RunKeeps(tenant, steps[..n]);
    RunKeeps(tenant, steps);
    assert AttemptGrows(After(tenant, steps[..n]).store.repo.attempts[a], After(tenant, steps).store.repo.attempts[a]);
  }

  /** Every reply a provider can give, in any mode, is accepted in the state it
      arrives in, provided the lease still holds and the caller is still an
      administrator; the attempt then stands where the observation puts it. */
  lemma ReplyAccepted(tenant: string, steps: seq<Step>, p: nat, ctx: Context, now: int)
    requires var w := After(tenant, steps);
      && p in w.procs && w.procs[p].phase.Heard? && w.procs[p].phase.attempt < |w.store.repo.attempts|
      && Require(w.store.repo.plane, ctx, TenantAdmin).Pass?
      && LeaseHeld(w.store.repo.attempts[w.procs[p].phase.attempt], w.procs[p].worker, w.procs[p].phase.token, now)
    ensures var w := After(tenant, steps);
      var n := Apply(w, Record(p, ctx, now));
      var ph := w.procs[p].phase;
      && ph.attempt < |n.store.repo.attempts|
      && n.store.repo.observations == w.store.repo.observations[ph.attempt := ObservationsFor(w.store.repo, ph.attempt) + [ph.observation]]
      && Outcome(w.store.repo, ctx, w.store.repo.attempts[ph.attempt], ph.observation,
                 |ObservationsFor(w.store.repo, ph.attempt)|, now, n.store.repo.attempts[ph.attempt].state)
  {
    hide WorldInv, DoRecord, Outcome;
    RunKeeps(tenant, steps);
    ReplyAcceptedHere(After(tenant, steps), p, ctx, now);
  }

  lemma ReplyAcceptedHere(w: World, p: nat, ctx: Context, now: int)
    requires WorldInv(w) && p in w.procs && w.procs[p].phase.Heard? && w.procs[p].phase.attempt < |w.store.repo.attempts|
    requires Require(w.store.repo.plane, ctx, TenantAdmin).Pass?
    requires LeaseHeld(w.store.repo.attempts[w.procs[p].phase.attempt], w.procs[p].worker, w.procs[p].phase.token, now)
    ensures var n := DoRecord(w, p, ctx, now);
      var ph := w.procs[p].phase;
      && ph.attempt < |n.store.repo.attempts|
      && n.store.repo.observations == w.store.repo.observations[ph.attempt := ObservationsFor(w.store.repo, ph.attempt) + [ph.observation]]
      && Outcome(w.store.repo, ctx, w.store.repo.attempts[ph.attempt], ph.observation,
                 |ObservationsFor(w.store.repo, ph.attempt)|, now, n.store.repo.attempts[ph.attempt].state)
  {
    hide RecordObservation, Outcome;
    var proc := w.procs[p];
    assert ProcOk(w.store, w.ledger, proc);
    RecordExact(w.store.repo, ctx, proc.phase.attempt, proc.worker, proc.phase.token, proc.phase.observation, now);
  }

  lemma StaleBegin(w: World, p: nat, ctx: Context, purpose: Purpose, now: int)
    requires p in w.procs && w.procs[p].phase.HasLease? && w.procs[p].phase.attempt < |w.store.repo.attempts|
    requires w.procs[p].phase.token < w.store.repo.attempts[w.procs[p].phase.attempt].token
    ensures DoBegin(w, p, ctx, purpose, now) == w
  {
    assert Leased(w.store.repo, ctx, w.procs[p].phase.attempt, w.procs[p].worker, w.procs[p].phase.token, now).Fail?;
  }

  lemma StaleRecord(w: World, p: nat, ctx: Context, now: int)
    requires p in w.procs && w.procs[p].phase.Heard? && w.procs[p].phase.attempt < |w.store.repo.attempts|
    requires w.procs[p].phase.token < w.store.repo.attempts[w.procs[p].phase.attempt].token
    ensures DoRecord(w, p, ctx, now) == w
  {
    assert Leased(w.store.repo, ctx, w.procs[p].phase.attempt, w.procs[p].worker, w.procs[p].phase.token, now).Fail?;
  }

  /** A stale token never changes an attempt: once the lease was taken over, the
      old holder can neither begin nor record, now or in any continuation. */
  lemma StaleTokenIsPowerless(tenant: string, steps: seq<Step>, n: nat, p: nat, a: nat, token: nat, step: Step)
    requires n <= |steps| && a < |After(tenant, steps[..n]).store.repo.attempts|
    requires token < After(tenant, steps[..n]).store.repo.attempts[a].token
    requires (step.Begin? || step.Record?) && step.proc == p
    requires var w := After(tenant, steps);
      p in w.procs && (w.procs[p].phase.HasLease? || w.procs[p].phase.Heard?) && w.procs[p].phase.attempt == a && w.procs[p].phase.token == token
    ensures Apply(After(tenant, steps), step) == After(tenant, steps)
  {
    hide *;
    RunGrows(tenant, steps, n);
    TokenGrows(After(tenant, steps[..n]).store, After(tenant, steps).store, a);
    StaleStep(After(tenant, steps), p, step);
  }

  lemma TokenGrows(s: Store, t: Store, a: nat)
    requires StoreGrows(s, t) && a < |s.repo.attempts|
    ensures a < |t.repo.attempts| && s.repo.attempts[a].token <= t.repo.attempts[a].token
  {
    assert AttemptGrows(s.repo.attempts[a], t.repo.attempts[a]);
  }

  lemma StaleStep(w: World, p: nat, step: Step)
    requires (step.Begin? || step.Record?) && step.proc == p && p in w.procs
    requires (w.procs[p].phase.HasLease? || w.procs[p].phase.Heard?) && w.procs[p].phase.attempt < |w.store.repo.attempts|
    requires w.procs[p].phase.token < w.store.repo.attempts[w.procs[p].phase.attempt].token
    ensures Apply(w, step) == w
  {
    hide DoBegin, DoRecord;
    if step.Begin? {
      if w.procs[p].phase.HasLease? { StaleBegin(w, p, step.ctx, step.purpose, step.now); } else { BeginNeedsLease(w, p, step); }
    } else {
      if w.procs[p].phase.Heard? { StaleRecord(w, p, step.ctx, step.now); } else { RecordNeedsReply(w, p, step); }
    }
  }

  lemma BeginNeedsLease(w: World, p: nat, step: Step)
    requires step.Begin? && step.proc == p && p in w.procs && !w.procs[p].phase.HasLease?
    ensures DoBegin(w, p, step.ctx, step.purpose, step.now) == w
  {}

  lemma RecordNeedsReply(w: World, p: nat, step: Step)
    requires step.Record? && step.proc == p && p in w.procs && !w.procs[p].phase.Heard?
    ensures DoRecord(w, p, step.ctx, step.now) == w
  {}

  lemma CallApplies(w: World, p: nat, ctx: Context, purpose: Purpose, now: int, mode: Mode, absence: bool)
    ensures Apply(w, Begin(p, ctx, purpose, now)) == DoBegin(w, p, ctx, purpose, now)
    ensures Apply(w, CallProvider(p, mode, absence)) == DoCall(w, p, mode, absence)
    ensures Apply(w, Record(p, ctx, now)) == DoRecord(w, p, ctx, now)
  {
    hide DoBegin, DoCall, DoRecord;
  }

  // -------------------------------------------------------------------- gate

  /** At step `j` of the run, process `p` passed the gate for the operation `key` with the attempt still PREPARED. */
  ghost predicate PassedGate(tenant: string, steps: seq<Step>, j: nat, p: nat, key: OpKey) {
    && j < |steps| && steps[j].Begin? && steps[j].proc == p && steps[j].purpose == ForDispatch
    && var w := After(tenant, steps[..j]);
       && p in w.procs && w.procs[p].phase.HasLease? && w.procs[p].phase.attempt < |w.store.repo.attempts|
       && var v := w.store.repo.attempts[w.procs[p].phase.attempt];
          && v.key == key && v.state == Prepared && v.command == key.command
          && LeaseHeld(v, w.procs[p].worker, w.procs[p].phase.token, steps[j].now)
          && Authorised(w.store.repo.plane, steps[j].ctx, v.command, v.connection, steps[j].now)
          && v.intent == w.store.repo.plane.intents[v.command].digest
          && ManifestCheck(w.store.repo.plane, v.provider, v.connection, v.adapterVersion).Pass?
  }

  /** Only its own successful begin puts a process into a provider call. */
  lemma CallStarts(w: World, step: Step, p: nat)
    requires p in Apply(w, step).procs && Apply(w, step).procs[p].phase.Calling?
    ensures (p in w.procs && w.procs[p] == Apply(w, step).procs[p])
            || (step.Begin? && step.proc == p && p in w.procs && w.procs[p].phase.HasLease?
                && BeginTx(w.store.repo, step.ctx, w.procs[p].phase.attempt, w.procs[p].worker, w.procs[p].phase.token, step.purpose, step.now).Commit?
                && Apply(w, step).procs[p].phase == Calling(w.procs[p].phase.attempt, w.procs[p].phase.token, step.purpose))
  {
    hide BeginTx;
  }

  lemma {:induction false} CallPassedGate(tenant: string, steps: seq<Step>, p: nat) returns (j: nat)
    requires var w := After(tenant, steps);
      p in w.procs && w.procs[p].phase.Calling? && w.procs[p].phase.purpose == ForDispatch && w.procs[p].phase.attempt < |w.store.repo.attempts|
    ensures var w := After(tenant, steps);
      PassedGate(tenant, steps, j, p, w.store.repo.attempts[w.procs[p].phase.attempt].key)
    decreases |steps|
  {
    hide WorldInv, Apply, BeginTx, Authorised;
    var shorter := steps[..|steps| - 1];
    var w, n, step := After(tenant, shorter), After(tenant, steps), steps[|steps| - 1];
    RunKeeps(tenant, shorter);
    StepKeeps(w, step);
    CallStarts(w, step, p);
    var a := n.procs[p].phase.attempt;
    KnownAttempt(w, p);
    assert AttemptGrows(w.store.repo.attempts[a], n.store.repo.attempts[a]);
    if w.procs[p] == n.procs[p] {
      j := CallPassedGate(tenant, shorter, p);
      assert shorter[..j] == steps[..j];
    } else {
      j := |steps| - 1;
      GateAtBegin(w, p, step);
    }
  }

  lemma KnownAttempt(w: World, p: nat)
    requires WorldInv(w) && p in w.procs && !w.procs[p].phase.HoldsEvent?
    ensures w.procs[p].phase.attempt < |w.store.repo.attempts|
  {
    assert ProcOk(w.store, w.ledger, w.procs[p]);
  }

  lemma GateAtBegin(w: World, p: nat, step: Step)
    requires WorldInv(w) && p in w.procs && w.procs[p].phase.HasLease? && w.procs[p].phase.attempt < |w.store.repo.attempts|
    requires step.Begin? && step.purpose == ForDispatch
    requires BeginTx(w.store.repo, step.ctx, w.procs[p].phase.attempt, w.procs[p].worker, w.procs[p].phase.token, step.purpose, step.now).Commit?
    ensures var v := w.store.repo.attempts[w.procs[p].phase.attempt];
      && v.state == Prepared && v.key == OpKey(w.store.repo.tenant, v.command)
      && LeaseHeld(v, w.procs[p].worker, w.procs[p].phase.token, step.now)
      && Authorised(w.store.repo.plane, step.ctx, v.command, v.connection, step.now)
      && v.intent == w.store.repo.plane.intents[v.command].digest
      && ManifestCheck(w.store.repo.plane, v.provider, v.connection, v.adapterVersion).Pass?
  {
    assert AttemptBound(w.store.repo, w.procs[p].phase.attempt);
    BeginDispatchKeeps(w.store.repo, step.ctx, w.procs[p].phase.attempt, w.procs[p].worker, w.procs[p].phase.token, step.now);
  }

  /** No effect without a passed gate: whenever a run inserts an effect of this
      tenant, the inserting process passed the gate for exactly that operation earlier in the run. */
  lemma NoEffectWithoutGate(tenant: string, steps: seq<Step>, i: nat, key: OpKey) returns (j: nat)
    requires key.tenant == tenant && i < |steps|
    requires key !in After(tenant, steps[..i]).ledger && key in After(tenant, steps[..i + 1]).ledger
    ensures j < i && steps[i].CallProvider? && PassedGate(tenant, steps, j, steps[i].proc, key)
  {
    hide WorldInv, Apply, Authorised, ManifestCheck;
    var upto := steps[..i];
    assert steps[..i + 1][..i] == upto;
    RunKeeps(tenant, upto);
    TenantFixed(tenant, upto);
    LedgerStep(After(tenant, upto), steps[i], key);
    j := CallPassedGate(tenant, upto, steps[i].proc);
    assert upto[..j] == steps[..j];
  }

  // ------------------------------------------------------------ tool commands

  /** An outbox event completed by a worker stands for a command whose one attempt has reached its verdict. */
  lemma CompletedEventIsSettled(tenant: string, steps: seq<Step>, e: nat) returns (a: nat)
    requires var s := After(tenant, steps).store; e < |s.events| && s.events[e].state == Outbox.Completed
    ensures var s := After(tenant, steps).store;
      && a < |s.repo.attempts| && Execution.Terminal(s.repo.attempts[a].state)
      && s.events[e].aggregate < |s.tools|
      && s.tools[s.events[e].aggregate].state == Accepted
      && s.tools[s.events[e].aggregate].request.approval == Some(s.repo.attempts[a].command)
      && s.tools[s.events[e].aggregate].digest == Some(s.repo.attempts[a].intent)
  {
    RunKeeps(tenant, steps);
    var s := After(tenant, steps).store;
    a :| 0 <= a < |s.repo.attempts| && Some(s.repo.attempts[a].command) == EventCommand(s, e) && Execution.Terminal(s.repo.attempts[a].state);
    assert AttemptBound(s.repo, a) && ToolBound(s, s.events[e].aggregate);
  }

  // ------------------------------------------------------ bounded observation

  /** How often a run recovered attempt `a` from a holder that vanished mid-call. */
  function Recoveries(tenant: string, steps: seq<Step>, a: nat): nat {
    if steps == [] then 0
    else Recoveries(tenant, steps[..|steps| - 1], a)
         + if Recovers(After(tenant, steps[..|steps| - 1]).store.repo, After(tenant, steps).store.repo, a) then 1 else 0
  }

  predicate Recovers(r: Repo, s: Repo, a: nat) {
    a < |r.attempts| && a < |s.attempts| && r.attempts[a].state in {Dispatching, Reconciling}
    && s.attempts[a].state == Unknown && s.attempts[a].token == r.attempts[a].token + 1
  }

  /** The moves an attempt can make in one step, with the observations it gains. */
  ghost predicate Advances(r: Repo, s: Repo, a: nat)
    requires a < |r.attempts| && a < |s.attempts|
  {
    var from, to, seen, now := r.attempts[a].state, s.attempts[a].state, ObservationsFor(r, a), ObservationsFor(s, a);
    || (to == from && now == seen)
    || (from == Prepared && to == Dispatching && now == seen)
    || (from == Unknown && to == Reconciling && now == seen)
    || (Recovers(r, s, a) && now == seen)
    || (from in {Dispatching, Reconciling} && !Recovers(r, s, a)
        && exists o :: now == seen + [o]
             && (to == Unknown ==> |seen| < 4)
             && (to == Prepared ==> from == Reconciling && o.kind == Absent && o.authoritative)
             && to !in {Dispatching, Reconciling})
  }

  lemma StepAdvances(w: World, step: Step, a: nat)
    requires WorldInv(w) && a < |w.store.repo.attempts|
    ensures a < |Apply(w, step).store.repo.attempts| && Advances(w.store.repo, Apply(w, step).store.repo, a)
  {
    hide WorldInv, Authorised, SubmitTool, PrepareAttempt, PrepareForEvent, DoPrepareEvent, DoTakeAttempt, DoBegin, DoRecord, PlaneAfter, Wrote, RepoInv;
    RepoOf(w);
    match step {
      case Submit(ctx, q, now) => PrepareAdvances(w, step, a);
      case PrepareDirect(ctx, c, pv, tv, adapterVersion, provider, connection, now) => PrepareAdvances(w, step, a);
      case PrepareEvent(p, ctx, now) => PrepareAdvances(w, step, a);
      case TakeAttempt(p, ctx, worker, b, expected, seconds, now) => TakeAdvances(w, step, a);
      case Begin(p, ctx, purpose, now) => BeginAdvances(w, step, a);
      case Record(p, ctx, now) => RecordAdvances(w, step, a);
      case _ =>
    }
  }

  lemma PrepareAdvances(w: World, step: Step, a: nat)
    requires WorldInv(w) && a < |w.store.repo.attempts| && (step.Submit? || step.PrepareDirect? || step.PrepareEvent?)
    ensures a < |Apply(w, step).store.repo.attempts| && Advances(w.store.repo, Apply(w, step).store.repo, a)
  {
    hide WorldInv, Authorised, SubmitTool, PrepareAttempt, PrepareForEvent, Wrote, DoPrepareEvent, Advances, StoreInv, RepoInv;
    RepoOf(w);
    StoreOf(w);
    match step {
      case Submit(ctx, q, now) => SubmitAdvances(w.store, ctx, q, now, a); StandsStill(w.store.repo, a);
      case PrepareDirect(ctx, c, pv, tv, adapterVersion, provider, connection, now) => PrepareDirectAdvances(w.store.repo, step, a); StandsStill(w.store.repo, a);
      case PrepareEvent(p, ctx, now) => PrepareEventAdvances(w, p, ctx, now, a);
    }
  }

  lemma StandsStill(r: Repo, a: nat)
    requires a < |r.attempts|
    ensures Advances(r, r, a)
  {}

  lemma SubmitAdvances(s: Store, ctx: Context, q: ToolGateway.Request, now: int, a: nat)
    requires StoreInv(s) && a < |s.repo.attempts|
    ensures var tx := SubmitTool(s, ctx, q, now); tx.Commit? ==> a < |tx.state.repo.attempts| && Advances(s.repo, tx.state.repo, a)
  {
    SubmitKeeps(s, ctx, q, now);
    hide StoreInv, SubmitTool, RepoGrows;
  }

  lemma PrepareDirectAdvances(r: Repo, step: Step, a: nat)
    requires RepoInv(r) && a < |r.attempts| && step.PrepareDirect?
    ensures var tx := PrepareAttempt(r, step.ctx, step.command, step.policyVersion, step.targetVersion, step.adapterVersion, step.provider, step.connection, step.now);
      tx.Commit? ==> a < |tx.state.attempts| && Advances(r, tx.state, a)
  {
    PrepareAttemptKeeps(r, step.ctx, step.command, step.policyVersion, step.targetVersion, step.adapterVersion, step.provider, step.connection, step.now);
    hide RepoInv, PrepareAttempt, RepoGrows, SameToolKeys;
  }

  lemma PrepareEventAdvances(w: World, p: nat, ctx: Context, now: int, a: nat)
    requires StoreInv(w.store) && a < |w.store.repo.attempts|
    ensures var n := DoPrepareEvent(w, p, ctx, now); a < |n.store.repo.attempts| && Advances(w.store.repo, n.store.repo, a)
  {
    hide PrepareForEvent, Wrote, StoreInv, RepoInv;
    if p in w.procs && w.procs[p].job.Some? { PrepareForEventKeeps(w.store, ctx, w.procs[p].job.value.event, now); }
  }

  lemma RepoOf(w: World)
    requires WorldInv(w)
    ensures RepoInv(w.store.repo)
  {}

  lemma StoreOf(w: World)
    requires WorldInv(w)
    ensures StoreInv(w.store)
  {}

  lemma TakeAdvances(w: World, step: Step, a: nat)
    requires RepoInv(w.store.repo) && step.TakeAttempt?
    ensures |Apply(w, step).store.repo.attempts| == |w.store.repo.attempts|
    ensures a < |w.store.repo.attempts| ==> Advances(w.store.repo, Apply(w, step).store.repo, a)
  {
    hide RepoInv, RepoGrows, ClaimAttempt;
    var r := w.store.repo;
    if step.proc !in w.procs {
      ClaimKeeps(r, step.ctx, step.attempt, step.worker, step.expected, step.seconds, step.now);
    } else if w.procs[step.proc].phase.HasAttempt? {
      var ph := w.procs[step.proc].phase;
      ClaimKeeps(r, step.ctx, ph.attempt, w.procs[step.proc].worker, ph.version, step.seconds, step.now);
    }
  }

  lemma BeginAdvances(w: World, step: Step, a: nat)
    requires RepoInv(w.store.repo) && step.Begin?
    ensures |Apply(w, step).store.repo.attempts| == |w.store.repo.attempts|
    ensures a < |w.store.repo.attempts| ==> Advances(w.store.repo, Apply(w, step).store.repo, a)
  {
    hide RepoInv, RepoGrows, Authorised, BeginDispatch, BeginReconciliation;
    if step.proc in w.procs && w.procs[step.proc].phase.HasLease? {
      var proc := w.procs[step.proc];
      BeginDispatchKeeps(w.store.repo, step.ctx, proc.phase.attempt, proc.worker, proc.phase.token, step.now);
      BeginReconciliationKeeps(w.store.repo, step.ctx, proc.phase.attempt, proc.worker, proc.phase.token, step.now);
    }
  }

  lemma RecordAdvances(w: World, step: Step, a: nat)
    requires RepoInv(w.store.repo) && step.Record?
    ensures |Apply(w, step).store.repo.attempts| == |w.store.repo.attempts|
    ensures a < |w.store.repo.attempts| ==> Advances(w.store.repo, Apply(w, step).store.repo, a)
  {
    hide RepoInv, RepoGrows, Authorised, RecordObservation;
    if step.proc in w.procs && w.procs[step.proc].phase.Heard? {
      var proc := w.procs[step.proc];
      RecordExact(w.store.repo, step.ctx, proc.phase.attempt, proc.worker, proc.phase.token, proc.phase.observation, step.now);
    }
  }

  predicate NoAuthoritativeAbsence(seen: seq<Observation>) {
    forall i | 0 <= i < |seen| :: !(seen[i].kind == Absent && seen[i].authoritative)
  }

  /** The number of observations allowed in each state, after `recovered` recoveries. */
  ghost predicate Bounded(r: Repo, a: nat, recovered: nat)
    requires a < |r.attempts|
  {
    var n, state := |ObservationsFor(r, a)|, r.attempts[a].state;
    && n <= 6 + recovered
    && (state in {Prepared, Dispatching} ==> n <= 5 + recovered)
    && (state in {Unknown, Reconciling} ==> n <= 4 + recovered)
    && (NoAuthoritativeAbsence(ObservationsFor(r, a)) ==> n <= if Execution.Terminal(state) then 5 else 4)
    && (NoAuthoritativeAbsence(ObservationsFor(r, a)) && state == Prepared ==> n == 0)
  }

  lemma AdvanceBounded(r: Repo, s: Repo, a: nat, recovered: nat)
    requires a < |r.attempts| && a < |s.attempts| && Advances(r, s, a) && Bounded(r, a, recovered)
    ensures Bounded(s, a, recovered + if Recovers(r, s, a) then 1 else 0)
  {
    var seen, now := ObservationsFor(r, a), ObservationsFor(s, a);
    if now != seen {
      var o :| now == seen + [o] && (s.attempts[a].state == Unknown ==> |seen| < 4)
        && (s.attempts[a].state == Prepared ==> r.attempts[a].state == Reconciling && o.kind == Absent && o.authoritative)
        && s.attempts[a].state !in {Dispatching, Reconciling};
      assert now[|seen|] == o;
      if NoAuthoritativeAbsence(now) {
        forall i | 0 <= i < |seen| ensures !(seen[i].kind == Absent && seen[i].authoritative) { assert now[i] == seen[i]; }
      }
    }
  }

  /** An attempt enters prepared and unobserved. */
  lemma NewAttemptIsBare(w: World, step: Step, a: nat)
    requires WorldInv(w) && |w.store.repo.attempts| <= a < |Apply(w, step).store.repo.attempts|
    ensures Apply(w, step).store.repo.attempts[a].state == Prepared && ObservationsFor(Apply(w, step).store.repo, a) == []
  {
    hide WorldInv, Authorised, SubmitTool, PrepareAttempt, PrepareForEvent, DoTakeAttempt, DoBegin, DoRecord, PlaneAfter, RepoInv, StoreInv;
    var r := w.store.repo;
    RepoOf(w);
    match step {
      case Submit(ctx, q, now) => StoreOf(w); SubmitKeeps(w.store, ctx, q, now);
      case PrepareDirect(ctx, c, pv, tv, adapterVersion, provider, connection, now) =>
        PrepareAttemptKeeps(r, ctx, c, pv, tv, adapterVersion, provider, connection, now);
      case PrepareEvent(p, ctx, now) => StoreOf(w); PrepareForEventKeeps(w.store, ctx, w.procs[p].job.value.event, now);
      case TakeAttempt(p, ctx, worker, b, expected, seconds, now) => TakeAdvances(w, step, 0);
      case Begin(p, ctx, purpose, now) => BeginAdvances(w, step, 0);
      case Record(p, ctx, now) => RecordAdvances(w, step, 0);
      case _ =>
    }
  }

  /** Whatever crashes occur, an attempt records at most five observations when no
      lookup reported authoritative absence, and at most six plus the number of
      recovered calls otherwise. */
  lemma {:induction false} ObservationsBounded(tenant: string, steps: seq<Step>, a: nat)
    requires a < |After(tenant, steps).store.repo.attempts|
    ensures Bounded(After(tenant, steps).store.repo, a, Recoveries(tenant, steps, a))
  {
    hide WorldInv, Apply;
    var shorter := steps[..|steps| - 1];
    var r, s := After(tenant, shorter).store.repo, After(tenant, steps).store.repo;
    RunKeeps(tenant, shorter);
    if a < |r.attempts| {
      ObservationsBounded(tenant, shorter, a);
      StepAdvances(After(tenant, shorter), steps[|steps| - 1], a);
      AdvanceBounded(r, s, a, Recoveries(tenant, shorter, a));
    } else {
      NewAttemptIsBare(After(tenant, shorter), steps[|steps| - 1], a);
    }
  }
}

/** execution.py as the object it is: attempts mutated step by step and written
    back, the service beside it, and the provider's own ledger outside both. */
module DemoExecution {
  import opened Common
  import opened Domain
  import opened ControlPlane
  import opened SyntheticProvider
  import Spec = Execution
  import opened Execution
  import opened StoreService

  /** What a caller of the three lease operations may rely on. */
  lemma BeginShape(r: Repo, ctx: Context, a: nat, worker: string, token: nat, now: int)
    ensures match BeginDispatch(r, ctx, a, worker, token, now)
            case Commit(s, v) => a < |r.attempts| && |s.attempts| == |r.attempts| && s.attempts[a] == v && SameOperation(r.attempts[a], v)
            case Abort(_) => true
    ensures match BeginReconciliation(r, ctx, a, worker, token, now)
            case Commit(s, v) => a < |r.attempts| && |s.attempts| == |r.attempts| && s.attempts[a] == v && SameOperation(r.attempts[a], v)
            case Abort(_) => true
  {
    hide Gate, Require, AppendOutbox;
  }

  lemma RecordShape(r: Repo, ctx: Context, a: nat, worker: string, token: nat, o: Observation, now: int)
    ensures match RecordObservation(r, ctx, a, worker, token, o, now)
            case Commit(s, v) => a < |r.attempts| && |s.attempts| == |r.attempts| && s.attempts[a] == v && SameOperation(r.attempts[a], v)
                                 && (v.state == VerifiedSuccess <==> o.kind == FoundSuccess)
                                 && (v.state == VerifiedFailure <==> o.kind == FoundFailure)
            case Abort(_) => true
  {
    hide Gate, Require, AppendOutbox, Backoff, ObservationsFor;
  }

  /** `get_attempt` and `_provider`, asked before anything is begun: the adapter is of
      the attempt's version and its ledger apart from the service's own database. */
  function Admitted(r: Repo, ctx: Context, a: nat, version: string, apart: bool): Check {
    var admin := Require(r.plane, ctx, TenantAdmin);
    if admin.Fail? then admin
    else if !(a < |r.attempts|) then Fail(NotFound)
    else Need(version == r.attempts[a].adapterVersion && apart, Conflict)
  }

  function Opened(check: Check, begun: Tx<Repo, Attempt>): Tx<Repo, Attempt> {
    if check.Fail? then Abort(check.failure) else begun
  }

  /** A whole provider call without interference: a first commit `begun`, the call
      itself, and a second commit recording what was heard. A refused key leaves
      the attempt as it was begun. */
  ghost predicate CallRan(begun: Tx<Repo, Attempt>, call: (Ledger, Reply), ctx: Context, a: nat, worker: string, token: nat, later: int,
                          before: Repo, after: Repo, ledger: Ledger, ledgerAfter: Ledger, r: Result<Attempt>) {
    match begun
    case Abort(f) => after == before && r == Err(f) && ledgerAfter == ledger
    case Commit(s, _) =>
      ledgerAfter == call.0
      && if call.1.BindingConflict? then after == s && r == Err(Conflict)
         else Ran(Spec.RecordObservation(s, ctx, a, worker, token, HeardFrom(call.1), later), s, after, r)
  }

  function ExecuteFor(begun: Tx<Repo, Attempt>, ledger: Ledger, mode: Mode): (Ledger, Reply) {
    if begun.Commit? then Execute(ledger, mode, begun.value.key, begun.value.intent) else (ledger, Timeout)
  }

  function LookupFor(begun: Tx<Repo, Attempt>, ledger: Ledger, mode: Mode, absence: bool): (Ledger, Reply) {
    if begun.Commit? then Lookup(ledger, mode, absence, begun.value.key, begun.value.intent) else (ledger, Timeout)
  }

  class DemoExecutionControlPlane {
    const tenant: string
    const service: StoreControlPlane
    /** The file of the service's database, resolved; the in-memory form has none. */
    const path: Option<string>
    var attempts: seq<Attempt>
    var observations: map<nat, seq<Observation>>

    function View(): Repo
      reads this, service
    {
      Repo(tenant, service.View(), attempts, observations)
    }

    constructor (tenant: string, service: StoreControlPlane, path: Option<string>)
      ensures this.tenant == tenant && this.service == service && this.path == path
      ensures View() == Repo(tenant, service.View(), [], map[])
    {
      this.tenant, this.service, this.path := tenant, service, path;
      attempts, observations := [], map[];
    }

    /** `update_attempt` with its version check, then the event; a clash aborts. */
    method Save(a: nat, value: Attempt, topic: string, snapshot: Plane) returns (r: Result<Attempt>)
      requires a < |attempts|
      modifies this`attempts, service
      ensures match Store(old(View()), old(service.View()), a, value, topic)
              case Commit(s, v) => View() == s && r == Ok(v)
              case Abort(f) => View() == old(View()).(plane := snapshot) && r == Err(f)
    {
      if value.version != attempts[a].version + 1 { service.Restore(snapshot); return Err(Conflict); }
      var emitted := service.AppendOutbox(EventKey(topic, a, value.version));
      if emitted.Err? { service.Restore(snapshot); return Err(Conflict); }
      attempts := attempts[a := value];
      r := Ok(value);
    }

    method PrepareAttempt(ctx: Context, c: nat, policyVersion: int, targetVersion: int, adapterVersion: string,
                          provider: string, connection: string, now: int) returns (r: Result<(nat, bool)>)
      modifies this`attempts, service
      ensures Ran(Spec.PrepareAttempt(old(View()), ctx, c, policyVersion, targetVersion, adapterVersion, provider, connection, now),
                  old(View()), View(), r)
    {
      var snapshot := service.View();
      var admin := Require(service.View(), ctx, TenantAdmin);
      if admin.Fail? { return Err(admin.failure); }
      var manifest := ManifestCheck(service.View(), provider, connection, adapterVersion);
      if manifest.Fail? { return Err(manifest.failure); }
      var gated := service.Gate(ctx, c, connection, now);
      if gated.Err? { return Err(gated.failure); }
      var again := service.PrepareExecution(ctx, c, policyVersion, targetVersion, now);
      if again.Err? { service.Restore(snapshot); return Err(again.failure); }
      var key := OpKey(tenant, c);
      var prior := AttemptForKey(attempts, key);
      if prior.Some? {
        var a := attempts[prior.value];
        if a.adapterVersion != adapterVersion || a.provider != provider || a.connection != connection {
          service.Restore(snapshot);
          return Err(Conflict);
        }
        return Ok((prior.value, true));
      }
      var id := |attempts|;
      var emitted := service.AppendOutbox(EventKey("attempt.prepared", id, 1));
      if emitted.Err? { service.Restore(snapshot); return Err(Conflict); }
      attempts := attempts + [Attempt(c, key, gated.value.digest, adapterVersion, provider, connection,
                                      Prepared, 1, None, None, 0, None, None, None)];
      r := Ok((id, false));
    }

    method ClaimAttempt(ctx: Context, a: nat, worker: string, expected: int, seconds: int, now: int) returns (r: Result<Attempt>)
      modifies this`attempts, service
      ensures Ran(Spec.ClaimAttempt(old(View()), ctx, a, worker, expected, seconds, now), old(View()), View(), r)
    {
      var admin := Require(service.View(), ctx, TenantAdmin);
      if admin.Fail? { return Err(admin.failure); }
      if seconds < 1 || seconds > 300 { return Err(Conflict); }
      if a >= |attempts| { return Err(NotFound); }
      var value := attempts[a];
      if value.version != expected { return Err(Conflict); }
      if Terminal(value.state) { return Err(Conflict); }
      if value.leaseUntil.Some? && value.leaseUntil.value > now { return Err(Conflict); }
      if value.nextCheckAt.Some? && value.nextCheckAt.value > now { return Err(Conflict); }
      var recovered := value.state == Dispatching || value.state == Reconciling;
      if recovered { value := value.(state := Unknown); }
      value := value.(version := value.version + 1, token := value.token + 1);
      value := value.(leaseOwner := Some(worker), leaseUntil := Some(now + seconds));
      if recovered {
        r := Save(a, value, "attempt.recovered_unknown", service.View());
      } else {
        attempts := attempts[a := value];
        r := Ok(value);
      }
    }

    method BeginDispatch(ctx: Context, a: nat, worker: string, token: nat, now: int) returns (r: Result<Attempt>)
      modifies this`attempts, service
      ensures Ran(Spec.BeginDispatch(old(View()), ctx, a, worker, token, now), old(View()), View(), r)
    {
      hide Gate, Require, ManifestCheck;
      var snapshot := service.View();
      var lease := Leased(View(), ctx, a, worker, token, now);
      if lease.Fail? { return Err(lease.failure); }
      var value := attempts[a];
      if value.state != Prepared { return Err(Conflict); }
      var gated := service.Gate(ctx, value.command, value.connection, now);
      if gated.Err? { return Err(gated.failure); }
      if gated.value.digest != value.intent { service.Restore(snapshot); return Err(Conflict); }
      var manifest := ManifestCheck(service.View(), value.provider, value.connection, value.adapterVersion);
      if manifest.Fail? { service.Restore(snapshot); return Err(manifest.failure); }
      value := value.(version := value.version + 1, state := Dispatching);
      r := Save(a, value, "attempt.dispatching", snapshot);
    }

    method BeginReconciliation(ctx: Context, a: nat, worker: string, token: nat, now: int) returns (r: Result<Attempt>)
      modifies this`attempts, service
      ensures Ran(Spec.BeginReconciliation(old(View()), ctx, a, worker, token, now), old(View()), View(), r)
    {
      var lease := Leased(View(), ctx, a, worker, token, now);
      if lease.Fail? { return Err(lease.failure); }
      var value := attempts[a];
      if value.state != Unknown { return Err(Conflict); }
      value := value.(version := value.version + 1, state := Reconciling);
      r := Save(a, value, "attempt.reconciling", service.View());
    }

    /** The state an observation leads to; authoritative absence asks the gate again. */
    method ResolveState(ctx: Context, v: Attempt, o: Observation, prior: nat, now: int) returns (r: Result<AttemptState>)
      modifies service
      ensures var tx := Spec.Resolve(old(View()), ctx, v, o, prior, now);
              Ran(tx, old(service.View()), service.View(), r)
    {
      var state := if o.kind == FoundSuccess then VerifiedSuccess else if o.kind == FoundFailure then VerifiedFailure else Unknown;
      if o.kind == Absent {
        state := ManualReview;
        if o.authoritative {
          var gated := service.Gate(ctx, v.command, v.connection, now);
          if gated.Ok? { state := Prepared; }
          else if gated.failure == NotFound { return Err(NotFound); }
        }
      }
      if state == Unknown && prior >= 4 { state := ManualReview; }
      r := Ok(state);
    }

    method RecordObservation(ctx: Context, a: nat, worker: string, token: nat, o: Observation, now: int) returns (r: Result<Attempt>)
      modifies this, service
      ensures Ran(Spec.RecordObservation(old(View()), ctx, a, worker, token, o, now), old(View()), View(), r)
    {
      hide Spec.Resolve, Require, Backoff, ObservationsFor, Gate;
      var snapshot := service.View();
      var lease := Leased(View(), ctx, a, worker, token, now);
      if lease.Fail? { return Err(lease.failure); }
      var value := attempts[a];
      if value.state != Dispatching && value.state != Reconciling { return Err(Conflict); }
      if o.kind == Absent && value.state != Reconciling { return Err(Conflict); }
      var seen := ObservationsFor(View(), a);
      var resolved := ResolveState(ctx, value, o, |seen|, now);
      if resolved.Err? { return Err(resolved.failure); }
      var state := resolved.value;
      value := value.(version := value.version + 1, state := state, lastObservedAt := Some(now));
      if o.reference.Some? { value := value.(reference := o.reference); }
      value := value.(nextCheckAt := if state == Unknown then Some(now + Backoff(|seen|)) else None);
      value := value.(leaseOwner := None, leaseUntil := None);
      r := Save(a, value, "attempt.observed", snapshot);
      if r.Ok? { observations := observations[a := seen + [o]]; }
    }

    method AdapterFor(ctx: Context, a: nat, adapter: DurableSyntheticProvider) returns (check: Check)
      ensures check == Admitted(View(), ctx, a, adapter.version, path != Some(adapter.path))
    {
      check := Require(service.View(), ctx, TenantAdmin);
      if check.Fail? { return; }
      if a >= |attempts| { return Fail(NotFound); }
      if adapter.version != attempts[a].adapterVersion || path == Some(adapter.path) { return Fail(Conflict); }
    }

    /** begin, call the provider, record: without interference the three commits
        compose, and a positive verdict rests on a row of the provider's ledger. */
    method DispatchDemo(ctx: Context, a: nat, worker: string, token: nat, adapter: DurableSyntheticProvider,
                        now: int, later: int)
      returns (r: Result<Attempt>)
      requires Definite(adapter.ledger)
      modifies this, service, adapter`ledger
      ensures Definite(adapter.ledger) && Keeps(old(adapter.ledger), adapter.ledger)
      ensures adapter.ledger.Keys <= old(adapter.ledger).Keys + (if a < |old(attempts)| then {old(attempts)[a].key} else {})
      ensures var begun := Opened(Admitted(old(View()), ctx, a, adapter.version, path != Some(adapter.path)),
                                  Spec.BeginDispatch(old(View()), ctx, a, worker, token, now));
              CallRan(begun, ExecuteFor(begun, old(adapter.ledger), adapter.mode), ctx, a, worker, token, later,
                      old(View()), View(), old(adapter.ledger), adapter.ledger, r)
      ensures r.Ok? ==> a < |attempts| && attempts[a] == r.value
      ensures r.Ok? && r.value.state == VerifiedSuccess ==>
                r.value.key in adapter.ledger && adapter.ledger[r.value.key] == Row(r.value.intent, FoundSuccess, adapter.ledger[r.value.key].hidden)
      ensures r.Ok? && r.value.state == VerifiedFailure ==>
                r.value.key in adapter.ledger && adapter.ledger[r.value.key] == Row(r.value.intent, FoundFailure, adapter.ledger[r.value.key].hidden)
    {
      hide Spec.BeginDispatch, Spec.RecordObservation, Execute;
      var admitted := AdapterFor(ctx, a, adapter);
      if admitted.Fail? { return Err(admitted.failure); }
      BeginShape(View(), ctx, a, worker, token, now);
      var begun := BeginDispatch(ctx, a, worker, token, now);
      if begun.Err? { return begun; }
      var value := begun.value;
      ExecuteOnce(adapter.ledger, adapter.mode, value.key, value.intent);
      var reply := adapter.ExecuteCall(value.key, value.intent);
      if reply.BindingConflict? { return Err(Conflict); }
      var o := HeardFrom(reply);
      RecordShape(View(), ctx, a, worker, token, o, later);
      r := RecordObservation(ctx, a, worker, token, o, later);
    }

    method ReconcileAttempt(ctx: Context, a: nat, worker: string, token: nat, adapter: DurableSyntheticProvider,
                        now: int, later: int)
      returns (r: Result<Attempt>)
      requires Definite(adapter.ledger)
      modifies this, service, adapter`ledger
      ensures Definite(adapter.ledger) && Keeps(old(adapter.ledger), adapter.ledger) && adapter.ledger.Keys == old(adapter.ledger).Keys
      ensures var begun := Opened(Admitted(old(View()), ctx, a, adapter.version, path != Some(adapter.path)),
                                  Spec.BeginReconciliation(old(View()), ctx, a, worker, token, now));
              CallRan(begun, LookupFor(begun, old(adapter.ledger), adapter.mode, adapter.authoritativeAbsence), ctx, a, worker, token, later,
                      old(View()), View(), old(adapter.ledger), adapter.ledger, r)
      ensures r.Ok? ==> a < |attempts| && attempts[a] == r.value
      ensures r.Ok? && r.value.state in {VerifiedSuccess, VerifiedFailure} ==>
                r.value.key in adapter.ledger && adapter.ledger[r.value.key].intent == r.value.intent
                && adapter.ledger[r.value.key].kind == (if r.value.state == VerifiedSuccess then FoundSuccess else FoundFailure)
    {
      hide Spec.BeginReconciliation, Spec.RecordObservation, Lookup;
      var admitted := AdapterFor(ctx, a, adapter);
      if admitted.Fail? { return Err(admitted.failure); }
      BeginShape(View(), ctx, a, worker, token, now);
      var begun := BeginReconciliation(ctx, a, worker, token, now);
      if begun.Err? { return begun; }
      var value := begun.value;
      LookupReadsOnly(adapter.ledger, adapter.mode, adapter.authoritativeAbsence, value.key, value.intent);
      var reply := adapter.LookupCall(value.key, value.intent);
      if reply.BindingConflict? { return Err(Conflict); }
      var o := HeardFrom(reply);
      RecordShape(View(), ctx, a, worker, token, o, later);
      r := RecordObservation(ctx, a, worker, token, o, later);
    }
  }
}

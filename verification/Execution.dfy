/** execution.py: the lease-and-fencing state machine of an execution attempt. */
module Execution {
  import opened Common
  import opened Domain
  import opened ControlPlane
  import opened SyntheticProvider

  datatype AttemptState = Prepared | Dispatching | Unknown | Reconciling | VerifiedSuccess | VerifiedFailure | ManualReview

  predicate Terminal(s: AttemptState) { s in {VerifiedSuccess, VerifiedFailure, ManualReview} }

  datatype Attempt = Attempt(
    command: nat, key: OpKey, intent: Material, adapterVersion: string, provider: string, connection: string,
    state: AttemptState, version: int, leaseOwner: Option<string>, leaseUntil: Option<int>, token: nat,
    reference: Option<OpKey>, lastObservedAt: Option<int>, nextCheckAt: Option<int>)

  /** What never changes about an attempt once it is inserted. */
  predicate SameOperation(a: Attempt, b: Attempt) {
    a.command == b.command && a.key == b.key && a.intent == b.intent
    && a.adapterVersion == b.adapterVersion && a.provider == b.provider && a.connection == b.connection
  }

  /** The service's own database: approvals, attempts and the observations recorded on them. */
  datatype Repo = Repo(tenant: string, plane: Plane, attempts: seq<Attempt>, observations: map<nat, seq<Observation>>)

  function ObservationsFor(r: Repo, a: nat): seq<Observation> {
    if a in r.observations then r.observations[a] else []
  }

  function AttemptForKey(rows: seq<Attempt>, key: OpKey): (found: Option<nat>)
    ensures found.Some? ==> found.value < |rows| && rows[found.value].key == key
    ensures found.Some? ==> forall i | 0 <= i < found.value :: rows[i].key != key
    ensures found.None? ==> forall i | 0 <= i < |rows| :: rows[i].key != key
  {
    FirstWithKey(rows, key, 0)
  }

  function FirstWithKey(rows: seq<Attempt>, key: OpKey, from: nat): (found: Option<nat>)
    requires from <= |rows|
    ensures found.Some? ==> from <= found.value < |rows| && rows[found.value].key == key
    ensures found.Some? ==> forall i | from <= i < found.value :: rows[i].key != key
    ensures found.None? ==> forall i | from <= i < |rows| :: rows[i].key != key
    decreases |rows| - from
  {
    if from == |rows| then None else if rows[from].key == key then Some(from) else FirstWithKey(rows, key, from + 1)
  }

  function EventKey(topic: string, a: nat, version: int): OutKey { AttemptEvent(topic, a, version) }

  function ManifestCheck(p: Plane, provider: string, connection: string, adapterVersion: string): Check {
    if (provider, connection) !in p.manifests then Fail(NotFound)
    else
      var m := p.manifests[(provider, connection)];
      Need(m.adapterVersion == adapterVersion && {DemoExecute, DemoLookup} <= m.capabilities, Conflict)
  }

  /** The value is the attempt's row number and whether the call was a replay. */
  function PrepareAttempt(r: Repo, ctx: Context, c: nat, policyVersion: int, targetVersion: int, adapterVersion: string,
                          provider: string, connection: string, now: int): Tx<Repo, (nat, bool)> {
    var admin := Require(r.plane, ctx, TenantAdmin);
    :- admin;
    :- ManifestCheck(r.plane, provider, connection, adapterVersion);
    var (gated, prepared) :- Gate(r.plane, ctx, c, connection, now);
    var (plane, _) :- PrepareExecution(gated, ctx, c, policyVersion, targetVersion, now);
    var key := OpKey(r.tenant, c);
    var prior := AttemptForKey(r.attempts, key);
    if prior.Some? then
      var a := r.attempts[prior.value];
      :- Need(a.adapterVersion == adapterVersion && a.provider == provider && a.connection == connection, Conflict);
      Commit(r.(plane := plane), (prior.value, true))
    else
      var id := |r.attempts|;
      var value := Attempt(c, key, prepared.digest, adapterVersion, provider, connection,
                           Prepared, 1, None, None, 0, None, None, None);
      :- Need(EventKey("attempt.prepared", id, 1) !in plane.outbox, Conflict);
      Commit(InsertAttempt(r, plane, value), (id, false))
  }

  function InsertAttempt(r: Repo, plane: Plane, value: Attempt): Repo {
    r.(plane := plane.(outbox := plane.outbox + {EventKey("attempt.prepared", |r.attempts|, value.version)}),
       attempts := r.attempts + [value])
  }

  /** `update_attempt` and `_event`: the version moves by one and its event key must be new. */
  function Store(r: Repo, plane: Plane, a: nat, value: Attempt, topic: string): Tx<Repo, Attempt>
    requires a < |r.attempts|
  {
    var next := r.attempts[a].version + 1;
    :- Need(value.version == next, Conflict);
    var (emitted, _) :- AppendOutbox(plane, EventKey(topic, a, value.version));
    Commit(r.(plane := emitted, attempts := r.attempts[a := value]), value)
  }

  function ClaimAttempt(r: Repo, ctx: Context, a: nat, worker: string, expected: int, seconds: int, now: int): Tx<Repo, Attempt> {
    var admin := Require(r.plane, ctx, TenantAdmin);
    :- admin;
    :- Need(1 <= seconds <= 300, Conflict);
    :- Need(a < |r.attempts|, NotFound);
    var v := r.attempts[a];
    :- Need(v.version == expected, Conflict);
    :- Need(!Terminal(v.state), Conflict);
    :- Need(!(v.leaseUntil.Some? && v.leaseUntil.value > now), Conflict);
    :- Need(!(v.nextCheckAt.Some? && v.nextCheckAt.value > now), Conflict);
    var recovered := v.state in {Dispatching, Reconciling};
    var leased := v.(state := if recovered then Unknown else v.state, version := v.version + 1, token := v.token + 1,
                     leaseOwner := Some(worker), leaseUntil := Some(now + seconds));
    if recovered then Store(r, r.plane, a, leased, "attempt.recovered_unknown")
    else Commit(r.(attempts := r.attempts[a := leased]), leased)
  }

  function Leased(r: Repo, ctx: Context, a: nat, worker: string, token: nat, now: int): Check {
    var admin := Require(r.plane, ctx, TenantAdmin);
    if admin.Fail? then admin
    else if !(a < |r.attempts|) then Fail(NotFound)
    else Need(LeaseHeld(r.attempts[a], worker, token, now), Conflict)
  }

  predicate LeaseHeld(v: Attempt, worker: string, token: nat, now: int) {
    v.leaseOwner == Some(worker) && v.token == token && v.leaseUntil.Some? && v.leaseUntil.value > now
  }

  function BeginDispatch(r: Repo, ctx: Context, a: nat, worker: string, token: nat, now: int): Tx<Repo, Attempt> {
    var lease := Leased(r, ctx, a, worker, token, now);
    :- lease;
    var v := r.attempts[a];
    :- Need(v.state == Prepared, Conflict);
    var (plane, prepared) :- Gate(r.plane, ctx, v.command, v.connection, now);
    :- Need(prepared.digest == v.intent, Conflict);
    :- ManifestCheck(plane, v.provider, v.connection, v.adapterVersion);
    Store(r, plane, a, v.(version := v.version + 1, state := Dispatching), "attempt.dispatching")
  }

  function BeginReconciliation(r: Repo, ctx: Context, a: nat, worker: string, token: nat, now: int): Tx<Repo, Attempt> {
    var lease := Leased(r, ctx, a, worker, token, now);
    :- lease;
    var v := r.attempts[a];
    :- Need(v.state == Unknown, Conflict);
    Store(r, r.plane, a, v.(version := v.version + 1, state := Reconciling), "attempt.reconciling")
  }

  function Backoff(prior: nat): int { Min(300, 30 * PowerOfTwo(Min(prior, 4))) }

  /** The state a recorded observation leads to, and the plane after the gate that absence repeats. */
  function Resolve(r: Repo, ctx: Context, v: Attempt, o: Observation, prior: nat, now: int): Tx<Plane, AttemptState> {
    match o.kind
    case FoundSuccess => Commit(r.plane, VerifiedSuccess)
    case FoundFailure => Commit(r.plane, VerifiedFailure)
    case Inconclusive => Commit(r.plane, if prior >= 4 then ManualReview else Unknown)
    case Absent =>
      if !o.authoritative then Commit(r.plane, ManualReview)
      else
        match Gate(r.plane, ctx, v.command, v.connection, now)
        case Commit(plane, _) => Commit(plane, Prepared)
        case Abort(NotFound) => Abort(NotFound)   // not among the failures the code absorbs
        case Abort(_) => Commit(r.plane, ManualReview)
  }

  function RecordObservation(r: Repo, ctx: Context, a: nat, worker: string, token: nat, o: Observation, now: int): Tx<Repo, Attempt> {
    var lease := Leased(r, ctx, a, worker, token, now);
    :- lease;
    var v := r.attempts[a];
    :- Need(v.state in {Dispatching, Reconciling}, Conflict);
    :- Need(o.kind == Absent ==> v.state == Reconciling, Conflict);
    var prior := |ObservationsFor(r, a)|;
    var (plane, state) :- Resolve(r, ctx, v, o, prior, now);
    var value := v.(version := v.version + 1, state := state,
                    reference := if o.reference.Some? then o.reference else v.reference,
                    lastObservedAt := Some(now),
                    nextCheckAt := if state == Unknown then Some(now + Backoff(prior)) else None,
                    leaseOwner := None, leaseUntil := None);
    var (s, stored) :- Store(r, plane, a, value, "attempt.observed");
    Commit(s.(observations := s.observations[a := ObservationsFor(r, a) + [o]]), stored)
  }
}

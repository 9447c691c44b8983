/** What each mode of the provider leads to, end to end: begin, call and record as
    steps of a run, from the row that is left to the state of the attempt. */
module DispatchOutcomes {
  import opened Common
  import opened Domain
  import opened ControlPlane
  import opened SyntheticProvider
  import opened Execution
  import opened ToolGateway
  import opened ExecutionSafety
  import opened ExactlyOnce
  import opened EffectTheorems

  /** The row a first dispatch leaves behind, if it takes effect at all. */
  function RowLeft(mode: Mode, intent: Material): Option<Row> {
    match mode
    case SuccessMode => Some(Row(intent, FoundSuccess, 0))
    case Refusal => Some(Row(intent, FoundFailure, 0))
    case TimeoutBefore => None
    case TimeoutAfter => Some(Row(intent, FoundSuccess, 0))
    case DelayedLookup => Some(Row(intent, FoundSuccess, 1))
    case LookupUnavailable => Some(Row(intent, FoundSuccess, 0))
    case StaleResponse => Some(Row(intent, FoundSuccess, 0))
  }

  /** An answer that settles nothing leaves the attempt open, until the fifth. */
  function Unsettled(prior: nat): AttemptState { if prior < 4 then Unknown else ManualReview }

  function VerdictOf(kind: Kind): AttemptState { if kind == FoundSuccess then VerifiedSuccess else VerifiedFailure }


  lemma ExecuteByMode(ledger: Ledger, mode: Mode, key: OpKey, intent: Material)
    requires key !in ledger
    ensures var (after, reply) := Execute(ledger, mode, key, intent);
      && after == (match RowLeft(mode, intent) case Some(row) => ledger[key := row] case None => ledger)
      && HeardFrom(reply) == (match mode
                              case SuccessMode => Observation(FoundSuccess, Some(key), false)
                              case Refusal => Observation(FoundFailure, Some(key), false)
                              case _ => Observation(Inconclusive, None, false))
      && !reply.BindingConflict?
  {}

  /** A process that holds the lease of a prepared attempt through a passed gate. */
  ghost predicate ReadyToDispatch(w: World, p: nat, ctx: Context, now: int) {
    && p in w.procs && w.procs[p].phase.HasLease? && w.procs[p].phase.attempt < |w.store.repo.attempts|
    && var v := w.store.repo.attempts[w.procs[p].phase.attempt];
       && v.state == Prepared && LeaseHeld(v, w.procs[p].worker, w.procs[p].phase.token, now)
       && Administrator(w.store.repo.plane, ctx) && Authorised(w.store.repo.plane, ctx, v.command, v.connection, now)
       && ManifestMatches(w.store.repo.plane, v)
  }

  ghost predicate ReadyToLookUp(w: World, p: nat, ctx: Context, now: int) {
    && p in w.procs && w.procs[p].phase.HasLease? && w.procs[p].phase.attempt < |w.store.repo.attempts|
    && var v := w.store.repo.attempts[w.procs[p].phase.attempt];
       && v.state == Unknown && LeaseHeld(v, w.procs[p].worker, w.procs[p].phase.token, now)
       && Administrator(w.store.repo.plane, ctx)
  }

  function Call(w: World, p: nat, ctx: Context, purpose: Purpose, now: int, mode: Mode, absence: bool, later: int): World {
    Apply(Apply(Apply(w, Begin(p, ctx, purpose, now)), CallProvider(p, mode, absence)), Record(p, ctx, later))
  }

  /** The process is in its call, the plane and the attempt's operation as they were. */
  ghost predicate Called(w: World, n: World, p: nat, purpose: Purpose)
    requires p in w.procs && w.procs[p].phase.HasLease? && w.procs[p].phase.attempt < |w.store.repo.attempts|
  {
    var ph := w.procs[p].phase;
    && n.ledger == w.ledger && n.store.repo.observations == w.store.repo.observations
    && n.store.tools == w.store.tools && n.store.events == w.store.events
    && n.procs == w.procs[p := w.procs[p].(phase := Calling(ph.attempt, ph.token, purpose))]
    && ph.attempt < |n.store.repo.attempts|
    && n.store.repo.attempts[ph.attempt]
       == w.store.repo.attempts[ph.attempt].(state := ExpectedState(purpose), version := w.store.repo.attempts[ph.attempt].version + 1)
    && n.store.repo.plane == w.store.repo.plane.(outbox := n.store.repo.plane.outbox)
  }

  /** The process reports the state the attempt was left in; commands and events are untouched. */
  ghost predicate Reported(w: World, n: World, p: nat)
    requires p in w.procs && w.procs[p].phase.HasLease?
    requires w.procs[p].phase.attempt < |n.store.repo.attempts| && w.procs[p].phase.attempt < |w.store.repo.attempts|
  {
    var a := w.procs[p].phase.attempt;
    && SameOperation(w.store.repo.attempts[a], n.store.repo.attempts[a])
    && n.store.tools == w.store.tools && n.store.events == w.store.events
    && (w.procs[p].job.Some? ==> n.procs == w.procs[p := w.procs[p].(phase := Settled(a, n.store.repo.attempts[a].state))])
  }

  lemma DispatchBegins(w: World, p: nat, ctx: Context, now: int)
    requires WorldInv(w) && ReadyToDispatch(w, p, ctx, now)
    ensures Called(w, Apply(w, Begin(p, ctx, ForDispatch, now)), p, ForDispatch)
  {
    var ph := w.procs[p].phase;
    var r := w.store.repo;
    RepoOf(w);
    BeginDispatchExact(r, ctx, ph.attempt, w.procs[p].worker, ph.token, now);
    DispatchPlane(r, ctx, ph.attempt, w.procs[p].worker, ph.token, now);
    CallApplies(w, p, ctx, ForDispatch, now, SuccessMode, false);
    hide Apply, BeginDispatch, RepoInv, WorldInv, Authorised, Administrator, ManifestMatches;
  }

  lemma DispatchPlane(r: Repo, ctx: Context, a: nat, worker: string, token: nat, now: int)
    requires RepoInv(r)
    ensures var tx := BeginDispatch(r, ctx, a, worker, token, now);
      tx.Commit? ==> tx.state.plane == r.plane.(outbox := tx.state.plane.outbox) && tx.state.observations == r.observations
                     && tx.state.attempts == r.attempts[a := tx.value]
  {
    var tx := BeginDispatch(r, ctx, a, worker, token, now);
    if tx.Commit? {
      assert AttemptBound(r, a);
      GateKeeps(r.plane, ctx, r.attempts[a].command, r.attempts[a].connection, now);
      BeginDispatchKeeps(r, ctx, a, worker, token, now);
    }
  }

  lemma LookupPlane(r: Repo, ctx: Context, a: nat, worker: string, token: nat, now: int)
    ensures var tx := BeginReconciliation(r, ctx, a, worker, token, now);
      tx.Commit? ==> tx.state.plane == r.plane.(outbox := tx.state.plane.outbox) && tx.state.observations == r.observations
                     && a < |r.attempts| && tx.state.attempts == r.attempts[a := tx.value]
  {}

  lemma LookupBegins(w: World, p: nat, ctx: Context, now: int)
    requires WorldInv(w) && ReadyToLookUp(w, p, ctx, now)
    ensures Called(w, Apply(w, Begin(p, ctx, ForLookup, now)), p, ForLookup)
  {
    var ph := w.procs[p].phase;
    RepoOf(w);
    BeginReconciliationExact(w.store.repo, ctx, ph.attempt, w.procs[p].worker, ph.token, now);
    LookupPlane(w.store.repo, ctx, ph.attempt, w.procs[p].worker, ph.token, now);
    CallApplies(w, p, ctx, ForLookup, now, SuccessMode, false);
    hide Apply, BeginReconciliation, RepoInv, WorldInv, Administrator;
  }

  /** The second half of a call that was begun: what is heard decides the attempt. */
  lemma HeardAndRecorded(w: World, n: World, p: nat, ctx: Context, purpose: Purpose, mode: Mode, absence: bool, later: int, o: Observation, after: Ledger)
    requires WorldInv(n) && p in w.procs && w.procs[p].phase.HasLease? && w.procs[p].phase.attempt < |w.store.repo.attempts|
    requires Called(w, n, p, purpose)
    requires var v := w.store.repo.attempts[w.procs[p].phase.attempt];
      && Administrator(w.store.repo.plane, ctx) && LeaseHeld(v, w.procs[p].worker, w.procs[p].phase.token, later)
      && (purpose == ForDispatch ==> o.kind != Absent)
      && var (ledger, reply) := if purpose == ForDispatch then Execute(w.ledger, mode, v.key, v.intent) else Lookup(w.ledger, mode, absence, v.key, v.intent);
         ledger == after && HeardFrom(reply) == o && !reply.BindingConflict?
    ensures var a := w.procs[p].phase.attempt;
      var end := Apply(Apply(n, CallProvider(p, mode, absence)), Record(p, ctx, later));
      && a < |end.store.repo.attempts| && end.ledger == after && Reported(w, end, p)
      && end.store.repo.observations == w.store.repo.observations[a := ObservationsFor(w.store.repo, a) + [o]]
      && Outcome(w.store.repo, ctx, w.store.repo.attempts[a], o, |ObservationsFor(w.store.repo, a)|, later, end.store.repo.attempts[a].state)
  {
    hide Apply, DoCall, Execute, Lookup, RecordObservation, WorldInv, Outcome, Administrator, RepoInv, Authorised;
    var ph := w.procs[p].phase;
    var heard := n.(ledger := after, procs := n.procs[p := w.procs[p].(phase := Heard(ph.attempt, ph.token, purpose, o))]);
    CallApplies(n, p, ctx, purpose, later, mode, absence);
    CallApplies(heard, p, ctx, purpose, later, mode, absence);
    assert DoCall(n, p, mode, absence) == heard by { CallHeard(w, n, p, purpose, mode, absence, o, after); }
    RepoOf(n);
    AdministratorExact(n.store.repo.plane, ctx);
    SameAdministrator(w.store.repo.plane, n.store.repo.plane, ctx, w.store.repo.attempts[ph.attempt].command,
                      w.store.repo.attempts[ph.attempt].connection, later);
    RecordedAs(w, heard, p, ctx, purpose, later, o);
  }

  lemma CallHeard(w: World, n: World, p: nat, purpose: Purpose, mode: Mode, absence: bool, o: Observation, after: Ledger)
    requires p in w.procs && w.procs[p].phase.HasLease? && w.procs[p].phase.attempt < |w.store.repo.attempts|
    requires Called(w, n, p, purpose)
    requires var v := w.store.repo.attempts[w.procs[p].phase.attempt];
      var (ledger, reply) := if purpose == ForDispatch then Execute(w.ledger, mode, v.key, v.intent) else Lookup(w.ledger, mode, absence, v.key, v.intent);
      ledger == after && HeardFrom(reply) == o && !reply.BindingConflict?
    ensures var ph := w.procs[p].phase;
      DoCall(n, p, mode, absence) == n.(ledger := after, procs := n.procs[p := w.procs[p].(phase := Heard(ph.attempt, ph.token, purpose, o))])
  {
    hide Execute, Lookup, HeardFrom;
  }

  lemma RecordMoves(w: World, p: nat, ctx: Context, now: int)
    requires p in w.procs && w.procs[p].phase.Heard?
    ensures var (proc, ph) := (w.procs[p], w.procs[p].phase);
      DoRecord(w, p, ctx, now)
      == match RecordObservation(w.store.repo, ctx, ph.attempt, proc.worker, ph.token, ph.observation, now)
         case Commit(r, v) =>
           if proc.job.Some? then World(w.store.(repo := r), w.ledger, w.procs[p := proc.(phase := Settled(ph.attempt, v.state))])
           else World(w.store.(repo := r), w.ledger, w.procs - {p})
         case Abort(_) => w
  {
    hide RecordObservation;
  }

  lemma RecordedAs(w: World, heard: World, p: nat, ctx: Context, purpose: Purpose, later: int, o: Observation)
    requires RepoInv(heard.store.repo) && p in w.procs && w.procs[p].phase.HasLease? && w.procs[p].phase.attempt < |w.store.repo.attempts|
    requires p in heard.procs && heard.procs[p] == w.procs[p].(phase := Heard(w.procs[p].phase.attempt, w.procs[p].phase.token, purpose, o))
    requires var (r, s, a) := (w.store.repo, heard.store.repo, w.procs[p].phase.attempt);
      && a < |s.attempts| && s.attempts[a] == r.attempts[a].(state := ExpectedState(purpose), version := r.attempts[a].version + 1)
      && heard.store.tools == w.store.tools && heard.store.events == w.store.events
      && heard.procs == w.procs[p := heard.procs[p]]
      && s.observations == r.observations && Require(s.plane, ctx, TenantAdmin).Pass?
      && LeaseHeld(r.attempts[a], w.procs[p].worker, w.procs[p].phase.token, later)
      && (Authorised(r.plane, ctx, r.attempts[a].command, r.attempts[a].connection, later)
          <==> Authorised(s.plane, ctx, r.attempts[a].command, r.attempts[a].connection, later))
    requires purpose == ForDispatch ==> o.kind != Absent
    ensures var a := w.procs[p].phase.attempt;
      var end := DoRecord(heard, p, ctx, later);
      && a < |end.store.repo.attempts| && end.ledger == heard.ledger && Reported(w, end, p)
      && end.store.repo.observations == w.store.repo.observations[a := ObservationsFor(w.store.repo, a) + [o]]
      && Outcome(w.store.repo, ctx, w.store.repo.attempts[a], o, |ObservationsFor(w.store.repo, a)|, later, end.store.repo.attempts[a].state)
  {
    var ph := w.procs[p].phase;
    var (r, v) := (heard.store.repo, heard.store.repo.attempts[ph.attempt]);
    RecordExact(r, ctx, ph.attempt, w.procs[p].worker, ph.token, o, later);
    SameOutcome(w.store.repo, r, ctx, w.store.repo.attempts[ph.attempt], v, o, |ObservationsFor(w.store.repo, ph.attempt)|, later);
    RecordMoves(heard, p, ctx, later);
    var tx := RecordObservation(r, ctx, ph.attempt, w.procs[p].worker, ph.token, o, later);
    assert tx.Commit? && ph.attempt < |tx.state.attempts| && tx.state.attempts[ph.attempt] == tx.value;
    assert SameOperation(w.store.repo.attempts[ph.attempt], tx.value) by { assert AttemptGrows(v, tx.value); }
    hide *;
    ReportedFrom(w, heard, DoRecord(heard, p, ctx, later), p, tx.state, tx.value);
  }

  lemma ReportedFrom(w: World, heard: World, end: World, p: nat, r: Repo, v: Attempt)
    requires p in w.procs && p in heard.procs && w.procs[p].phase.HasLease? && w.procs[p].phase.attempt < |r.attempts| && r.attempts[w.procs[p].phase.attempt] == v
    requires w.procs[p].phase.attempt < |w.store.repo.attempts| && SameOperation(w.store.repo.attempts[w.procs[p].phase.attempt], v)
    requires heard.store.tools == w.store.tools && heard.store.events == w.store.events && heard.procs == w.procs[p := heard.procs[p]]
    requires heard.procs[p].job == w.procs[p].job && heard.procs[p].worker == w.procs[p].worker
    requires end == if heard.procs[p].job.Some?
                    then World(heard.store.(repo := r), heard.ledger, heard.procs[p := heard.procs[p].(phase := Settled(w.procs[p].phase.attempt, v.state))])
                    else World(heard.store.(repo := r), heard.ledger, heard.procs - {p})
    ensures w.procs[p].phase.attempt < |end.store.repo.attempts| && Reported(w, end, p) && end.store.repo == r && end.ledger == heard.ledger
  {}

  lemma SameAdministrator(p: Plane, q: Plane, ctx: Context, c: nat, connection: string, now: int)
    requires q == p.(outbox := q.outbox)
    ensures Administrator(p, ctx) <==> Administrator(q, ctx)
    ensures Authorised(p, ctx, c, connection, now) <==> Authorised(q, ctx, c, connection, now)
  {}

  lemma SameOutcome(r: Repo, s: Repo, ctx: Context, v: Attempt, w: Attempt, o: Observation, prior: nat, now: int)
    requires v.command == w.command && v.connection == w.connection
    requires Authorised(r.plane, ctx, v.command, v.connection, now) <==> Authorised(s.plane, ctx, v.command, v.connection, now)
    ensures forall t :: Outcome(s, ctx, w, o, prior, now, t) ==> Outcome(r, ctx, v, o, prior, now, t)
  {
    hide Authorised;
  }

  /** A first dispatch, in every mode: the row it leaves and the state its own answer
      leads to. A refusal is a verified failure and never a success; every mode but two
      leaves the caller without a verdict, one of them without an effect. */
  lemma FirstDispatch(tenant: string, steps: seq<Step>, p: nat, ctx: Context, now: int, mode: Mode, absence: bool, later: int)
    requires ReadyToDispatch(After(tenant, steps), p, ctx, now)
    requires var w := After(tenant, steps);
      var v := w.store.repo.attempts[w.procs[p].phase.attempt];
      v.key !in w.ledger && LeaseHeld(v, w.procs[p].worker, w.procs[p].phase.token, later)
    ensures var w := After(tenant, steps);
      var n := Call(w, p, ctx, ForDispatch, now, mode, absence, later);
      var a := w.procs[p].phase.attempt;
      var v := w.store.repo.attempts[a];
      && a < |n.store.repo.attempts| && Reported(w, n, p)
      && n.store.repo.attempts[a].state == (match mode
                                            case SuccessMode => VerifiedSuccess
                                            case Refusal => VerifiedFailure
                                            case _ => Unsettled(|ObservationsFor(w.store.repo, a)|))
      && n.ledger == (match RowLeft(mode, v.intent) case Some(row) => w.ledger[v.key := row] case None => w.ledger)
  {
    hide After, Apply, WorldInv, Execute, Outcome, ReadyToDispatch, Called, Reported;
    var w := After(tenant, steps);
    var v := DispatchedAttempt(w, p, ctx, now);
    RunKeeps(tenant, steps);
    DispatchBegins(w, p, ctx, now);
    StepKeeps(w, Begin(p, ctx, ForDispatch, now));
    ExecuteByMode(w.ledger, mode, v.key, v.intent);
    var (after, reply) := Execute(w.ledger, mode, v.key, v.intent);
    HeardAndRecorded(w, Apply(w, Begin(p, ctx, ForDispatch, now)), p, ctx, ForDispatch, mode, absence, later, HeardFrom(reply), after);
    OutcomeOf(w.store.repo, ctx, v, HeardFrom(reply), |ObservationsFor(w.store.repo, w.procs[p].phase.attempt)|, later);
  }

  lemma ExecuteAgain(ledger: Ledger, mode: Mode, key: OpKey, intent: Material)
    requires key in ledger && ledger[key].intent == intent
    ensures var (after, reply) := Execute(ledger, mode, key, intent);
      && after == ledger && !reply.BindingConflict?
      && HeardFrom(reply) == if Tells(mode) then Observation(ledger[key].kind, Some(key), false) else Observation(Inconclusive, None, false)
  {}

  /** The modes in which a dispatch that finds an effect reports it. */
  predicate Tells(mode: Mode) { mode == SuccessMode || mode == Refusal || mode == TimeoutBefore }

  /** A dispatch that finds its effect already there, because a slow call had made it after
      all, changes nothing and reports that effect, whatever the mode would have made now. */
  lemma Redispatch(tenant: string, steps: seq<Step>, p: nat, ctx: Context, now: int, mode: Mode, absence: bool, later: int)
    requires ReadyToDispatch(After(tenant, steps), p, ctx, now)
    requires var w := After(tenant, steps);
      var v := w.store.repo.attempts[w.procs[p].phase.attempt];
      v.key in w.ledger && LeaseHeld(v, w.procs[p].worker, w.procs[p].phase.token, later)
    ensures var w := After(tenant, steps);
      var n := Call(w, p, ctx, ForDispatch, now, mode, absence, later);
      var a := w.procs[p].phase.attempt;
      && a < |n.store.repo.attempts| && Reported(w, n, p) && n.ledger == w.ledger
      && n.store.repo.attempts[a].state
         == if Tells(mode) then VerdictOf(w.ledger[w.store.repo.attempts[a].key].kind) else Unsettled(|ObservationsFor(w.store.repo, a)|)
  {
    hide After, Apply, WorldInv, Execute, Outcome, ReadyToDispatch, Called, Reported;
    var w := After(tenant, steps);
    var v := DispatchedAttempt(w, p, ctx, now);
    RunKeeps(tenant, steps);
    DispatchBegins(w, p, ctx, now);
    StepKeeps(w, Begin(p, ctx, ForDispatch, now));
    NoBindingConflict(w, w.procs[p].phase.attempt);
    InvDefinite(w);
    ExecuteAgain(w.ledger, mode, v.key, v.intent);
    var (after, reply) := Execute(w.ledger, mode, v.key, v.intent);
    HeardAndRecorded(w, Apply(w, Begin(p, ctx, ForDispatch, now)), p, ctx, ForDispatch, mode, absence, later, HeardFrom(reply), after);
    OutcomeOf(w.store.repo, ctx, v, HeardFrom(reply), |ObservationsFor(w.store.repo, w.procs[p].phase.attempt)|, later);
  }

  lemma DispatchedAttempt(w: World, p: nat, ctx: Context, now: int) returns (v: Attempt)
    requires ReadyToDispatch(w, p, ctx, now)
    ensures p in w.procs && w.procs[p].phase.HasLease? && w.procs[p].phase.attempt < |w.store.repo.attempts|
    ensures v == w.store.repo.attempts[w.procs[p].phase.attempt] && Administrator(w.store.repo.plane, ctx)
  {
    v := w.store.repo.attempts[w.procs[p].phase.attempt];
  }

  lemma OutcomeOf(r: Repo, ctx: Context, v: Attempt, o: Observation, prior: nat, now: int)
    ensures forall t | Outcome(r, ctx, v, o, prior, now, t) ::
      && (o.kind == FoundSuccess ==> t == VerifiedSuccess) && (o.kind == FoundFailure ==> t == VerifiedFailure)
      && (o.kind == Inconclusive ==> t == Unsettled(prior))
      && (o.kind == Absent ==> t == if o.authoritative && Authorised(r.plane, ctx, v.command, v.connection, now) then Prepared else ManualReview)
  {
    hide Authorised;
  }

  // ------------------------------------------------------------------------ lookups

  predicate Answers(mode: Mode) { mode != LookupUnavailable && mode != StaleResponse }

  lemma LookupByMode(ledger: Ledger, mode: Mode, absence: bool, key: OpKey, intent: Material)
    requires key in ledger ==> ledger[key].intent == intent
    ensures var (after, reply) := Lookup(ledger, mode, absence, key, intent);
      && !reply.BindingConflict?
      && (if !Answers(mode) then after == ledger && HeardFrom(reply) == Observation(Inconclusive, None, false)
          else if key !in ledger then after == ledger && HeardFrom(reply) == Observation(Absent, None, absence)
          else if ledger[key].hidden == 0 then after == ledger && HeardFrom(reply) == Observation(ledger[key].kind, Some(key), false)
          else after == ledger[key := Row(intent, ledger[key].kind, ledger[key].hidden - 1)] && HeardFrom(reply) == Observation(Inconclusive, None, false))
  {}

  /** A lookup, in every mode: an effect that shows is reported as it is; one still
      hidden shows after as many lookups; no effect sends the attempt back to be
      dispatched again only on authority and through an open gate; and a provider that
      does not answer decides nothing. */
  lemma LookedUp(tenant: string, steps: seq<Step>, p: nat, ctx: Context, now: int, mode: Mode, absence: bool, later: int)
    requires ReadyToLookUp(After(tenant, steps), p, ctx, now)
    requires var w := After(tenant, steps);
      LeaseHeld(w.store.repo.attempts[w.procs[p].phase.attempt], w.procs[p].worker, w.procs[p].phase.token, later)
    ensures var w := After(tenant, steps);
      var n := Call(w, p, ctx, ForLookup, now, mode, absence, later);
      var a := w.procs[p].phase.attempt;
      var v := w.store.repo.attempts[a];
      var unsettled := Unsettled(|ObservationsFor(w.store.repo, a)|);
      && a < |n.store.repo.attempts| && Reported(w, n, p)
      && (if !Answers(mode) then n.ledger == w.ledger && n.store.repo.attempts[a].state == unsettled
          else if v.key !in w.ledger then
            n.ledger == w.ledger
            && n.store.repo.attempts[a].state
               == if absence && Authorised(w.store.repo.plane, ctx, v.command, v.connection, later) then Prepared else ManualReview
          else if w.ledger[v.key].hidden == 0 then n.ledger == w.ledger && n.store.repo.attempts[a].state == VerdictOf(w.ledger[v.key].kind)
          else n.ledger == w.ledger[v.key := w.ledger[v.key].(hidden := w.ledger[v.key].hidden - 1)] && n.store.repo.attempts[a].state == unsettled)
  {
    hide After, Apply, WorldInv, Lookup, Outcome, ReadyToLookUp, Called, Authorised, Reported;
    var w := After(tenant, steps);
    var v := LookedUpAttempt(w, p, ctx, now);
    RunKeeps(tenant, steps);
    LookupBegins(w, p, ctx, now);
    StepKeeps(w, Begin(p, ctx, ForLookup, now));
    NoBindingConflict(w, w.procs[p].phase.attempt);
    InvDefinite(w);
    LookupByMode(w.ledger, mode, absence, v.key, v.intent);
    var (after, reply) := Lookup(w.ledger, mode, absence, v.key, v.intent);
    HeardAndRecorded(w, Apply(w, Begin(p, ctx, ForLookup, now)), p, ctx, ForLookup, mode, absence, later, HeardFrom(reply), after);
    OutcomeOf(w.store.repo, ctx, v, HeardFrom(reply), |ObservationsFor(w.store.repo, w.procs[p].phase.attempt)|, later);
  }

  lemma LookedUpAttempt(w: World, p: nat, ctx: Context, now: int) returns (v: Attempt)
    requires ReadyToLookUp(w, p, ctx, now)
    ensures p in w.procs && w.procs[p].phase.HasLease? && w.procs[p].phase.attempt < |w.store.repo.attempts|
    ensures v == w.store.repo.attempts[w.procs[p].phase.attempt] && Administrator(w.store.repo.plane, ctx)
  {
    v := w.store.repo.attempts[w.procs[p].phase.attempt];
  }
}

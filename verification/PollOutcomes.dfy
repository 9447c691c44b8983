/** What one undisturbed poll of the tool worker achieves: a queued, approved command
    is carried out, recorded and its event completed, as the provider's mode has it. */
module PollOutcomes {
  import opened Common
  import opened Domain
  import opened ControlPlane
  import opened SyntheticProvider
  import opened Execution
  import opened ToolGateway
  import opened ExecutionSafety
  import opened ExactlyOnce
  import opened EffectTheorems
  import opened LateEffects
  import opened DispatchOutcomes
  import opened ToolWorker
  import Outbox

  /** The approved command an event stands for. */
  ghost predicate Queued(s: Store, e: nat, c: nat) {
    e < |s.events| && s.events[e].aggregate < |s.tools| && s.tools[s.events[e].aggregate].approvalCommand == Some(c) && c in s.repo.plane.intents
    && s.tools[s.events[e].aggregate].request.policyVersion == s.repo.plane.intents[c].policyVersion
  }

  /** Everything a poll relies on: an event that can be claimed, an administrator, a matching
      adapter, and an approval that stands whenever the gate is asked. */
  ghost predicate Deliverable(s: Store, e: nat, c: nat, worker: string, ctx: Context, seconds: int, clock: nat -> int) {
    && Queued(s, e, c) && Outbox.Claim(s.events, e, worker, clock(0), clock(0) + seconds).Commit?
    && Administrator(s.repo.plane, ctx) && ManifestFits(s.repo.plane, PROVIDER, CONNECTION, ADAPTER_VERSION)
    && Authorised(s.repo.plane, ctx, c, CONNECTION, clock(1)) && Authorised(s.repo.plane, ctx, c, CONNECTION, clock(3))
    && 1 <= seconds <= 300 && clock(3) < clock(2) + seconds && clock(4) < clock(2) + seconds && clock(5) < clock(0) + seconds
    && forall a | 0 <= a < |s.repo.attempts| :: s.repo.attempts[a].command != c
  }

  // ------------------------------------------------------------- the steps of a poll

  lemma EventTaken(w: World, e: nat, worker: string, now: int, until: int)
    requires 0 !in w.procs && Outbox.Claim(w.store.events, e, worker, now, until).Commit?
    ensures var tx := Outbox.Claim(w.store.events, e, worker, now, until);
      Apply(w, TakeEvent(0, worker, e, now, until))
      == World(w.store.(events := tx.state), w.ledger, w.procs[0 := Process(worker, Some(Job(e, tx.value.token)), HoldsEvent)])
  {
    hide Outbox.Claim;
  }

  /** The attempt is new: prepared, unleased, at its first version. */
  lemma AttemptPrepared(w: World, e: nat, c: nat, token: nat, worker: string, ctx: Context, now: int)
    requires StoreInv(w.store) && Queued(w.store, e, c) && 0 in w.procs && w.procs[0] == Process(worker, Some(Job(e, token)), HoldsEvent)
    requires Administrator(w.store.repo.plane, ctx) && ManifestFits(w.store.repo.plane, PROVIDER, CONNECTION, ADAPTER_VERSION)
    requires Authorised(w.store.repo.plane, ctx, c, CONNECTION, now)
    requires forall a | 0 <= a < |w.store.repo.attempts| :: w.store.repo.attempts[a].command != c
    ensures var (r, a) := (w.store.repo, |w.store.repo.attempts|);
      var n := Apply(w, PrepareEvent(0, ctx, now));
      && n == World(w.store.(repo := n.store.repo), w.ledger, w.procs[0 := Process(worker, Some(Job(e, token)), HasAttempt(a, 1, Prepared))])
      && n.store.repo == Repo(r.tenant, r.plane.(preparations := n.store.repo.plane.preparations, outbox := n.store.repo.plane.outbox),
                              r.attempts + [NewAttempt(r, c, ADAPTER_VERSION, PROVIDER, CONNECTION)], r.observations)
  {
    var t := w.store.tools[w.store.events[e].aggregate];
    EventBound(w.store, e);
    PrepareAttemptExact(w.store.repo, ctx, c, t.request.policyVersion, w.store.repo.plane.intents[c].targetVersion, ADAPTER_VERSION, PROVIDER, CONNECTION, now);
    hide Apply, PrepareAttempt, Administrator, Authorised, RepoInv, StoreInv, ManifestFits, ToolBound;
    var tx := PrepareAttempt(w.store.repo, ctx, c, t.request.policyVersion, w.store.repo.plane.intents[c].targetVersion, ADAPTER_VERSION, PROVIDER, CONNECTION, now);
    assert tx.Commit? && !tx.value.1;
    assert PrepareForEvent(w.store, ctx, e, now) == Commit(tx.state, tx.value.0);
    hide PrepareForEvent;
    PreparedMoves(w, e, token, worker, ctx, now, tx.state, tx.value.0);
  }

  lemma PreparedMoves(w: World, e: nat, token: nat, worker: string, ctx: Context, now: int, r: Repo, a: nat)
    requires 0 in w.procs && w.procs[0] == Process(worker, Some(Job(e, token)), HoldsEvent) && PrepareForEvent(w.store, ctx, e, now) == Commit(r, a)
    requires a < |r.attempts| && r.attempts[a].state == Prepared
    ensures Apply(w, PrepareEvent(0, ctx, now))
      == World(w.store.(repo := r), w.ledger, w.procs[0 := Process(worker, Some(Job(e, token)), HasAttempt(a, r.attempts[a].version, Prepared))])
  {
    hide PrepareForEvent;
  }

  /** The worker's own lease on the new attempt. */
  function LeasedAttempt(v: Attempt, worker: string, until: int): Attempt {
    v.(version := v.version + 1, token := v.token + 1, leaseOwner := Some(worker), leaseUntil := Some(until))
  }

  lemma AttemptTaken(w: World, job: Job, worker: string, ctx: Context, a: nat, seconds: int, now: int)
    requires 0 in w.procs && w.procs[0] == Process(worker, Some(job), HasAttempt(a, 1, Prepared)) && a < |w.store.repo.attempts|
    requires w.store.repo.attempts[a].version == 1 && w.store.repo.attempts[a].state == Prepared
    requires w.store.repo.attempts[a].leaseUntil.None? && w.store.repo.attempts[a].nextCheckAt.None? && w.store.repo.attempts[a].token == 0
    requires Administrator(w.store.repo.plane, ctx) && 1 <= seconds <= 300
    ensures var r := w.store.repo;
      Apply(w, TakeAttempt(0, ctx, "", 0, 0, seconds, now))
      == World(w.store.(repo := r.(attempts := r.attempts[a := LeasedAttempt(r.attempts[a], worker, now + seconds)])), w.ledger,
               w.procs[0 := Process(worker, Some(job), HasLease(a, 1))])
  {
    AdministratorExact(w.store.repo.plane, ctx);
    hide Require, Administrator;
    var r := w.store.repo;
    var leased := LeasedAttempt(r.attempts[a], worker, now + seconds);
    assert ClaimAttempt(r, ctx, a, worker, 1, seconds, now) == Commit(r.(attempts := r.attempts[a := leased]), leased);
    hide ClaimAttempt;
  }

  /** The event is completed when the attempt has reached its end, and stays leased otherwise. */
  lemma EventFinished(w: World, e: nat, token: nat, worker: string, a: nat, state: AttemptState, now: int)
    requires 0 in w.procs && w.procs[0] == Process(worker, Some(Job(e, token)), Settled(a, state)) && e < |w.store.events|
    requires Outbox.Held(w.store.events[e], worker, token, now)
    ensures var n := Apply(w, Finish(0, now));
      && n.store.repo == w.store.repo && n.ledger == w.ledger && n.procs == w.procs - {0} && |n.store.events| == |w.store.events|
      && n.store.events[e].state == (if state in {VerifiedSuccess, VerifiedFailure, ManualReview} then Outbox.Completed else Outbox.Leased)
  {}

  lemma NothingToGiveUp(w: World, now: int, limit: int)
    requires 0 !in w.procs
    ensures Apply(w, GiveUp(0, now, limit)) == w
  {}

  lemma SecondBeginPasses(w: World, p: nat, ctx: Context, now: int)
    requires p in w.procs && w.procs[p].phase.Calling?
    ensures Apply(w, Begin(p, ctx, ForLookup, now)) == w
  {
    CallApplies(w, p, ctx, ForLookup, now, SuccessMode, false);
    hide Apply;
    BeginNeedsLease(w, p, Begin(p, ctx, ForLookup, now));
  }

  // ------------------------------------------------------------------- the whole poll

  /** What the poll leaves: the attempt in the state the provider's mode leads to, the
      approved effect in its ledger where the mode has one, and the event completed, or
      still leased for a later poll to look the outcome up. */
  ghost predicate PolledTo(w: World, n: World, e: nat, c: nat, mode: Mode)
    requires c in w.store.repo.plane.intents
  {
    var (a, key) := (|w.store.repo.attempts|, OpKey(w.store.repo.tenant, c));
    var state := match mode case SuccessMode => VerifiedSuccess case Refusal => VerifiedFailure case _ => Unknown;
    && |n.store.repo.attempts| > a && n.store.repo.attempts[a].command == c && n.store.repo.attempts[a].state == state
    && n.ledger == (match RowLeft(mode, w.store.repo.plane.intents[c].digest) case Some(row) => w.ledger[key := row] case None => w.ledger)
    && 0 !in n.procs && e < |n.store.events|
    && n.store.events[e].state == if state == Unknown then Outbox.Leased else Outbox.Completed
  }

  /** A queued command whose approval stands is delivered by one undisturbed poll, in any
      reachable state of the tenant and beside whatever other processes are in flight. */
  lemma PollDelivers(tenant: string, steps: seq<Step>, e: nat, c: nat, worker: string, ctx: Context, seconds: int, clock: nat -> int, mode: Mode, absence: bool, limit: int)
    requires 0 !in After(tenant, steps).procs && Deliverable(After(tenant, steps).store, e, c, worker, ctx, seconds, clock)
    ensures PolledTo(After(tenant, steps), After(tenant, steps + Script(e, worker, ctx, seconds, clock, mode, absence, limit)), e, c, mode)
  {
    hide *;
    var s1 := steps + [TakeEvent(0, worker, e, clock(0), clock(0) + seconds)];
    var s2 := s1 + [PrepareEvent(0, ctx, clock(1))];
    var s3 := s2 + [TakeAttempt(0, ctx, "", 0, 0, seconds, clock(2))];
    var s4 := s3 + [Begin(0, ctx, ForDispatch, clock(3))];
    var s5 := s4 + [Begin(0, ctx, ForLookup, clock(3))];
    var s6 := s5 + [CallProvider(0, mode, absence)];
    var s7 := s6 + [Record(0, ctx, clock(4))];
    var s8 := s7 + [Finish(0, clock(5))];
    var s9 := s8 + [GiveUp(0, clock(6), limit)];
    assert s9 == steps + Script(e, worker, ctx, seconds, clock, mode, absence, limit) by { ScriptIs(steps, e, worker, ctx, seconds, clock, mode, absence, limit); }
    AfterSnoc(tenant, s3, Begin(0, ctx, ForDispatch, clock(3)));
    AfterSnoc(tenant, s4, Begin(0, ctx, ForLookup, clock(3)));
    AfterSnoc(tenant, s5, CallProvider(0, mode, absence));
    AfterSnoc(tenant, s6, Record(0, ctx, clock(4)));
    AfterSnoc(tenant, s7, Finish(0, clock(5)));
    AfterSnoc(tenant, s8, GiveUp(0, clock(6), limit));
    LeasedIn(tenant, steps, e, c, worker, ctx, seconds, clock);
    Delivered(tenant, steps, s3, e, c, worker, ctx, seconds, clock, mode, absence, limit);
  }

  lemma ScriptIs(steps: seq<Step>, e: nat, worker: string, ctx: Context, seconds: int, clock: nat -> int, mode: Mode, absence: bool, limit: int)
    ensures steps + Script(e, worker, ctx, seconds, clock, mode, absence, limit)
      == steps + [TakeEvent(0, worker, e, clock(0), clock(0) + seconds)] + [PrepareEvent(0, ctx, clock(1))] + [TakeAttempt(0, ctx, "", 0, 0, seconds, clock(2))]
         + [Begin(0, ctx, ForDispatch, clock(3))] + [Begin(0, ctx, ForLookup, clock(3))] + [CallProvider(0, mode, absence)] + [Record(0, ctx, clock(4))]
         + [Finish(0, clock(5))] + [GiveUp(0, clock(6), limit)]
  {}

  /** The world in which the worker holds the lease of its new attempt. */
  ghost predicate LeasedWorld(w: World, n: World, e: nat, c: nat, worker: string, until: int, eventUntil: int)
    requires c in w.store.repo.plane.intents
  {
    var (r, s, a) := (w.store.repo, n.store.repo, |w.store.repo.attempts|);
    && s == Repo(r.tenant, r.plane.(preparations := s.plane.preparations, outbox := s.plane.outbox),
                 r.attempts + [LeasedAttempt(NewAttempt(r, c, ADAPTER_VERSION, PROVIDER, CONNECTION), worker, until)], r.observations)
    && n.ledger == w.ledger && e < |n.store.events| && 0 in n.procs
    && n.procs[0] == Process(worker, Some(Job(e, n.store.events[e].token)), HasLease(a, 1))
    && (forall now | now < eventUntil :: Outbox.Held(n.store.events[e], worker, n.store.events[e].token, now))
  }

  lemma LeasedIn(tenant: string, steps: seq<Step>, e: nat, c: nat, worker: string, ctx: Context, seconds: int, clock: nat -> int)
    requires 0 !in After(tenant, steps).procs && Deliverable(After(tenant, steps).store, e, c, worker, ctx, seconds, clock)
    ensures c in After(tenant, steps).store.repo.plane.intents
    ensures LeasedWorld(After(tenant, steps), After(tenant, steps + [TakeEvent(0, worker, e, clock(0), clock(0) + seconds)] + [PrepareEvent(0, ctx, clock(1))] + [TakeAttempt(0, ctx, "", 0, 0, seconds, clock(2))]),
                        e, c, worker, clock(2) + seconds, clock(0) + seconds)
  {
    hide *;
    var w := After(tenant, steps);
    var s1 := steps + [TakeEvent(0, worker, e, clock(0), clock(0) + seconds)];
    var s2 := s1 + [PrepareEvent(0, ctx, clock(1))];
    AfterSnoc(tenant, steps, TakeEvent(0, worker, e, clock(0), clock(0) + seconds));
    AfterSnoc(tenant, s1, PrepareEvent(0, ctx, clock(1)));
    AfterSnoc(tenant, s2, TakeAttempt(0, ctx, "", 0, 0, seconds, clock(2)));
    RunKeeps(tenant, steps);
    LeasesAttempt(w, e, c, worker, ctx, seconds, clock);
  }

  lemma LeasesAttempt(w: World, e: nat, c: nat, worker: string, ctx: Context, seconds: int, clock: nat -> int)
    requires WorldInv(w) && 0 !in w.procs && Deliverable(w.store, e, c, worker, ctx, seconds, clock)
    ensures c in w.store.repo.plane.intents
    ensures var n := Apply(Apply(Apply(w, TakeEvent(0, worker, e, clock(0), clock(0) + seconds)), PrepareEvent(0, ctx, clock(1))), TakeAttempt(0, ctx, "", 0, 0, seconds, clock(2)));
      LeasedWorld(w, n, e, c, worker, clock(2) + seconds, clock(0) + seconds)
  {
    hide *;
    DeliverableIs(w.store, e, c, worker, ctx, seconds, clock);
    var tx := Outbox.Claim(w.store.events, e, worker, clock(0), clock(0) + seconds);
    var job := Job(e, tx.value.token);
    HeldThen(w.store.events, e, worker, clock(0), clock(0) + seconds);
    EventTaken(w, e, worker, clock(0), clock(0) + seconds);
    var w1 := Apply(w, TakeEvent(0, worker, e, clock(0), clock(0) + seconds));
    StepKeeps(w, TakeEvent(0, worker, e, clock(0), clock(0) + seconds));
    StoreOf(w1);
    QueuedStays(w.store, tx.state, e, c);
    AttemptPrepared(w1, e, c, job.token, worker, ctx, clock(1));
    var w2 := Apply(w1, PrepareEvent(0, ctx, clock(1)));
    SameAdministrator(w1.store.repo.plane, w2.store.repo.plane, ctx, c);
    LeasesNew(w, w2, e, c, job, worker, ctx, seconds, clock(2), clock(0) + seconds);
  }

  lemma DeliverableIs(s: Store, e: nat, c: nat, worker: string, ctx: Context, seconds: int, clock: nat -> int)
    requires Deliverable(s, e, c, worker, ctx, seconds, clock)
    ensures Queued(s, e, c) && e < |s.events| && c in s.repo.plane.intents && Outbox.Claim(s.events, e, worker, clock(0), clock(0) + seconds).Commit?
    ensures Administrator(s.repo.plane, ctx) && ManifestFits(s.repo.plane, PROVIDER, CONNECTION, ADAPTER_VERSION)
    ensures Authorised(s.repo.plane, ctx, c, CONNECTION, clock(1)) && 1 <= seconds <= 300
    ensures forall a | 0 <= a < |s.repo.attempts| :: s.repo.attempts[a].command != c
  {
    hide Authorised, Administrator, ManifestFits, Outbox.Claim;
  }

  lemma QueuedStays(s: Store, events: seq<Outbox.Event>, e: nat, c: nat)
    requires Queued(s, e, c) && |events| == |s.events| && events[e].aggregate == s.events[e].aggregate
    ensures Queued(s.(events := events), e, c)
  {}

  lemma LeasesNew(w: World, n: World, e: nat, c: nat, job: Job, worker: string, ctx: Context, seconds: int, now: int, eventUntil: int)
    requires c in w.store.repo.plane.intents && 1 <= seconds <= 300 && Administrator(n.store.repo.plane, ctx)
    requires var (r, s) := (w.store.repo, n.store.repo);
      && s == Repo(r.tenant, r.plane.(preparations := s.plane.preparations, outbox := s.plane.outbox),
                   r.attempts + [NewAttempt(r, c, ADAPTER_VERSION, PROVIDER, CONNECTION)], r.observations)
      && n.ledger == w.ledger && 0 in n.procs && n.procs[0] == Process(worker, Some(job), HasAttempt(|r.attempts|, 1, Prepared))
      && e < |n.store.events| && job == Job(e, n.store.events[e].token)
      && forall t | t < eventUntil :: Outbox.Held(n.store.events[e], worker, job.token, t)
    ensures LeasedWorld(w, Apply(n, TakeAttempt(0, ctx, "", 0, 0, seconds, now)), e, c, worker, now + seconds, eventUntil)
  {
    AttemptTaken(n, job, worker, ctx, |w.store.repo.attempts|, seconds, now);
    hide Apply, Administrator, Outbox.Held;
  }

  lemma HeldThen(events: seq<Outbox.Event>, e: nat, worker: string, now: int, until: int)
    requires Outbox.Claim(events, e, worker, now, until).Commit?
    ensures var tx := Outbox.Claim(events, e, worker, now, until);
      && e < |events| && |tx.state| == |events| && tx.state[e] == tx.value && tx.value.aggregate == events[e].aggregate
      && forall t | t < until :: Outbox.Held(tx.value, worker, tx.value.token, t)
  {}

  /** Preparations and announced events decide nothing about who may do what. */
  lemma SameAdministrator(p: Plane, q: Plane, ctx: Context, c: nat)
    requires q == p.(preparations := q.preparations, outbox := q.outbox)
    ensures Administrator(p, ctx) <==> Administrator(q, ctx)
    ensures forall now :: Authorised(p, ctx, c, CONNECTION, now) <==> Authorised(q, ctx, c, CONNECTION, now)
    ensures ManifestFits(p, PROVIDER, CONNECTION, ADAPTER_VERSION) <==> ManifestFits(q, PROVIDER, CONNECTION, ADAPTER_VERSION)
  {}

  /** Without an attempt there was no effect, and nothing was ever observed. */
  lemma NothingYet(w: World, c: nat)
    requires WorldInv(w) && forall a | 0 <= a < |w.store.repo.attempts| :: w.store.repo.attempts[a].command != c
    ensures OpKey(w.store.repo.tenant, c) !in w.ledger && |w.store.repo.attempts| !in w.store.repo.observations
  {
    var (r, key) := (w.store.repo, OpKey(w.store.repo.tenant, c));
    forall a | 0 <= a < |r.attempts| ensures r.attempts[a].key != key { assert AttemptBound(r, a); }
  }

  lemma LeasedIsReady(w: World, n: World, e: nat, c: nat, worker: string, ctx: Context, seconds: int, clock: nat -> int)
    requires WorldInv(w) && Deliverable(w.store, e, c, worker, ctx, seconds, clock) && c in w.store.repo.plane.intents
    requires LeasedWorld(w, n, e, c, worker, clock(2) + seconds, clock(0) + seconds)
    ensures ReadyToDispatch(n, 0, ctx, clock(3))
    ensures var (a, v) := (|w.store.repo.attempts|, n.store.repo.attempts[|w.store.repo.attempts|]);
      && v.command == c && v.key == OpKey(w.store.repo.tenant, c) && v.key !in n.ledger && v.intent == w.store.repo.plane.intents[c].digest
      && LeaseHeld(v, worker, 1, clock(4)) && ObservationsFor(n.store.repo, a) == []
      && 0 in n.procs && n.procs[0] == Process(worker, Some(Job(e, n.store.events[e].token)), HasLease(a, 1))
  {
    NothingYet(w, c);
    SameAdministrator(w.store.repo.plane, n.store.repo.plane, ctx, c);
    hide WorldInv, Authorised, Administrator, ManifestFits, Outbox.Claim;
  }

  lemma Delivered(tenant: string, steps: seq<Step>, leased: seq<Step>, e: nat, c: nat, worker: string, ctx: Context, seconds: int, clock: nat -> int,
                  mode: Mode, absence: bool, limit: int)
    requires Deliverable(After(tenant, steps).store, e, c, worker, ctx, seconds, clock) && c in After(tenant, steps).store.repo.plane.intents
    requires LeasedWorld(After(tenant, steps), After(tenant, leased), e, c, worker, clock(2) + seconds, clock(0) + seconds)
    ensures var begun := Apply(Apply(After(tenant, leased), Begin(0, ctx, ForDispatch, clock(3))), Begin(0, ctx, ForLookup, clock(3)));
      var heard := Apply(Apply(begun, CallProvider(0, mode, absence)), Record(0, ctx, clock(4)));
      PolledTo(After(tenant, steps), Apply(Apply(heard, Finish(0, clock(5))), GiveUp(0, clock(6), limit)), e, c, mode)
  {
    var (w, n, a) := (After(tenant, steps), After(tenant, leased), |After(tenant, steps).store.repo.attempts|);
    RunKeeps(tenant, steps);
    RunKeeps(tenant, leased);
    LeasedIsReady(w, n, e, c, worker, ctx, seconds, clock);
    DispatchBegins(n, 0, ctx, clock(3));
    var begun := Apply(n, Begin(0, ctx, ForDispatch, clock(3)));
    SecondBeginPasses(begun, 0, ctx, clock(3));
    FirstDispatch(tenant, leased, 0, ctx, clock(3), mode, absence, clock(4));
    var heard := Call(n, 0, ctx, ForDispatch, clock(3), mode, absence, clock(4));
    assert heard.store.repo.attempts[a].command == c;
    hide *;
    CallIs(n, 0, ctx, clock(3), mode, absence, clock(4));
    InTime(w.store, e, c, worker, ctx, seconds, clock);
    Ended(w, n, heard, e, c, worker, clock, seconds, mode, limit);
  }

  lemma CallIs(n: World, p: nat, ctx: Context, now: int, mode: Mode, absence: bool, later: int)
    requires Apply(Apply(n, Begin(p, ctx, ForDispatch, now)), Begin(p, ctx, ForLookup, now)) == Apply(n, Begin(p, ctx, ForDispatch, now))
    ensures Call(n, p, ctx, ForDispatch, now, mode, absence, later)
      == Apply(Apply(Apply(Apply(n, Begin(p, ctx, ForDispatch, now)), Begin(p, ctx, ForLookup, now)), CallProvider(p, mode, absence)), Record(p, ctx, later))
  {
    hide Apply;
  }

  lemma InTime(s: Store, e: nat, c: nat, worker: string, ctx: Context, seconds: int, clock: nat -> int)
    requires Deliverable(s, e, c, worker, ctx, seconds, clock)
    ensures clock(5) < clock(0) + seconds
  {
    hide Authorised, Administrator, ManifestFits, Outbox.Claim;
  }

  lemma Ended(w: World, n: World, heard: World, e: nat, c: nat, worker: string, clock: nat -> int, seconds: int, mode: Mode, limit: int)
    requires c in w.store.repo.plane.intents && LeasedWorld(w, n, e, c, worker, clock(2) + seconds, clock(0) + seconds) && clock(5) < clock(0) + seconds
    requires var a := |w.store.repo.attempts|;
      && a < |n.store.repo.attempts| && a < |heard.store.repo.attempts| && 0 in n.procs && n.procs[0].phase == HasLease(a, 1) && Reported(n, heard, 0)
      && heard.store.repo.attempts[a].command == c
      && heard.store.repo.attempts[a].state == (match mode case SuccessMode => VerifiedSuccess case Refusal => VerifiedFailure case _ => Unknown)
      && heard.ledger == (match RowLeft(mode, w.store.repo.plane.intents[c].digest)
                          case Some(row) => w.ledger[OpKey(w.store.repo.tenant, c) := row] case None => w.ledger)
    ensures PolledTo(w, Apply(Apply(heard, Finish(0, clock(5))), GiveUp(0, clock(6), limit)), e, c, mode)
  {
    var a := |w.store.repo.attempts|;
    hide Apply, RowLeft, Outbox.Held;
    EventFinished(heard, e, n.store.events[e].token, worker, a, heard.store.repo.attempts[a].state, clock(5));
    NothingToGiveUp(Apply(heard, Finish(0, clock(5))), clock(6), limit);
  }
}

/** MANUAL_REVIEW does not mean that nothing happened or will happen: exactly when a
    dispatcher that lost its lease can still reach the provider, and a run that gets there. */
module LateEffects {
  import opened Common
  import opened Domain
  import opened ControlPlane
  import opened SyntheticProvider
  import opened Execution
  import opened ToolGateway
  import opened ExecutionSafety
  import opened ExactlyOnce
  import opened EffectTheorems

  /** A process that began dispatching attempt `a` and has not called the provider yet. */
  predicate InFlight(proc: Process, a: nat) {
    proc.phase.Calling? && proc.phase.purpose == ForDispatch && proc.phase.attempt == a
  }

  predicate SomeoneInFlight(w: World, a: nat) { exists p | p in w.procs :: InFlight(w.procs[p], a) }

  /** The attempt is under review and its effect has not happened. */
  predicate UnderReview(w: World, a: nat) {
    a < |w.store.repo.attempts| && w.store.repo.attempts[a].state == ManualReview && w.store.repo.attempts[a].key !in w.ledger
  }

  lemma ReviewIs(w: World, a: nat)
    requires WorldInv(w) && UnderReview(w, a)
    ensures var v := w.store.repo.attempts[a]; v.key == OpKey(w.store.repo.tenant, v.command)
    ensures forall b | 0 <= b < |w.store.repo.attempts| && w.store.repo.attempts[b].key == w.store.repo.attempts[a].key :: a == b
  {
    forall b | 0 <= b < |w.store.repo.attempts| ensures w.store.repo.attempts[b].key == OpKey(w.store.repo.tenant, w.store.repo.attempts[b].command) {
      assert AttemptBound(w.store.repo, b);
    }
  }

  lemma TerminalStays(w: World, n: World, a: nat)
    requires StoreGrows(w.store, n.store) && UnderReview(w, a)
    ensures a < |n.store.repo.attempts| && n.store.repo.attempts[a] == w.store.repo.attempts[a]
  {
    assert AttemptGrows(w.store.repo.attempts[a], n.store.repo.attempts[a]);
  }

  /** Nobody begins dispatching an attempt that is under review. */
  lemma NobodyBegins(w: World, step: Step, a: nat)
    requires WorldInv(w) && UnderReview(w, a) && !SomeoneInFlight(w, a)
    ensures !SomeoneInFlight(Apply(w, step), a)
  {
    hide Apply, BeginTx, Authorised;
    var n := Apply(w, step);
    forall p | p in n.procs ensures !InFlight(n.procs[p], a) {
      if InFlight(n.procs[p], a) {
        CallStarts(w, step, p);
        if p in w.procs && w.procs[p].phase.HasLease? && n.procs[p] != w.procs[p] {
          hide WorldInv;
          GateAtBegin(w, p, step);
        }
      }
    }
  }

  /** With nobody in flight, a step leaves the review as it is. */
  lemma QuietStays(w: World, step: Step, a: nat)
    requires WorldInv(w) && UnderReview(w, a) && !SomeoneInFlight(w, a)
    ensures var n := Apply(w, step);
      UnderReview(n, a) && !SomeoneInFlight(n, a) && n.store.repo.attempts[a] == w.store.repo.attempts[a]
  {
    hide Apply, WorldInv;
    StepKeeps(w, step);
    TerminalStays(w, Apply(w, step), a);
    ReviewIs(w, a);
    LedgerStep(w, step, w.store.repo.attempts[a].key);
    NobodyBegins(w, step, a);
    assert forall p | p in w.procs :: !InFlight(w.procs[p], a);
  }

  lemma AfterJoin(tenant: string, steps: seq<Step>, more: seq<Step>)
    requires more != []
    ensures After(tenant, steps + more) == Apply(After(tenant, steps + more[..|more| - 1]), more[|more| - 1])
  {
    hide Apply;
    assert (steps + more)[..|steps + more| - 1] == steps + more[..|more| - 1];
  }

  lemma {:induction false} QuietForEver(tenant: string, steps: seq<Step>, more: seq<Step>, a: nat)
    requires UnderReview(After(tenant, steps), a) && !SomeoneInFlight(After(tenant, steps), a)
    ensures var n := After(tenant, steps + more);
      UnderReview(n, a) && !SomeoneInFlight(n, a) && n.store.repo.attempts[a] == After(tenant, steps).store.repo.attempts[a]
  {
    hide UnderReview, SomeoneInFlight, After, Apply, WorldInv;
    if more == [] {
      assert steps + more == steps;
    } else {
      var fewer := more[..|more| - 1];
      QuietForEver(tenant, steps, fewer, a);
      RunKeeps(tenant, steps + fewer);
      QuietStays(After(tenant, steps + fewer), more[|more| - 1], a);
      AfterJoin(tenant, steps, more);
    }
  }

  lemma LateCall(w: World, p: nat, a: nat)
    requires WorldInv(w) && UnderReview(w, a) && p in w.procs && InFlight(w.procs[p], a)
    ensures var v := w.store.repo.attempts[a];
      var n := Apply(w, CallProvider(p, SuccessMode, false));
      n.store == w.store && v.key in n.ledger && n.ledger[v.key] == Row(v.intent, FoundSuccess, 0)
  {
    hide StoreInv, EffectsOwned, CompletedSettled;
  }

  /** Continuing the run by `more` makes the effect happen. */
  ghost predicate Happens(tenant: string, steps: seq<Step>, more: seq<Step>, key: OpKey) { key in After(tenant, steps + more).ledger }

  /** The exact condition: an attempt under review without an effect can still get one
      if and only if some process is in a dispatch call for it. Without such a
      process no continuation of the run, however long, makes the effect happen. */
  lemma LateEffectExact(tenant: string, steps: seq<Step>, a: nat)
    requires UnderReview(After(tenant, steps), a)
    ensures (exists more :: Happens(tenant, steps, more, After(tenant, steps).store.repo.attempts[a].key))
            <==> SomeoneInFlight(After(tenant, steps), a)
  {
    hide After, Apply, WorldInv, UnderReview;
    var w := After(tenant, steps);
    assert a < |w.store.repo.attempts| by { ReviewKnown(w, a); }
    var key := w.store.repo.attempts[a].key;
    if SomeoneInFlight(w, a) {
      var p :| p in w.procs && InFlight(w.procs[p], a);
      RunKeeps(tenant, steps);
      LateCall(w, p, a);
      var more := [CallProvider(p, SuccessMode, false)];
      AfterJoin(tenant, steps, more);
      assert steps + more[..0] == steps;
      assert Happens(tenant, steps, more, key);
    } else {
      hide SomeoneInFlight;
      forall more ensures !Happens(tenant, steps, more, key) {
        QuietForEver(tenant, steps, more, a);
        ReviewKnown(After(tenant, steps + more), a);
      }
    }
  }

  lemma ReviewKnown(w: World, a: nat)
    requires UnderReview(w, a)
    ensures a < |w.store.repo.attempts| && w.store.repo.attempts[a].key !in w.ledger
  {}

  // ------------------------------------------------------------- a run that gets there

  const ADMIN := Context("m", 1)
  const MASTER := Membership({Master}, true, 1)
  const ADAPTER := Manifest(ADAPTER_VERSION, {DemoExecute, DemoLookup})

  /** A member, an adapter, and an approved product change whose execution is allowed. */
  function ApprovedSteps(): seq<Step> {
    [SetMember("m", MASTER)] + [SetManifest(PROVIDER, CONNECTION, ADAPTER)]
    + [RequestStep(ADMIN, Product, "offer:x", Text("x"), Named("k"), 1, 1, "", 0)] + [DecideStep(ADMIN, 0, true, 0)] + [SetControl(0, Control(1, 1, false))]
  }

  /** A first worker begins and stalls; its lease runs out; a second one takes over,
      looks the effect up, and is told that it is absent. */
  function PreparedSteps(): seq<Step> { ApprovedSteps() + [PrepareDirect(ADMIN, 0, 1, 1, ADAPTER_VERSION, PROVIDER, CONNECTION, 0)] }

  function LeasedSteps(): seq<Step> { PreparedSteps() + [TakeAttempt(0, ADMIN, "a", 0, 1, 60, 0)] }

  function BegunSteps(): seq<Step> { LeasedSteps() + [Begin(0, ADMIN, ForDispatch, 1)] }

  function TakenOverSteps(): seq<Step> { BegunSteps() + [TakeAttempt(1, ADMIN, "b", 0, 3, 60, 100)] }

  function LookingSteps(): seq<Step> { TakenOverSteps() + [Begin(1, ADMIN, ForLookup, 101)] }

  function AnsweredSteps(): seq<Step> { LookingSteps() + [CallProvider(1, SuccessMode, false)] }

  function ReviewedSteps(): seq<Step> { AnsweredSteps() + [Record(1, ADMIN, 102)] }

  const INTENT := Material(Product, "offer:x", Text("x"), "", APPROVAL_LIFETIME, 1, 1)

  function ApprovedPlane(): Plane {
    Plane(map["m" := MASTER], [Command(Product, "offer:x", Text("x"), Named("k"), Approved)], [Approval(Approved, APPROVAL_LIFETIME, "", Some("m"))],
          map[Named("k") := 0], map[0 := Intent(INTENT, 1, 1)], map[], map[0 := Control(1, 1, false)], {},
          map[(PROVIDER, CONNECTION) := ADAPTER], {ApprovalRequested(0), ApprovalDecided(0)})
  }

  lemma AfterSnoc(tenant: string, steps: seq<Step>, step: Step)
    ensures After(tenant, steps + [step]) == Apply(After(tenant, steps), step)
  {
    hide Apply;
    assert (steps + [step])[..|steps|] == steps;
  }

  lemma AdminMay(p: Plane, cap: Capability)
    requires p.members == map["m" := MASTER]
    ensures Require(p, ADMIN, cap).Pass?
  {
    assert cap in RoleCapabilities(Master);
  }

  function AdaptedPlane(): Plane {
    EmptyPlane().(members := map["m" := MASTER], manifests := map[(PROVIDER, CONNECTION) := ADAPTER])
  }

  function AskedPlane(): Plane {
    AdaptedPlane().(commands := [Command(Product, "offer:x", Text("x"), Named("k"), Pending)], approvals := [Approval(Pending, APPROVAL_LIFETIME, "", None)],
                    keys := map[Named("k") := 0], intents := map[0 := Intent(INTENT, 1, 1)], outbox := {ApprovalRequested(0)})
  }

  lemma AskedIs()
    ensures RequestApproval(AdaptedPlane(), ADMIN, Product, "offer:x", Text("x"), Named("k"), 1, 1, "", 0) == Commit(AskedPlane(), 0)
  {
    var (adapted, asked) := (AdaptedPlane(), AskedPlane());
    AdminMay(adapted, ApproveProduct);
    hide Require;
    var made := asked.(intents := map[]);
    assert AddCommand(adapted, asked.commands[0], asked.approvals[0]) == made by {
      assert [] + [asked.commands[0]] == asked.commands && [] + [asked.approvals[0]] == asked.approvals;
    }
    assert CreateCommand(adapted, ADMIN, Product, "offer:x", Text("x"), Named("k"), "", 0) == Commit(made, 0);
    assert IntentDigest(made.commands[0], made.approvals[0], 1, 1) == INTENT;
    assert made.(intents := made.intents[0 := Intent(INTENT, 1, 1)]) == asked;
    hide CreateCommand;
  }

  lemma DecidedIs()
    ensures Decide(AskedPlane(), ADMIN, 0, true, 0) == Commit(ApprovedPlane().(controls := map[]), false)
  {
    var (asked, decided) := (AskedPlane(), ApprovedPlane().(controls := map[]));
    AdminMay(asked, ApproveProduct);
    hide Require;
    assert SetState(asked.(outbox := asked.outbox + {ApprovalDecided(0)}), 0, Approved, Some("m")) == decided by {
      assert asked.commands[0 := decided.commands[0]] == decided.commands && asked.approvals[0 := decided.approvals[0]] == decided.approvals;
    }
  }

  lemma ApprovedIs(tenant: string)
    ensures After(tenant, ApprovedSteps()) == WithPlane(Initial(tenant), ApprovedPlane())
  {
    hide RequestApproval, Decide;
    var (a, b, c, d) := (SetMember("m", MASTER), SetManifest(PROVIDER, CONNECTION, ADAPTER),
                         RequestStep(ADMIN, Product, "offer:x", Text("x"), Named("k"), 1, 1, "", 0), DecideStep(ADMIN, 0, true, 0));
    AfterSnoc(tenant, [], a);
    assert [] + [a] == [a];
    AfterSnoc(tenant, [a], b);
    AfterSnoc(tenant, [a] + [b], c);
    AfterSnoc(tenant, [a] + [b] + [c], d);
    AfterSnoc(tenant, [a] + [b] + [c] + [d], SetControl(0, Control(1, 1, false)));
    assert After(tenant, [a] + [b]) == WithPlane(Initial(tenant), AdaptedPlane());
    hide After;
    AskedIs();
    DecidedIs();
  }

  /** The plane once the execution is prepared, with the attempt's events so far. */
  function WithEvents(events: set<OutKey>): Plane {
    ApprovedPlane().(preparations := map[0 := Preparation(INTENT, "m", 0)], outbox := {ApprovalRequested(0), ApprovalDecided(0), ExecutionPrepared(0)} + events)
  }

  lemma GateOpens(events: set<OutKey>, now: int)
    requires now < APPROVAL_LIFETIME
    ensures Gate(WithEvents(events), ADMIN, 0, CONNECTION, now) == Commit(WithEvents(events), Preparation(INTENT, "m", 0))
    ensures PrepareExecution(WithEvents(events), ADMIN, 0, 1, 1, now) == Commit(WithEvents(events), Preparation(INTENT, "m", 0))
    ensures Require(WithEvents(events), ADMIN, TenantAdmin).Pass?
  {
    var p := WithEvents(events);
    AdminMay(p, ApproveProduct);
    AdminMay(p, TenantAdmin);
    hide Require;
    assert RequireApprover(p, "m", ApproveProduct).Pass?;
    hide RequireApprover;
    assert MembershipCheck(p, ADMIN).Pass?;
    assert IntentUnchanged(p.commands[0], p.approvals[0], p.intents[0]);
  }

  function Stage(tenant: string, state: AttemptState, version: int, token: nat, owner: string, until: int): Attempt {
    Attempt(0, OpKey(tenant, 0), INTENT, ADAPTER_VERSION, PROVIDER, CONNECTION, state, version, Some(owner), Some(until), token, None, None, None)
  }

  function At(tenant: string, events: set<OutKey>, v: Attempt): Repo { Repo(tenant, WithEvents(events), [v], map[]) }

  function Event(topic: string, version: int): OutKey { EventKey(topic, 0, version) }

  lemma FirstPreparation()
    ensures Gate(ApprovedPlane(), ADMIN, 0, CONNECTION, 0) == Commit(WithEvents({}), Preparation(INTENT, "m", 0))
    ensures Require(ApprovedPlane(), ADMIN, TenantAdmin).Pass?
  {
    var p := ApprovedPlane();
    AdminMay(p, ApproveProduct);
    AdminMay(p, TenantAdmin);
    hide Require;
    assert RequireApprover(p, "m", ApproveProduct).Pass?;
    hide RequireApprover;
    assert MembershipCheck(p, ADMIN).Pass?;
    assert IntentUnchanged(p.commands[0], p.approvals[0], p.intents[0]);
    assert p.preparations[0 := Preparation(INTENT, "m", 0)] == map[0 := Preparation(INTENT, "m", 0)];
    assert AddPreparation(p, 0, Preparation(INTENT, "m", 0)) == WithEvents({}) by {
      assert p.outbox + {ExecutionPrepared(0)} == {ApprovalRequested(0), ApprovalDecided(0), ExecutionPrepared(0)} + {};
    }
  }

  lemma PreparedFirst(tenant: string)
    ensures var v := Attempt(0, OpKey(tenant, 0), INTENT, ADAPTER_VERSION, PROVIDER, CONNECTION, Prepared, 1, None, None, 0, None, None, None);
      PrepareAttempt(Repo(tenant, ApprovedPlane(), [], map[]), ADMIN, 0, 1, 1, ADAPTER_VERSION, PROVIDER, CONNECTION, 0)
      == Commit(At(tenant, {Event("attempt.prepared", 1)}, v), (0, false))
  {
    FirstPreparation();
    GateOpens({}, 0);
    hide Gate, PrepareExecution, Require;
    var v := Attempt(0, OpKey(tenant, 0), INTENT, ADAPTER_VERSION, PROVIDER, CONNECTION, Prepared, 1, None, None, 0, None, None, None);
    assert [] + [v] == [v];
    assert {ApprovalRequested(0), ApprovalDecided(0), ExecutionPrepared(0)} + {} + {Event("attempt.prepared", 1)}
        == {ApprovalRequested(0), ApprovalDecided(0), ExecutionPrepared(0)} + {Event("attempt.prepared", 1)};
  }

  lemma Stored(tenant: string, events: set<OutKey>, v: Attempt, w: Attempt, topic: string)
    requires w.version == v.version + 1 && Event(topic, w.version) !in events
    ensures Execution.Store(At(tenant, events, v), WithEvents(events), 0, w, topic) == Commit(At(tenant, events + {Event(topic, w.version)}, w), w)
  {
    assert [v][0 := w] == [w];
    var base := {ApprovalRequested(0), ApprovalDecided(0), ExecutionPrepared(0)};
    assert base + events + {Event(topic, w.version)} == base + (events + {Event(topic, w.version)});
  }

  const E1 := {Event("attempt.prepared", 1)}
  const E2 := E1 + {Event("attempt.dispatching", 3)}
  const E3 := E2 + {Event("attempt.recovered_unknown", 4)}
  const E4 := E3 + {Event("attempt.reconciling", 5)}
  const E5 := E4 + {Event("attempt.observed", 6)}

  function Reviewed(tenant: string): Attempt {
    Stage(tenant, ManualReview, 6, 2, "b", 160).(leaseOwner := None, leaseUntil := None, lastObservedAt := Some(102))
  }

  lemma FirstWorker(tenant: string)
    ensures var v := Attempt(0, OpKey(tenant, 0), INTENT, ADAPTER_VERSION, PROVIDER, CONNECTION, Prepared, 1, None, None, 0, None, None, None);
      ClaimAttempt(At(tenant, E1, v), ADMIN, 0, "a", 1, 60, 0) == Commit(At(tenant, E1, Stage(tenant, Prepared, 2, 1, "a", 60)), Stage(tenant, Prepared, 2, 1, "a", 60))
    ensures BeginDispatch(At(tenant, E1, Stage(tenant, Prepared, 2, 1, "a", 60)), ADMIN, 0, "a", 1, 1)
      == Commit(At(tenant, E2, Stage(tenant, Dispatching, 3, 1, "a", 60)), Stage(tenant, Dispatching, 3, 1, "a", 60))
  {
    GateOpens(E1, 0);
    GateOpens(E1, 1);
    Stored(tenant, E1, Stage(tenant, Prepared, 2, 1, "a", 60), Stage(tenant, Dispatching, 3, 1, "a", 60), "attempt.dispatching");
    hide Gate, PrepareExecution, Require, Execution.Store;
    var v := Attempt(0, OpKey(tenant, 0), INTENT, ADAPTER_VERSION, PROVIDER, CONNECTION, Prepared, 1, None, None, 0, None, None, None);
    assert [v][0 := Stage(tenant, Prepared, 2, 1, "a", 60)] == [Stage(tenant, Prepared, 2, 1, "a", 60)];
  }

  lemma SecondWorker(tenant: string)
    ensures ClaimAttempt(At(tenant, E2, Stage(tenant, Dispatching, 3, 1, "a", 60)), ADMIN, 0, "b", 3, 60, 100)
      == Commit(At(tenant, E3, Stage(tenant, Unknown, 4, 2, "b", 160)), Stage(tenant, Unknown, 4, 2, "b", 160))
    ensures BeginReconciliation(At(tenant, E3, Stage(tenant, Unknown, 4, 2, "b", 160)), ADMIN, 0, "b", 2, 101)
      == Commit(At(tenant, E4, Stage(tenant, Reconciling, 5, 2, "b", 160)), Stage(tenant, Reconciling, 5, 2, "b", 160))
  {
    GateOpens(E2, 0);
    GateOpens(E3, 0);
    Stored(tenant, E2, Stage(tenant, Dispatching, 3, 1, "a", 60), Stage(tenant, Unknown, 4, 2, "b", 160), "attempt.recovered_unknown");
    Stored(tenant, E3, Stage(tenant, Unknown, 4, 2, "b", 160), Stage(tenant, Reconciling, 5, 2, "b", 160), "attempt.reconciling");
    hide Gate, PrepareExecution, Require, Execution.Store;
  }

  lemma ReviewRecorded(tenant: string)
    ensures RecordObservation(At(tenant, E4, Stage(tenant, Reconciling, 5, 2, "b", 160)), ADMIN, 0, "b", 2, Observation(Absent, None, false), 102)
      == Commit(At(tenant, E5, Reviewed(tenant)).(observations := map[0 := [Observation(Absent, None, false)]]), Reviewed(tenant))
  {
    GateOpens(E4, 0);
    Stored(tenant, E4, Stage(tenant, Reconciling, 5, 2, "b", 160), Reviewed(tenant), "attempt.observed");
    hide Gate, PrepareExecution, Require, Execution.Store;
    assert [] + [Observation(Absent, None, false)] == [Observation(Absent, None, false)];
  }

  function Here(repo: Repo, procs: map<nat, Process>): World { World(Store(repo, [], []), map[], procs) }

  function Dispatcher(): Process { Process("a", None, Calling(0, 1, ForDispatch)) }

  lemma FirstWorkerBegins(tenant: string)
    ensures var v := Attempt(0, OpKey(tenant, 0), INTENT, ADAPTER_VERSION, PROVIDER, CONNECTION, Prepared, 1, None, None, 0, None, None, None);
      Apply(Apply(Here(At(tenant, E1, v), map[]), TakeAttempt(0, ADMIN, "a", 0, 1, 60, 0)), Begin(0, ADMIN, ForDispatch, 1))
      == Here(At(tenant, E2, Stage(tenant, Dispatching, 3, 1, "a", 60)), map[0 := Dispatcher()])
  {
    FirstWorker(tenant);
    hide ClaimAttempt, BeginDispatch, WithEvents;
    var v := Attempt(0, OpKey(tenant, 0), INTENT, ADAPTER_VERSION, PROVIDER, CONNECTION, Prepared, 1, None, None, 0, None, None, None);
    var leased := Process("a", None, HasLease(0, 1));
    assert map[][0 := leased] == map[0 := leased] && map[0 := leased][0 := Dispatcher()] == map[0 := Dispatcher()];
    assert Apply(Here(At(tenant, E1, v), map[]), TakeAttempt(0, ADMIN, "a", 0, 1, 60, 0))
        == Here(At(tenant, E1, Stage(tenant, Prepared, 2, 1, "a", 60)), map[0 := leased]);
  }

  lemma BegunIs(tenant: string)
    ensures After(tenant, BegunSteps()) == Here(At(tenant, E2, Stage(tenant, Dispatching, 3, 1, "a", 60)), map[0 := Dispatcher()])
  {
    hide After, Apply, ClaimAttempt, BeginDispatch, PrepareAttempt, WithEvents, ApprovedPlane, ApprovedSteps, Stage, Dispatcher;
    AfterSnoc(tenant, ApprovedSteps(), PrepareDirect(ADMIN, 0, 1, 1, ADAPTER_VERSION, PROVIDER, CONNECTION, 0));
    AfterSnoc(tenant, PreparedSteps(), TakeAttempt(0, ADMIN, "a", 0, 1, 60, 0));
    AfterSnoc(tenant, LeasedSteps(), Begin(0, ADMIN, ForDispatch, 1));
    PreparedStep(tenant);
    FirstWorkerBegins(tenant);
  }

  lemma PreparedStep(tenant: string)
    ensures var v := Attempt(0, OpKey(tenant, 0), INTENT, ADAPTER_VERSION, PROVIDER, CONNECTION, Prepared, 1, None, None, 0, None, None, None);
      Apply(After(tenant, ApprovedSteps()), PrepareDirect(ADMIN, 0, 1, 1, ADAPTER_VERSION, PROVIDER, CONNECTION, 0)) == Here(At(tenant, E1, v), map[])
  {
    ApprovedIs(tenant);
    PreparedFirst(tenant);
    hide After, PrepareAttempt, ApprovedSteps, WithEvents, ApprovedPlane;
  }

  lemma SecondWorkerBegins(tenant: string, w: World)
    requires w == Here(At(tenant, E2, Stage(tenant, Dispatching, 3, 1, "a", 60)), map[0 := Dispatcher()])
    ensures Apply(Apply(w, TakeAttempt(1, ADMIN, "b", 0, 3, 60, 100)), Begin(1, ADMIN, ForLookup, 101))
            == Here(At(tenant, E4, Stage(tenant, Reconciling, 5, 2, "b", 160)), map[0 := Dispatcher(), 1 := Process("b", None, Calling(0, 2, ForLookup))])
  {
    SecondWorker(tenant);
    hide ClaimAttempt, BeginReconciliation, RecordObservation, WithEvents;
    var (leased, looking) := (Process("b", None, HasLease(0, 2)), Process("b", None, Calling(0, 2, ForLookup)));
    assert map[0 := Dispatcher()][1 := leased] == map[0 := Dispatcher(), 1 := leased];
    assert map[0 := Dispatcher(), 1 := leased][1 := looking] == map[0 := Dispatcher(), 1 := looking];
    assert Apply(w, TakeAttempt(1, ADMIN, "b", 0, 3, 60, 100))
        == Here(At(tenant, E3, Stage(tenant, Unknown, 4, 2, "b", 160)), map[0 := Dispatcher(), 1 := leased]);
  }

  lemma SecondWorkerHears(tenant: string, w: World)
    requires w == Here(At(tenant, E4, Stage(tenant, Reconciling, 5, 2, "b", 160)), map[0 := Dispatcher(), 1 := Process("b", None, Calling(0, 2, ForLookup))])
    ensures Apply(Apply(w, CallProvider(1, SuccessMode, false)), Record(1, ADMIN, 102))
            == Here(At(tenant, E5, Reviewed(tenant)).(observations := map[0 := [Observation(Absent, None, false)]]), map[0 := Dispatcher()])
  {
    ReviewRecorded(tenant);
    hide ClaimAttempt, BeginReconciliation, RecordObservation, WithEvents;
    var heard := Apply(w, CallProvider(1, SuccessMode, false));
    assert heard == w.(procs := map[0 := Dispatcher(), 1 := Process("b", None, Heard(0, 2, ForLookup, Observation(Absent, None, false)))]);
    assert map[0 := Dispatcher(), 1 := heard.procs[1]] - {1} == map[0 := Dispatcher()];
  }

  lemma ReviewedIs(tenant: string)
    ensures After(tenant, ReviewedSteps())
            == Here(At(tenant, E5, Reviewed(tenant)).(observations := map[0 := [Observation(Absent, None, false)]]), map[0 := Dispatcher()])
  {
    hide After, Apply, BegunSteps, WithEvents, Stage, Reviewed, Dispatcher;
    AfterSnoc(tenant, BegunSteps(), TakeAttempt(1, ADMIN, "b", 0, 3, 60, 100));
    AfterSnoc(tenant, TakenOverSteps(), Begin(1, ADMIN, ForLookup, 101));
    AfterSnoc(tenant, LookingSteps(), CallProvider(1, SuccessMode, false));
    AfterSnoc(tenant, AnsweredSteps(), Record(1, ADMIN, 102));
    BegunIs(tenant);
    SecondWorkerBegins(tenant, After(tenant, BegunSteps()));
    SecondWorkerHears(tenant, After(tenant, LookingSteps()));
  }

  /** The run reaches the review with the first worker still in its call. */
  lemma ReviewReached(tenant: string)
    ensures var w := After(tenant, ReviewedSteps()); UnderReview(w, 0) && SomeoneInFlight(w, 0)
  {
    hide After, WithEvents, ReviewedSteps;
    ReviewedIs(tenant);
    var w := After(tenant, ReviewedSteps());
    assert 0 in w.procs && w.procs[0] == Dispatcher() && InFlight(w.procs[0], 0);
  }

  /** So the effect happens after all, in the continuation in which that worker goes on. */
  lemma LateEffectHappens(tenant: string)
    ensures var w := After(tenant, ReviewedSteps());
      && UnderReview(w, 0) && exists more :: Happens(tenant, ReviewedSteps(), more, w.store.repo.attempts[0].key)
  {
    hide After, ReviewedSteps;
    ReviewReached(tenant);
    LateEffectExact(tenant, ReviewedSteps(), 0);
  }
}

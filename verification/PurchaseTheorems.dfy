/** The promises about purchase orders, over every run of the shop. */
module PurchaseTheorems {
  import opened Common
  import opened Domain
  import opened ControlPlane
  import opened Routing
  import opened PurchaseOrders
  import opened PurchaseSafety
  import opened PurchaseLifecycle
  import X = ExecutionSafety
  import E = ExactlyOnce

  datatype Step =
    | Receive(channel: string, items: seq<(string, int)>)
    | Propose(ctx: Context, order: nat, quotes: Quotes, expected: int, now: int)
    | Approve(ctx: Context, po: nat, approve: bool, now: int)
    | Regenerate(ctx: Context, po: nat, expected: int, now: int)
    | Submit(ctx: Context, po: nat, now: int)
    | Reconcile(ctx: Context, po: nat, answer: Answer, digest: string)
    | Cancel(ctx: Context, order: nat, expected: int)
    | Others(step: E.Step)   // members, stops, direct decisions, expiry, other callers' commands

  function StateAfter<T>(s: Shop, tx: Tx<Shop, T>): Shop {
    match tx case Commit(t, _) => t case Abort(_) => s
  }

  function Apply(s: Shop, step: Step): Shop {
    match step
    case Receive(channel, items) => StateAfter(s, Ingest(s, channel, items))
    case Propose(ctx, o, quotes, expected, now) => StateAfter(s, ProposeRouting(s, ctx, o, quotes, expected, now))
    case Approve(ctx, p, approve, now) => StateAfter(s, ApprovePo(s, ctx, p, approve, now))
    case Regenerate(ctx, p, expected, now) => StateAfter(s, RegeneratePo(s, ctx, p, expected, now))
    case Submit(ctx, p, now) => StateAfter(s, SubmitPo(s, ctx, p, now))
    case Reconcile(ctx, p, answer, digest) => StateAfter(s, ReconcilePo(s, ctx, p, answer, digest))
    case Cancel(ctx, o, expected) => StateAfter(s, RequestCancel(s, ctx, o, expected))
    case Others(step) => s.(plane := E.PlaneAfter(s.plane, step))
  }

  function Empty(): Shop { Shop(EmptyPlane(), [], [], map[], []) }

  function After(steps: seq<Step>): Shop {
    if steps == [] then Empty() else Apply(After(steps[..|steps| - 1]), steps[|steps| - 1])
  }

  lemma StepKeeps(s: Shop, step: Step)
    requires ShopInv(s)
    ensures ShopInv(Apply(s, step))
  {
    hide ShopInv, Ingest, ProposeRouting, ApprovePo, RegeneratePo, SubmitPo, ReconcilePo, RequestCancel, E.PlaneAfter, Calm, PlaneSound;
    match step {
      case Receive(channel, items) => IngestKeeps(s, channel, items);
      case Propose(ctx, o, quotes, expected, now) => ProposeKeeps(s, ctx, o, quotes, expected, now);
      case Approve(ctx, p, approve, now) => ApproveKeeps(s, ctx, p, approve, now);
      case Regenerate(ctx, p, expected, now) => RegenerateKeeps(s, ctx, p, expected, now);
      case Submit(ctx, p, now) => SubmitKeeps(s, ctx, p, now);
      case Reconcile(ctx, p, answer, digest) => ReconcileKeeps(s, ctx, p, answer, digest);
      case Cancel(ctx, o, expected) => CancelKeeps(s, ctx, o, expected);
      case Others(other) =>
        ShopPlane(s);
        OthersCalm(s.plane, other);
        PlaneMoves(s, E.PlaneAfter(s.plane, other));
    }
  }

  lemma EmptyOk()
    ensures ShopInv(Empty())
  {}

  lemma {:induction false} RunKeeps(steps: seq<Step>)
    ensures ShopInv(After(steps))
  {
    hide ShopInv, Apply;
    if steps == [] {
      EmptyOk();
    } else {
      RunKeeps(steps[..|steps| - 1]);
      StepKeeps(After(steps[..|steps| - 1]), steps[|steps| - 1]);
    }
  }

  /** While an order waits for its purchases, each purchase order's approval targets
      exactly the order's version, and asks for exactly what the routing supports today. */
  lemma PendingMatchesOrder(steps: seq<Step>, p: nat)
    requires p < |After(steps).pos|
    ensures var s := After(steps);
      var po := s.pos[p];
      && po.order < |s.orders| && po.approval in s.plane.intents && po.approval < |s.plane.commands|
      && RoutedPayload(s, po) == Some(s.plane.commands[po.approval].payload)
      && (s.orders[po.order].status == PoPending ==> s.plane.intents[po.approval].targetVersion == s.orders[po.order].version)
  {
    RunKeeps(steps);
    assert PoOk(After(steps), p);
  }

  /** Whatever was sent to a supplier had its execution prepared, with the digest of
      an intent for exactly the lines of this purchase order. */
  lemma SentWasPrepared(steps: seq<Step>, p: nat)
    requires p < |After(steps).pos| && Sent(After(steps).pos[p].status)
    ensures var s := After(steps);
      var c := s.pos[p].approval;
      && c in s.plane.preparations && c in s.plane.intents && s.plane.preparations[c].digest == s.plane.intents[c].digest
      && s.plane.preparations[c].digest.payload == PayloadOf(s.pos[p]) && s.plane.preparations[c].digest.kind == Purchase
  {
    RunKeeps(steps);
    var s := After(steps);
    assert PoOk(s, p);
    PlaneSoundIs(s.plane);
    assert IntentUnchanged(s.plane.commands[s.pos[p].approval], s.plane.approvals[s.pos[p].approval], s.plane.intents[s.pos[p].approval]);
  }

  // ------------------------------------------------------------- what never changes

  /** What every step leaves alone: identities and lines of purchase orders, announced
      events, and everything about an order once it is cancelled. */
  ghost predicate Progress(s: Shop, t: Shop) {
    && |s.orders| <= |t.orders| && |s.pos| <= |t.pos|
    && (forall p | 0 <= p < |s.pos| :: SamePo(s.pos[p], t.pos[p]))
    && (forall k | PurchaseEvent(k) && k in s.plane.outbox :: k in t.plane.outbox)
    && (forall o | 0 <= o < |s.orders| && s.orders[o].status == OrderCancelled :: t.orders[o] == s.orders[o])
    && (forall p | 0 <= p < |s.pos| && s.pos[p].order < |s.orders| && s.orders[s.pos[p].order].status == OrderCancelled :: t.pos[p] == s.pos[p])
  }

  predicate SamePo(po: PurchaseOrder, next: PurchaseOrder) {
    next.order == po.order && next.supplier == po.supplier && next.lines == po.lines && next.version >= po.version
  }

  lemma PoProgress(s: Shop, plane: Plane, p: nat, next: PurchaseOrder)
    requires p < |s.pos| && SamePo(s.pos[p], next) && s.pos[p].order < |s.orders| && s.orders[s.pos[p].order].status == PoPending
    requires forall k | PurchaseEvent(k) && k in s.plane.outbox :: k in plane.outbox
    ensures Progress(s, SetPo(s.(plane := plane), p, next))
  {}

  lemma CalmEvents(p: Plane, q: Plane, event: OutKey)
    requires Calm(p, q)
    ensures forall k | PurchaseEvent(k) && k in p.outbox :: k in q.outbox && k in With(q, event).outbox
  {}

  lemma ApproveProgress(s: Shop, ctx: Context, p: nat, approve: bool, now: int)
    requires ShopInv(s)
    ensures var tx := ApprovePo(s, ctx, p, approve, now); tx.Commit? ==> Progress(s, tx.state)
  {
    hide ShopInv, Decide, Calm, Require, VerifyPo;
    var tx := ApprovePo(s, ctx, p, approve, now);
    if tx.Commit? {
      ShopPlane(s);
      Verified(s, p);
      DecideCalm(s.plane, ctx, s.pos[p].approval, approve, now);
      hide PlaneSound;
      CalmEvents(s.plane, Decide(s.plane, ctx, s.pos[p].approval, approve, now).state, PoDecided(p, approve));
    }
  }

  lemma RegenerateProgress(s: Shop, ctx: Context, p: nat, expected: int, now: int)
    requires ShopInv(s)
    ensures var tx := RegeneratePo(s, ctx, p, expected, now); tx.Commit? ==> Progress(s, tx.state)
  {
    hide ShopInv, RequestApproval, Calm, Require, PlaneSound;
    var tx := RegeneratePo(s, ctx, p, expected, now);
    if tx.Commit? {
      ShopPlane(s);
      var po := s.pos[p];
      var key := PurchaseRenewal(po.order, po.supplier, po.version + 1);
      RequestCalm(s.plane, ctx, Purchase, Target(po.order, po.supplier), RoutedPayload(s, po).value, key, 1, s.orders[po.order].version, "", now);
      var q := RequestApproval(s.plane, ctx, Purchase, Target(po.order, po.supplier), RoutedPayload(s, po).value, key, 1, s.orders[po.order].version, "", now);
      CalmEvents(s.plane, q.state, PoRegenerated(p, po.version + 1));
      PoProgress(s, tx.state.plane, p, tx.state.pos[p]);
    }
  }

  lemma SubmitProgress(s: Shop, ctx: Context, p: nat, now: int)
    requires ShopInv(s)
    ensures var tx := SubmitPo(s, ctx, p, now); tx.Commit? ==> Progress(s, tx.state)
  {
    hide ShopInv, PrepareExecution, Calm, Require, PlaneSound, StopActive;
    var tx := SubmitPo(s, ctx, p, now);
    if tx.Commit? {
      ShopPlane(s);
      var po := s.pos[p];
      var pv := s.plane.intents[po.approval].policyVersion;
      PrepareCalm(s.plane, ctx, po.approval, pv, s.orders[po.order].version, now);
      CalmEvents(s.plane, PrepareExecution(s.plane, ctx, po.approval, pv, s.orders[po.order].version, now).state, PoSubmitted(p));
      PoProgress(s, tx.state.plane, p, tx.state.pos[p]);
    }
  }

  lemma ReconcileProgress(s: Shop, ctx: Context, p: nat, answer: Answer, digest: string)
    requires ShopInv(s)
    ensures var tx := ReconcilePo(s, ctx, p, answer, digest); tx.Commit? ==> Progress(s, tx.state)
  {
    hide ShopInv, Require;
    var tx := ReconcilePo(s, ctx, p, answer, digest);
    if tx.Commit? && tx.state != s {
      InvPo(s, p);
      PoProgress(s, tx.state.plane, p, tx.state.pos[p]);
    }
  }

  lemma CancelProgress(s: Shop, ctx: Context, o: nat, expected: int)
    requires ShopInv(s)
    ensures var tx := RequestCancel(s, ctx, o, expected); tx.Commit? ==> Progress(s, tx.state)
  {
    hide ShopInv, Require, CancelPos;
    var tx := RequestCancel(s, ctx, o, expected);
    if tx.Commit? && !tx.value {
      CancelLoop(SetOrder(s, o, OrderCancelled), o, |s.pos|);
      assert CancelledUpTo(SetOrder(s, o, OrderCancelled), CancelPos(SetOrder(s, o, OrderCancelled), o, |s.pos|).state, o, |s.pos|);
    }
  }

  lemma ProposeProgress(s: Shop, ctx: Context, o: nat, quotes: Quotes, expected: int, now: int)
    requires ShopInv(s)
    ensures var tx := ProposeRouting(s, ctx, o, quotes, expected, now); tx.Commit? ==> Progress(s, tx.state)
  {
    hide ShopInv, Require, Select, Drafts, Decided, CreatePos, LinesOf, PosOf;
    var tx := ProposeRouting(s, ctx, o, quotes, expected, now);
    if tx.Commit? && PosOf(s.pos, o) == [] {
      NoPos(s, o);
      var selected := Select(LinesOf(s.lines, o), quotes);
      if selected.Some? {
        var u := SetOrder(s, o, PoPending);
        OrderMoves(s, o, PoPending);
        DecideLoop(u, selected.value);
        var t := Decided(u, selected.value).state;
        DecidingKeeps(u, t, selected.value);
        DraftsReady(u, t, o, quotes);
        CreateLoop(t, ctx, o, Drafts(selected.value), now);
        CreateEvents(t, ctx, o, Drafts(selected.value), now);
        hide PoFor, ChoiceDecided, Ready;
      }
    }
  }

  lemma {:induction false} CreateEvents(s: Shop, ctx: Context, o: nat, drafts: seq<Draft>, now: int)
    requires ShopInv(s) && Ready(s, o, drafts) && o < |s.orders|
    ensures var tx := CreatePos(s, ctx, o, drafts, now);
      tx.Commit? ==> forall k | PurchaseEvent(k) && k in s.plane.outbox :: k in tx.state.plane.outbox
  {
    hide ShopInv, DraftReady, RequestApproval, Calm, PlaneSound;
    if drafts != [] {
      var (before, last) := (drafts[..|drafts| - 1], drafts[|drafts| - 1]);
      assert forall i | 0 <= i < |before| :: before[i] == drafts[i];
      CreateEvents(s, ctx, o, before, now);
      CreateLoop(s, ctx, o, before, now);
      var mid := CreatePos(s, ctx, o, before, now);
      if CreatePos(s, ctx, o, drafts, now).Commit? {
        var t := mid.state;
        ShopPlane(t);
        RequestCalm(t.plane, ctx, Purchase, Target(o, last.supplier), PurchasePayload(o, last.supplier, last.lines),
                    PurchaseApproval(o, last.supplier), 1, t.orders[o].version, "", now);
        var q := RequestApproval(t.plane, ctx, Purchase, Target(o, last.supplier), PurchasePayload(o, last.supplier, last.lines),
                                 PurchaseApproval(o, last.supplier), 1, t.orders[o].version, "", now);
        CalmEvents(t.plane, q.state, CancelledOrder(o));
      }
    }
  }

  lemma OthersProgress(s: Shop, step: E.Step)
    requires ShopInv(s)
    ensures Progress(s, s.(plane := E.PlaneAfter(s.plane, step)))
  {
    hide ShopInv, E.PlaneAfter, PlaneSound, Calm;
    ShopPlane(s);
    OthersCalm(s.plane, step);
    CalmEvents(s.plane, E.PlaneAfter(s.plane, step), CancelledOrder(0));
  }

  lemma StepProgress(s: Shop, step: Step)
    requires ShopInv(s)
    ensures Progress(s, Apply(s, step))
  {
    hide ShopInv, ProposeRouting, ApprovePo, RegeneratePo, SubmitPo, ReconcilePo, RequestCancel, E.PlaneAfter;
    match step {
      case Receive(channel, items) =>
      case Propose(ctx, o, quotes, expected, now) => ProposeProgress(s, ctx, o, quotes, expected, now);
      case Approve(ctx, p, approve, now) => ApproveProgress(s, ctx, p, approve, now);
      case Regenerate(ctx, p, expected, now) => RegenerateProgress(s, ctx, p, expected, now);
      case Submit(ctx, p, now) => SubmitProgress(s, ctx, p, now);
      case Reconcile(ctx, p, answer, digest) => ReconcileProgress(s, ctx, p, answer, digest);
      case Cancel(ctx, o, expected) => CancelProgress(s, ctx, o, expected);
      case Others(other) => OthersProgress(s, other);
    }
  }

  lemma ProgressTransitive(s: Shop, t: Shop, u: Shop)
    requires Progress(s, t) && Progress(t, u)
    ensures Progress(s, u)
  {}

  lemma {:induction false} RunProgress(steps: seq<Step>, n: nat)
    requires n <= |steps|
    ensures Progress(After(steps[..n]), After(steps))
  {
    hide ShopInv, Apply;
    if n == |steps| {
      assert steps[..n] == steps;
    } else {
      var shorter := steps[..|steps| - 1];
      assert shorter[..n] == steps[..n];
      RunProgress(shorter, n);
      RunKeeps(shorter);
      StepProgress(After(shorter), steps[|steps| - 1]);
      ProgressTransitive(After(steps[..n]), After(shorter), After(steps));
    }
  }

  /** Once an order is cancelled it stays cancelled, and each of its purchase orders
      is frozen as cancelled, asked to be cancelled, or failed, for good. */
  lemma CancelledIsFrozen(steps: seq<Step>, n: nat, p: nat)
    requires n <= |steps| && p < |After(steps[..n]).pos|
    requires var s := After(steps[..n]); s.pos[p].order < |s.orders| && s.orders[s.pos[p].order].status == OrderCancelled
    ensures p < |After(steps).pos| && After(steps).pos[p] == After(steps[..n]).pos[p]
    ensures After(steps).pos[p].status in {PoCancelled, CancelRequested, PoException}
    ensures var o := After(steps).pos[p].order;
      o < |After(steps).orders| && After(steps).orders[o].status == OrderCancelled && After(steps).orders[o] == After(steps[..n]).orders[o]
  {
    RunProgress(steps, n);
    RunKeeps(steps[..n]);
    InvPo(After(steps[..n]), p);
  }

  // ----------------------------------------------------------------------- proposals

  lemma {:induction false} DecideLoopTotal(s: Shop, choices: seq<Choice>)
    requires forall i | 0 <= i < |choices| :: choices[i].line.id < |s.lines| && choices[i].line.id !in s.decisions
    requires forall i, j | 0 <= i < j < |choices| :: choices[i].line.id < choices[j].line.id
    ensures Decided(s, choices).Commit?
  {
    if choices != [] {
      var before := choices[..|choices| - 1];
      DecideLoopTotal(s, before);
      DecideLoop(s, before);
      var last := choices[|choices| - 1].line.id;
      var t := Decided(s, before).state;
      assert forall i | 0 <= i < |before| :: before[i] == choices[i] && before[i].line.id != last;
      assert last in t.decisions ==> Chosen(before, last);
    }
  }

  /** The approval key of each draft is free, or taken for the very same request. */
  ghost predicate KeysOpen(p: Plane, o: nat, version: int, drafts: seq<Draft>) {
    forall i | 0 <= i < |drafts| :: DraftKeyOpen(p, o, version, drafts[i])
  }

  ghost predicate DraftKeyOpen(p: Plane, o: nat, version: int, d: Draft) {
    KeyOpen(p, Purchase, Target(o, d.supplier), PurchasePayload(o, d.supplier, d.lines), PurchaseApproval(o, d.supplier), 1, version, "")
  }

  lemma CreateOneExact(t: Shop, ctx: Context, o: nat, d: Draft, now: int)
    requires ShopInv(t) && o < |t.orders|
    ensures CreatePo(t, ctx, o, d, now).Commit? <==> Require(t.plane, ctx, ApprovePurchase).Pass? && DraftKeyOpen(t.plane, o, t.orders[o].version, d)
    ensures CreatePo(t, ctx, o, d, now).Commit? ==> CreatePo(t, ctx, o, d, now).state.plane.members == t.plane.members
  {
    ShopPlane(t);
    OrderVersions(t, o);
    hide ShopInv, RequestApproval, PlaneSound, KeyOpen, Require;
    RequestMembers(t.plane, ctx, Purchase, Target(o, d.supplier), PurchasePayload(o, d.supplier, d.lines), PurchaseApproval(o, d.supplier), 1, t.orders[o].version, "", now);
    RequestExact(t.plane, ctx, Purchase, Target(o, d.supplier), PurchasePayload(o, d.supplier, d.lines), PurchaseApproval(o, d.supplier), 1, t.orders[o].version, "", now);
  }

  lemma CreateKeepsOpen(t: Shop, ctx: Context, o: nat, d: Draft, now: int, version: int, e: Draft)
    requires ShopInv(t) && o < |t.orders| && t.orders[o].version == version && e.supplier != d.supplier
    ensures CreatePo(t, ctx, o, d, now).Commit? ==>
              (DraftKeyOpen(t.plane, o, version, e) <==> DraftKeyOpen(CreatePo(t, ctx, o, d, now).state.plane, o, version, e))
  {
    ShopPlane(t);
    hide ShopInv, RequestApproval, PlaneSound, KeyOpen;
    OtherKeysStay(t.plane, ctx, Purchase, Target(o, d.supplier), PurchasePayload(o, d.supplier, d.lines), PurchaseApproval(o, d.supplier), 1, version, "", now,
                  Target(o, e.supplier), PurchasePayload(o, e.supplier, e.lines), PurchaseApproval(o, e.supplier));
  }

  lemma {:induction false} LoopKeepsOpen(s: Shop, ctx: Context, o: nat, drafts: seq<Draft>, now: int, e: Draft)
    requires ShopInv(s) && Ready(s, o, drafts) && o < |s.orders|
    requires forall i | 0 <= i < |drafts| :: drafts[i].supplier != e.supplier
    ensures var tx := CreatePos(s, ctx, o, drafts, now);
      tx.Commit? ==> (DraftKeyOpen(s.plane, o, s.orders[o].version, e) <==> DraftKeyOpen(tx.state.plane, o, s.orders[o].version, e))
  {
    hide ShopInv, DraftReady, CreatePo, DraftKeyOpen;
    if drafts != [] {
      var before := drafts[..|drafts| - 1];
      assert forall i | 0 <= i < |before| :: before[i] == drafts[i];
      LoopKeepsOpen(s, ctx, o, before, now, e);
      CreateLoop(s, ctx, o, before, now);
      if CreatePos(s, ctx, o, drafts, now).Commit? {
        CreateKeepsOpen(CreatePos(s, ctx, o, before, now).state, ctx, o, drafts[|drafts| - 1], now, s.orders[o].version, e);
      }
    }
  }

  lemma {:induction false} CreateLoopExact(s: Shop, ctx: Context, o: nat, drafts: seq<Draft>, now: int)
    requires ShopInv(s) && Ready(s, o, drafts) && o < |s.orders|
    ensures CreatePos(s, ctx, o, drafts, now).Commit?
            <==> drafts == [] || (Require(s.plane, ctx, ApprovePurchase).Pass? && KeysOpen(s.plane, o, s.orders[o].version, drafts))
    ensures CreatePos(s, ctx, o, drafts, now).Commit? ==> CreatePos(s, ctx, o, drafts, now).state.plane.members == s.plane.members
  {
    hide ShopInv, DraftReady, CreatePo, DraftKeyOpen;
    if drafts != [] {
      var (before, last) := (drafts[..|drafts| - 1], drafts[|drafts| - 1]);
      assert forall i | 0 <= i < |before| :: before[i] == drafts[i];
      assert KeysOpen(s.plane, o, s.orders[o].version, drafts)
        <==> KeysOpen(s.plane, o, s.orders[o].version, before) && DraftKeyOpen(s.plane, o, s.orders[o].version, last);
      CreateLoopExact(s, ctx, o, before, now);
      CreateLoop(s, ctx, o, before, now);
      LoopKeepsOpen(s, ctx, o, before, now, last);
      var mid := CreatePos(s, ctx, o, before, now);
      if mid.Commit? {
        CreateOneExact(mid.state, ctx, o, last, now);
        hide Ready, Created, KeysOpen;
        assert Require(mid.state.plane, ctx, ApprovePurchase) == Require(s.plane, ctx, ApprovePurchase);
      }
    }
  }

  lemma OrderVersions(s: Shop, o: nat)
    requires ShopInv(s) && o < |s.orders|
    ensures s.orders[o].version >= 1
  {}

  /** Exactly when an order can be routed: by someone who may also ask for purchase
      approvals, under keys nobody took for anything else, unless no purchase order has to be made. */
  lemma ProposableExact(steps: seq<Step>, ctx: Context, o: nat, quotes: Quotes, expected: int, now: int)
    ensures var s := After(steps);
      ProposeRouting(s, ctx, o, quotes, expected, now).Commit? <==> Proposable(s, ctx, o, quotes, expected)
  {
    RunKeeps(steps);
    RunDecisions(steps);
    ProposableWhen(After(steps), ctx, o, quotes, expected, now);
  }

  ghost predicate Proposable(s: Shop, ctx: Context, o: nat, quotes: Quotes, expected: int) {
    && Require(s.plane, ctx, TenantAdmin).Pass? && o < |s.orders| && s.orders[o].version == expected
    && s.orders[o].status in {OrderAccepted, InRouting, PoPending}
    && (PosOf(s.pos, o) == [] && Select(LinesOf(s.lines, o), quotes).Some? ==>
          var drafts := Drafts(Select(LinesOf(s.lines, o), quotes).value);
          drafts == [] || (Require(s.plane, ctx, ApprovePurchase).Pass? && KeysOpen(s.plane, o, s.orders[o].version + 1, drafts)))
  }

  lemma ProposableWhen(s: Shop, ctx: Context, o: nat, quotes: Quotes, expected: int, now: int)
    requires ShopInv(s) && DecisionsOk(s)
    ensures ProposeRouting(s, ctx, o, quotes, expected, now).Commit? <==> Proposable(s, ctx, o, quotes, expected)
  {
    hide ShopInv, Require, Select, Drafts, Decided, CreatePos, LinesOf, PosOf;
    if o < |s.orders| && s.orders[o].status in {OrderAccepted, InRouting, PoPending} && PosOf(s.pos, o) == [] {
      NoPos(s, o);
      var lines := LinesOf(s.lines, o);
      var selected := Select(lines, quotes);
      if selected.Some? {
        var u := SetOrder(s, o, PoPending);
        OrderMoves(s, o, PoPending);
        SelectExact(lines, quotes);
        LinesOfExact(s.lines, o);
        hide Unroutable;
        forall i | 0 <= i < |selected.value| ensures selected.value[i].line == lines[i] && lines[i].id !in s.decisions {
          assert LeastFor(selected.value[i], lines[i], quotes);
        }
        hide LeastFor;
        DecideLoopTotal(u, selected.value);
        DecideLoop(u, selected.value);
        var t := Decided(u, selected.value).state;
        DecidingKeeps(u, t, selected.value);
        DraftsReady(u, t, o, quotes);
        CreateLoopExact(t, ctx, o, Drafts(selected.value), now);
        hide DecidedFor, Ready, KeysOpen;
        assert Require(t.plane, ctx, ApprovePurchase) == Require(s.plane, ctx, ApprovePurchase);
      }
    }
  }

  /** Purchase orders once made keep their order's lines decided. */
  lemma StepDecisions(s: Shop, step: Step)
    requires ShopInv(s) && DecisionsOk(s)
    ensures DecisionsOk(Apply(s, step))
  {
    hide ShopInv, DecisionsOk;
    var t := Apply(s, step);
    StepProgress(s, step);
    if step.Propose? {
      ProposeDecisions(s, step.ctx, step.order, step.quotes, step.expected, step.now);
    } else {
      DecisionsSame(s, step);
      DecisionsStay(s, t);
    }
  }

  lemma DecisionsStay(s: Shop, t: Shop)
    requires DecisionsOk(s) && Progress(s, t) && t.decisions == s.decisions && |s.lines| <= |t.lines|
    requires forall l | 0 <= l < |s.lines| :: t.lines[l].order == s.lines[l].order
    ensures DecisionsOk(t)
  {
    forall l | l in t.decisions ensures l < |t.lines| && HasAnyPo(t, t.lines[l].order) {
      var p :| 0 <= p < |s.pos| && s.pos[p].order == s.lines[l].order;
      assert SamePo(s.pos[p], t.pos[p]);
    }
  }

  lemma DecisionsSame(s: Shop, step: Step)
    requires !step.Propose?
    ensures var t := Apply(s, step); t.decisions == s.decisions && s.lines <= t.lines
  {
    hide VerifyPo, Decide, Require, RoutedPayload, Renewable, RequestApproval, PrepareExecution, StopActive, E.PlaneAfter, AppendOutbox, CancelPos;
    if step.Cancel? && step.order < |s.orders| { CancelLoop(SetOrder(s, step.order, OrderCancelled), step.order, |s.pos|); }
  }

  lemma ProposeDecisions(s: Shop, ctx: Context, o: nat, quotes: Quotes, expected: int, now: int)
    requires ShopInv(s) && DecisionsOk(s)
    ensures DecisionsOk(StateAfter(s, ProposeRouting(s, ctx, o, quotes, expected, now)))
  {
    hide ShopInv, DecisionsOk, Require, Select, Drafts, Decided, CreatePos, LinesOf, PosOf;
    var tx := ProposeRouting(s, ctx, o, quotes, expected, now);
    if tx.Commit? && PosOf(s.pos, o) == [] {
      NoPos(s, o);
      var selected := Select(LinesOf(s.lines, o), quotes);
      if selected.None? {
        DecisionsAlone(s, SetOrder(s, o, OrderException));
      } else {
        var u := SetOrder(s, o, PoPending);
        OrderMoves(s, o, PoPending);
        DecideLoop(u, selected.value);
        var t := Decided(u, selected.value).state;
        DecidingKeeps(u, t, selected.value);
        DraftsReady(u, t, o, quotes);
        CreateLoop(t, ctx, o, Drafts(selected.value), now);
        hide Ready;
        DecisionsAlone(s, u);
        NewDecisions(u, t, tx.state, o, quotes);
      }
    }
  }

  lemma DecisionsAlone(s: Shop, t: Shop)
    requires DecisionsOk(s) && t.decisions == s.decisions && t.lines == s.lines && t.pos == s.pos
    ensures DecisionsOk(t)
  {
    assert forall o :: HasAnyPo(s, o) ==> HasAnyPo(t, o);
  }

  lemma NewDecisions(u: Shop, t: Shop, v: Shop, o: nat, quotes: Quotes)
    requires DecisionsOk(u) && Select(LinesOf(u.lines, o), quotes).Some?
    requires DecidedFor(u, t, Select(LinesOf(u.lines, o), quotes).value)
    requires Created(t, v, o, Drafts(Select(LinesOf(u.lines, o), quotes).value))
    ensures DecisionsOk(v)
  {
    var lines := LinesOf(u.lines, o);
    var choices := Select(lines, quotes).value;
    SelectExact(lines, quotes);
    LinesOfExact(u.lines, o);
    SuppliersSorted(choices);
    DraftsAre(choices);
    hide Select, LinesOf, Drafts, Unroutable, ChoiceDecided;
    forall l | l in v.decisions ensures l < |v.lines| && HasAnyPo(v, v.lines[l].order) {
      if l in u.decisions {
        var p :| 0 <= p < |u.pos| && u.pos[p].order == u.lines[l].order;
        assert v.pos[p] == t.pos[p];
      } else {
        var i :| 0 <= i < |choices| && choices[i].line.id == l;
        assert LeastFor(choices[i], lines[i], quotes);
        assert choices[i].supplier in Suppliers(choices);
        assert PoFor(v.pos[|t.pos|], o, Drafts(choices)[0]);
      }
    }
  }

  lemma {:induction false} RunDecisions(steps: seq<Step>)
    ensures DecisionsOk(After(steps))
  {
    hide ShopInv, Apply;
    if steps != [] {
      RunDecisions(steps[..|steps| - 1]);
      RunKeeps(steps[..|steps| - 1]);
      hide DecisionsOk;
      StepDecisions(After(steps[..|steps| - 1]), steps[|steps| - 1]);
    }
  }

  // ------------------------------------------------------------- decisions and renewals

  /** Exactly when a purchase order can be decided: it waits for approval under an
      order that still wants it, its approval is pending and in time, the caller has
      the capability, and this purchase order was never before decided the same way. */
  lemma DecidableExact(s: Shop, ctx: Context, p: nat, approve: bool, now: int)
    requires ShopInv(s)
    ensures ApprovePo(s, ctx, p, approve, now).Commit? && !ApprovePo(s, ctx, p, approve, now).value <==>
              Require(s.plane, ctx, ApprovePurchase).Pass? && p < |s.pos| && s.pos[p].status == ApprovalPending
              && s.pos[p].order < |s.orders| && s.orders[s.pos[p].order].status == PoPending
              && s.pos[p].approval < |s.plane.approvals| && s.pos[p].approval < |s.plane.commands|
              && s.plane.approvals[s.pos[p].approval].state == Pending && s.plane.commands[s.pos[p].approval].state == Pending
              && now < s.plane.approvals[s.pos[p].approval].expiresAt
              && PoDecided(p, approve) !in s.plane.outbox
  {
    hide *;
    ApproveShape(s, ctx, p, approve, now);
    if p < |s.pos| {
      InvPo(s, p);
      ShopPlane(s);
      PlaneCapability(s, p);
      PendingSound(s, p);
      DecideExact(s.plane, ctx, s.pos[p].approval, approve, now);
      DecidesQuietly(s.plane, ctx, s.pos[p].approval, approve, now, PoDecided(p, approve));
    }
  }

  lemma ApproveShape(s: Shop, ctx: Context, p: nat, approve: bool, now: int)
    ensures ApprovePo(s, ctx, p, approve, now).Commit? && !ApprovePo(s, ctx, p, approve, now).value <==>
              && Require(s.plane, ctx, ApprovePurchase).Pass? && p < |s.pos| && VerifyPo(s, p).Pass?
              && var tx := Decide(s.plane, ctx, s.pos[p].approval, approve, now);
                 tx.Commit? && !tx.value && PoDecided(p, approve) !in tx.state.outbox
  {
    hide Require, VerifyPo, Decide;
    assert p >= |s.pos| ==> VerifyPo(s, p).Fail? by { NoSuchPo(s, p); }
  }

  lemma NoSuchPo(s: Shop, p: nat)
    ensures p >= |s.pos| ==> VerifyPo(s, p).Fail?
  {}

  lemma DecidesQuietly(plane: Plane, ctx: Context, c: nat, approve: bool, now: int, event: OutKey)
    requires PlaneSound(plane) && event.PoDecided?
    ensures var tx := Decide(plane, ctx, c, approve, now); tx.Commit? ==> (event in tx.state.outbox <==> event in plane.outbox)
  {
    hide Require, PlaneSound;
  }

  /** The routing, the order's version and the approval's content never stand in the way. */
  lemma PendingSound(s: Shop, p: nat)
    requires p < |s.pos| && PoOk(s, p)
    ensures VerifyPo(s, p).Pass? <==>
              s.pos[p].status == ApprovalPending && s.orders[s.pos[p].order].status == PoPending
              && s.plane.commands[s.pos[p].approval].state == Pending && s.plane.approvals[s.pos[p].approval].state == Pending
  {}

  lemma DecideExact(plane: Plane, ctx: Context, c: nat, approve: bool, now: int)
    requires PlaneSound(plane) && c < |plane.commands| && c < |plane.approvals|
    ensures Decide(plane, ctx, c, approve, now).Commit? && !Decide(plane, ctx, c, approve, now).value <==>
              Require(plane, ctx, ApprovalCapability(plane.commands[c].kind)).Pass? && plane.approvals[c].state == Pending && now < plane.approvals[c].expiresAt
  {
    PlaneSoundIs(plane);
    hide Require, PlaneSound, X.PlaneInv, KeysBind;
  }

  lemma PlaneCapability(s: Shop, p: nat)
    requires p < |s.pos| && PoOk(s, p)
    ensures ApprovalCapability(s.plane.commands[s.pos[p].approval].kind) == ApprovePurchase
  {
  }

  /** A purchase order is approved at most once, and rejected at most once, however
      often its approval is renewed in between. */
  lemma DecidedOnce(steps: seq<Step>, n: nat, ctx: Context, p: nat, approve: bool, now: int, again: Context, later: int)
    requires n <= |steps|
    requires var tx := ApprovePo(After(steps[..n]), ctx, p, approve, now); tx.Commit? && !tx.value
    requires n < |steps| && steps[n] == Approve(ctx, p, approve, now)
    ensures var tx := ApprovePo(After(steps), again, p, approve, later); tx.Commit? ==> tx.value
  {
    hide ShopInv, ApprovePo, After, Apply;
    DecidedThere(steps, n, ctx, p, approve, now);
    RunProgress(steps, n + 1);
    RunKeeps(steps);
    DecidableExact(After(steps), again, p, approve, later);
  }

  lemma DecidedThere(steps: seq<Step>, n: nat, ctx: Context, p: nat, approve: bool, now: int)
    requires n < |steps| && steps[n] == Approve(ctx, p, approve, now)
    requires var tx := ApprovePo(After(steps[..n]), ctx, p, approve, now); tx.Commit? && !tx.value
    ensures PoDecided(p, approve) in After(steps[..n + 1]).plane.outbox
  {
    assert steps[..n + 1][..n] == steps[..n];
    DecisionIsAnnounced(After(steps[..n]), ctx, p, approve, now);
    hide ApprovePo, Ingest, ProposeRouting, RegeneratePo, SubmitPo, ReconcilePo, RequestCancel, E.PlaneAfter;
  }

  lemma DecisionIsAnnounced(s: Shop, ctx: Context, p: nat, approve: bool, now: int)
    ensures var tx := ApprovePo(s, ctx, p, approve, now); tx.Commit? && !tx.value ==> PoDecided(p, approve) in tx.state.plane.outbox
  {
    hide Decide, VerifyPo, Require;
  }

  /** Exactly when an approval can be renewed: the routing never stands in the way, but a
      command key somebody took for another request does. */
  lemma RenewableExact(s: Shop, ctx: Context, p: nat, expected: int, now: int)
    requires ShopInv(s)
    ensures RegeneratePo(s, ctx, p, expected, now).Commit? <==>
              Require(s.plane, ctx, TenantAdmin).Pass? && Require(s.plane, ctx, ApprovePurchase).Pass?
              && p < |s.pos| && s.pos[p].version == expected && s.pos[p].order < |s.orders| && s.orders[s.pos[p].order].status == PoPending
              && s.pos[p].approval < |s.plane.approvals| && Renewable(s.pos[p], s.plane.approvals[s.pos[p].approval], now)
              && RenewalKeyOpen(s, p)
  {
    hide *;
    RegenerateShape(s, ctx, p, expected, now);
    if p < |s.pos| {
      InvPo(s, p);
      ShopPlane(s);
      RenewalIsUnannounced(s, p);
      RoutingStands(s, p);
      OrderVersions(s, s.pos[p].order);
      var po := s.pos[p];
      RequestExact(s.plane, ctx, Purchase, Target(po.order, po.supplier), PayloadOf(po), RenewalKey(po), 1, s.orders[po.order].version, "", now);
      RequestsQuietly(s.plane, ctx, po, s.orders[po.order].version, now, PoRegenerated(p, po.version + 1));
      RenewalKeyOpenIs(s, p);
    }
  }

  lemma RegenerateShape(s: Shop, ctx: Context, p: nat, expected: int, now: int)
    ensures RegeneratePo(s, ctx, p, expected, now).Commit? <==>
              && Require(s.plane, ctx, TenantAdmin).Pass? && p < |s.pos| && s.pos[p].version == expected
              && s.pos[p].order < |s.orders| && s.orders[s.pos[p].order].status == PoPending
              && s.pos[p].approval < |s.plane.approvals| && Renewable(s.pos[p], s.plane.approvals[s.pos[p].approval], now)
              && RoutedPayload(s, s.pos[p]).Some?
              && var tx := RequestApproval(s.plane, ctx, Purchase, Target(s.pos[p].order, s.pos[p].supplier), RoutedPayload(s, s.pos[p]).value,
                                           RenewalKey(s.pos[p]), 1, s.orders[s.pos[p].order].version, "", now);
                 tx.Commit? && PoRegenerated(p, s.pos[p].version + 1) !in tx.state.outbox
  {
    hide Require, RequestApproval, Renewable, RoutedPayload, Target;
  }

  lemma RoutingStands(s: Shop, p: nat)
    requires p < |s.pos| && PoOk(s, p)
    ensures RoutedPayload(s, s.pos[p]) == Some(PayloadOf(s.pos[p])) && ApprovalCapability(Purchase) == ApprovePurchase
  {}

  lemma RequestsQuietly(plane: Plane, ctx: Context, po: PurchaseOrder, version: int, now: int, event: OutKey)
    requires PlaneSound(plane) && event.PoRegenerated?
    ensures var tx := RequestApproval(plane, ctx, Purchase, Target(po.order, po.supplier), PayloadOf(po), RenewalKey(po), 1, version, "", now);
      tx.Commit? ==> (event in tx.state.outbox <==> event in plane.outbox)
  {
    hide RequestApproval, PlaneSound, Bound, Issued, Target;
    RequestCalm(plane, ctx, Purchase, Target(po.order, po.supplier), PayloadOf(po), RenewalKey(po), 1, version, "", now);
  }

  lemma RenewalKeyOpenIs(s: Shop, p: nat)
    requires p < |s.pos| && s.pos[p].order < |s.orders|
    ensures RenewalKeyOpen(s, p) <==>
              KeyOpen(s.plane, Purchase, Target(s.pos[p].order, s.pos[p].supplier), PayloadOf(s.pos[p]), RenewalKey(s.pos[p]), 1, s.orders[s.pos[p].order].version, "")
  {
    hide KeyOpen, Target;
  }

  ghost predicate RenewalKeyOpen(s: Shop, p: nat)
    requires p < |s.pos| && s.pos[p].order < |s.orders|
  {
    KeyOpen(s.plane, Purchase, Target(s.pos[p].order, s.pos[p].supplier), PayloadOf(s.pos[p]), RenewalKey(s.pos[p]), 1, s.orders[s.pos[p].order].version, "")
  }

  /** Renewal does not bring approval back: once a purchase order was approved, no member
      can approve it after a renewal, at any time. Under a free key it is verified like
      any other and its new approval is pending all the same; it can still be rejected, once. */
  lemma RenewedButStuck(s: Shop, ctx: Context, p: nat, now: int, expected: int, later: int, again: Context, anyTime: int)
    requires ShopInv(s) && ApprovePo(s, ctx, p, true, now).Commit? && !ApprovePo(s, ctx, p, true, now).value
    requires RegeneratePo(ApprovePo(s, ctx, p, true, now).state, ctx, p, expected, later).Commit?
    ensures var t := ApprovePo(s, ctx, p, true, now).state;
      var u := RegeneratePo(t, ctx, p, expected, later).state;
      && (ApprovePo(u, again, p, true, anyTime).Commit? ==> ApprovePo(u, again, p, true, anyTime).value)
      && (p < |t.pos| && RenewalKey(t.pos[p]) !in t.plane.keys ==> VerifyPo(u, p).Pass? && u.plane.approvals[u.pos[p].approval].state == Pending)
  {
    var t := ApprovePo(s, ctx, p, true, now).state;
    var u := RegeneratePo(t, ctx, p, expected, later).state;
    DecisionIsAnnounced(s, ctx, p, true, now);
    ApproveKeeps(s, ctx, p, true, now);
    RegenerateKeeps(t, ctx, p, expected, later);
    RegenerateProgress(t, ctx, p, expected, later);
    DecidableExact(u, again, p, true, anyTime);
    if p < |t.pos| && RenewalKey(t.pos[p]) !in t.plane.keys { RenewalVerifies(t, ctx, p, expected, later); }
  }

  lemma RenewalVerifies(t: Shop, ctx: Context, p: nat, expected: int, later: int)
    requires ShopInv(t) && RegeneratePo(t, ctx, p, expected, later).Commit? && p < |t.pos| && RenewalKey(t.pos[p]) !in t.plane.keys
    ensures var u := RegeneratePo(t, ctx, p, expected, later).state;
      VerifyPo(u, p).Pass? && u.pos[p].approval < |u.plane.approvals| && u.plane.approvals[u.pos[p].approval].state == Pending
  {
    RegenerateKeeps(t, ctx, p, expected, later);
    RenewalIsFresh(t, ctx, p, expected, later);
    var u := RegeneratePo(t, ctx, p, expected, later).state;
    RenewedPo(t, ctx, p, expected, later);
    hide RegeneratePo, VerifyPo;
    InvPo(u, p);
    hide ShopInv;
    PendingVerifies(u, p);
  }

  lemma RenewedPo(t: Shop, ctx: Context, p: nat, expected: int, later: int)
    requires RegeneratePo(t, ctx, p, expected, later).Commit?
    ensures var u := RegeneratePo(t, ctx, p, expected, later).state;
      p < |t.pos| && p < |u.pos| && u.orders == t.orders && u.pos[p].order == t.pos[p].order && u.pos[p].status == ApprovalPending
      && t.pos[p].order < |t.orders| && t.orders[t.pos[p].order].status == PoPending
  {
    hide RequestApproval, Require, Renewable, Target, RoutedPayload;
  }

  /** A purchase order waiting for a pending approval, under an order that wants it, passes verification. */
  lemma PendingVerifies(u: Shop, p: nat)
    requires p < |u.pos| && PoOk(u, p) && u.pos[p].status == ApprovalPending && u.orders[u.pos[p].order].status == PoPending
    requires u.plane.commands[u.pos[p].approval].state == Pending && u.plane.approvals[u.pos[p].approval].state == Pending
    ensures VerifyPo(u, p).Pass?
  {}

  const MASTER := Context("m", 1)

  const QUOTES: Quotes := map["sku" := [Quote("s", 5, 10)]]

  const ROUTED := [PoLine(0, 1, 5)]

  /** A run in which this happens: routed, approved, left to expire, renewed. */
  function StuckRun(): seq<Step> {
    [Others(E.SetMember("m", Membership({Master}, true, 1)))] + [Receive("ch", [("sku", 1)])]
    + [Propose(MASTER, 0, QUOTES, 1, 0)] + [Approve(MASTER, 0, true, 1)] + [Regenerate(MASTER, 0, 2, 86400)]
  }

  function Received(): Shop {
    Shop(EmptyPlane().(members := map["m" := Membership({Master}, true, 1)]), [Order("ch", OrderAccepted, 1)], [OrderLine(0, "sku", 1, false)], map[], [])
  }

  function Proposed(): Shop {
    var payload := PurchasePayload(0, "s", ROUTED);
    var command := Command(Purchase, Target(0, "s"), payload, PurchaseApproval(0, "s"), Pending);
    var intent := Intent(Material(Purchase, Target(0, "s"), payload, "", 86400, 1, 2), 1, 2);
    Shop(Received().plane.(commands := [command], approvals := [Approval(Pending, 86400, "", None)], keys := map[PurchaseApproval(0, "s") := 0],
                           intents := map[0 := intent], outbox := {ApprovalRequested(0)}),
         [Order("ch", PoPending, 2)], [OrderLine(0, "sku", 1, true)], map[0 := Decision("s", 1, 5)],
         [PurchaseOrder(0, "s", ApprovalPending, 0, 1, ROUTED, None)])
  }

  lemma AfterSnoc(steps: seq<Step>, step: Step)
    ensures After(steps + [step]) == Apply(After(steps), step)
  {
    assert (steps + [step])[..|steps|] == steps;
  }

  lemma MasterMay(p: Plane, cap: Capability)
    requires p.members == map["m" := Membership({Master}, true, 1)]
    ensures Require(p, MASTER, cap).Pass?
  {
    assert cap in RoleCapabilities(Master);
  }

  lemma JoinedIs()
    ensures After([Others(E.SetMember("m", Membership({Master}, true, 1)))]) == Joined()
  {
    var join := Others(E.SetMember("m", Membership({Master}, true, 1)));
    AfterSnoc([], join);
    assert [] + [join] == [join];
    assert EmptyPlane().members["m" := Membership({Master}, true, 1)] == map["m" := Membership({Master}, true, 1)];
  }

  function Joined(): Shop { Empty().(plane := EmptyPlane().(members := map["m" := Membership({Master}, true, 1)])) }

  lemma ReceivedIs()
    ensures Ingest(Joined(), "ch", [("sku", 1)]) == Commit(Received(), 0)
  {
    var tx := Ingest(Joined(), "ch", [("sku", 1)]);
    assert tx.state.lines == [OrderLine(0, "sku", 1, false)];
    assert tx.state.orders == [Order("ch", OrderAccepted, 1)];
  }

  lemma ChoosesTheQuote()
    ensures LinesOf(Received().lines, 0) == [Line(0, "sku", 1)]
    ensures Select([Line(0, "sku", 1)], QUOTES) == Some([Choice(Line(0, "sku", 1), "s", 5)])
    ensures Drafts([Choice(Line(0, "sku", 1), "s", 5)]) == [Draft("s", ROUTED)]
  {
    assert Received().lines[..0] == [];
    var line := Line(0, "sku", 1);
    assert [line][..0] == [];
    var offers := [Quote("s", 5, 10)];
    assert offers[..0] == [];
    assert Best(offers, 1) == Some(offers[0]);
    assert QuotesFor(QUOTES, "sku") == offers;
    assert Select([line][..0], QUOTES) == Some([]);
    assert [] + [Choice(line, "s", 5)] == [Choice(line, "s", 5)];
    var choices := [Choice(line, "s", 5)];
    assert choices[..0] == [];
    assert Suppliers(choices) == ["s"];
    assert ItemsFor(choices, "s") == ROUTED;
  }

  lemma DecidedOne()
    ensures Decided(SetOrder(Received(), 0, PoPending), [Choice(Line(0, "sku", 1), "s", 5)])
            == Commit(Proposed().(plane := Received().plane, pos := []), ())
  {
    var u := SetOrder(Received(), 0, PoPending);
    var choices := [Choice(Line(0, "sku", 1), "s", 5)];
    assert choices[..0] == [];
    assert Decided(u, choices[..0]) == Commit(u, ());
    assert u.orders == [Order("ch", PoPending, 2)];
    assert u.lines[0 := u.lines[0].(routed := true)] == [OrderLine(0, "sku", 1, true)];
    assert u.decisions[0 := Decision("s", 1, 5)] == map[0 := Decision("s", 1, 5)];
  }

  lemma CreatedOne()
    ensures CreatePos(Proposed().(plane := Received().plane, pos := []), MASTER, 0, [Draft("s", ROUTED)], 0) == Commit(Proposed(), [0])
  {
    var t := Proposed().(plane := Received().plane, pos := []);
    var drafts := [Draft("s", ROUTED)];
    assert drafts[..0] == [];
    assert CreatePos(t, MASTER, 0, drafts[..0], 0) == Commit(t, []);
    MasterMay(t.plane, ApprovePurchase);
    hide Require;
    var payload := PurchasePayload(0, "s", ROUTED);
    var made := CreateCommand(t.plane, MASTER, Purchase, Target(0, "s"), payload, PurchaseApproval(0, "s"), "", 0);
    assert made.Commit? && made.value == 0;
    assert made.state.commands == Proposed().plane.commands && made.state.approvals == Proposed().plane.approvals;
    assert made.state == Proposed().plane.(intents := map[]);
    hide CreateCommand;
    var asked := RequestApproval(t.plane, MASTER, Purchase, Target(0, "s"), payload, PurchaseApproval(0, "s"), 1, 2, "", 0);
    assert asked.Commit? && asked.value == 0 && asked.state.intents == Proposed().plane.intents;
    assert asked == Commit(Proposed().plane, 0);
    hide RequestApproval;
    var po := PurchaseOrder(0, "s", ApprovalPending, 0, 1, ROUTED, None);
    assert t.pos + [po] == [po] && [] + [0] == [0];
    assert CreatePo(t, MASTER, 0, drafts[0], 0) == Commit(Proposed(), 0);
  }

  lemma ProposedIs()
    ensures ProposeRouting(Received(), MASTER, 0, QUOTES, 1, 0) == Commit(Proposed(), [0])
  {
    MasterMay(Received().plane, TenantAdmin);
    ChoosesTheQuote();
    DecidedOne();
    CreatedOne();
    hide Require, Select, Drafts, LinesOf, Decided, CreatePos;
  }

  lemma ApprovedAndRenewed()
    requires ShopInv(Proposed())
    ensures var tx := ApprovePo(Proposed(), MASTER, 0, true, 1);
      && tx.Commit? && !tx.value && RegeneratePo(tx.state, MASTER, 0, 2, 86400).Commit?
      && 0 < |tx.state.pos| && RenewalKey(tx.state.pos[0]) !in tx.state.plane.keys
  {
    var s := Proposed();
    MasterMay(s.plane, ApprovePurchase);
    hide ShopInv, Require;
    DecidableExact(s, MASTER, 0, true, 1);
    ApproveKeeps(s, MASTER, 0, true, 1);
    var t := ApprovePo(s, MASTER, 0, true, 1).state;
    ApprovedIs();
    MasterMay(t.plane, TenantAdmin);
    MasterMay(t.plane, ApprovePurchase);
    assert t.plane.keys == map[PurchaseApproval(0, "s") := 0];
    assert RenewalKey(t.pos[0]) !in t.plane.keys;
    hide ApprovePo, Proposed;
    RenewableExact(t, MASTER, 0, 2, 86400);
  }

  lemma ApprovedIs()
    requires ApprovePo(Proposed(), MASTER, 0, true, 1).Commit?
    ensures var (s, t) := (Proposed(), ApprovePo(Proposed(), MASTER, 0, true, 1).state);
      && t.plane.members == s.plane.members && t.plane.keys == s.plane.keys && t.orders == s.orders
      && t.pos == [s.pos[0].(status := PoApproved, version := 2)] && t.plane.approvals == [Approval(Approved, 86400, "", Some("m"))]
  {
    hide Require, VerifyPo;
  }

  lemma ThreeSteps()
    ensures After([Others(E.SetMember("m", Membership({Master}, true, 1)))] + [Receive("ch", [("sku", 1)])] + [Propose(MASTER, 0, QUOTES, 1, 0)]) == Proposed()
  {
    var join := Others(E.SetMember("m", Membership({Master}, true, 1)));
    JoinedIs();
    ReceivedIs();
    ProposedIs();
    hide After, Ingest, ProposeRouting, Proposed, Received, Joined;
    AfterSnoc([join], Receive("ch", [("sku", 1)]));
    AfterSnoc([join] + [Receive("ch", [("sku", 1)])], Propose(MASTER, 0, QUOTES, 1, 0));
  }

  lemma TwoSteps()
    ensures After(ReceivedRun()) == Received()
  {
    JoinedIs();
    ReceivedIs();
    hide After, Ingest, Received, Joined;
    AfterSnoc([Others(E.SetMember("m", Membership({Master}, true, 1)))], Receive("ch", [("sku", 1)]));
  }

  /** Before the order is routed, a caller requests another approval under the key its
      purchase order will want. */
  function TakenKeyRun(): seq<Step> {
    ReceivedRun() + [Others(TakingStep())]
  }

  function ReceivedRun(): seq<Step> { [Others(E.SetMember("m", Membership({Master}, true, 1)))] + [Receive("ch", [("sku", 1)])] }

  function TakingStep(): E.Step { E.RequestStep(MASTER, Purchase, "x", Text("x"), PurchaseApproval(0, "s"), 1, 1, "", 0) }

  /** The tables then: the key names a command that asks for something else. */
  lemma KeyIsTaken(s: Shop)
    requires s == Received() && ShopInv(s)
    ensures var t := s.(plane := E.PlaneAfter(s.plane, TakingStep()));
      !DraftKeyOpen(t.plane, 0, 2, Draft("s", ROUTED))
  {
    ShopPlane(s);
    MasterMay(s.plane, ApprovePurchase);
    hide ShopInv, PlaneSound, RequestApproval, Require, Calm;
    RequestExact(s.plane, MASTER, Purchase, "x", Text("x"), PurchaseApproval(0, "s"), 1, 1, "", 0);
    RequestCalm(s.plane, MASTER, Purchase, "x", Text("x"), PurchaseApproval(0, "s"), 1, 1, "", 0);
  }

  lemma BlockedKeyBlocks(s: Shop)
    requires !DraftKeyOpen(s.plane, 0, 2, Draft("s", ROUTED)) && s.orders == Received().orders && s.lines == Received().lines && s.pos == []
    ensures !Proposable(s, MASTER, 0, QUOTES, 1)
  {
    ChoosesTheQuote();
    assert s.orders[0].version == 1;
    hide Select, Drafts, LinesOf, DraftKeyOpen, Require;
    assert !KeysOpen(s.plane, 0, 2, [Draft("s", ROUTED)]) by {
      assert [Draft("s", ROUTED)][0] == Draft("s", ROUTED);
    }
    hide KeysOpen;
  }

  /** Then the order, though it could be routed before, can no longer be. */
  lemma TakenKeyBlocksRouting()
    ensures ProposeRouting(Received(), MASTER, 0, QUOTES, 1, 0).Commit?
    ensures ProposeRouting(After(TakenKeyRun()), MASTER, 0, QUOTES, 1, 0).Abort?
  {
    hide *;
    ProposedIs();
    TakenIs();
    BlockedKeyBlocks(After(TakenKeyRun()));
    ProposableExact(TakenKeyRun(), MASTER, 0, QUOTES, 1, 0);
  }

  lemma TakenIs()
    ensures var s := After(TakenKeyRun());
      !DraftKeyOpen(s.plane, 0, 2, Draft("s", ROUTED)) && s.orders == Received().orders && s.lines == Received().lines && s.pos == []
  {
    hide After, ShopInv, E.PlaneAfter, DraftKeyOpen, ReceivedRun;
    TwoSteps();
    AfterSnoc(ReceivedRun(), Others(TakingStep()));
    RunKeeps(ReceivedRun());
    KeyIsTaken(Received());
  }

  lemma StuckRunIs()
    ensures ShopInv(Proposed())
    ensures After(StuckRun()) == Apply(Apply(Proposed(), Approve(MASTER, 0, true, 1)), Regenerate(MASTER, 0, 2, 86400))
  {
    var join := Others(E.SetMember("m", Membership({Master}, true, 1)));
    var receive := Receive("ch", [("sku", 1)]);
    var three := [join] + [receive] + [Propose(MASTER, 0, QUOTES, 1, 0)];
    ThreeSteps();
    hide Apply, After, ShopInv, Proposed;
    RunKeeps(three);
    AfterSnoc(three, Approve(MASTER, 0, true, 1));
    AfterSnoc(three + [Approve(MASTER, 0, true, 1)], Regenerate(MASTER, 0, 2, 86400));
  }

  /** The run is one any shop can make, and it ends with a purchase order whose
      pending approval nobody can grant at any time. */
  lemma StuckRunExists(again: Context, anyTime: int)
    ensures var u := After(StuckRun());
      && VerifyPo(u, 0).Pass? && u.plane.approvals[u.pos[0].approval].state == Pending
      && (ApprovePo(u, again, 0, true, anyTime).Commit? ==> ApprovePo(u, again, 0, true, anyTime).value)
  {
    hide After, ShopInv, ApprovePo, RegeneratePo, VerifyPo, Proposed, StuckRun, Ingest, ProposeRouting, SubmitPo, ReconcilePo, RequestCancel, E.PlaneAfter;
    StuckRunIs();
    ApprovedAndRenewed();
    RenewedButStuck(Proposed(), MASTER, 0, 1, 2, 86400, again, anyTime);
  }
}

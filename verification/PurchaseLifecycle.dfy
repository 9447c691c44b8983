/** Purchase orders over every run: proposals, approvals, renewals, submissions,
    responses and cancellations, interleaved with anything other callers do to
    the approval tables. */
module PurchaseLifecycle {
  import opened Common
  import opened Domain
  import opened ControlPlane
  import opened Routing
  import opened PurchaseOrders
  import opened PurchaseSafety
  import opened ExecutionSafety
  import E = ExactlyOnce
  import Text

  // ----------------------------------------------------------------- invariant

  predicate Sent(status: PoStatus) { status in {Submitted, Acknowledged, PoException, CancelRequested} }

  /** One purchase order: its approval asks for exactly its lines, which the routing
      still supports, at the order's version; once sent, its execution was prepared. */
  ghost predicate PoOk(s: Shop, p: nat)
    requires p < |s.pos|
  {
    var (po, c) := (s.pos[p], s.pos[p].approval);
    && po.order < |s.orders| && po.version >= 1
    && c < |s.plane.commands| && c < |s.plane.approvals| && c in s.plane.intents
    && s.plane.commands[c].payload == PayloadOf(po) && s.plane.commands[c].kind == Purchase && s.plane.intents[c].policyVersion == 1
    && (forall i | 0 <= i < |po.lines| :: LineSupported(s, po, po.lines[i]))
    && StatusOk(s.orders[po.order], po, s.plane.intents[c].targetVersion)
    && (Sent(po.status) ==> c in s.plane.preparations)
  }

  ghost predicate StatusOk(o: Order, po: PurchaseOrder, targetVersion: int) {
    && o.status in {PoPending, OrderCancelled}
    && (o.status == PoPending ==> targetVersion == o.version && po.status != CancelRequested)
    && (o.status == OrderCancelled ==> po.status in {PoCancelled, CancelRequested, PoException})
    && (po.status in {Acknowledged, PoException} ==> po.response.Some?)
    && (po.status in {ApprovalPending, PoApproved, Submitted, PoCancelled} ==> po.response.None?)
  }

  /** One purchase order per order and supplier. */
  ghost predicate OnePerSupplier(s: Shop) {
    forall p, q | 0 <= p < q < |s.pos| && s.pos[p].order == s.pos[q].order :: s.pos[p].supplier != s.pos[q].supplier
  }

  /** What each announced event says about its purchase order. */
  ghost predicate EventOk(s: Shop, k: OutKey) {
    match k
    case PoDecided(p, _) => p < |s.pos|
    case PoRegenerated(p, v) => p < |s.pos| && s.pos[p].version >= v
    case PoSubmitted(p) => p < |s.pos| && Sent(s.pos[p].status)
    case PoResponse(p, digest) => p < |s.pos| && s.pos[p].response == Some(digest)
    case PoCancelRequested(p) => p < |s.pos| && s.pos[p].status == CancelRequested
    case CancelledOrder(o) => o < |s.orders| && s.orders[o].status == OrderCancelled
    case _ => true
  }

  ghost predicate EventsOk(s: Shop) {
    forall k | k in s.plane.outbox :: EventOk(s, k)
  }

  /** Only lines of orders that have purchase orders carry decisions. */
  ghost predicate DecisionsOk(s: Shop) {
    forall l | l in s.decisions :: l < |s.lines| && HasAnyPo(s, s.lines[l].order)
  }

  ghost predicate HasAnyPo(s: Shop, o: nat) { exists p :: 0 <= p < |s.pos| && s.pos[p].order == o }

  ghost predicate LinesOk(s: Shop) {
    forall l | 0 <= l < |s.lines| :: s.lines[l].order < |s.orders|
  }

  ghost predicate ShopInv(s: Shop) {
    && PlaneSound(s.plane) && OnePerSupplier(s) && EventsOk(s) && LinesOk(s)
    && (forall p | 0 <= p < |s.pos| :: PoOk(s, p))
    && (forall o | 0 <= o < |s.orders| :: s.orders[o].version >= 1)
  }

  // ------------------------------------------------- moves of the approval tables

  /** Whatever else happens to the approval tables, purchase orders stay as they are. */
  lemma PlaneMoves(s: Shop, plane: Plane)
    requires ShopInv(s) && Calm(s.plane, plane)
    ensures ShopInv(s.(plane := plane))
  {
    var t := s.(plane := plane);
    CalmIs(s.plane, plane);
    hide Calm, PlaneSound;
    forall k | k in t.plane.outbox ensures EventOk(t, k) {
      if PurchaseEvent(k) { assert k in s.plane.outbox; assert EventOk(s, k); }
    }
    forall p | 0 <= p < |t.pos| ensures PoOk(t, p) { PoSurvives(s, t, p); }
  }

  lemma PoSurvives(s: Shop, t: Shop, p: nat)
    requires p < |s.pos| && p < |t.pos| && PoOk(s, p) && t.pos[p] == s.pos[p]
    requires s.pos[p].order < |t.orders| && t.orders[s.pos[p].order] == s.orders[s.pos[p].order]
    requires PlaneGrows(s.plane, t.plane) && ContentsFixed(s.plane, t.plane)
    requires forall i | 0 <= i < |s.pos[p].lines| :: LineSupported(t, s.pos[p], s.pos[p].lines[i]) || (t.decisions == s.decisions && t.lines == s.lines)
    ensures PoOk(t, p)
  {
    assert forall i | 0 <= i < |s.pos[p].lines| :: LineSupported(s, s.pos[p], s.pos[p].lines[i]);
  }

  // ------------------------------------------------------- one purchase order moves

  /** Between the two, of the events that matter here at most `event` is new. */
  ghost predicate AtMostNew(p: Plane, q: Plane, event: Option<OutKey>) {
    forall k | PurchaseEvent(k) && k in q.outbox :: k in p.outbox || event == Some(k)
  }

  ghost predicate Moved(p: Plane, q: Plane) { PlaneSound(q) && PlaneGrows(p, q) && ContentsFixed(p, q) }

  function With(p: Plane, event: OutKey): Plane { p.(outbox := p.outbox + {event}) }

  lemma CalmMoves(p: Plane, q: Plane)
    requires Calm(p, q)
    ensures Moved(p, q) && AtMostNew(p, q, None)
  {}

  lemma CalmEmits(p: Plane, q: Plane, event: OutKey)
    requires Moved(p, q) && AtMostNew(p, q, None) && PurchaseEvent(event)
    ensures Moved(p, With(q, event)) && AtMostNew(p, With(q, event), Some(event))
  {}

  lemma InvPo(s: Shop, p: nat)
    requires ShopInv(s) && p < |s.pos|
    ensures PoOk(s, p) && PlaneSound(s.plane) && PlaneInv(s.plane)
    ensures s.pos[p].order < |s.orders| && s.pos[p].approval in s.plane.intents && s.pos[p].approval < |s.plane.commands|
    ensures s.pos[p].status in {ApprovalPending, PoApproved, PoCancelled, Submitted} ==> s.pos[p].response.None?
    ensures s.pos[p].status in {Acknowledged, PoException} ==> s.pos[p].response.Some?
    ensures s.orders[s.pos[p].order].status in {PoPending, OrderCancelled}
    ensures s.orders[s.pos[p].order].status == OrderCancelled ==> s.pos[p].status in {PoCancelled, CancelRequested, PoException}
    ensures Sent(s.pos[p].status) ==> s.pos[p].approval in s.plane.preparations
  {}

  /** The approval stays, the status moves on. */
  lemma PoChanges(s: Shop, plane: Plane, p: nat, next: PurchaseOrder, event: Option<OutKey>)
    requires ShopInv(s) && p < |s.pos| && PoOk(s, p) && Advances(s.pos[p], next) && next.approval == s.pos[p].approval
    requires Moved(s.plane, plane) && AtMostNew(s.plane, plane, event)
    requires StatusOk(s.orders[next.order], next, s.plane.intents[next.approval].targetVersion)
    requires Sent(next.status) ==> next.approval in plane.preparations
    requires event.Some? ==> EventOk(SetPo(s.(plane := plane), p, next), event.value)
    ensures ShopInv(SetPo(s.(plane := plane), p, next))
  {
    hide ShopInv, StatusOk, PlaneSound, EventOk;
    var t := SetPo(s.(plane := plane), p, next);
    assert PoOk(t, p) by {
      forall i | 0 <= i < |next.lines| ensures LineSupported(t, next, next.lines[i]) {
        assert LineSupported(s, s.pos[p], s.pos[p].lines[i]);
      }
    }
    PoMoves(s, plane, p, next, event);
  }

  /** What may happen to a purchase order in one transaction. */
  ghost predicate Advances(po: PurchaseOrder, next: PurchaseOrder) {
    && next.order == po.order && next.supplier == po.supplier && next.lines == po.lines && next.version == po.version + 1
    && (Sent(po.status) ==> Sent(next.status)) && (po.status == CancelRequested ==> next.status == CancelRequested)
    && (po.response.Some? ==> next.response == po.response)
  }

  /** One purchase order gets a new value, and at most one event is new. */
  lemma PoMoves(s: Shop, plane: Plane, p: nat, po: PurchaseOrder, event: Option<OutKey>)
    requires ShopInv(s) && p < |s.pos| && Advances(s.pos[p], po) && Moved(s.plane, plane)
    requires AtMostNew(s.plane, plane, event)
    requires var t := SetPo(s.(plane := plane), p, po); PoOk(t, p) && (event.Some? ==> EventOk(t, event.value))
    ensures ShopInv(SetPo(s.(plane := plane), p, po))
  {
    var t := SetPo(s.(plane := plane), p, po);
    hide PoOk, EventsOk, ContentsFixed, PlaneGrows, PlaneSound, AtMostNew, OnePerSupplier, LinesOk;
    RestStays(s, t, p);
    EventsMove(s, t, p, event);
    forall q | 0 <= q < |t.pos| ensures PoOk(t, q) {
      if q != p { OthersSurvive(s, t, q); }
    }
  }

  lemma RestStays(s: Shop, t: Shop, p: nat)
    requires OnePerSupplier(s) && LinesOk(s) && p < |s.pos| && |t.pos| == |s.pos| && t == SetPo(s.(plane := t.plane), p, t.pos[p])
    requires t.pos[p].order == s.pos[p].order && t.pos[p].supplier == s.pos[p].supplier
    ensures OnePerSupplier(t) && LinesOk(t)
  {}

  lemma EventsMove(s: Shop, t: Shop, p: nat, event: Option<OutKey>)
    requires EventsOk(s) && p < |s.pos| && |t.pos| == |s.pos| && t == SetPo(s.(plane := t.plane), p, t.pos[p]) && Advances(s.pos[p], t.pos[p])
    requires AtMostNew(s.plane, t.plane, event)
    requires event.Some? ==> EventOk(t, event.value)
    ensures EventsOk(t)
  {
    forall k | k in t.plane.outbox ensures EventOk(t, k) {
      if PurchaseEvent(k) && event != Some(k) { assert k in s.plane.outbox; assert EventOk(s, k); }
    }
  }

  lemma OthersSurvive(s: Shop, t: Shop, q: nat)
    requires ShopInv(s) && q < |s.pos| && q < |t.pos| && t.pos[q] == s.pos[q]
    requires t.orders == s.orders && t.decisions == s.decisions && t.lines == s.lines
    requires PlaneGrows(s.plane, t.plane) && ContentsFixed(s.plane, t.plane)
    ensures PoOk(t, q)
  {
    hide PlaneSound, EventsOk;
    PoSurvives(s, t, q);
  }

  // ------------------------------------------------------------------ operations

  lemma ApproveKeeps(s: Shop, ctx: Context, p: nat, approve: bool, now: int)
    requires ShopInv(s)
    ensures var tx := ApprovePo(s, ctx, p, approve, now); tx.Commit? ==> ShopInv(tx.state)
  {
    hide ShopInv, Decide, Calm, Require, VerifyPo, PlaneSound, PlaneInv, Moved, AtMostNew, PoOk;
    var tx := ApprovePo(s, ctx, p, approve, now);
    if tx.Commit? {
      Verified(s, p);
      InvPo(s, p);
      var po := s.pos[p];
      DecideCalm(s.plane, ctx, po.approval, approve, now);
      var plane := Decide(s.plane, ctx, po.approval, approve, now).state;
      if tx.value {
        PlaneMoves(s, plane);
      } else {
        CalmMoves(s.plane, plane);
        CalmEmits(s.plane, plane, PoDecided(p, approve));
        var next := po.(status := if approve then PoApproved else PoCancelled, version := po.version + 1);
        NextStatus(s, p, next);
        PoChanges(s, With(plane, PoDecided(p, approve)), p, next, Some(PoDecided(p, approve)));
      }
    }
  }

  lemma Verified(s: Shop, p: nat)
    requires VerifyPo(s, p).Pass?
    ensures p < |s.pos| && s.pos[p].status == ApprovalPending && s.pos[p].order < |s.orders| && s.orders[s.pos[p].order].status == PoPending
  {}

  /** The order still waits for its purchases: any status before sending fits. */
  lemma NextStatus(s: Shop, p: nat, next: PurchaseOrder)
    requires p < |s.pos| && PoOk(s, p) && next.order == s.pos[p].order && s.orders[next.order].status == PoPending
    requires (next.response.None? && next.status in {ApprovalPending, PoApproved, PoCancelled, Submitted})
             || (next.response.Some? && next.status in {Acknowledged, PoException})
    ensures s.pos[p].approval in s.plane.intents
    ensures StatusOk(s.orders[next.order], next, s.plane.intents[s.pos[p].approval].targetVersion)
  {}

  lemma SubmitKeeps(s: Shop, ctx: Context, p: nat, now: int)
    requires ShopInv(s)
    ensures var tx := SubmitPo(s, ctx, p, now); tx.Commit? ==> ShopInv(tx.state)
  {
    hide ShopInv, PrepareExecution, Calm, Require, StopActive, PlaneSound, PlaneInv, Moved, AtMostNew, PoOk;
    var tx := SubmitPo(s, ctx, p, now);
    if tx.Commit? {
      InvPo(s, p);
      var po := s.pos[p];
      var c := po.approval;
      PrepareCalm(s.plane, ctx, c, s.plane.intents[c].policyVersion, s.orders[po.order].version, now);
      var plane := PrepareExecution(s.plane, ctx, c, s.plane.intents[c].policyVersion, s.orders[po.order].version, now).state;
      CalmMoves(s.plane, plane);
      CalmEmits(s.plane, plane, PoSubmitted(p));
      var next := po.(status := Submitted, version := po.version + 1);
      NextStatus(s, p, next);
      PoChanges(s, With(plane, PoSubmitted(p)), p, next, Some(PoSubmitted(p)));
    }
  }

  lemma ReconcileKeeps(s: Shop, ctx: Context, p: nat, answer: Answer, digest: string)
    requires ShopInv(s)
    ensures var tx := ReconcilePo(s, ctx, p, answer, digest); tx.Commit? ==> ShopInv(tx.state)
  {
    hide ShopInv, Calm, Require, PlaneSound, PlaneInv, Moved, AtMostNew, PoOk;
    var tx := ReconcilePo(s, ctx, p, answer, digest);
    if tx.Commit? && tx.state != s {
      InvPo(s, p);
      var po := s.pos[p];
      CalmReflexive(s.plane);
      CalmMoves(s.plane, s.plane);
      CalmEmits(s.plane, s.plane, PoResponse(p, digest));
      var next := po.(status := if answer == AnswerAcknowledged then Acknowledged else PoException, response := Some(digest), version := po.version + 1);
      NextStatus(s, p, next);
      PoChanges(s, With(s.plane, PoResponse(p, digest)), p, next, Some(PoResponse(p, digest)));
    }
  }

  lemma RenewalIsUnannounced(s: Shop, p: nat)
    requires ShopInv(s) && p < |s.pos|
    ensures PoRegenerated(p, s.pos[p].version + 1) !in s.plane.outbox
  {
    assert PoRegenerated(p, s.pos[p].version + 1) in s.plane.outbox ==> EventOk(s, PoRegenerated(p, s.pos[p].version + 1));
  }

  /** The command key of a purchase order's next renewal. */
  function RenewalKey(po: PurchaseOrder): CommandKey { PurchaseRenewal(po.order, po.supplier, po.version + 1) }

  /** A renewal asks for the same lines at the order's current version. Under a free key it
      issues a command nobody has seen before, pending and good for another day; where
      somebody took the key for the same request before, it is that one's command. */
  lemma RenewalIsFresh(s: Shop, ctx: Context, p: nat, expected: int, now: int)
    requires ShopInv(s)
    ensures var tx := RegeneratePo(s, ctx, p, expected, now);
      tx.Commit? ==>
        && p < |s.pos| && s.pos[p].order < |s.orders| && tx.state.pos[p].approval == tx.value
        && Bound(tx.state.plane, tx.value, Purchase, PayloadOf(s.pos[p]), 1, s.orders[s.pos[p].order].version)
        && (RenewalKey(s.pos[p]) !in s.plane.keys <==> tx.value == |s.plane.commands|)
        && (RenewalKey(s.pos[p]) !in s.plane.keys ==>
              && tx.state.plane.commands[tx.value].state == Pending && tx.state.plane.approvals[tx.value].state == Pending
              && tx.state.plane.approvals[tx.value].expiresAt == now + APPROVAL_LIFETIME)
        && (RenewalKey(s.pos[p]) in s.plane.keys ==> tx.value == s.plane.keys[RenewalKey(s.pos[p])] && tx.state.plane.commands == s.plane.commands)
  {
    hide ShopInv, RequestApproval, Calm, Require, PlaneSound, PlaneInv, PoOk, Renewable, Target;
    var tx := RegeneratePo(s, ctx, p, expected, now);
    if tx.Commit? {
      InvPo(s, p);
      PlaneSoundIs(s.plane);
      var po := s.pos[p];
      RequestCalm(s.plane, ctx, Purchase, Target(po.order, po.supplier), RoutedPayload(s, po).value,
                  RenewalKey(po), 1, s.orders[po.order].version, "", now);
    }
  }

  lemma RegenerateKeeps(s: Shop, ctx: Context, p: nat, expected: int, now: int)
    requires ShopInv(s)
    ensures var tx := RegeneratePo(s, ctx, p, expected, now); tx.Commit? ==> ShopInv(tx.state)
  {
    hide ShopInv, RequestApproval, Calm, Require, PlaneSound, PlaneInv, Moved, AtMostNew, PoOk, StatusOk, EventOk, Issued;
    var tx := RegeneratePo(s, ctx, p, expected, now);
    if tx.Commit? {
      InvPo(s, p);
      var po := s.pos[p];
      var request := RequestApproval(s.plane, ctx, Purchase, Target(po.order, po.supplier), RoutedPayload(s, po).value, RenewalKey(po), 1, s.orders[po.order].version, "", now);
      RequestCalm(s.plane, ctx, Purchase, Target(po.order, po.supplier), RoutedPayload(s, po).value, RenewalKey(po), 1, s.orders[po.order].version, "", now);
      CalmMoves(s.plane, request.state);
      CalmEmits(s.plane, request.state, PoRegenerated(p, po.version + 1));
      var plane := With(request.state, PoRegenerated(p, po.version + 1));
      var next := po.(status := ApprovalPending, approval := request.value, version := po.version + 1);
      RenewedOk(s, plane, p, next);
      PoMoves(s, plane, p, next, Some(PoRegenerated(p, po.version + 1)));
    }
  }

  lemma RenewedOk(s: Shop, plane: Plane, p: nat, next: PurchaseOrder)
    requires p < |s.pos| && PoOk(s, p) && s.orders[s.pos[p].order].status == PoPending && s.pos[p].response.None?
    requires next == s.pos[p].(status := ApprovalPending, approval := next.approval, version := s.pos[p].version + 1)
    requires next.approval < |plane.commands| && next.approval < |plane.approvals| && next.approval in plane.intents
    requires plane.commands[next.approval].payload == PayloadOf(s.pos[p]) && plane.commands[next.approval].kind == Purchase
    requires plane.intents[next.approval].targetVersion == s.orders[s.pos[p].order].version && plane.intents[next.approval].policyVersion == 1
    ensures PoOk(SetPo(s.(plane := plane), p, next), p)
    ensures EventOk(SetPo(s.(plane := plane), p, next), PoRegenerated(p, next.version))
  {
    var t := SetPo(s.(plane := plane), p, next);
    forall i | 0 <= i < |next.lines| ensures LineSupported(t, next, next.lines[i]) {
      assert LineSupported(s, s.pos[p], s.pos[p].lines[i]);
    }
  }

  // ---------------------------------------------------------------- cancellation

  function CancelledPo(po: PurchaseOrder): PurchaseOrder {
    if po.status in {ApprovalPending, PoApproved} then po.(status := PoCancelled, version := po.version + 1)
    else if po.status in {Submitted, Acknowledged} then po.(status := CancelRequested, version := po.version + 1)
    else po
  }

  predicate AsksToCancel(po: PurchaseOrder, o: nat) { po.order == o && po.status in {Submitted, Acknowledged} }

  /** The loop over an order's purchase orders, as one simultaneous change. */
  ghost predicate CancelledUpTo(s: Shop, t: Shop, o: nat, n: nat) {
    && t == s.(plane := t.plane, pos := t.pos) && t.plane == s.plane.(outbox := t.plane.outbox)
    && |t.pos| == |s.pos|
    && (forall p | 0 <= p < |s.pos| :: t.pos[p] == if p < n && s.pos[p].order == o then CancelledPo(s.pos[p]) else s.pos[p])
    && s.plane.outbox <= t.plane.outbox
    && (forall k | k in t.plane.outbox && k !in s.plane.outbox :: k.PoCancelRequested? && k.po < n && k.po < |s.pos| && AsksToCancel(s.pos[k.po], o))
  }

  lemma {:induction false} CancelLoop(s: Shop, o: nat, n: nat)
    requires n <= |s.pos|
    ensures var tx := CancelPos(s, o, n); tx.Commit? ==> CancelledUpTo(s, tx.state, o, n)
    ensures (forall p | 0 <= p < n && AsksToCancel(s.pos[p], o) :: PoCancelRequested(p) !in s.plane.outbox) ==> CancelPos(s, o, n).Commit?
  {
    if n > 0 {
      CancelLoop(s, o, n - 1);
    }
  }

  lemma CancelledOk(s: Shop, t: Shop, o: nat, p: nat)
    requires o < |s.orders| && p < |s.pos| && PoOk(s, p) && s.orders[o].status == PoPending
    requires CancelledUpTo(SetOrder(s, o, OrderCancelled), t, o, |s.pos|)
    ensures PoOk(t, p)
  {
    assert forall i | 0 <= i < |s.pos[p].lines| :: LineSupported(s, s.pos[p], s.pos[p].lines[i]);
  }

  lemma CancelKeeps(s: Shop, ctx: Context, o: nat, expected: int)
    requires ShopInv(s)
    ensures var tx := RequestCancel(s, ctx, o, expected); tx.Commit? ==> ShopInv(tx.state)
  {
    hide Require, CancelPos;
    var tx := RequestCancel(s, ctx, o, expected);
    if tx.Commit? && !tx.value {
      var u := SetOrder(s, o, OrderCancelled);
      CancelLoop(u, o, |s.pos|);
      var t := CancelPos(u, o, |s.pos|).state;
      CancelledShop(s, t, o);
    }
  }

  lemma CancelledShop(s: Shop, t: Shop, o: nat)
    requires ShopInv(s) && o < |s.orders| && s.orders[o].status == PoPending
    requires CancelledUpTo(SetOrder(s, o, OrderCancelled), t, o, |s.pos|)
    ensures ShopInv(t.(plane := With(t.plane, CancelledOrder(o))))
  {
    hide PoOk, PlaneSound;
    var u := t.(plane := With(t.plane, CancelledOrder(o)));
    assert PlaneSound(u.plane) by { OutboxOnly(s.plane, u.plane); }
    forall p | 0 <= p < |u.pos| ensures PoOk(u, p) {
      CancelledOk(s, t, o, p);
      PoIgnoresOutbox(t, u, p);
    }
    forall k | k in u.plane.outbox ensures EventOk(u, k) {
      if k in s.plane.outbox { assert EventOk(s, k); }
    }
  }

  lemma PoIgnoresOutbox(t: Shop, u: Shop, p: nat)
    requires p < |t.pos| && PoOk(t, p) && u == t.(plane := t.plane.(outbox := u.plane.outbox))
    ensures PoOk(u, p)
  {
    assert forall i | 0 <= i < |t.pos[p].lines| :: LineSupported(t, t.pos[p], t.pos[p].lines[i]);
  }

  lemma OutboxOnly(p: Plane, q: Plane)
    requires PlaneSound(p) && q == p.(outbox := q.outbox) && p.outbox <= q.outbox
    requires forall k | k in q.outbox && k !in p.outbox :: PurchaseEvent(k)
    ensures PlaneSound(q)
  {}

  /** Cancelling succeeds exactly for the order's current version while it waits
      for its purchases (or, as a replay, once it is cancelled): no event is in the way. */
  lemma CancelExact(s: Shop, ctx: Context, o: nat, expected: int)
    requires ShopInv(s)
    ensures RequestCancel(s, ctx, o, expected).Commit? <==>
              Require(s.plane, ctx, TenantAdmin).Pass? && o < |s.orders|
              && (s.orders[o].status == OrderCancelled || (s.orders[o].status == PoPending && s.orders[o].version == expected))
  {
    hide Require, CancelPos, PoOk, PlaneSound, OnePerSupplier;
    if o < |s.orders| && s.orders[o].status == PoPending {
      var u := SetOrder(s, o, OrderCancelled);
      forall p | 0 <= p < |s.pos| && AsksToCancel(s.pos[p], o) ensures PoCancelRequested(p) !in s.plane.outbox {
        assert PoCancelRequested(p) in s.plane.outbox ==> EventOk(s, PoCancelRequested(p));
      }
      CancelLoop(u, o, |s.pos|);
      assert CancelledOrder(o) in s.plane.outbox ==> EventOk(s, CancelledOrder(o));
    }
  }

  // -------------------------------------------------------------------- proposals

  lemma {:induction false} PosOfExact(pos: seq<PurchaseOrder>, o: nat)
    ensures forall p: nat :: p in PosOf(pos, o) <==> p < |pos| && pos[p].order == o
  {
    if pos != [] { PosOfExact(pos[..|pos| - 1], o); }
  }

  lemma {:induction false} LinesOfExact(lines: seq<OrderLine>, o: nat)
    ensures forall i | 0 <= i < |LinesOf(lines, o)| ::
              var l := LinesOf(lines, o)[i]; l.id < |lines| && lines[l.id].order == o && l.sku == lines[l.id].sku && l.quantity == lines[l.id].quantity
    ensures forall i, j | 0 <= i < j < |LinesOf(lines, o)| :: LinesOf(lines, o)[i].id < LinesOf(lines, o)[j].id
    ensures forall n | 0 <= n < |lines| && lines[n].order == o :: Line(n, lines[n].sku, lines[n].quantity) in LinesOf(lines, o)
  {
    if lines != [] { LinesOfExact(lines[..|lines| - 1], o); }
  }

  lemma IngestKeeps(s: Shop, channel: string, items: seq<(string, int)>)
    requires ShopInv(s)
    ensures var tx := Ingest(s, channel, items); tx.Commit? ==> ShopInv(tx.state)
  {
    hide PlaneSound, StatusOk;
    var tx := Ingest(s, channel, items);
    if tx.Commit? {
      var t := tx.state;
        forall k | k in t.plane.outbox ensures EventOk(t, k) { assert EventOk(s, k); }
      forall p | 0 <= p < |t.pos| ensures PoOk(t, p) {
        assert PoOk(s, p);
        assert forall i | 0 <= i < |s.pos[p].lines| :: LineSupported(s, s.pos[p], s.pos[p].lines[i]);
      }
    }
  }

  ghost predicate Chosen(choices: seq<Choice>, l: nat) {
    exists i :: 0 <= i < |choices| && choices[i].line.id == l
  }

  /** Deciding the chosen lines: each becomes routed with its own decision, nothing else changes. */
  ghost predicate DecidedFor(s: Shop, t: Shop, choices: seq<Choice>) {
    && t == s.(decisions := t.decisions, lines := t.lines) && |t.lines| == |s.lines|
    && (forall l | 0 <= l < |s.lines| :: t.lines[l] == s.lines[l] || (Chosen(choices, l) && t.lines[l] == s.lines[l].(routed := true)))
    && (forall l | l in s.decisions :: l in t.decisions && t.decisions[l] == s.decisions[l])
    && (forall l | l in t.decisions :: l in s.decisions || Chosen(choices, l))
    && (forall i | 0 <= i < |choices| :: ChoiceDecided(t, choices[i]))
  }

  ghost predicate ChoiceDecided(t: Shop, c: Choice) {
    && c.line.id in t.decisions && t.decisions[c.line.id] == Decision(c.supplier, c.line.quantity, c.cost)
    && c.line.id < |t.lines| && t.lines[c.line.id].routed
  }

  lemma DecideOne(s: Shop, t: Shop, choices: seq<Choice>, c: Choice)
    requires DecidedFor(s, t, choices) && c.line.id !in t.decisions && c.line.id < |t.lines|
    ensures DecidedFor(s, t.(decisions := t.decisions[c.line.id := Decision(c.supplier, c.line.quantity, c.cost)],
                             lines := t.lines[c.line.id := t.lines[c.line.id].(routed := true)]), choices + [c])
  {
    var u := t.(decisions := t.decisions[c.line.id := Decision(c.supplier, c.line.quantity, c.cost)],
                lines := t.lines[c.line.id := t.lines[c.line.id].(routed := true)]);
    var all := choices + [c];
    forall l | l in u.decisions ensures l in s.decisions || Chosen(all, l) {
      if l in t.decisions && Chosen(choices, l) {
        var i :| 0 <= i < |choices| && choices[i].line.id == l;
        assert all[i].line.id == l;
      } else {
        assert all[|choices|].line.id == c.line.id;
      }
    }
    forall l | 0 <= l < |s.lines| ensures u.lines[l] == s.lines[l] || (Chosen(all, l) && u.lines[l] == s.lines[l].(routed := true)) {
      if Chosen(choices, l) {
        var i :| 0 <= i < |choices| && choices[i].line.id == l;
        assert all[i].line.id == l;
      }
      assert all[|choices|].line.id == c.line.id;
    }
    forall i | 0 <= i < |all| ensures ChoiceDecided(u, all[i]) {
      if i < |choices| { assert ChoiceDecided(t, choices[i]); }
    }
  }

  lemma {:induction false} DecideLoop(s: Shop, choices: seq<Choice>)
    ensures var tx := Decided(s, choices); tx.Commit? ==> DecidedFor(s, tx.state, choices)
  {
    hide ChoiceDecided, Chosen;
    if choices != [] {
      var (before, last) := (choices[..|choices| - 1], choices[|choices| - 1]);
      DecideLoop(s, before);
      assert choices == before + [last];
      if Decided(s, choices).Commit? {
        hide DecidedFor;
        DecideOne(s, Decided(s, before).state, before, last);
      }
    }
  }

  ghost predicate ItemChosen(choices: seq<Choice>, supplier: string, item: PoLine) {
    exists i :: 0 <= i < |choices| && choices[i].supplier == supplier && item == ItemOf(choices[i])
  }

  lemma {:induction false} ItemsFrom(choices: seq<Choice>, supplier: string)
    ensures forall k | 0 <= k < |ItemsFor(choices, supplier)| :: ItemChosen(choices, supplier, ItemsFor(choices, supplier)[k])
  {
    if choices != [] {
      var (before, last) := (choices[..|choices| - 1], choices[|choices| - 1]);
      ItemsFrom(before, supplier);
      forall item | ItemChosen(before, supplier, item) ensures ItemChosen(choices, supplier, item) {
        var i :| 0 <= i < |before| && before[i].supplier == supplier && item == ItemOf(before[i]);
        assert choices[i] == before[i];
      }
      assert choices[|choices| - 1] == last;
    }
  }

  /** A draft the routing supports, for an order waiting for its purchases. */
  ghost predicate DraftReady(s: Shop, o: nat, d: Draft) {
    && o < |s.orders| && s.orders[o].status == PoPending
    && (forall i | 0 <= i < |d.lines| ::
          d.lines[i].line in s.decisions && s.decisions[d.lines[i].line] == Decision(d.supplier, d.lines[i].quantity, d.lines[i].unitCost)
          && d.lines[i].line < |s.lines| && s.lines[d.lines[i].line].order == o && s.lines[d.lines[i].line].routed)
  }

  lemma CreateKeeps(s: Shop, ctx: Context, o: nat, d: Draft, now: int)
    requires ShopInv(s) && DraftReady(s, o, d)
    requires forall p | 0 <= p < |s.pos| && s.pos[p].order == o :: s.pos[p].supplier != d.supplier
    ensures var tx := CreatePo(s, ctx, o, d, now);
      tx.Commit? ==>
        && ShopInv(tx.state) && tx.state == s.(plane := tx.state.plane, pos := tx.state.pos)
        && |tx.state.pos| == |s.pos| + 1 && tx.state.pos[..|s.pos|] == s.pos && tx.value == |s.pos|
        && tx.state.pos[|s.pos|].order == o && tx.state.pos[|s.pos|].supplier == d.supplier && tx.state.pos[|s.pos|].lines == d.lines
        && tx.state.pos[|s.pos|].status == ApprovalPending
  {
    hide RequestApproval, Calm, PlaneSound, PoOk, ShopInv, Issued;
    var tx := CreatePo(s, ctx, o, d, now);
    if tx.Commit? {
      ShopPlane(s);
      var key := PurchaseApproval(o, d.supplier);
      RequestCalm(s.plane, ctx, Purchase, Target(o, d.supplier), PurchasePayload(o, d.supplier, d.lines), key, 1, s.orders[o].version, "", now);
      var plane := tx.state.plane;
      CalmMoves(s.plane, plane);
      PoAppended(s, plane, tx.state.pos[|s.pos|]);
    }
  }

  lemma ShopPlane(s: Shop)
    requires ShopInv(s)
    ensures PlaneSound(s.plane)
  {}

  lemma PoAppended(s: Shop, plane: Plane, po: PurchaseOrder)
    requires ShopInv(s) && Moved(s.plane, plane) && AtMostNew(s.plane, plane, None)
    requires DraftReady(s, po.order, Draft(po.supplier, po.lines)) && po.version == 1 && po.status == ApprovalPending && po.response.None?
    requires forall p | 0 <= p < |s.pos| && s.pos[p].order == po.order :: s.pos[p].supplier != po.supplier
    requires var c := po.approval;
      c < |plane.commands| && c < |plane.approvals| && c in plane.intents && plane.commands[c].payload == PayloadOf(po)
      && plane.commands[c].kind == Purchase && plane.intents[c].targetVersion == s.orders[po.order].version
      && plane.intents[c].policyVersion == 1
    ensures ShopInv(s.(plane := plane, pos := s.pos + [po]))
  {
    hide PlaneSound;
    var t := s.(plane := plane, pos := s.pos + [po]);
    var n := |s.pos|;
    forall k | k in t.plane.outbox ensures EventOk(t, k) {
      if PurchaseEvent(k) { assert EventOk(s, k); }
    }
    forall p | 0 <= p < |t.pos| ensures PoOk(t, p) {
      if p < n { OthersSurvive(s, t, p); }
      else { assert forall i | 0 <= i < |po.lines| :: LineSupported(t, po, po.lines[i]); }
    }
  }

  ghost predicate Ready(s: Shop, o: nat, drafts: seq<Draft>) {
    && (forall i | 0 <= i < |drafts| :: DraftReady(s, o, drafts[i]))
    && (forall i, j | 0 <= i < j < |drafts| :: drafts[i].supplier != drafts[j].supplier)
    && (forall p | 0 <= p < |s.pos| :: s.pos[p].order != o)
  }

  ghost predicate PoFor(po: PurchaseOrder, o: nat, d: Draft) {
    po.order == o && po.supplier == d.supplier && po.lines == d.lines && po.status == ApprovalPending
  }

  /** The purchase orders of an order, one per draft, behind the ones there were. */
  ghost predicate Created(s: Shop, t: Shop, o: nat, drafts: seq<Draft>) {
    && t == s.(plane := t.plane, pos := t.pos) && |t.pos| == |s.pos| + |drafts|
    && (forall p | 0 <= p < |s.pos| :: t.pos[p] == s.pos[p])
    && (forall p | |s.pos| <= p < |t.pos| :: PoFor(t.pos[p], o, drafts[p - |s.pos|]))
  }

  lemma {:induction false} CreateLoop(s: Shop, ctx: Context, o: nat, drafts: seq<Draft>, now: int)
    requires ShopInv(s) && Ready(s, o, drafts) && o < |s.orders|
    ensures var tx := CreatePos(s, ctx, o, drafts, now); tx.Commit? ==> ShopInv(tx.state) && Created(s, tx.state, o, drafts)
  {
    hide ShopInv, CreatePo, DraftReady;
    if drafts != [] {
      var (before, last) := (drafts[..|drafts| - 1], drafts[|drafts| - 1]);
      assert forall i | 0 <= i < |before| :: before[i] == drafts[i];
      CreateLoop(s, ctx, o, before, now);
      var mid := CreatePos(s, ctx, o, before, now);
      if CreatePos(s, ctx, o, drafts, now).Commit? {
        var t := mid.state;
        StillReady(s, t, o, last);
        SupplierIsNew(s, t, o, before, last);
        CreateKeeps(t, ctx, o, last, now);
        CreatedOneMore(s, t, CreatePo(t, ctx, o, last, now).state, o, before, last);
        assert drafts == before + [last];
      }
    }
  }

  lemma SupplierIsNew(s: Shop, t: Shop, o: nat, before: seq<Draft>, last: Draft)
    requires Created(s, t, o, before) && (forall p | 0 <= p < |s.pos| :: s.pos[p].order != o)
    requires forall i | 0 <= i < |before| :: before[i].supplier != last.supplier
    ensures forall p | 0 <= p < |t.pos| && t.pos[p].order == o :: t.pos[p].supplier != last.supplier
  {
    assert forall p | |s.pos| <= p < |t.pos| :: PoFor(t.pos[p], o, before[p - |s.pos|]);
  }

  lemma CreatedOneMore(s: Shop, t: Shop, u: Shop, o: nat, before: seq<Draft>, last: Draft)
    requires Created(s, t, o, before)
    requires u == t.(plane := u.plane, pos := u.pos) && |u.pos| == |t.pos| + 1 && u.pos[..|t.pos|] == t.pos
    requires PoFor(u.pos[|t.pos|], o, last)
    ensures Created(s, u, o, before + [last])
  {
    assert forall p | 0 <= p < |t.pos| :: u.pos[..|t.pos|][p] == u.pos[p];
    forall p | |s.pos| <= p < |u.pos| ensures PoFor(u.pos[p], o, (before + [last])[p - |s.pos|]) {
      if p < |t.pos| { assert PoFor(t.pos[p], o, before[p - |s.pos|]); }
    }
  }

  lemma StillReady(s: Shop, t: Shop, o: nat, d: Draft)
    requires DraftReady(s, o, d) && t.orders == s.orders && t.decisions == s.decisions && t.lines == s.lines
    ensures DraftReady(t, o, d)
  {}

  /** The order itself moves while it has no purchase orders. */
  lemma OrderMoves(s: Shop, o: nat, status: OrderStatus)
    requires ShopInv(s) && o < |s.orders| && status in {PoPending, OrderException} && s.orders[o].status != OrderCancelled
    requires forall p | 0 <= p < |s.pos| :: s.pos[p].order != o
    ensures ShopInv(SetOrder(s, o, status))
  {
    hide PlaneSound, StatusOk;
    var t := SetOrder(s, o, status);
    forall k | k in t.plane.outbox ensures EventOk(t, k) { assert EventOk(s, k); }
    forall p | 0 <= p < |t.pos| ensures PoOk(t, p) { PoSurvives(s, t, p); }
  }

  lemma DecidingKeeps(s: Shop, t: Shop, choices: seq<Choice>)
    requires ShopInv(s) && DecidedFor(s, t, choices)
    ensures ShopInv(t)
  {
    hide PlaneSound, StatusOk, ChoiceDecided, Chosen;
    forall k | k in t.plane.outbox ensures EventOk(t, k) { assert EventOk(s, k); }
    forall p | 0 <= p < |t.pos| ensures PoOk(t, p) {
      assert PoOk(s, p);
      forall i | 0 <= i < |s.pos[p].lines| ensures LineSupported(t, s.pos[p], s.pos[p].lines[i]) {
        assert LineSupported(s, s.pos[p], s.pos[p].lines[i]);
      }
    }
  }

  lemma DraftsReady(s: Shop, t: Shop, o: nat, quotes: Quotes)
    requires o < |s.orders| && s.orders[o].status == PoPending && Select(LinesOf(s.lines, o), quotes).Some?
    requires DecidedFor(s, t, Select(LinesOf(s.lines, o), quotes).value)
    requires forall p | 0 <= p < |s.pos| :: s.pos[p].order != o
    ensures Ready(t, o, Drafts(Select(LinesOf(s.lines, o), quotes).value))
  {
    var lines := LinesOf(s.lines, o);
    var choices := Select(lines, quotes).value;
    var drafts := Drafts(choices);
    hide Select, Drafts, ChoiceDecided;
    SuppliersSorted(choices);
    DraftsAre(choices);
    forall i, j | 0 <= i < j < |drafts| ensures drafts[i].supplier != drafts[j].supplier {
      Text.LessIrreflexive(drafts[i].supplier);
      assert Text.Less(Suppliers(choices)[i], Suppliers(choices)[j]);
    }
    forall i | 0 <= i < |drafts| ensures DraftReady(t, o, drafts[i]) {
      ItemsFrom(choices, drafts[i].supplier);
      forall k | 0 <= k < |drafts[i].lines| ensures ItemReady(t, o, drafts[i].supplier, drafts[i].lines[k]) {
        assert drafts[i].lines == ItemsFor(choices, drafts[i].supplier);
        assert ItemChosen(choices, drafts[i].supplier, drafts[i].lines[k]);
        var c :| 0 <= c < |choices| && choices[c].supplier == drafts[i].supplier && drafts[i].lines[k] == ItemOf(choices[c]);
        ChoiceReady(s, t, o, quotes, c);
      }
    }
  }

  ghost predicate ItemReady(t: Shop, o: nat, supplier: string, item: PoLine) {
    && item.line in t.decisions && t.decisions[item.line] == Decision(supplier, item.quantity, item.unitCost)
    && item.line < |t.lines| && t.lines[item.line].order == o && t.lines[item.line].routed
  }

  lemma ChoiceReady(s: Shop, t: Shop, o: nat, quotes: Quotes, c: nat)
    requires Select(LinesOf(s.lines, o), quotes).Some? && c < |Select(LinesOf(s.lines, o), quotes).value|
    requires DecidedFor(s, t, Select(LinesOf(s.lines, o), quotes).value)
    ensures var choice := Select(LinesOf(s.lines, o), quotes).value[c]; ItemReady(t, o, choice.supplier, ItemOf(choice))
  {
    var lines := LinesOf(s.lines, o);
    var choices := Select(lines, quotes).value;
    SelectExact(lines, quotes);
    LinesOfExact(s.lines, o);
    hide Select, LinesOf, Chosen;
    assert LeastFor(choices[c], lines[c], quotes);
    assert ChoiceDecided(t, choices[c]);
  }

  lemma DraftsAre(choices: seq<Choice>)
    ensures |Drafts(choices)| == |Suppliers(choices)|
    ensures forall i | 0 <= i < |Drafts(choices)| ::
              Drafts(choices)[i].supplier == Suppliers(choices)[i] && Drafts(choices)[i].lines == ItemsFor(choices, Suppliers(choices)[i])
  {}

  lemma ProposeKeeps(s: Shop, ctx: Context, o: nat, quotes: Quotes, expected: int, now: int)
    requires ShopInv(s)
    ensures var tx := ProposeRouting(s, ctx, o, quotes, expected, now); tx.Commit? ==> ShopInv(tx.state)
  {
    hide ShopInv, Require, Select, Drafts, Decided, CreatePos, LinesOf, PosOf;
    var tx := ProposeRouting(s, ctx, o, quotes, expected, now);
    if tx.Commit? && PosOf(s.pos, o) == [] {
      NoPos(s, o);
      var selected := Select(LinesOf(s.lines, o), quotes);
      if selected.None? {
        OrderMoves(s, o, OrderException);
      } else {
        var u := SetOrder(s, o, PoPending);
        OrderMoves(s, o, PoPending);
        DecideLoop(u, selected.value);
        hide DecidedFor, Ready, Created;
        var t := Decided(u, selected.value).state;
        DecidingKeeps(u, t, selected.value);
        DraftsReady(u, t, o, quotes);
        CreateLoop(t, ctx, o, Drafts(selected.value), now);
      }
    }
  }

  lemma NoPos(s: Shop, o: nat)
    requires PosOf(s.pos, o) == []
    ensures forall p | 0 <= p < |s.pos| :: s.pos[p].order != o
  {
    PosOfExact(s.pos, o);
    forall p | 0 <= p < |s.pos| ensures s.pos[p].order != o { assert p in PosOf(s.pos, o) <==> s.pos[p].order == o; }
  }
}

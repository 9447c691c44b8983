/** Exactly when a purchase order is sent or answered, and every way its status can
    move: what stands behind each status a run can show. */
module PurchaseOutcomes {
  import opened Common
  import opened Domain
  import opened ControlPlane
  import opened Routing
  import opened PurchaseOrders
  import opened PurchaseSafety
  import opened PurchaseLifecycle
  import opened PurchaseTheorems
  import opened ApprovalOutcomes
  import X = ExecutionSafety
  import E = ExactlyOnce

  predicate NoStop(p: Plane, channel: string) { forall s | s in p.stops :: s.ConnectionScope? && s.connection != channel }

  /** Everything a purchase order needs to be sent: no stop on its channel, a standing
      approval in time, and two members who may still approve purchases, the caller
      being the tenant's administrator too. */
  ghost predicate Submittable(s: Shop, ctx: Context, p: nat, now: int) {
    && X.Administrator(s.plane, ctx) && ActiveWith(s.plane, ctx.user, ApprovePurchase)
    && p < |s.pos| && s.pos[p].status == PoApproved
    && s.pos[p].order < |s.orders| && s.orders[s.pos[p].order].status == PoPending && NoStop(s.plane, s.orders[s.pos[p].order].channel)
    && var c := s.pos[p].approval;
       && c < |s.plane.commands| && c < |s.plane.approvals|
       && s.plane.commands[c].state == Approved && s.plane.approvals[c].state == Approved && now < s.plane.approvals[c].expiresAt
       && s.plane.approvals[c].decidedBy.Some? && ActiveWith(s.plane, s.plane.approvals[c].decidedBy.value, ApprovePurchase)
  }

  lemma SubmitShape(s: Shop, ctx: Context, p: nat, now: int)
    ensures var tx := SubmitPo(s, ctx, p, now);
      && (tx.Commit? <==>
            && Require(s.plane, ctx, TenantAdmin).Pass? && p < |s.pos| && s.pos[p].status == PoApproved
            && s.pos[p].order < |s.orders| && !StopActive(s.plane, Some(s.orders[s.pos[p].order].channel))
            && var c := s.pos[p].approval;
               && c < |s.plane.commands| && c < |s.plane.approvals| && s.orders[s.pos[p].order].status == PoPending
               && s.plane.approvals[c].state == Approved && c in s.plane.intents && now < s.plane.approvals[c].expiresAt
               && var prepared := PrepareExecution(s.plane, ctx, c, s.plane.intents[c].policyVersion, s.orders[s.pos[p].order].version, now);
                  prepared.Commit? && PoSubmitted(p) !in prepared.state.outbox)
      && (tx.Commit? ==>
            var plane := PrepareExecution(s.plane, ctx, s.pos[p].approval, s.plane.intents[s.pos[p].approval].policyVersion, s.orders[s.pos[p].order].version, now).state;
            tx.state == SetPo(s.(plane := plane.(outbox := plane.outbox + {PoSubmitted(p)})), p, s.pos[p].(status := Submitted, version := s.pos[p].version + 1)))
  {
    hide Require, PrepareExecution, StopActive;
  }

  /** Exactly when a purchase order can be submitted, and what that leaves; neither the
      routing, nor the order's version, nor any announced event is ever in the way. */
  lemma SubmittableExact(s: Shop, ctx: Context, p: nat, now: int)
    requires ShopInv(s)
    ensures SubmitPo(s, ctx, p, now).Commit? <==> Submittable(s, ctx, p, now)
    ensures SubmitPo(s, ctx, p, now).Commit? ==>
              var t := SubmitPo(s, ctx, p, now).state;
              p < |s.pos| && t == s.(plane := t.plane, pos := s.pos[p := s.pos[p].(status := Submitted, version := s.pos[p].version + 1)])
              && s.pos[p].approval in t.plane.preparations && PoSubmitted(p) in t.plane.outbox
  {
    SubmitShape(s, ctx, p, now);
    X.AdministratorExact(s.plane, ctx);
    hide SubmitPo, ShopInv, PrepareExecution, PlaneSound, Require, StopActive, NoStop, PoOk, X.Administrator, ActiveWith, ApprovalOutcomes.Added;
    if p < |s.pos| {
      InvPo(s, p);
      ShopPlane(s);
      PoSent(s, p);
      PoBound(s, p);
      StopOn(s.plane, s.orders[s.pos[p].order].channel);
      if s.orders[s.pos[p].order].status == PoPending {
        PrepareOutcome(s.plane, ctx, s.pos[p].approval, 1, s.orders[s.pos[p].order].version, now);
      }
      SameSession(s.plane, ctx);
    }
  }

  lemma SameSession(p: Plane, ctx: Context)
    ensures X.Administrator(p, ctx) ==> ctx.user in p.members && p.members[ctx.user].version == ctx.version
  {}

  lemma PoBound(s: Shop, p: nat)
    requires p < |s.pos| && PoOk(s, p) && ShopInv(s)
    ensures var (po, c) := (s.pos[p], s.pos[p].approval);
      && po.order < |s.orders| && s.orders[po.order].version >= 1
      && c < |s.plane.commands| && c < |s.plane.approvals| && c in s.plane.intents && s.plane.commands[c].kind == Purchase
      && s.plane.intents[c].policyVersion == 1
      && (s.orders[po.order].status == PoPending ==> s.plane.intents[c].targetVersion == s.orders[po.order].version)
  {
    OrderVersions(s, s.pos[p].order);
  }

  lemma StopOn(p: Plane, channel: string)
    ensures StopActive(p, Some(channel)) <==> !NoStop(p, channel)
  {
    StopExact(p, channel);
  }

  lemma PoSent(s: Shop, p: nat)
    requires ShopInv(s) && p < |s.pos|
    ensures PoSubmitted(p) in s.plane.outbox ==> Sent(s.pos[p].status)
  {
    assert PoSubmitted(p) in s.plane.outbox ==> EventOk(s, PoSubmitted(p));
  }

  /** Exactly which supplier responses are taken, and what each means: the first one that
      says anything is kept for good, an acknowledgement and a refusal each with its own status. */
  lemma ReconcileExact(s: Shop, ctx: Context, p: nat, answer: Answer, digest: string)
    requires ShopInv(s)
    ensures var tx := ReconcilePo(s, ctx, p, answer, digest);
      && (tx.Commit? <==>
            && X.Administrator(s.plane, ctx) && p < |s.pos| && s.pos[p].status in {Submitted, Acknowledged, PoException}
            && (s.pos[p].response.None? || s.pos[p].response == Some(digest)))
      && (tx.Commit? ==>
            && tx.value == (s.pos[p].response == Some(digest))
            && (tx.state == s <==> tx.value || answer == AnswerUnknown)
            && (tx.state != s ==>
                  && tx.state == s.(plane := s.plane.(outbox := s.plane.outbox + {PoResponse(p, digest)}), pos := tx.state.pos)
                  && |tx.state.pos| == |s.pos| && tx.state.pos == s.pos[p := tx.state.pos[p]]
                  && tx.state.pos[p] == s.pos[p].(status := tx.state.pos[p].status, response := Some(digest), version := s.pos[p].version + 1)
                  && (tx.state.pos[p].status == Acknowledged <==> answer == AnswerAcknowledged)
                  && (tx.state.pos[p].status == PoException <==> answer == AnswerRejected)))
  {
    X.AdministratorExact(s.plane, ctx);
    ResponseIs(s, p, digest);
    hide Require, X.Administrator, ShopInv;
    if ReconcilePo(s, ctx, p, answer, digest).Commit? && ReconcilePo(s, ctx, p, answer, digest).state != s {
      assert ReconcilePo(s, ctx, p, answer, digest).state.pos[p].version == s.pos[p].version + 1;
    }
  }

  lemma ResponseIs(s: Shop, p: nat, digest: string)
    requires ShopInv(s)
    ensures PoResponse(p, digest) in s.plane.outbox ==> p < |s.pos| && s.pos[p].response == Some(digest)
  {
    assert PoResponse(p, digest) in s.plane.outbox ==> EventOk(s, PoResponse(p, digest));
  }

  // ------------------------------------------------------------ how a status can move

  /** Every way one step can move one purchase order, with what it takes. */
  ghost predicate Moves(s: Shop, step: Step, p: nat, to: PoStatus)
    requires p < |s.pos|
  {
    var po := s.pos[p];
    match step
    case Approve(ctx, q, approve, now) =>
      q == p && po.status == ApprovalPending && Require(s.plane, ctx, ApprovePurchase).Pass? && to == (if approve then PoApproved else PoCancelled)
      && po.approval < |s.plane.approvals| && s.plane.approvals[po.approval].state == Pending && now < s.plane.approvals[po.approval].expiresAt
    case Regenerate(ctx, q, expected, now) =>
      q == p && to == ApprovalPending && po.version == expected
      && po.approval < |s.plane.approvals| && Lapsed(po.status, s.plane.approvals[po.approval], now)
    case Submit(ctx, q, now) => q == p && to == Submitted && Submittable(s, ctx, p, now)
    case Reconcile(ctx, q, answer, digest) =>
      q == p && po.status in {Submitted, Acknowledged, PoException} && po.response.None?
      && ((answer == AnswerAcknowledged && to == Acknowledged) || (answer == AnswerRejected && to == PoException))
    case Cancel(ctx, o, expected) =>
      o == po.order && o < |s.orders| && s.orders[o].status == PoPending && s.orders[o].version == expected
      && ((po.status in {ApprovalPending, PoApproved} && to == PoCancelled) || (po.status in {Submitted, Acknowledged} && to == CancelRequested))
    case _ => false
  }

  /** What may be renewed: a refused or expired approval, or a granted one that ran out unused. */
  predicate Lapsed(status: PoStatus, a: Approval, now: int) {
    || (status == PoCancelled && (a.state == Rejected || a.state == Expired))
    || (status == ApprovalPending && (a.state == Expired || a.expiresAt <= now))
    || (status == PoApproved && a.expiresAt <= now)
  }

  /** A step moves no status but in these ways. */
  lemma StepMoves(s: Shop, step: Step, p: nat)
    requires ShopInv(s) && p < |s.pos|
    ensures p < |Apply(s, step).pos|
    ensures Apply(s, step).pos[p] == s.pos[p] || (step.Regenerate? && Moves(s, step, p, ApprovalPending)) || Moves(s, step, p, Apply(s, step).pos[p].status)
  {
    hide ShopInv, Ingest, ProposeRouting, ApprovePo, RegeneratePo, SubmitPo, ReconcilePo, RequestCancel, E.PlaneAfter, Submittable;
    match step {
      case Receive(channel, items) => ReceiveMoves(s, channel, items);
      case Propose(ctx, o, quotes, expected, now) => ProposeMoves(s, ctx, o, quotes, expected, now, p);
      case Approve(ctx, q, approve, now) => DecidableExact(s, ctx, q, approve, now); ApproveMoves(s, ctx, q, approve, now);
      case Regenerate(ctx, q, expected, now) => RegenerateMoves(s, ctx, q, expected, now);
      case Submit(ctx, q, now) => SubmittableExact(s, ctx, q, now);
      case Reconcile(ctx, q, answer, digest) => ReconcileExact(s, ctx, q, answer, digest);
      case Cancel(ctx, o, expected) => CancelExact(s, ctx, o, expected); CancelMoves(s, ctx, o, expected);
      case Others(other) =>
    }
  }

  lemma ReceiveMoves(s: Shop, channel: string, items: seq<(string, int)>)
    ensures StateAfter(s, Ingest(s, channel, items)).pos == s.pos
  {}

  lemma ProposeMoves(s: Shop, ctx: Context, o: nat, quotes: Quotes, expected: int, now: int, p: nat)
    requires ShopInv(s) && p < |s.pos|
    ensures var tx := ProposeRouting(s, ctx, o, quotes, expected, now); tx.Commit? ==> p < |tx.state.pos| && tx.state.pos[p] == s.pos[p]
  {
    ProposeAdds(s, ctx, o, quotes, expected, now);
  }

  /** What routing leaves: the purchase orders there already are; or, with a line nobody can
      supply, an order in exception and nothing else; or one purchase order per supplier
      of a least quote, waiting at the order's new version, its lines decided and routed. */
  lemma ProposeAdds(s: Shop, ctx: Context, o: nat, quotes: Quotes, expected: int, now: int)
    requires ShopInv(s)
    ensures var tx := ProposeRouting(s, ctx, o, quotes, expected, now);
      var selected := Select(LinesOf(s.lines, o), quotes);
      tx.Commit? ==>
        && o < |s.orders| && s.orders[o].version == expected
        && (if PosOf(s.pos, o) != [] then tx.state == s && tx.value == PosOf(s.pos, o)
            else if selected.None? then
              tx.state == s.(orders := s.orders[o := s.orders[o].(status := OrderException, version := expected + 1)]) && tx.value == []
            else
              && tx.state.orders == s.orders[o := s.orders[o].(status := PoPending, version := expected + 1)]
              && Added(s, tx.state, tx.value, o, selected.value))
  {
    hide ShopInv, Require, Select, Drafts, Decided, CreatePos, LinesOf, PosOf, Added;
    var tx := ProposeRouting(s, ctx, o, quotes, expected, now);
    var selected := Select(LinesOf(s.lines, o), quotes);
    if tx.Commit? && PosOf(s.pos, o) == [] && selected.Some? { RoutedAdds(s, ctx, o, selected.value, quotes, expected, now); }
  }

  /** The purchase orders of a routing, one per draft, behind the ones there were. */
  ghost predicate Added(s: Shop, t: Shop, made: seq<nat>, o: nat, choices: seq<Choice>) {
    && |made| == |Drafts(choices)| && |t.pos| == |s.pos| + |made|
    && (forall p | 0 <= p < |s.pos| :: t.pos[p] == s.pos[p])
    && (forall i | 0 <= i < |made| :: made[i] == |s.pos| + i && PoFor(t.pos[|s.pos| + i], o, Drafts(choices)[i]))
    && DecidedFor(s, s.(decisions := t.decisions, lines := t.lines), choices)
  }

  lemma RoutedAdds(s: Shop, ctx: Context, o: nat, choices: seq<Choice>, quotes: Quotes, expected: int, now: int)
    requires ShopInv(s) && ProposeRouting(s, ctx, o, quotes, expected, now).Commit?
    requires PosOf(s.pos, o) == [] && Select(LinesOf(s.lines, o), quotes) == Some(choices)
    ensures var tx := ProposeRouting(s, ctx, o, quotes, expected, now);
      o < |s.orders| && s.orders[o].version == expected
      && tx.state.orders == s.orders[o := s.orders[o].(status := PoPending, version := expected + 1)] && Added(s, tx.state, tx.value, o, choices)
  {
    hide ShopInv, Require, Select, Drafts, Decided, CreatePos, LinesOf, PosOf, PoFor, DecidedFor, Ready, Created, Added;
    NoPos(s, o);
    var u := SetOrder(s, o, PoPending);
    OrderMoves(s, o, PoPending);
    DecideLoop(u, choices);
    var t := Decided(u, choices).state;
    assert t.pos == u.pos && t.orders == u.orders by { DecidedRest(u, t, choices); }
    ForgetOrder(s, u, t, choices);
    DecidingKeeps(u, t, choices);
    DraftsReady(u, t, o, quotes);
    CreateLoop(t, ctx, o, Drafts(choices), now);
    CreateRows(t, ctx, o, Drafts(choices), now);
    var tx := CreatePos(t, ctx, o, Drafts(choices), now);
    AddedFrom(s, t, tx.state, tx.value, o, choices);
  }

  lemma DecidedRest(u: Shop, t: Shop, choices: seq<Choice>)
    requires DecidedFor(u, t, choices)
    ensures t.pos == u.pos && t.orders == u.orders
  {}

  lemma AddedFrom(s: Shop, t: Shop, v: Shop, made: seq<nat>, o: nat, choices: seq<Choice>)
    requires Created(t, v, o, Drafts(choices)) && t.pos == s.pos && DecidedFor(s, s.(decisions := t.decisions, lines := t.lines), choices)
    requires |made| == |Drafts(choices)| && forall i | 0 <= i < |made| :: made[i] == |t.pos| + i
    ensures Added(s, v, made, o, choices) && v.orders == t.orders
  {
    hide PoFor, Drafts, DecidedFor;
  }

  lemma {:induction false} CreateRows(s: Shop, ctx: Context, o: nat, drafts: seq<Draft>, now: int)
    requires ShopInv(s) && Ready(s, o, drafts) && o < |s.orders|
    ensures var tx := CreatePos(s, ctx, o, drafts, now);
      tx.Commit? ==> |tx.value| == |drafts| && forall i | 0 <= i < |tx.value| :: tx.value[i] == |s.pos| + i
  {
    hide ShopInv, CreatePo, DraftReady, PoFor;
    if drafts != [] {
      var before := drafts[..|drafts| - 1];
      assert forall i | 0 <= i < |before| :: before[i] == drafts[i];
      CreateRows(s, ctx, o, before, now);
      CreateLoop(s, ctx, o, before, now);
      var mid := CreatePos(s, ctx, o, before, now);
      if mid.Commit? { CreateRow(mid.state, ctx, o, drafts[|drafts| - 1], now); }
    }
  }

  lemma CreateRow(s: Shop, ctx: Context, o: nat, d: Draft, now: int)
    requires o < |s.orders|
    ensures CreatePo(s, ctx, o, d, now).Commit? ==> CreatePo(s, ctx, o, d, now).value == |s.pos|
  {
    hide RequestApproval;
  }

  lemma ForgetOrder(s: Shop, u: Shop, t: Shop, choices: seq<Choice>)
    requires DecidedFor(u, t, choices) && u == s.(orders := u.orders)
    ensures DecidedFor(s, s.(decisions := t.decisions, lines := t.lines), choices)
  {
    var v := s.(decisions := t.decisions, lines := t.lines);
    forall i | 0 <= i < |choices| ensures ChoiceDecided(v, choices[i]) { assert ChoiceDecided(t, choices[i]); }
  }

  lemma ApproveMoves(s: Shop, ctx: Context, p: nat, approve: bool, now: int)
    ensures var tx := ApprovePo(s, ctx, p, approve, now);
      tx.Commit? ==> p < |s.pos| && tx.state == s.(plane := tx.state.plane, pos := tx.state.pos)
                     && (tx.value ==> tx.state.pos == s.pos)
                     && (!tx.value ==> tx.state.pos == s.pos[p := s.pos[p].(status := if approve then PoApproved else PoCancelled, version := s.pos[p].version + 1)])
  {
    hide Require, Decide;
  }

  lemma RegenerateMoves(s: Shop, ctx: Context, p: nat, expected: int, now: int)
    ensures var tx := RegeneratePo(s, ctx, p, expected, now);
      tx.Commit? ==> p < |s.pos| && s.pos[p].version == expected && s.pos[p].approval < |s.plane.approvals|
                     && Lapsed(s.pos[p].status, s.plane.approvals[s.pos[p].approval], now)
                     && tx.state == s.(plane := tx.state.plane, pos := tx.state.pos)
                     && tx.state.pos == s.pos[p := s.pos[p].(status := ApprovalPending, approval := tx.value, version := s.pos[p].version + 1)]
  {
    hide Require, RequestApproval, RoutedPayload, Target;
  }

  /** What a cancellation means for each purchase order of the order, and for no other. */
  predicate Withdrawn(po: PurchaseOrder, next: PurchaseOrder) {
    match po.status
    case ApprovalPending => next == po.(status := PoCancelled, version := po.version + 1)
    case PoApproved => next == po.(status := PoCancelled, version := po.version + 1)
    case Submitted => next == po.(status := CancelRequested, version := po.version + 1)
    case Acknowledged => next == po.(status := CancelRequested, version := po.version + 1)
    case _ => next == po
  }

  /** A cancellation withdraws what was not sent, asks for the return of what was, and is
      announced; a second one finds it done. */
  lemma CancelMoves(s: Shop, ctx: Context, o: nat, expected: int)
    ensures var tx := RequestCancel(s, ctx, o, expected);
      tx.Commit? ==>
        && o < |s.orders| && tx.value == (s.orders[o].status == OrderCancelled) && (tx.value ==> tx.state == s)
        && (!tx.value ==>
              && s.orders[o].status == PoPending && s.orders[o].version == expected
              && tx.state.orders == s.orders[o := s.orders[o].(status := OrderCancelled, version := s.orders[o].version + 1)]
              && CancelledOrder(o) in tx.state.plane.outbox
              && |tx.state.pos| == |s.pos|
              && (forall p | 0 <= p < |s.pos| :: if s.pos[p].order == o then Withdrawn(s.pos[p], tx.state.pos[p]) else tx.state.pos[p] == s.pos[p])
              && (forall p | 0 <= p < |s.pos| && s.pos[p].order == o && s.pos[p].status in {Submitted, Acknowledged} :: PoCancelRequested(p) in tx.state.plane.outbox))
  {
    hide Require, CancelPos;
    var tx := RequestCancel(s, ctx, o, expected);
    if tx.Commit? && !tx.value {
      var u := SetOrder(s, o, OrderCancelled);
      CancelLoop(u, o, |s.pos|);
      CancelAsks(u, o, |s.pos|);
    }
  }

  lemma CancelOneAsks(t: Shop, p: nat)
    requires p < |t.pos|
    ensures CancelOne(t, p).Commit? && t.pos[p].status in {Submitted, Acknowledged} ==> PoCancelRequested(p) in CancelOne(t, p).state.plane.outbox
    ensures CancelOne(t, p).Commit? ==> t.plane.outbox <= CancelOne(t, p).state.plane.outbox
  {}

  lemma {:induction false} CancelAsks(s: Shop, o: nat, n: nat)
    requires n <= |s.pos|
    ensures var tx := CancelPos(s, o, n);
      tx.Commit? ==> forall p | 0 <= p < n && AsksToCancel(s.pos[p], o) :: PoCancelRequested(p) in tx.state.plane.outbox
  {
    if n > 0 {
      CancelAsks(s, o, n - 1);
      CancelLoop(s, o, n - 1);
      var before := CancelPos(s, o, n - 1);
      if before.Commit? {
        CancelOneAsks(before.state, n - 1);
        hide CancelOne;
      }
    }
  }

  /** Nothing is ever sent under a stop: whenever a run makes a purchase order SUBMITTED,
      it is the submission of it by an administrator, under a standing approval in time,
      while no stop covered the channel of its order. */
  lemma SentUnstopped(steps: seq<Step>, n: nat, p: nat)
    requires n < |steps| && p < |After(steps[..n + 1]).pos| && After(steps[..n + 1]).pos[p].status == Submitted
    requires p < |After(steps[..n]).pos| ==> After(steps[..n]).pos[p].status != Submitted
    ensures steps[n].Submit? && steps[n].po == p && Submittable(After(steps[..n]), steps[n].ctx, p, steps[n].now)
  {
    var s := After(steps[..n]);
    assert steps[..n + 1][..n] == steps[..n];
    RunKeeps(steps[..n]);
    if p < |s.pos| {
      hide ShopInv, Apply, Submittable;
      StepMoves(s, steps[n], p);
    } else {
      NewIsPending(s, steps[n], p);
    }
  }

  lemma ProposePending(s: Shop, ctx: Context, o: nat, quotes: Quotes, expected: int, now: int, p: nat)
    requires ShopInv(s)
    ensures var tx := ProposeRouting(s, ctx, o, quotes, expected, now);
      tx.Commit? && |s.pos| <= p < |tx.state.pos| ==> tx.state.pos[p].status == ApprovalPending
  {
    ProposeAdds(s, ctx, o, quotes, expected, now);
    hide ShopInv, ProposeRouting, Select, Drafts, LinesOf, PosOf, Added;
    var tx := ProposeRouting(s, ctx, o, quotes, expected, now);
    var selected := Select(LinesOf(s.lines, o), quotes);
    if tx.Commit? && |s.pos| <= p < |tx.state.pos| { AddedPending(s, tx.state, tx.value, o, selected.value, p); }
  }

  lemma AddedPending(s: Shop, t: Shop, made: seq<nat>, o: nat, choices: seq<Choice>, p: nat)
    requires Added(s, t, made, o, choices) && |s.pos| <= p < |t.pos|
    ensures t.pos[p].status == ApprovalPending
  {
    hide Drafts, DecidedFor;
    var i := p - |s.pos|;
    assert made[i] == |s.pos| + i;
  }

  lemma NewIsPending(s: Shop, step: Step, p: nat)
    requires ShopInv(s) && |s.pos| <= p < |Apply(s, step).pos|
    ensures Apply(s, step).pos[p].status == ApprovalPending
  {
    hide ShopInv, Ingest, ProposeRouting, ApprovePo, RegeneratePo, SubmitPo, ReconcilePo, RequestCancel, E.PlaneAfter, Submittable;
    match step {
      case Receive(channel, items) => ReceiveMoves(s, channel, items);
      case Propose(ctx, o, quotes, expected, now) =>
        ProposePending(s, ctx, o, quotes, expected, now, p);
      case Approve(ctx, q, approve, now) => ApproveMoves(s, ctx, q, approve, now);
      case Regenerate(ctx, q, expected, now) => RegenerateMoves(s, ctx, q, expected, now);
      case Submit(ctx, q, now) => SubmittableExact(s, ctx, q, now);
      case Reconcile(ctx, q, answer, digest) => ReconcileExact(s, ctx, q, answer, digest);
      case Cancel(ctx, o, expected) => CancelMoves(s, ctx, o, expected);
      case Others(other) =>
    }
  }
}

/** orders.py, order02.py and order03.py: routed purchase orders, the approvals
    they wait for, their renewal, submission and cancellation. */
module PurchaseOrders {
  import opened Common
  import opened Domain
  import opened ControlPlane
  import opened Routing

  datatype OrderStatus = OrderAccepted | InRouting | PoPending | OrderException | OrderCancelled

  datatype Order = Order(channel: string, status: OrderStatus, version: int)

  datatype OrderLine = OrderLine(order: nat, sku: string, quantity: int, routed: bool)

  datatype Decision = Decision(supplier: string, quantity: int, cost: int)

  datatype PoStatus = ApprovalPending | PoApproved | Submitted | Acknowledged | CancelRequested | PoCancelled | PoException

  /** A purchase order with its lines; it carries the command of its current approval. */
  datatype PurchaseOrder = PurchaseOrder(order: nat, supplier: string, status: PoStatus, approval: nat, version: int,
                                         lines: seq<PoLine>, response: Option<string>)

  /** One tenant's orders; lines, purchase orders and commands are known by their rows. */
  datatype Shop = Shop(plane: Plane, orders: seq<Order>, lines: seq<OrderLine>, decisions: map<nat, Decision>, pos: seq<PurchaseOrder>)

  function FreshLines(o: nat, items: seq<(string, int)>): (lines: seq<OrderLine>)
    ensures |lines| == |items| && forall i | 0 <= i < |lines| :: lines[i] == OrderLine(o, items[i].0, items[i].1, false)
  {
    if items == [] then [] else FreshLines(o, items[..|items| - 1]) + [OrderLine(o, items[|items| - 1].0, items[|items| - 1].1, false)]
  }

  function Ingest(s: Shop, channel: string, items: seq<(string, int)>): Tx<Shop, nat> {
    var some := items != [];
    :- Need(some, Conflict);
    var o := |s.orders|;
    Commit(s.(orders := s.orders + [Order(channel, OrderAccepted, 1)],
              lines := s.lines + FreshLines(o, items)), o)
  }

  // ----------------------------------------------------------------- proposals

  function LinesOf(lines: seq<OrderLine>, o: nat): seq<Line> {
    if lines == [] then []
    else
      var n := |lines| - 1;
      LinesOf(lines[..n], o) + if lines[n].order == o then [Line(n, lines[n].sku, lines[n].quantity)] else []
  }

  function PosOf(pos: seq<PurchaseOrder>, o: nat): seq<nat> {
    if pos == [] then []
    else
      var n := |pos| - 1;
      PosOf(pos[..n], o) + if pos[n].order == o then [n] else []
  }

  function Numeral(n: nat): string {
    if n < 10 then [('0' as int + n) as char] else Numeral(n / 10) + [('0' as int + n % 10) as char]
  }

  function Target(o: nat, supplier: string): string { "po:" + Numeral(o) + ":" + supplier }

  function PayloadOf(po: PurchaseOrder): Payload { PurchasePayload(po.order, po.supplier, po.lines) }

  function SetOrder(s: Shop, o: nat, status: OrderStatus): Shop
    requires o < |s.orders|
  {
    s.(orders := s.orders[o := s.orders[o].(status := status, version := s.orders[o].version + 1)])
  }

  function SetPo(s: Shop, p: nat, po: PurchaseOrder): Shop
    requires p < |s.pos|
  {
    s.(pos := s.pos[p := po])
  }

  /** The chosen lines become routed, each with its decision; a line is decided once. */
  function Decided(s: Shop, choices: seq<Choice>): Tx<Shop, ()> {
    if choices == [] then Commit(s, ())
    else
      var (t, _) :- Decided(s, choices[..|choices| - 1]);
      var c := choices[|choices| - 1];
      :- Need(c.line.id !in t.decisions, Conflict);
      :- Need(c.line.id < |t.lines|, NotFound);
      Commit(t.(decisions := t.decisions[c.line.id := Decision(c.supplier, c.line.quantity, c.cost)],
                lines := t.lines[c.line.id := t.lines[c.line.id].(routed := true)]), ())
  }

  /** One draft becomes a purchase order waiting for a purchase approval of exactly its lines. */
  function CreatePo(s: Shop, ctx: Context, o: nat, d: Draft, now: int): Tx<Shop, nat>
    requires o < |s.orders|
  {
    var (plane, c) :- RequestApproval(s.plane, ctx, Purchase, Target(o, d.supplier), PurchasePayload(o, d.supplier, d.lines),
                                      PurchaseApproval(o, d.supplier), 1, s.orders[o].version, "", now);
    Commit(s.(plane := plane, pos := s.pos + [PurchaseOrder(o, d.supplier, ApprovalPending, c, 1, d.lines, None)]), |s.pos|)
  }

  function CreatePos(s: Shop, ctx: Context, o: nat, drafts: seq<Draft>, now: int): (tx: Tx<Shop, seq<nat>>)
    requires o < |s.orders|
    ensures tx.Commit? ==> tx.state.orders == s.orders
  {
    if drafts == [] then Commit(s, [])
    else
      var (t, made) :- CreatePos(s, ctx, o, drafts[..|drafts| - 1], now);
      var (u, p) :- CreatePo(t, ctx, o, drafts[|drafts| - 1], now);
      Commit(u, made + [p])
  }

  /** `propose_routing`; the value lists the order's purchase orders. */
  function ProposeRouting(s: Shop, ctx: Context, o: nat, quotes: Quotes, expected: int, now: int): Tx<Shop, seq<nat>> {
    var admin := Require(s.plane, ctx, TenantAdmin);
    :- admin;
    :- Need(o < |s.orders|, NotFound);
    :- Need(s.orders[o].version == expected, Conflict);
    :- Need(s.orders[o].status in {OrderAccepted, InRouting, PoPending}, Conflict);
    var existing := PosOf(s.pos, o);
    if existing != [] then Commit(s, existing)
    else
      var selected := Select(LinesOf(s.lines, o), quotes);
      if selected.None? then Commit(SetOrder(s, o, OrderException), [])
      else
        var (t, _) :- Decided(SetOrder(s, o, PoPending), selected.value);
        :- Need(o < |t.orders|, NotFound);
        CreatePos(t, ctx, o, Drafts(selected.value), now)
  }

  // ----------------------------------------------------------------- approvals

  predicate LineSupported(s: Shop, po: PurchaseOrder, l: PoLine) {
    && l.line in s.decisions && s.decisions[l.line] == Decision(po.supplier, l.quantity, l.unitCost)
    && l.line < |s.lines| && s.lines[l.line].order == po.order && s.lines[l.line].routed
  }

  /** `_routed_payload`: what the lines, their decisions and the order lines support today. */
  function RoutedPayload(s: Shop, po: PurchaseOrder): Option<Payload> {
    if forall i | 0 <= i < |po.lines| :: LineSupported(s, po, po.lines[i]) then Some(PayloadOf(po)) else None
  }

  function VerifyPo(s: Shop, p: nat): Check {
    if p >= |s.pos| then Fail(NotFound)
    else
      var po := s.pos[p];
      if po.status != ApprovalPending then Fail(Conflict)
      else if po.order >= |s.orders| then Fail(NotFound)
      else if s.orders[po.order].status != PoPending then Fail(Conflict)
      else if RoutedPayload(s, po).None? then Fail(Conflict)
      else if !(po.approval < |s.plane.commands| && po.approval < |s.plane.approvals|) then Fail(NotFound)
      else Need(s.plane.commands[po.approval].payload == RoutedPayload(s, po).value
                && s.plane.commands[po.approval].state == Pending && s.plane.approvals[po.approval].state == Pending
                && po.approval in s.plane.intents && s.plane.intents[po.approval].targetVersion == s.orders[po.order].version, Conflict)
  }

  /** The value says whether the approval turned out to be expired; the caller of
      an expired decision is told so after the commit. */
  function ApprovePo(s: Shop, ctx: Context, p: nat, approve: bool, now: int): Tx<Shop, bool> {
    var capable := Require(s.plane, ctx, ApprovePurchase);
    :- capable;
    :- VerifyPo(s, p);
    var po := s.pos[p];
    var (plane, expired) :- Decide(s.plane, ctx, po.approval, approve, now);
    if expired then Commit(s.(plane := plane), true)
    else
      var (emitted, _) :- AppendOutbox(plane, PoDecided(p, approve));
      Commit(SetPo(s.(plane := emitted), p, po.(status := if approve then PoApproved else PoCancelled, version := po.version + 1)), false)
  }

  predicate Renewable(po: PurchaseOrder, a: Approval, now: int) {
    match po.status
    case PoCancelled => a.state in {Rejected, Expired}
    case ApprovalPending => a.state == Expired || now >= a.expiresAt
    case PoApproved => now >= a.expiresAt
    case _ => false
  }

  function RegeneratePo(s: Shop, ctx: Context, p: nat, expected: int, now: int): Tx<Shop, nat> {
    var admin := Require(s.plane, ctx, TenantAdmin);
    :- admin;
    :- Need(p < |s.pos|, NotFound);
    var po := s.pos[p];
    :- Need(po.version == expected, Conflict);
    :- Need(po.order < |s.orders|, NotFound);
    :- Need(s.orders[po.order].status == PoPending, Conflict);
    :- Need(po.approval < |s.plane.approvals|, NotFound);
    :- Need(Renewable(po, s.plane.approvals[po.approval], now), Conflict);
    var payload := RoutedPayload(s, po);
    :- Need(payload.Some?, Conflict);
    var (plane, c) :- RequestApproval(s.plane, ctx, Purchase, Target(po.order, po.supplier), payload.value,
                                      PurchaseRenewal(po.order, po.supplier, po.version + 1), 1, s.orders[po.order].version, "", now);
    var (emitted, _) :- AppendOutbox(plane, PoRegenerated(p, po.version + 1));
    Commit(SetPo(s.(plane := emitted), p, po.(status := ApprovalPending, approval := c, version := po.version + 1)), c)
  }

  // --------------------------------------------------- submission and responses

  function SubmitPo(s: Shop, ctx: Context, p: nat, now: int): Tx<Shop, ()> {
    var admin := Require(s.plane, ctx, TenantAdmin);
    :- admin;
    :- Need(p < |s.pos|, NotFound);
    var po := s.pos[p];
    :- Need(po.status == PoApproved, Conflict);
    :- Need(po.order < |s.orders|, NotFound);
    :- Need(!StopActive(s.plane, Some(s.orders[po.order].channel)), Conflict);
    var c := po.approval;
    :- Need(c < |s.plane.commands| && c < |s.plane.approvals|, NotFound);
    :- Need(s.orders[po.order].status == PoPending && s.plane.approvals[c].state == Approved
            && c in s.plane.intents && now < s.plane.approvals[c].expiresAt, Conflict);
    var (plane, _) :- PrepareExecution(s.plane, ctx, c, s.plane.intents[c].policyVersion, s.orders[po.order].version, now);
    var (emitted, _) :- AppendOutbox(plane, PoSubmitted(p));
    Commit(SetPo(s.(plane := emitted), p, po.(status := Submitted, version := po.version + 1)), ())
  }

  datatype Answer = AnswerAcknowledged | AnswerRejected | AnswerUnknown

  /** `reconcile_demo_po`; `digest` identifies the response body. The value says whether it was a replay. */
  function ReconcilePo(s: Shop, ctx: Context, p: nat, answer: Answer, digest: string): Tx<Shop, bool> {
    var admin := Require(s.plane, ctx, TenantAdmin);
    :- admin;
    :- Need(p < |s.pos|, NotFound);
    var po := s.pos[p];
    :- Need(po.status in {Submitted, Acknowledged, PoException}, Conflict);
    if po.response == Some(digest) then Commit(s, true)
    else
      :- Need(po.response.None?, Conflict);
      if answer == AnswerUnknown then Commit(s, false)
      else
        var (emitted, _) :- AppendOutbox(s.plane, PoResponse(p, digest));
        Commit(SetPo(s.(plane := emitted), p, po.(status := if answer == AnswerAcknowledged then Acknowledged else PoException,
                                                  response := Some(digest), version := po.version + 1)), false)
  }

  // --------------------------------------------------------------- cancellation

  /** What cancelling its order does to one purchase order. */
  function CancelOne(s: Shop, p: nat): Tx<Shop, ()>
    requires p < |s.pos|
  {
    var po := s.pos[p];
    if po.status in {ApprovalPending, PoApproved} then
      Commit(SetPo(s, p, po.(status := PoCancelled, version := po.version + 1)), ())
    else if po.status in {Submitted, Acknowledged} then
      var (plane, _) :- AppendOutbox(s.plane, PoCancelRequested(p));
      Commit(SetPo(s.(plane := plane), p, po.(status := CancelRequested, version := po.version + 1)), ())
    else Commit(s, ())
  }

  function CancelPos(s: Shop, o: nat, n: nat): (tx: Tx<Shop, ()>)
    requires n <= |s.pos|
    ensures tx.Commit? ==> |tx.state.pos| == |s.pos|
  {
    if n == 0 then Commit(s, ())
    else
      var (t, _) :- CancelPos(s, o, n - 1);
      if t.pos[n - 1].order == o then CancelOne(t, n - 1) else Commit(t, ())
  }

  function RequestCancel(s: Shop, ctx: Context, o: nat, expected: int): Tx<Shop, bool> {
    var admin := Require(s.plane, ctx, TenantAdmin);
    :- admin;
    :- Need(o < |s.orders|, NotFound);
    if s.orders[o].status == OrderCancelled then Commit(s, true)
    else
      :- Need(s.orders[o].version == expected && s.orders[o].status == PoPending, Conflict);
      var (t, _) :- CancelPos(SetOrder(s, o, OrderCancelled), o, |s.pos|);
      var (plane, _) :- AppendOutbox(t.plane, CancelledOrder(o));
      Commit(t.(plane := plane), false)
  }
}

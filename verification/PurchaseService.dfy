/** orders.py, order02.py and order03.py as the objects they work on: orders, lines
    and purchase orders updated in place, rolled back when a step fails. */
module PurchaseService {
  import opened Common
  import opened Domain
  import opened ControlPlane
  import Routing
  import Spec = PurchaseOrders
  import opened PurchaseOrders
  import opened StoreService
  import PurchaseLifecycle

  class PurchaseDesk {
    const service: StoreControlPlane
    var orders: seq<Order>
    var lines: seq<OrderLine>
    var decisions: map<nat, Decision>
    var pos: seq<PurchaseOrder>

    function View(): Shop
      reads this, service
    {
      Shop(service.View(), orders, lines, decisions, pos)
    }

    constructor (service: StoreControlPlane)
      ensures this.service == service && View() == Shop(service.View(), [], [], map[], [])
    {
      this.service := service;
      orders, lines, decisions, pos := [], [], map[], [];
    }

    method Rollback(was: Shop)
      modifies this, service
      ensures View() == was
    {
      service.Restore(was.plane);
      orders, lines, decisions, pos := was.orders, was.lines, was.decisions, was.pos;
    }

    method Ingest(channel: string, items: seq<(string, int)>) returns (r: Result<nat>)
      modifies this`orders, this`lines
      ensures Ran(Spec.Ingest(old(View()), channel, items), old(View()), View(), r)
    {
      if items == [] { return Err(Conflict); }
      var o := |orders|;
      ghost var before := lines;
      orders := orders + [Order(channel, OrderAccepted, 1)];
      for i := 0 to |items|
        invariant orders == old(orders) + [Order(channel, OrderAccepted, 1)] && lines == before + FreshLines(o, items[..i])
      {
        assert items[..i + 1][..i] == items[..i];
        lines := lines + [OrderLine(o, items[i].0, items[i].1, false)];
      }
      assert items[..|items|] == items;
      r := Ok(o);
    }

    method LinesFor(o: nat) returns (found: seq<Routing.Line>)
      ensures found == LinesOf(lines, o)
    {
      found := [];
      for i := 0 to |lines|
        invariant found == LinesOf(lines[..i], o)
      {
        assert lines[..i + 1][..i] == lines[..i];
        if lines[i].order == o { found := found + [Routing.Line(i, lines[i].sku, lines[i].quantity)]; }
      }
      assert lines[..|lines|] == lines;
    }

    method PurchaseOrdersFor(o: nat) returns (found: seq<nat>)
      ensures found == PosOf(pos, o)
    {
      found := [];
      for i := 0 to |pos|
        invariant found == PosOf(pos[..i], o)
      {
        assert pos[..i + 1][..i] == pos[..i];
        if pos[i].order == o { found := found + [i]; }
      }
      assert pos[..|pos|] == pos;
    }

    /** Stores the routing decision of every chosen line and marks the line routed. */
    method SaveDecisions(choices: seq<Routing.Choice>) returns (r: Result<()>)
      modifies this`lines, this`decisions
      ensures match Decided(old(View()), choices)
              case Commit(s, v) => View() == s && r == Ok(v)
              case Abort(f) => r == Err(f)
    {
      ghost var start := View();
      for i := 0 to |choices|
        invariant Decided(start, choices[..i]) == Commit(View(), ())
      {
        assert choices[..i + 1][..i] == choices[..i];
        var c := choices[i];
        if c.line.id in decisions {
          DecidedStops(start, choices, i + 1);
          return Err(Conflict);
        }
        if c.line.id >= |lines| {
          DecidedStops(start, choices, i + 1);
          return Err(NotFound);
        }
        decisions := decisions[c.line.id := Decision(c.supplier, c.line.quantity, c.cost)];
        lines := lines[c.line.id := lines[c.line.id].(routed := true)];
      }
      assert choices[..|choices|] == choices;
      r := Ok(());
    }

    method CreateOne(ctx: Context, o: nat, d: Routing.Draft, now: int) returns (r: Result<nat>)
      requires o < |orders|
      modifies this`pos, service
      ensures match CreatePo(old(View()), ctx, o, d, now)
              case Commit(s, v) => View() == s && r == Ok(v)
              case Abort(f) => r == Err(f)
    {
      hide Spec.Target;
      var asked := service.RequestApproval(ctx, Purchase, Target(o, d.supplier), PurchasePayload(o, d.supplier, d.lines),
                                           PurchaseApproval(o, d.supplier), 1, orders[o].version, "", now);
      if asked.Err? { return Err(asked.failure); }
      pos := pos + [PurchaseOrder(o, d.supplier, ApprovalPending, asked.value, 1, d.lines, None)];
      r := Ok(|pos| - 1);
    }

    method CreateAll(ctx: Context, o: nat, drafts: seq<Routing.Draft>, now: int) returns (r: Result<seq<nat>>)
      requires o < |orders|
      modifies this`pos, service
      ensures match CreatePos(old(View()), ctx, o, drafts, now)
              case Commit(s, v) => View() == s && r == Ok(v)
              case Abort(f) => r == Err(f)
    {
      hide CreatePo;
      ghost var start := View();
      var made: seq<nat> := [];
      for i := 0 to |drafts|
        invariant orders == start.orders
        invariant CreatePos(start, ctx, o, drafts[..i], now) == Commit(View(), made)
      {
        assert drafts[..i + 1][..i] == drafts[..i];
        var one := CreateOne(ctx, o, drafts[i], now);
        if one.Err? {
          CreateStops(start, ctx, o, drafts, i + 1, now);
          return Err(one.failure);
        }
        made := made + [one.value];
      }
      assert drafts[..|drafts|] == drafts;
      r := Ok(made);
    }

    method ProposeRouting(ctx: Context, o: nat, quotes: Routing.Quotes, expected: int, now: int) returns (r: Result<seq<nat>>)
      modifies this, service
      ensures Ran(Spec.ProposeRouting(old(View()), ctx, o, quotes, expected, now), old(View()), View(), r)
    {
      hide Require, Routing.Select, Routing.Drafts, Decided, CreatePos, LinesOf, PosOf;
      var was := View();
      var admin := Require(service.View(), ctx, TenantAdmin);
      if admin.Fail? { return Err(admin.failure); }
      if o >= |orders| { return Err(NotFound); }
      if orders[o].version != expected { return Err(Conflict); }
      if orders[o].status !in {OrderAccepted, InRouting, PoPending} { return Err(Conflict); }
      var existing := PurchaseOrdersFor(o);
      if existing != [] { return Ok(existing); }
      var found := LinesFor(o);
      var selected := Routing.Choose(found, quotes);
      if selected.None? {
        orders := orders[o := orders[o].(status := OrderException, version := orders[o].version + 1)];
        return Ok([]);
      }
      orders := orders[o := orders[o].(status := PoPending, version := orders[o].version + 1)];
      var saved := SaveDecisions(selected.value);
      if saved.Err? {
        Rollback(was);
        return Err(saved.failure);
      }
      var drafts := Routing.GroupBySupplier(selected.value);
      r := CreateAll(ctx, o, drafts, now);
      if r.Err? { Rollback(was); }
    }

    /** The check of every line of a purchase order against decisions and order lines. */
    method Supported(po: PurchaseOrder) returns (payload: Option<Payload>)
      ensures payload == RoutedPayload(View(), po)
    {
      for i := 0 to |po.lines|
        invariant forall k | 0 <= k < i :: LineSupported(View(), po, po.lines[k])
      {
        var l := po.lines[i];
        if l.line !in decisions || decisions[l.line] != Decision(po.supplier, l.quantity, l.unitCost) { return None; }
        if l.line >= |lines| || lines[l.line].order != po.order || !lines[l.line].routed { return None; }
      }
      payload := Some(PayloadOf(po));
    }

    method Verify(p: nat) returns (r: Check)
      ensures r == VerifyPo(View(), p)
    {
      hide RoutedPayload;
      if p >= |pos| { return Fail(NotFound); }
      var po := pos[p];
      if po.status != ApprovalPending { return Fail(Conflict); }
      if po.order >= |orders| { return Fail(NotFound); }
      if orders[po.order].status != PoPending { return Fail(Conflict); }
      var payload := Supported(po);
      if payload.None? { return Fail(Conflict); }
      var c := po.approval;
      if c >= |service.commands| || c >= |service.approvals| { return Fail(NotFound); }
      if service.commands[c].payload != payload.value || service.commands[c].state != Pending
         || service.approvals[c].state != Pending { return Fail(Conflict); }
      if c !in service.intents || service.intents[c].targetVersion != orders[po.order].version { return Fail(Conflict); }
      r := Pass;
    }

    method ApprovePo(ctx: Context, p: nat, approve: bool, now: int) returns (r: Result<bool>)
      modifies this`pos, service
      ensures Ran(Spec.ApprovePo(old(View()), ctx, p, approve, now), old(View()), View(), r)
    {
      hide Require, VerifyPo, Decide;
      var plane := service.View();
      var capable := Require(plane, ctx, ApprovePurchase);
      if capable.Fail? { return Err(capable.failure); }
      var verified := Verify(p);
      if verified.Fail? { return Err(verified.failure); }
      PurchaseLifecycle.Verified(View(), p);
      var po := pos[p];
      var expired := service.Decide(ctx, po.approval, approve, now);
      if expired.Err? { return Err(expired.failure); }
      if expired.value { return Ok(true); }
      var emitted := service.AppendOutbox(PoDecided(p, approve));
      if emitted.Err? {
        service.Restore(plane);
        return Err(emitted.failure);
      }
      pos := pos[p := po.(status := if approve then PoApproved else PoCancelled, version := po.version + 1)];
      r := Ok(false);
    }

    method RegeneratePo(ctx: Context, p: nat, expected: int, now: int) returns (r: Result<nat>)
      modifies this`pos, service
      ensures Ran(Spec.RegeneratePo(old(View()), ctx, p, expected, now), old(View()), View(), r)
    {
      hide Require, RoutedPayload, RequestApproval, Target;
      var plane := service.View();
      var admin := Require(plane, ctx, TenantAdmin);
      if admin.Fail? { return Err(admin.failure); }
      if p >= |pos| { return Err(NotFound); }
      var po := pos[p];
      if po.version != expected { return Err(Conflict); }
      if po.order >= |orders| { return Err(NotFound); }
      if orders[po.order].status != PoPending { return Err(Conflict); }
      if po.approval >= |service.approvals| { return Err(NotFound); }
      if !Renewable(po, service.approvals[po.approval], now) { return Err(Conflict); }
      var payload := Supported(po);
      if payload.None? { return Err(Conflict); }
      var asked := service.RequestApproval(ctx, Purchase, Target(po.order, po.supplier), payload.value,
                                           PurchaseRenewal(po.order, po.supplier, po.version + 1), 1, orders[po.order].version, "", now);
      if asked.Err? { return Err(asked.failure); }
      var emitted := service.AppendOutbox(PoRegenerated(p, po.version + 1));
      if emitted.Err? {
        service.Restore(plane);
        return Err(emitted.failure);
      }
      pos := pos[p := po.(status := ApprovalPending, approval := asked.value, version := po.version + 1)];
      r := Ok(asked.value);
    }

    method SubmitPo(ctx: Context, p: nat, now: int) returns (r: Result<()>)
      modifies this`pos, service
      ensures Ran(Spec.SubmitPo(old(View()), ctx, p, now), old(View()), View(), r)
    {
      hide Require, PrepareExecution, StopActive;
      var plane := service.View();
      var admin := Require(plane, ctx, TenantAdmin);
      if admin.Fail? { return Err(admin.failure); }
      if p >= |pos| { return Err(NotFound); }
      var po := pos[p];
      if po.status != PoApproved { return Err(Conflict); }
      if po.order >= |orders| { return Err(NotFound); }
      if StopActive(plane, Some(orders[po.order].channel)) { return Err(Conflict); }
      var c := po.approval;
      if c >= |service.commands| || c >= |service.approvals| { return Err(NotFound); }
      if orders[po.order].status != PoPending || service.approvals[c].state != Approved || c !in service.intents
         || now >= service.approvals[c].expiresAt { return Err(Conflict); }
      var prepared := service.PrepareExecution(ctx, c, service.intents[c].policyVersion, orders[po.order].version, now);
      if prepared.Err? { return Err(prepared.failure); }
      var emitted := service.AppendOutbox(PoSubmitted(p));
      if emitted.Err? {
        service.Restore(plane);
        return Err(emitted.failure);
      }
      pos := pos[p := po.(status := Submitted, version := po.version + 1)];
      r := Ok(());
    }

    method ReconcilePo(ctx: Context, p: nat, answer: Answer, digest: string) returns (r: Result<bool>)
      modifies this`pos, service`outbox
      ensures Ran(Spec.ReconcilePo(old(View()), ctx, p, answer, digest), old(View()), View(), r)
    {
      hide Require;
      var admin := Require(service.View(), ctx, TenantAdmin);
      if admin.Fail? { return Err(admin.failure); }
      if p >= |pos| { return Err(NotFound); }
      var po := pos[p];
      if po.status != Submitted && po.status != Acknowledged && po.status != PoException { return Err(Conflict); }
      if po.response == Some(digest) { return Ok(true); }
      if po.response.Some? { return Err(Conflict); }
      if answer == AnswerUnknown { return Ok(false); }
      var emitted := service.AppendOutbox(PoResponse(p, digest));
      if emitted.Err? { return Err(emitted.failure); }
      pos := pos[p := po.(status := if answer == AnswerAcknowledged then Acknowledged else PoException,
                          response := Some(digest), version := po.version + 1)];
      r := Ok(false);
    }

    /** The loop over the order's purchase orders. */
    method CancelAll(o: nat) returns (r: Result<()>)
      modifies this`pos, service`outbox
      ensures match CancelPos(old(View()), o, |old(pos)|)
              case Commit(s, v) => View() == s && r == Ok(v)
              case Abort(f) => r == Err(f)
    {
      ghost var start := View();
      var n := |pos|;
      for i := 0 to n
        invariant |pos| == n == |start.pos|
        invariant CancelPos(start, o, i) == Commit(View(), ())
      {
        var po := pos[i];
        if po.order == o {
          if po.status in {ApprovalPending, PoApproved} {
            pos := pos[i := po.(status := PoCancelled, version := po.version + 1)];
          } else if po.status in {Submitted, Acknowledged} {
            var emitted := service.AppendOutbox(PoCancelRequested(i));
            if emitted.Err? {
              CancelStops(start, o, i + 1);
              return Err(emitted.failure);
            }
            pos := pos[i := po.(status := CancelRequested, version := po.version + 1)];
          }
        }
      }
      r := Ok(());
    }

    method RequestCancel(ctx: Context, o: nat, expected: int) returns (r: Result<bool>)
      modifies this, service
      ensures Ran(Spec.RequestCancel(old(View()), ctx, o, expected), old(View()), View(), r)
    {
      hide Require, CancelPos;
      var was := View();
      var admin := Require(service.View(), ctx, TenantAdmin);
      if admin.Fail? { return Err(admin.failure); }
      if o >= |orders| { return Err(NotFound); }
      if orders[o].status == OrderCancelled { return Ok(true); }
      if orders[o].version != expected || orders[o].status != PoPending { return Err(Conflict); }
      orders := orders[o := orders[o].(status := OrderCancelled, version := orders[o].version + 1)];
      var cancelled := CancelAll(o);
      if cancelled.Err? {
        Rollback(was);
        return Err(cancelled.failure);
      }
      var emitted := service.AppendOutbox(CancelledOrder(o));
      if emitted.Err? {
        Rollback(was);
        return Err(emitted.failure);
      }
      r := Ok(false);
    }
  }

  // A loop that fails on the way fails as a whole, for the same reason.

  lemma {:induction false} DecidedStops(s: Shop, choices: seq<Routing.Choice>, n: nat)
    requires n <= |choices| && Decided(s, choices[..n]).Abort?
    ensures Decided(s, choices) == Decided(s, choices[..n])
  {
    if n == |choices| {
      assert choices[..n] == choices;
    } else {
      assert choices[..|choices| - 1][..n] == choices[..n];
      DecidedStops(s, choices[..|choices| - 1], n);
    }
  }

  lemma {:induction false} CreateStops(s: Shop, ctx: Context, o: nat, drafts: seq<Routing.Draft>, n: nat, now: int)
    requires o < |s.orders| && n <= |drafts| && CreatePos(s, ctx, o, drafts[..n], now).Abort?
    ensures CreatePos(s, ctx, o, drafts, now) == CreatePos(s, ctx, o, drafts[..n], now)
  {
    if n == |drafts| {
      assert drafts[..n] == drafts;
    } else {
      assert drafts[..|drafts| - 1][..n] == drafts[..n];
      CreateStops(s, ctx, o, drafts[..|drafts| - 1], n, now);
    }
  }

  lemma {:induction false} CancelStops(s: Shop, o: nat, n: nat)
    requires n <= |s.pos| && CancelPos(s, o, n).Abort?
    ensures CancelPos(s, o, |s.pos|) == CancelPos(s, o, n)
  {
    for i := n to |s.pos|
      invariant CancelPos(s, o, i) == CancelPos(s, o, n)
    {}
  }
}

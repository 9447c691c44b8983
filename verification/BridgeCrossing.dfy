/** Exactly which channel pages become canonical orders: parsing, bridge and
    normaliser taken together (contract_demo_bridge.py). */
module BridgeCrossing {
  import opened Common
  import opened Text
  import opened OrderBridge

  // -------------------------------------------------------- amounts are never disputed

  lemma {:induction false} LinesTotal(rows: seq<Kept>)
    ensures LineTotal(LineItems(rows)) == Amount(rows)
  {
    hide Price;
    if rows != [] {
      assert LineItems(rows)[..|rows| - 1] == LineItems(rows[..|rows| - 1]);
      LinesTotal(rows[..|rows| - 1]);
    }
  }

  const LARGEST := INTEGER_MAX * INTEGER_MAX

  /** A quantity and a price a channel can report. */
  predicate Measured(r: Kept) { 1 <= r.quantity <= INTEGER_MAX && Whole(r.unit) }

  predicate LineMeasured(l: ItemLine) { 1 <= l.quantity <= INTEGER_MAX && Whole(l.unit) }

  lemma PriceBounded(quantity: int, unit: int)
    requires Whole(quantity) && Whole(unit)
    ensures 0 <= Price(quantity, unit) <= LARGEST
  {
    assert quantity * unit <= quantity * INTEGER_MAX <= INTEGER_MAX * INTEGER_MAX;
  }

  lemma {:induction false} AmountBounded(rows: seq<Kept>)
    requires forall r | r in rows :: Measured(r)
    ensures 0 <= Amount(rows) <= |rows| * LARGEST
  {
    hide Price;
    if rows != [] {
      var last := rows[|rows| - 1];
      assert last in rows;
      AmountBounded(rows[..|rows| - 1]);
      PriceBounded(last.quantity, last.unit);
    }
  }

  /** What every item the bridge builds satisfies, whatever its identifiers. */
  ghost predicate Undisputed(item: Item) {
    && 0 <= item.total <= |item.lines| * LARGEST && |item.lines| >= 1 && KeysApart(item.lines) && LineTotal(item.lines) == item.total
    && forall i | 0 <= i < |item.lines| :: LineMeasured(item.lines[i])
  }

  lemma SortedLines(sorted: seq<Kept>)
    requires ByLineSorted(sorted) && forall i | 0 <= i < |sorted| :: Measured(sorted[i])
    ensures KeysApart(LineItems(sorted))
    ensures forall i | 0 <= i < |sorted| :: LineMeasured(LineItems(sorted)[i])
  {
    forall i, j | 0 <= i < j < |sorted| ensures sorted[i].line != sorted[j].line { LessIrreflexive(sorted[i].line); }
  }

  lemma ItemUndisputed(provider: Provider, claims: Option<string>, rows: seq<Kept>, order: string)
    requires Apart(rows) && order in OrdersOf(rows) && forall r | r in rows :: Measured(r)
    ensures Undisputed(ItemFor(provider, claims, rows, order)) && |ItemFor(provider, claims, rows, order).lines| == |RowsOf(rows, order)|
  {
    var own := RowsOf(rows, order);
    var sorted := ByLine(own);
    OwnRows(rows, order);
    hide Apart, OrdersOf, RowsOf, ByLine, Amount;
    LinesTotal(sorted);
    AmountBounded(own);
    SortedLines(sorted);
  }

  lemma OwnRows(rows: seq<Kept>, order: string)
    requires Apart(rows) && order in OrdersOf(rows) && forall r | r in rows :: Measured(r)
    ensures var own := RowsOf(rows, order);
      && ByLineSorted(ByLine(own)) && |ByLine(own)| == |own| >= 1 && Amount(ByLine(own)) == Amount(own)
      && (forall r | r in own :: Measured(r))
      && (forall i | 0 <= i < |own| :: Measured(ByLine(own)[i]))
  {
    var own := RowsOf(rows, order);
    OrdersOfIs(rows);
    RowsOfIs(rows, order);
    ByLineIs(own);
    hide OrdersOf, RowsOf, ByLine, Amount;
    var r :| r in rows && r.order == order;
    assert r in own;
    forall i | 0 <= i < |own| ensures Measured(ByLine(own)[i]) {
      assert ByLine(own)[i] in ByLine(own);
    }
  }

  lemma LongNumbers()
    ensures INTEGER_MAX < Tens(19) && MAX_LINES * LARGEST < Tens(41)
  {
    assert Tens(5) == 100_000;
    TensAdd(5, 5);
    TensAdd(10, 9);
    TensAdd(4, 5);
    TensAdd(10, 10);
    TensAdd(20, 20);
    TensAdd(1, 40);
  }

  lemma {:induction false} TensAdd(a: nat, b: nat)
    ensures Tens(a + b) == Tens(a) * Tens(b)
  {
    if a > 0 { TensAdd(a - 1, b); }
  }

  lemma LineFits(l: ItemLine)
    requires LineNormal(l) && LineMeasured(l)
    ensures LineSize(l) <= 605
  {
    LongNumbers();
    DecimalLength(l.quantity, 19);
    DecimalLength(l.unit, 19);
  }

  lemma {:induction false} LinesFit(lines: seq<ItemLine>)
    requires forall i | 0 <= i < |lines| :: LineNormal(lines[i]) && LineMeasured(lines[i])
    ensures LinesSize(lines) <= 606 * |lines|
  {
    hide LineNormal, LineMeasured, LineSize;
    if lines != [] {
      LinesFit(lines[..|lines| - 1]);
      LineFits(lines[|lines| - 1]);
    }
  }

  /** A full item of the longest identifiers and largest numbers still fits the payload. */
  lemma SizeFits(item: Item)
    requires Undisputed(item) && |item.lines| <= MAX_LINES && Opaque(item.order, false)
    requires forall i | 0 <= i < |item.lines| :: LineNormal(item.lines[i])
    ensures Size(item) <= MAX_PAYLOAD_BYTES
  {
    hide LineNormal, LineMeasured, LinesSize, KeysApart, LineTotal;
    LinesFit(item.lines);
    LongNumbers();
    DecimalLength(item.total, 41);
  }

  /** What the normaliser accepts, in plain terms. */
  lemma NormalExact(item: Item)
    ensures Normal(item) <==>
              && Written(item.order, 255, false) && 0 < |item.lines| <= 100 && 0 <= item.total == LineTotal(item.lines) && Size(item) <= 65536
              && (forall i | 0 <= i < |item.lines| ::
                    && Written(item.lines[i].sku, 255, false) && Written(item.lines[i].key, 255, true)
                    && item.lines[i].quantity > 0 && item.lines[i].unit >= 0)
              && (forall i, j | 0 <= i < |item.lines| && 0 <= j < |item.lines| && item.lines[i].key == item.lines[j].key :: i == j)
  {
    hide Written, LineTotal, Size;
  }

  predicate NamesOk(r: Kept) { Opaque(r.sku, false) && Opaque(r.line, true) }

  /** An item the bridge builds is refused only for its identifiers or its length:
      its amount, quantities, prices, line keys and payload size always pass. */
  lemma AmountNeverDisputed(provider: Provider, claims: Option<string>, rows: seq<Kept>, order: string)
    requires Apart(rows) && order in OrdersOf(rows) && forall r | r in rows :: Measured(r)
    ensures Normal(ItemFor(provider, claims, rows, order)) <==>
              Opaque(order, false) && |RowsOf(rows, order)| <= MAX_LINES && forall r | r in RowsOf(rows, order) :: NamesOk(r)
  {
    ItemUndisputed(provider, claims, rows, order);
    var item, own := ItemFor(provider, claims, rows, order), RowsOf(rows, order);
    RowsOfIs(rows, order);
    ByLineIs(own);
    hide OrdersOf, RowsOf, Amount, ByLine, LineTotal, Opaque, KeysApart, Apart, Size;
    NamesMatch(own, ByLine(own));
    if Opaque(order, false) && |own| <= MAX_LINES && forall r | r in own :: NamesOk(r) {
      SizeFits(item);
    }
  }

  lemma NamesMatch(own: seq<Kept>, sorted: seq<Kept>)
    requires forall x :: x in sorted <==> x in own
    ensures (forall i | 0 <= i < |sorted| :: Opaque(LineItems(sorted)[i].sku, false) && Opaque(LineItems(sorted)[i].key, true))
            <==> forall r | r in own :: NamesOk(r)
  {
    hide Opaque;
    if forall i | 0 <= i < |sorted| :: Opaque(LineItems(sorted)[i].sku, false) && Opaque(LineItems(sorted)[i].key, true) {
      forall r | r in own ensures NamesOk(r) {
        assert r in sorted;
        var i :| 0 <= i < |sorted| && sorted[i] == r;
        assert LineItems(sorted)[i] == LineItem(r);
      }
    }
    if forall r | r in own :: NamesOk(r) {
      forall i | 0 <= i < |sorted| ensures Opaque(LineItems(sorted)[i].sku, false) && Opaque(LineItems(sorted)[i].key, true) {
        assert sorted[i] in sorted;
        assert NamesOk(sorted[i]);
      }
    }
  }

  // ------------------------------------------------------------ what the parsers grant

  /** What the parsers guarantee about every snapshot. */
  predicate Parsed(r: Snapshot) {
    && Opaque(r.order, false) && Opaque(r.line, true)
    && 1 <= r.initial <= INTEGER_MAX && Whole(r.amounts.unitPrice)
  }

  lemma NaverParsed(r: NaverRow)
    requires NaverRowOk(r)
    ensures Parsed(FromNaver(r))
  {}

  lemma NumberWritten(n: int)
    requires Counting(n)
    ensures Written(Decimal(n), 19, false)
  {
    LongNumbers();
    DecimalLength(n, 19);
  }

  lemma ShipmentLine(shipment: string, sequence: string)
    requires Written(shipment, 19, false) && Sequence(sequence)
    ensures Written(shipment + ":" + sequence, 255, true)
  {}

  lemma CoupangParsed(r: CoupangRow, l: CoupangLine)
    requires CoupangRowOk(r) && CoupangLineOk(l)
    ensures Parsed(FromCoupang(r, l))
  {
    NumberWritten(r.order);
    NumberWritten(r.shipment);
    ShipmentLine(Decimal(r.shipment), l.sequence);
    Longer(Decimal(r.order));
    hide Written, Sequence, Decimal;
  }

  lemma Longer(s: string)
    requires Written(s, 19, false)
    ensures Written(s, 255, false)
  {}

  lemma {:induction false} ShipmentParsed(r: CoupangRow, n: nat)
    requires n <= |r.lines| && CoupangRowOk(r)
    ensures forall s | s in LinesOf(r, n) :: Parsed(s)
  {
    hide CoupangLineOk, Parsed, FromCoupang;
    if n > 0 {
      ShipmentParsed(r, n - 1);
      CoupangParsed(r, r.lines[n - 1]);
    }
  }

  lemma {:induction false} CoupangPageParsed(rows: seq<CoupangRow>)
    requires forall i | 0 <= i < |rows| :: CoupangRowOk(rows[i])
    ensures forall s | s in Flat(rows) :: Parsed(s)
  {
    hide CoupangRowOk, Parsed, LinesOf;
    if rows != [] {
      CoupangPageParsed(rows[..|rows| - 1]);
      ShipmentParsed(rows[|rows| - 1], |rows[|rows| - 1].lines|);
    }
  }

  lemma KeptMeasured(provider: Provider, page: seq<Snapshot>, skus: map<string, string>)
    requires KeepAll(provider, page, skus).Some? && forall r | r in page :: Parsed(r)
    ensures forall x | x in KeepAll(provider, page, skus).value :: Measured(x) && Opaque(x.order, false) && Opaque(x.line, true)
  {
    hide Opaque;
    KeepAllIs(provider, page, skus);
    assert forall i | 0 <= i < |page| :: page[i] in page;
  }

  // --------------------------------------------------------------- the page's own terms

  function OrderIds(page: seq<Snapshot>): set<string> { set r | r in page :: r.order }

  /** The positions of an order's lines. */
  function LinesIn(page: seq<Snapshot>, order: string): set<nat> { set i: nat | i < |page| && page[i].order == order }

  /** A page that becomes orders: complete, each row an undisputed sale of a bound
      product, no order with more lines than allowed or two lines of one SKU. */
  ghost predicate Crosses(provider: Provider, complete: bool, page: seq<Snapshot>, skus: map<string, string>) {
    && complete && page != []
    && (forall i | 0 <= i < |page| :: Keepable(provider, page[i], skus) && Opaque(skus[page[i].product], false))
    && |OrderIds(page)| <= MAX_ITEMS
    && (forall o | o in OrderIds(page) :: |LinesIn(page, o)| <= MAX_LINES)
    && (forall i, j | 0 <= i < j < |page| && page[i].order == page[j].order :: skus[page[i].product] != skus[page[j].product])
  }

  /** What may still stand against an order's rows: a SKU bound twice or ill written, or too many lines. */
  ghost predicate Presentable(rows: seq<Kept>, order: string) {
    SkusApart(RowsOf(rows, order)) && |RowsOf(rows, order)| <= MAX_LINES && forall r | r in RowsOf(rows, order) :: Opaque(r.sku, false)
  }

  ghost predicate WellNamed(rows: seq<Kept>) { forall r | r in rows :: Measured(r) && Opaque(r.order, false) && Opaque(r.line, true) }

  lemma AllNormalExact(provider: Provider, claims: Option<string>, rows: seq<Kept>)
    requires Apart(rows) && WellNamed(rows)
    ensures AllNormal(provider, claims, rows, OrdersOf(rows)) <==> forall o | o in OrdersOf(rows) :: Presentable(rows, o)
  {
    hide OrdersOf, RowsOf, Normal, ItemFor, Opaque, SkusApart;
    var orders := OrdersOf(rows);
    forall i | 0 <= i < |orders|
      ensures Presentable(rows, orders[i]) <==> SkusApart(RowsOf(rows, orders[i])) && Normal(ItemFor(provider, claims, rows, orders[i]))
    {
      assert orders[i] in orders;
      OwnNamed(rows, orders[i]);
      AmountNeverDisputed(provider, claims, rows, orders[i]);
    }
    hide Presentable, Apart;
    if forall o | o in orders :: Presentable(rows, o) {
      assert forall i | 0 <= i < |orders| :: orders[i] in orders;
    }
  }

  lemma OwnNamed(rows: seq<Kept>, order: string)
    requires WellNamed(rows) && order in OrdersOf(rows)
    ensures Opaque(order, false) && forall r | r in RowsOf(rows, order) :: Opaque(r.line, true)
  {
    OrdersOfIs(rows);
    RowsOfIs(rows, order);
    hide OrdersOf, RowsOf, Opaque, Apart;
    var r :| r in rows && r.order == order;
  }

  lemma {:induction false} RowsCounted(page: seq<Snapshot>, kept: seq<Kept>, order: string)
    requires |kept| == |page| && forall i | 0 <= i < |page| :: kept[i].order == page[i].order
    ensures |RowsOf(kept, order)| == |LinesIn(page, order)|
  {
    if page == [] {
      assert LinesIn(page, order) == {};
    } else {
      var n := |page| - 1;
      RowsCounted(page[..n], kept[..n], order);
      assert LinesIn(page, order) == LinesIn(page[..n], order) + if page[n].order == order then {n} else {};
    }
  }

  lemma {:induction false} SetOfSorted(s: seq<string>)
    requires Sorted(s)
    ensures |set x | x in s| == |s|
  {
    if s != [] {
      var before := s[..|s| - 1];
      var last := s[|s| - 1];
      SetOfSorted(before);
      LessIrreflexive(last);
      assert last !in before;
      assert (set x | x in s) == (set x | x in before) + {last};
    }
  }

  lemma OrdersCounted(page: seq<Snapshot>, kept: seq<Kept>)
    requires |kept| == |page| && forall i | 0 <= i < |page| :: kept[i].order == page[i].order
    ensures |OrdersOf(kept)| == |OrderIds(page)| && forall o :: o in OrdersOf(kept) <==> o in OrderIds(page)
  {
    OrdersOfIs(kept);
    var orders := OrdersOf(kept);
    SetOfSorted(orders);
    hide OrdersOf;
    forall o ensures o in orders <==> o in OrderIds(page) {
      if o in orders {
        var r :| r in kept && r.order == o;
        var i :| 0 <= i < |kept| && kept[i] == r;
        assert page[i] in page;
      }
      if o in OrderIds(page) {
        var i :| 0 <= i < |page| && page[i].order == o;
        assert kept[i] in kept;
      }
    }
    assert (set x | x in orders) == OrderIds(page);
  }

  /** No two of the rows belong to one order and share a SKU. */
  ghost predicate SkusApartIn(rows: seq<Kept>, order: string) {
    forall i, j | 0 <= i < j < |rows| && rows[i].order == order == rows[j].order :: rows[i].sku != rows[j].sku
  }

  lemma RowsOfLast(before: seq<Kept>, last: Kept, order: string)
    ensures RowsOf(before + [last], order) == if last.order == order then RowsOf(before, order) + [last] else RowsOf(before, order)
  {
    assert (before + [last])[..|before|] == before;
  }

  lemma {:induction false} OwnSkusApart(rows: seq<Kept>, order: string)
    ensures SkusApart(RowsOf(rows, order)) <==> SkusApartIn(rows, order)
  {
    if rows != [] {
      var before, last := rows[..|rows| - 1], rows[|rows| - 1];
      assert rows == before + [last];
      RowsOfLast(before, last, order);
      hide RowsOf, Apart, SkusApart, SkusApartIn;
      RowsOfIs(before, order);
      OwnSkusApart(before, order);
      LastSku(RowsOf(before, order), last);
      LastSkuIn(before, RowsOf(before, order), last, order);
    }
  }

  lemma LastSkuIn(before: seq<Kept>, own: seq<Kept>, last: Kept, order: string)
    requires forall r :: r in own <==> r in before && r.order == order
    ensures SkusApartIn(before + [last], order) <==>
              SkusApartIn(before, order) && (last.order == order ==> forall r | r in own :: r.sku != last.sku)
  {
    var rows := before + [last];
    var n := |before|;
    assert rows[n] == last && forall i | 0 <= i < n :: rows[i] == before[i];
    if SkusApartIn(rows, order) && last.order == order {
      forall r | r in own ensures r.sku != last.sku {
        var i :| 0 <= i < n && before[i] == r;
        assert rows[i] == r && rows[n] == last;
      }
    }
    if SkusApartIn(before, order) && (last.order == order ==> forall r | r in own :: r.sku != last.sku) {
      forall i, j | 0 <= i < j < |rows| && rows[i].order == order == rows[j].order ensures rows[i].sku != rows[j].sku {
        assert j == n ==> before[i] in before;
      }
    }
  }

  lemma LastSku(own: seq<Kept>, last: Kept)
    ensures SkusApart(own + [last]) <==> SkusApart(own) && forall r | r in own :: r.sku != last.sku
  {
    var all := own + [last];
    assert forall i | 0 <= i < |own| :: all[i] == own[i] && own[i] in own;
    assert all[|own|] == last;
  }

  lemma KeptBridge(provider: Provider, claims: Option<string>, complete: bool, page: seq<Snapshot>, skus: map<string, string>, kept: seq<Kept>)
    requires LinesUnique(page) && (forall r | r in page :: Parsed(r)) && KeepAll(provider, page, skus) == Some(kept)
    ensures Bridge(provider, claims, complete, page, skus).Some? <==>
              complete && page != [] && |OrdersOf(kept)| <= MAX_ITEMS && forall o | o in OrdersOf(kept) :: Presentable(kept, o)
  {
    KeptRows(provider, page, skus);
    KeptMeasured(provider, page, skus);
    hide KeepAll, OrdersOf, AllNormal, Presentable, Apart, LinesUnique, FromPage, Parsed, Opaque;
    AllNormalExact(provider, claims, kept);
  }

  /** Exactly when a parsed page crosses the bridge, said of the page itself. */
  lemma BridgeExact(provider: Provider, claims: Option<string>, complete: bool, page: seq<Snapshot>, skus: map<string, string>)
    requires LinesUnique(page) && forall r | r in page :: Parsed(r)
    ensures Bridge(provider, claims, complete, page, skus).Some? <==> Crosses(provider, complete, page, skus)
  {
    KeepAllIs(provider, page, skus);
    hide KeepAll, OrdersOf, AllNormal, Presentable, LinesUnique, Parsed, OrderIds, LinesIn, Plain, Opaque, Items;
    if KeepAll(provider, page, skus).Some? {
      var kept := KeepAll(provider, page, skus).value;
      KeptBridge(provider, claims, complete, page, skus, kept);
      hide Bridge;
      OrdersCounted(page, kept);
      PresentableExact(page, kept, skus);
    }
  }

  lemma PresentableExact(page: seq<Snapshot>, kept: seq<Kept>, skus: map<string, string>)
    requires |kept| == |page| && forall i | 0 <= i < |page| :: page[i].product in skus && kept[i] == KeptOf(page[i], skus)
    ensures (forall o | o in OrderIds(page) :: Presentable(kept, o)) <==>
              && (forall i | 0 <= i < |page| :: Opaque(skus[page[i].product], false))
              && (forall o | o in OrderIds(page) :: |LinesIn(page, o)| <= MAX_LINES)
              && (forall i, j | 0 <= i < j < |page| && page[i].order == page[j].order :: skus[page[i].product] != skus[page[j].product])
  {
    hide Opaque, RowsOf, SkusApart, Apart;
    forall o ensures Presentable(kept, o) <==>
      SkusApartIn(kept, o) && |LinesIn(page, o)| <= MAX_LINES && forall i | 0 <= i < |page| && page[i].order == o :: Opaque(skus[page[i].product], false)
    {
      OwnSkusApart(kept, o);
      RowsCounted(page, kept, o);
      RowsOfIs(kept, o);
      forall i | 0 <= i < |page| ensures kept[i] in kept {}
    }
    assert forall i | 0 <= i < |page| :: page[i].order in OrderIds(page);
  }

  // ---------------------------------------------------------- the channels' own rows

  const LIMIT := 0x8000_0000_0000_0000

  /** What the Naver parser demands of a row: nothing remains, of goods or money, that was not ordered or paid. */
  lemma NaverRowExact(r: NaverRow)
    ensures NaverRowOk(r) <==>
              && Written(r.order, 150, false) && Written(r.line, 150, false) && Written(r.product, 150, false)
              && r.status in ["PAYMENT_WAITING", "PAYED", "DELIVERING", "DELIVERED", "PURCHASE_DECIDED", "EXCHANGED", "CANCELED", "RETURNED", "CANCELED_BY_NOPAYMENT"]
              && 0 < r.initial < LIMIT && 0 <= r.remaining <= r.initial && 0 <= r.unitPrice < LIMIT
              && 0 <= r.remainingPayment <= r.initialPayment < LIMIT
  {
    hide Written;
  }

  /** A Naver row that becomes an order line: paid in full at its unit price, nothing claimed, nothing delivered. */
  predicate NaverSale(r: NaverRow, skus: map<string, string>) {
    && Written(r.order, 150, false) && Written(r.line, 150, false) && Written(r.product, 150, false) && r.product in skus
    && r.status == "PAYED" && !r.claimed
    && 0 < r.initial < LIMIT && r.remaining == r.initial && 0 <= r.unitPrice
    && r.initialPayment == r.remainingPayment == r.unitPrice * r.initial < LIMIT
  }

  /** Parser and bridge together let exactly those through, each as a line of its own quantity and price. */
  lemma NaverSaleExact(r: NaverRow, skus: map<string, string>)
    ensures NaverRowOk(r) && Keepable(Naver, FromNaver(r), skus) <==> NaverSale(r, skus)
    ensures NaverSale(r, skus) ==> KeptOf(FromNaver(r), skus) == Kept(r.order, r.line, skus[r.product], r.unitPrice, r.initial, r.source)
  {
    hide Written;
    NaverRowExact(r);
    if NaverSale(r, skus) { UnitBelow(r.unitPrice, r.initial); }
  }

  lemma UnitBelow(unit: int, quantity: int)
    requires unit >= 0 && quantity > 0
    ensures unit <= unit * quantity
  {}

  predicate Number63(n: int) { 0 < n < LIMIT }

  /** What the Coupang parser demands of a shipment: each line's price is what its unit price
      makes it, and no more is cancelled or held than was ordered. */
  lemma CoupangRowExact(r: CoupangRow)
    ensures CoupangRowOk(r) <==>
              && Number63(r.order) && Number63(r.shipment) && 0 <= r.shipping < LIMIT && (r.remote.Some? ==> 0 <= r.remote.value < LIMIT)
              && r.status in ["ACCEPT", "INSTRUCT", "DEPARTURE", "DELIVERING", "FINAL_DELIVERY", "NONE_TRACKING"]
              && 0 < |r.lines| <= 100 && forall i | 0 <= i < |r.lines| :: CoupangLineFits(r.lines[i])
  {
    forall i | 0 <= i < |r.lines| ensures CoupangLineOk(r.lines[i]) <==> CoupangLineFits(r.lines[i]) { SequenceIs(r.lines[i].sequence); }
    hide CoupangLineOk, CoupangLineFits;
  }

  predicate CoupangLineFits(l: CoupangLine) {
    && |l.sequence| == 3 && (forall i | 0 <= i < 3 :: l.sequence[i] in "0123456789") && Number63(l.product)
    && Number63(l.initial) && 0 <= l.cancelled && 0 <= l.pending && 0 <= l.initial - l.cancelled - l.pending
    && 0 <= l.unitPrice < LIMIT && l.orderPrice == l.unitPrice * l.initial < LIMIT
    && (l.discount.Some? ==> 0 <= l.discount.value < LIMIT)
  }

  lemma SequenceIs(s: string)
    ensures Sequence(s) <==> |s| == 3 && forall i | 0 <= i < 3 :: s[i] in "0123456789"
  {
    forall c: char ensures c in "0123456789" <==> '0' <= c <= '9' {}
  }

  /** A shipment that becomes order lines: instructed, free of charge for shipping and without
      discount, nothing of it cancelled or held, every product bound. */
  ghost predicate CoupangSale(r: CoupangRow, skus: map<string, string>) {
    && Number63(r.order) && Number63(r.shipment) && r.status == "INSTRUCT" && r.shipping == 0 && r.remote == Some(0)
    && 0 < |r.lines| <= 100
    && forall i | 0 <= i < |r.lines| ::
         && CoupangLineFits(r.lines[i]) && r.lines[i].cancelled == 0 && r.lines[i].pending == 0 && r.lines[i].discount == Some(0)
         && Decimal(r.lines[i].product) in skus
  }

  lemma CoupangSaleExact(r: CoupangRow, skus: map<string, string>)
    ensures CoupangRowOk(r) && (forall i | 0 <= i < |r.lines| :: Keepable(Coupang, FromCoupang(r, r.lines[i]), skus)) <==> CoupangSale(r, skus)
    ensures CoupangSale(r, skus) ==> forall i | 0 <= i < |r.lines| ::
              KeptOf(FromCoupang(r, r.lines[i]), skus)
              == Kept(Decimal(r.order), Decimal(r.shipment) + ":" + r.lines[i].sequence, skus[Decimal(r.lines[i].product)],
                      r.lines[i].unitPrice, r.lines[i].initial, r.source)
  {
    CoupangRowExact(r);
    forall i | 0 <= i < |r.lines| && CoupangLineFits(r.lines[i])
      ensures Keepable(Coupang, FromCoupang(r, r.lines[i]), skus) <==>
                r.status == "INSTRUCT" && r.shipping == 0 && r.remote == Some(0)
                && r.lines[i].cancelled == 0 && r.lines[i].pending == 0 && r.lines[i].discount == Some(0) && Decimal(r.lines[i].product) in skus
    {}
    hide CoupangLineFits, CoupangRowOk, Decimal;
    if CoupangRowOk(r) && forall i | 0 <= i < |r.lines| :: Keepable(Coupang, FromCoupang(r, r.lines[i]), skus) {
      assert Keepable(Coupang, FromCoupang(r, r.lines[0]), skus);
    }
  }

  // ------------------------------------------------------------------- end to end

  lemma NaverPageParsed(rows: seq<NaverRow>, requested: seq<string>)
    requires NaverPageOk(rows, requested)
    ensures forall r | r in NaverPage(rows) :: Parsed(r)
  {
    hide Parsed, NaverRowOk, FromNaver;
    forall i | 0 <= i < |rows| ensures Parsed(FromNaver(rows[i])) { NaverParsed(rows[i]); }
  }

  /** `ContractFixtureReadAdapter` for Naver: parse, then load. */
  method AdaptNaver(rows: seq<NaverRow>, requested: seq<string>, skus: map<string, string>) returns (items: Option<seq<Item>>)
    ensures items.Some? <==> NaverPageOk(rows, requested) && Crosses(Naver, true, NaverPage(rows), skus)
    ensures items.Some? ==> items == Bridge(Naver, None, true, NaverPage(rows), skus)
  {
    hide NaverPageOk, Crosses, Bridge, LinesUnique, Parsed, FromNaver;
    var page := ParseNaverDetails(rows, requested);
    if page.None? { return None; }
    NaverPageParsed(rows, requested);
    BridgeExact(Naver, None, true, page.value, skus);
    items := Load(Naver, None, true, page.value, skus);
  }

  /** The claim page beside a Coupang page, once parsed. */
  datatype ClaimPage = ClaimPage(lines: nat, cursor: bool, digest: string)

  ghost predicate CoupangPageOk(rows: seq<CoupangRow>) {
    |rows| <= 50 && (forall i | 0 <= i < |rows| :: CoupangRowOk(rows[i])) && LinesUnique(Flat(rows))
  }

  /** `ContractFixtureReadAdapter` for Coupang: no claim may be open, and the page must be the last. */
  method AdaptCoupang(rows: seq<CoupangRow>, more: bool, claims: Option<ClaimPage>, skus: map<string, string>) returns (items: Option<seq<Item>>)
    ensures items.Some? <==>
              && CoupangPageOk(rows) && claims.Some? && claims.value.lines == 0 && !claims.value.cursor
              && Crosses(Coupang, !more, Flat(rows), skus)
    ensures items.Some? ==> items == Bridge(Coupang, Some(claims.value.digest), !more, Flat(rows), skus)
  {
    hide Crosses, Bridge, LinesUnique, Parsed, CoupangRowOk, Flat;
    var page := ParseCoupangDayPage(rows);
    if page.None? || claims.None? || claims.value.lines > 0 || claims.value.cursor { return None; }
    CoupangPageParsed(rows);
    BridgeExact(Coupang, Some(claims.value.digest), !more, page.value, skus);
    items := Load(Coupang, Some(claims.value.digest), !more, page.value, skus);
  }
}

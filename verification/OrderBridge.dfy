/** channel_order_contracts.py, contract_demo_bridge.py and the amount rules of
    ingestion.py: pages of channel rows become canonical orders. */
module OrderBridge {
  import opened Common
  import opened Text

  const INTEGER_MAX := 0x7FFF_FFFF_FFFF_FFFF

  predicate Whole(n: int) { 0 <= n <= INTEGER_MAX }

  datatype Provider = Naver | Coupang

  /** The amounts a channel reports for a line; an absent amount is not zero. */
  datatype Amounts =
    | NaverAmounts(initialPayment: int, remainingPayment: int, unitPrice: int)
    | CoupangAmounts(unitPrice: int, orderPrice: int, discount: Option<int>, shipping: int, remote: Option<int>)

  datatype Snapshot = Snapshot(order: string, line: string, product: string, status: string, initial: int, remaining: int,
                               amounts: Amounts, review: bool, source: string)

  // -------------------------------------------------------------------- parsing

  datatype NaverRow = NaverRow(order: string, line: string, product: string, status: string, initial: int, remaining: int,
                               initialPayment: int, remainingPayment: int, unitPrice: int, claimed: bool, source: string)

  /** The channel's own identifiers. */
  predicate Identified(s: string) { Written(s, 150, false) }

  predicate NaverState(s: string) {
    s in ["PAYMENT_WAITING", "PAYED", "DELIVERING", "DELIVERED", "PURCHASE_DECIDED", "EXCHANGED", "CANCELED", "RETURNED", "CANCELED_BY_NOPAYMENT"]
  }

  predicate NaverRowOk(r: NaverRow) {
    && Identified(r.order) && Identified(r.line) && Identified(r.product) && NaverState(r.status)
    && 1 <= r.initial <= INTEGER_MAX && Whole(r.remaining) && Whole(r.initialPayment) && Whole(r.remainingPayment) && Whole(r.unitPrice)
    && r.remaining <= r.initial && r.remainingPayment <= r.initialPayment
  }

  function FromNaver(r: NaverRow): Snapshot {
    Snapshot(r.order, r.line, r.product, r.status, r.initial, r.remaining,
             NaverAmounts(r.initialPayment, r.remainingPayment, r.unitPrice), r.claimed, r.source)
  }

  function NaverPage(rows: seq<NaverRow>): (page: seq<Snapshot>)
    ensures |page| == |rows| && forall i | 0 <= i < |rows| :: page[i] == FromNaver(rows[i])
  {
    seq(|rows|, i requires 0 <= i < |rows| => FromNaver(rows[i]))
  }

  /** Lines are identified once on a page. */
  ghost predicate LinesUnique(s: seq<Snapshot>) {
    forall i, j | 0 <= i < j < |s| :: s[i].line != s[j].line
  }

  ghost predicate HasLine(rows: seq<NaverRow>, id: string) {
    exists i :: 0 <= i < |rows| && rows[i].line == id
  }

  ghost predicate NaverPageOk(rows: seq<NaverRow>, requested: seq<string>) {
    && |rows| <= 300 && 1 <= |requested| <= 300
    && (forall i | 0 <= i < |requested| :: Identified(requested[i]))
    && (forall i, j | 0 <= i < j < |requested| :: requested[i] != requested[j])
    && (forall i | 0 <= i < |rows| :: NaverRowOk(rows[i]))
    && (forall i, j | 0 <= i < j < |rows| :: rows[i].line != rows[j].line)
    && (forall id :: id in requested <==> HasLine(rows, id))
  }

  /** `parse_naver_details`: every row well formed, no line twice, and exactly the requested ids. */
  method ParseNaverDetails(rows: seq<NaverRow>, requested: seq<string>) returns (page: Option<seq<Snapshot>>)
    ensures page.Some? <==> NaverPageOk(rows, requested)
    ensures page.Some? ==> page.value == NaverPage(rows) && LinesUnique(page.value)
  {
    hide Identified, NaverState;
    if |rows| > 300 || |requested| < 1 || |requested| > 300 { return None; }
    var expected: set<string> := {};
    for i := 0 to |requested|
      invariant forall id :: id in expected <==> id in requested[..i]
      invariant forall a | 0 <= a < i :: Identified(requested[a])
      invariant forall a, b | 0 <= a < b < i :: requested[a] != requested[b]
    {
      if !Identified(requested[i]) { return None; }
      if requested[i] in expected { return None; }
      expected := expected + {requested[i]};
    }
    var seen: set<string> := {};
    var snapshots: seq<Snapshot> := [];
    for i := 0 to |rows|
      invariant forall id :: id in seen <==> HasLine(rows[..i], id)
      invariant |snapshots| == i && forall k | 0 <= k < i :: snapshots[k] == FromNaver(rows[k]) && NaverRowOk(rows[k])
      invariant forall a, b | 0 <= a < b < i :: rows[a].line != rows[b].line
    {
      assert rows[..i + 1] == rows[..i] + [rows[i]];
      if rows[i].line in seen {
        assert HasLine(rows[..i], rows[i].line);
        return None;
      }
      forall id ensures HasLine(rows[..i + 1], id) <==> HasLine(rows[..i], id) || id == rows[i].line { LineAppended(rows[..i], rows[i], id); }
      seen := seen + {rows[i].line};
      if !NaverRowOk(rows[i]) { return None; }
      snapshots := snapshots + [FromNaver(rows[i])];
    }
    assert rows[..|rows|] == rows && requested[..|requested|] == requested;
    if seen != expected {
      ghost var id :| (id in seen) != (id in expected);
      assert HasLine(rows, id) != (id in requested);
      return None;
    }
    page := Some(snapshots);
  }

  lemma LineAppended(rows: seq<NaverRow>, row: NaverRow, id: string)
    ensures HasLine(rows + [row], id) <==> HasLine(rows, id) || id == row.line
  {
    var all := rows + [row];
    if HasLine(rows, id) {
      var i :| 0 <= i < |rows| && rows[i].line == id;
      assert all[i].line == id;
    }
    assert all[|rows|] == row;
    if i :| 0 <= i < |all| && all[i].line == id && i < |rows| { assert rows[i].line == id; }
  }

  datatype CoupangLine = CoupangLine(sequence: string, product: int, initial: int, cancelled: int, pending: int,
                                     unitPrice: int, orderPrice: int, discount: Option<int>)

  /** A shipment with its lines; its order, shipment and product numbers are written in decimal. */
  datatype CoupangRow = CoupangRow(order: int, shipment: int, status: string, shipping: int, remote: Option<int>,
                                   lines: seq<CoupangLine>, source: string)

  predicate CoupangState(s: string) {
    s in ["ACCEPT", "INSTRUCT", "DEPARTURE", "DELIVERING", "FINAL_DELIVERY", "NONE_TRACKING"]
  }

  predicate Counting(n: int) { 1 <= n <= INTEGER_MAX }

  predicate Sequence(s: string) { |s| == 3 && forall i | 0 <= i < 3 :: '0' <= s[i] <= '9' }

  predicate CoupangLineOk(l: CoupangLine) {
    Sequence(l.sequence) && Counting(l.product)
    && 1 <= l.initial <= INTEGER_MAX && Whole(l.cancelled) && Whole(l.pending) && l.cancelled + l.pending <= l.initial
    && Whole(l.unitPrice) && l.orderPrice == l.unitPrice * l.initial && Whole(l.orderPrice) && (l.discount.Some? ==> Whole(l.discount.value))
  }

  predicate CoupangRowOk(r: CoupangRow) {
    Counting(r.order) && Counting(r.shipment) && CoupangState(r.status)
    && Whole(r.shipping) && (r.remote.Some? ==> Whole(r.remote.value)) && 1 <= |r.lines| <= 100
    && forall i | 0 <= i < |r.lines| :: CoupangLineOk(r.lines[i])
  }

  function FromCoupang(r: CoupangRow, l: CoupangLine): Snapshot {
    Snapshot(Decimal(r.order), Decimal(r.shipment) + ":" + l.sequence, Decimal(l.product), r.status, l.initial, l.initial - l.cancelled - l.pending,
             CoupangAmounts(l.unitPrice, l.orderPrice, l.discount, r.shipping, r.remote), l.cancelled > 0 || l.pending > 0, r.source)
  }

  function LinesOf(r: CoupangRow, n: nat): seq<Snapshot>
    requires n <= |r.lines|
  {
    if n == 0 then [] else LinesOf(r, n - 1) + [FromCoupang(r, r.lines[n - 1])]
  }

  function Flat(rows: seq<CoupangRow>): seq<Snapshot> {
    if rows == [] then [] else Flat(rows[..|rows| - 1]) + LinesOf(rows[|rows| - 1], |rows[|rows| - 1].lines|)
  }

  lemma {:induction false} LinesPrefix(r: CoupangRow, m: nat, n: nat)
    requires m <= n <= |r.lines|
    ensures LinesOf(r, m) <= LinesOf(r, n)
  {
    if m < n { LinesPrefix(r, m, n - 1); }
  }

  lemma {:induction false} FlatPrefix(rows: seq<CoupangRow>, n: nat, m: nat)
    requires n < |rows| && m <= |rows[n].lines|
    ensures Flat(rows[..n]) + LinesOf(rows[n], m) <= Flat(rows)
  {
    if n == |rows| - 1 {
      LinesPrefix(rows[n], m, |rows[n].lines|);
    } else {
      assert rows[..|rows| - 1][..n] == rows[..n];
      FlatPrefix(rows[..|rows| - 1], n, m);
    }
  }

  lemma UniquePrefix(s: seq<Snapshot>, t: seq<Snapshot>)
    requires s <= t && !LinesUnique(s)
    ensures !LinesUnique(t)
  {
    var i, j :| 0 <= i < j < |s| && s[i].line == s[j].line;
    assert t[i] == s[i] && t[j] == s[j];
  }

  ghost predicate Named(s: seq<Snapshot>, id: string) {
    exists i :: 0 <= i < |s| && s[i].line == id
  }

  lemma NamedAppended(s: seq<Snapshot>, next: Snapshot, id: string)
    ensures Named(s + [next], id) <==> Named(s, id) || id == next.line
  {
    var all := s + [next];
    if Named(s, id) {
      var i :| 0 <= i < |s| && s[i].line == id;
      assert all[i].line == id;
    }
    assert all[|s|] == next;
    if i :| 0 <= i < |all| && all[i].line == id && i < |s| { assert s[i].line == id; }
  }

  lemma NamedNone()
    ensures LinesUnique([]) && forall id :: !Named([], id)
  {}

  lemma NamedTwice(s: seq<Snapshot>, next: Snapshot)
    requires Named(s, next.line)
    ensures !LinesUnique(s + [next])
  {
    var n :| 0 <= n < |s| && s[n].line == next.line;
    assert (s + [next])[n].line == (s + [next])[|s|].line;
  }

  lemma UniqueAppended(s: seq<Snapshot>, next: Snapshot)
    requires LinesUnique(s) && !Named(s, next.line)
    ensures LinesUnique(s + [next])
  {}

  /** `parse_coupang_day_page`: one snapshot per shipment line, no line twice, and
      each line's price what its unit price makes it. */
  method ParseCoupangDayPage(rows: seq<CoupangRow>) returns (page: Option<seq<Snapshot>>)
    ensures page.Some? <==> |rows| <= 50 && (forall i | 0 <= i < |rows| :: CoupangRowOk(rows[i])) && LinesUnique(Flat(rows))
    ensures page.Some? ==> page.value == Flat(rows)
  {
    hide Named, FromCoupang, LinesUnique, LinesOf;
    if |rows| > 50 { return None; }
    var snapshots: seq<Snapshot> := [];
    var seen: set<string> := {};
    NamedNone();
    for i := 0 to |rows|
      invariant snapshots == Flat(rows[..i]) && LinesUnique(snapshots)
      invariant forall id :: id in seen <==> Named(snapshots, id)
      invariant forall k | 0 <= k < i :: CoupangRowOk(rows[k])
    {
      var ok;
      ok, snapshots, seen := ParseShipment(rows[i], snapshots, seen);
      assert rows[..i + 1][..i] == rows[..i];
      if !ok {
        if CoupangRowOk(rows[i]) {
          FlatPrefix(rows, i, |rows[i].lines|);
          UniquePrefix(Flat(rows[..i]) + LinesOf(rows[i], |rows[i].lines|), Flat(rows));
        }
        return None;
      }
    }
    assert rows[..|rows|] == rows;
    page := Some(snapshots);
  }

  /** One shipment's lines behind those already read; `seen` holds their identities. */
  method ParseShipment(row: CoupangRow, before: seq<Snapshot>, known: set<string>) returns (ok: bool, snapshots: seq<Snapshot>, seen: set<string>)
    requires LinesUnique(before) && forall id :: id in known <==> Named(before, id)
    ensures ok <==> CoupangRowOk(row) && LinesUnique(before + LinesOf(row, |row.lines|))
    ensures ok ==> snapshots == before + LinesOf(row, |row.lines|) && forall id :: id in seen <==> Named(snapshots, id)
  {
    hide Named, FromCoupang, LinesUnique, CoupangState, Sequence;
    ok, snapshots, seen := false, before, known;
    if !Counting(row.order) || !Counting(row.shipment) || !CoupangState(row.status) { return; }
    if !Whole(row.shipping) || (row.remote.Some? && !Whole(row.remote.value)) || |row.lines| < 1 || |row.lines| > 100 { return; }
    assert before + LinesOf(row, 0) == before;
    for k := 0 to |row.lines|
      invariant snapshots == before + LinesOf(row, k) && LinesUnique(snapshots)
      invariant forall id :: id in seen <==> Named(snapshots, id)
      invariant forall n | 0 <= n < k :: CoupangLineOk(row.lines[n])
    {
      var next := FromCoupang(row, row.lines[k]);
      assert snapshots + [next] == before + LinesOf(row, k + 1);
      if next.line in seen {
        NamedTwice(snapshots, next);
        LinesPrefix(row, k + 1, |row.lines|);
        UniquePrefix(snapshots + [next], before + LinesOf(row, |row.lines|));
        return;
      }
      if !CoupangLineOk(row.lines[k]) { return; }
      forall id ensures Named(snapshots + [next], id) <==> Named(snapshots, id) || id == next.line { NamedAppended(snapshots, next, id); }
      UniqueAppended(snapshots, next);
      seen := seen + {next.line};
      snapshots := snapshots + [next];
    }
    ok := true;
  }

  // -------------------------------------------------------------------- the bridge

  /** A row the bridge accepts, with the SKU bound to its product. */
  datatype Kept = Kept(order: string, line: string, sku: string, unit: int, quantity: int, source: string)

  predicate Plain(provider: Provider, r: Snapshot) {
    && r.status == (if provider == Naver then "PAYED" else "INSTRUCT")
    && !r.review && r.initial == r.remaining
    && match r.amounts
       case NaverAmounts(initial, remaining, unit) => provider == Naver && initial == unit * r.remaining && remaining == unit * r.remaining
       case CoupangAmounts(_, _, discount, shipping, remote) =>
         provider == Coupang && discount == Some(0) && shipping == 0 && remote == Some(0)
  }

  function KeepRow(r: Snapshot, sku: string): Kept { Kept(r.order, r.line, sku, r.amounts.unitPrice, r.remaining, r.source) }

  function KeepAll(provider: Provider, page: seq<Snapshot>, skus: map<string, string>): Option<seq<Kept>> {
    if page == [] then Some([])
    else
      var before := KeepAll(provider, page[..|page| - 1], skus);
      var last := page[|page| - 1];
      if before.Some? && Plain(provider, last) && last.product in skus then Some(before.value + [KeepRow(last, skus[last.product])]) else None
  }

  function RowsOf(rows: seq<Kept>, order: string): seq<Kept> {
    if rows == [] then []
    else RowsOf(rows[..|rows| - 1], order) + if rows[|rows| - 1].order == order then [rows[|rows| - 1]] else []
  }

  function OrdersOf(rows: seq<Kept>): seq<string> {
    if rows == [] then []
    else
      var before := OrdersOf(rows[..|rows| - 1]);
      var last := rows[|rows| - 1].order;
      if last in before then before else Insert(last, before)
  }

  /** Insertion by channel line id. */
  function InsertRow(r: Kept, s: seq<Kept>): seq<Kept> {
    if s == [] then [r] else if Less(r.line, s[0].line) then [r] + s else [s[0]] + InsertRow(r, s[1..])
  }

  function ByLine(rows: seq<Kept>): seq<Kept> {
    if rows == [] then [] else InsertRow(rows[|rows| - 1], ByLine(rows[..|rows| - 1]))
  }

  function Price(quantity: int, unit: int): int { quantity * unit }

  function Amount(rows: seq<Kept>): int {
    if rows == [] then 0 else Amount(rows[..|rows| - 1]) + Price(rows[|rows| - 1].quantity, rows[|rows| - 1].unit)
  }

  datatype ItemLine = ItemLine(sku: string, quantity: int, unit: int, key: string)

  /** The material of an item's digest and event id: provider, claims page, and the sorted identity of its lines. */
  datatype Digest = Digest(provider: Provider, claims: Option<string>, lines: seq<(string, string, string)>)

  datatype Item = Item(order: string, event: Digest, total: int, lines: seq<ItemLine>)

  function LineItem(r: Kept): ItemLine { ItemLine(r.sku, r.quantity, r.unit, r.line) }

  function LineItems(rows: seq<Kept>): (lines: seq<ItemLine>)
    ensures |lines| == |rows| && forall i | 0 <= i < |rows| :: lines[i] == LineItem(rows[i])
  {
    seq(|rows|, i requires 0 <= i < |rows| => LineItem(rows[i]))
  }

  function Identities(rows: seq<Kept>): (ids: seq<(string, string, string)>)
    ensures |ids| == |rows| && forall i | 0 <= i < |rows| :: ids[i] == (rows[i].line, rows[i].source, rows[i].sku)
  {
    seq(|rows|, i requires 0 <= i < |rows| => (rows[i].line, rows[i].source, rows[i].sku))
  }

  function ItemFor(provider: Provider, claims: Option<string>, rows: seq<Kept>, order: string): Item {
    var own := RowsOf(rows, order);
    Item(order, Digest(provider, claims, Identities(ByLine(own))), Amount(own), LineItems(ByLine(own)))
  }

  predicate SkusApart(rows: seq<Kept>) {
    forall i, j | 0 <= i < j < |rows| :: rows[i].sku != rows[j].sku
  }

  predicate Opaque(s: string, colon: bool) { Written(s, 255, colon) }

  const MAX_LINES := 100
  const MAX_ITEMS := 100
  const MAX_PAYLOAD_BYTES := 64 * 1024

  function LineTotal(lines: seq<ItemLine>): int {
    if lines == [] then 0 else LineTotal(lines[..|lines| - 1]) + Price(lines[|lines| - 1].quantity, lines[|lines| - 1].unit)
  }

  ghost predicate KeysApart(lines: seq<ItemLine>) {
    forall i, j | 0 <= i < j < |lines| :: lines[i].key != lines[j].key
  }

  /** The characters of a line's canonical JSON: its fixed part and four values. */
  function LineSize(l: ItemLine): nat { 57 + |Decimal(l.quantity)| + |l.sku| + |l.key| + |Decimal(l.unit)| }

  function LinesSize(lines: seq<ItemLine>): nat {
    if lines == [] then 0 else LinesSize(lines[..|lines| - 1]) + LineSize(lines[|lines| - 1]) + 1
  }

  /** The characters of an item's canonical JSON, its event id being `fixture-` and 64 digits; identifiers are ASCII. */
  function Size(item: Item): nat { 165 + |item.order| + |Decimal(item.total)| + LinesSize(item.lines) }

  /** What `normalize_demo_order` accepts of an item in KRW at revision 1. */
  ghost predicate Normal(item: Item) {
    && Opaque(item.order, false) && item.total >= 0 && 1 <= |item.lines| <= MAX_LINES
    && Checked(item.lines) && LineTotal(item.lines) == item.total && Size(item) <= MAX_PAYLOAD_BYTES
  }

  ghost predicate HasKey(lines: seq<ItemLine>, key: string) {
    exists i :: 0 <= i < |lines| && lines[i].key == key
  }

  lemma KeyAppended(lines: seq<ItemLine>, l: ItemLine, key: string)
    ensures HasKey(lines + [l], key) <==> HasKey(lines, key) || key == l.key
    ensures KeysApart(lines + [l]) <==> KeysApart(lines) && !HasKey(lines, l.key)
  {
    var all := lines + [l];
    assert all[|lines|] == l;
    if HasKey(lines, key) {
      var i :| 0 <= i < |lines| && lines[i].key == key;
      assert all[i].key == key;
    }
    if HasKey(lines, l.key) {
      var i :| 0 <= i < |lines| && lines[i].key == l.key;
      assert all[i].key == all[|lines|].key;
    }
    if i :| 0 <= i < |all| && all[i].key == key && i < |lines| { assert lines[i].key == key; }
    if KeysApart(all) { assert forall i | 0 <= i < |lines| :: all[i] == lines[i]; }
  }

  predicate LineNormal(l: ItemLine) { Opaque(l.sku, false) && l.quantity >= 1 && l.unit >= 0 && Opaque(l.key, true) }

  /** Every line well formed, and no line key twice. */
  ghost predicate Checked(lines: seq<ItemLine>) {
    KeysApart(lines) && forall i | 0 <= i < |lines| :: LineNormal(lines[i])
  }

  lemma CheckedAppended(lines: seq<ItemLine>, l: ItemLine)
    ensures Checked(lines + [l]) <==> Checked(lines) && LineNormal(l) && !HasKey(lines, l.key)
  {
    hide LineNormal, HasKey, KeysApart;
    KeyAppended(lines, l, l.key);
    var all := lines + [l];
    assert all[|lines|] == l && forall i | 0 <= i < |lines| :: all[i] == lines[i];
  }

  lemma CheckedPrefix(lines: seq<ItemLine>, n: nat)
    requires n <= |lines| && Checked(lines)
    ensures Checked(lines[..n])
  {
    hide LineNormal;
    assert forall i | 0 <= i < n :: lines[..n][i] == lines[i];
  }

  /** `normalize_demo_order`: amounts are added up while the lines are checked. */
  method NormalizeDemoOrder(item: Item) returns (ok: bool)
    ensures ok <==> Normal(item)
  {
    hide Opaque, HasKey, Checked, Price, LinesSize;
    if !Opaque(item.order, false) || item.total < 0 || |item.lines| < 1 || |item.lines| > MAX_LINES { return false; }
    var calculated, keys: set<string> := 0, {};
    NoKeys();
    for i := 0 to |item.lines|
      invariant calculated == LineTotal(item.lines[..i])
      invariant forall k :: k in keys <==> HasKey(item.lines[..i], k)
      invariant Checked(item.lines[..i])
    {
      var l := item.lines[i];
      assert item.lines[..i + 1][..i] == item.lines[..i] && item.lines[..i + 1] == item.lines[..i] + [l];
      CheckedAppended(item.lines[..i], l);
      if !LineNormal(l) || l.key in keys {
        if Checked(item.lines) { CheckedPrefix(item.lines, i + 1); }
        return false;
      }
      calculated := calculated + Price(l.quantity, l.unit);
      forall k ensures HasKey(item.lines[..i + 1], k) <==> HasKey(item.lines[..i], k) || k == l.key { KeyAppended(item.lines[..i], l, k); }
      keys := keys + {l.key};
    }
    assert item.lines[..|item.lines|] == item.lines;
    ok := calculated == item.total && Size(item) <= MAX_PAYLOAD_BYTES;
  }

  lemma NoKeys()
    ensures Checked([]) && forall k :: !HasKey([], k)
  {}

  /** `ContractFixtureReadAdapter.__init__` after parsing: a complete, nonempty page
      of acceptable rows becomes one item per order, in order. */
  ghost function Bridge(provider: Provider, claims: Option<string>, complete: bool, page: seq<Snapshot>, skus: map<string, string>): Option<seq<Item>> {
    var kept := KeepAll(provider, page, skus);
    if !complete || page == [] || kept.None? then None
    else
      var orders := OrdersOf(kept.value);
      if AllNormal(provider, claims, kept.value, orders) && |orders| <= MAX_ITEMS then Some(Items(provider, claims, kept.value, orders)) else None
  }

  ghost predicate AllNormal(provider: Provider, claims: Option<string>, rows: seq<Kept>, orders: seq<string>) {
    forall i | 0 <= i < |orders| :: SkusApart(RowsOf(rows, orders[i])) && Normal(ItemFor(provider, claims, rows, orders[i]))
  }

  function Items(provider: Provider, claims: Option<string>, rows: seq<Kept>, orders: seq<string>): (items: seq<Item>)
    ensures |items| == |orders| && forall i | 0 <= i < |orders| :: items[i] == ItemFor(provider, claims, rows, orders[i])
  {
    seq(|orders|, i requires 0 <= i < |orders| => ItemFor(provider, claims, rows, orders[i]))
  }

  // ----------------------------------------------------------- rows, orders, sorting

  ghost predicate Apart(rows: seq<Kept>) {
    forall i, j | 0 <= i < j < |rows| :: rows[i].line != rows[j].line
  }

  ghost predicate ByLineSorted(rows: seq<Kept>) {
    forall i, j | 0 <= i < j < |rows| :: Less(rows[i].line, rows[j].line)
  }

  lemma {:induction false} RowsOfIs(rows: seq<Kept>, order: string)
    ensures forall r :: r in RowsOf(rows, order) <==> r in rows && r.order == order
    ensures Apart(rows) ==> Apart(RowsOf(rows, order))
  {
    if rows != [] {
      var (before, last) := (rows[..|rows| - 1], rows[|rows| - 1]);
      RowsOfIs(before, order);
      assert rows == before + [last];
      if Apart(rows) {
        assert Apart(before);
        forall r | r in RowsOf(before, order) ensures r.line != last.line {
          var k :| 0 <= k < |before| && before[k] == r;
          assert rows[k] == r;
        }
      }
    }
  }

  lemma {:induction false} OrdersOfIs(rows: seq<Kept>)
    ensures Sorted(OrdersOf(rows))
    ensures forall o :: o in OrdersOf(rows) <==> exists r :: r in rows && r.order == o
  {
    if rows != [] {
      var (before, last) := (rows[..|rows| - 1], rows[|rows| - 1]);
      OrdersOfIs(before);
      assert rows == before + [last];
      assert last in rows;
      if last.order !in OrdersOf(before) { InsertSorts(last.order, OrdersOf(before)); }
      forall o ensures o in OrdersOf(rows) <==> exists r :: r in rows && r.order == o {
        if o in OrdersOf(before) {
          var r :| r in before && r.order == o;
          assert r in rows;
        }
        if r :| r in rows && r.order == o && r != last { assert r in before; }
      }
    }
  }

  lemma {:induction false} InsertRowIs(r: Kept, s: seq<Kept>)
    requires ByLineSorted(s) && forall x | x in s :: x.line != r.line
    ensures ByLineSorted(InsertRow(r, s)) && |InsertRow(r, s)| == |s| + 1
    ensures forall x :: x in InsertRow(r, s) <==> x == r || x in s
    ensures Amount(InsertRow(r, s)) == Amount(s) + Price(r.quantity, r.unit)
  {
    hide Price;
    if s == [] {
      assert [r][..0] == [];
    } else if Less(r.line, s[0].line) {
      forall j | 0 < j < |s| ensures Less(r.line, s[j].line) { LessTransitive(r.line, s[0].line, s[j].line); }
      AmountJoins([r], s);
      assert [r][..0] == [];
    } else {
      LessTotal(r.line, s[0].line);
      assert s[0] in s;
      InsertRowIs(r, s[1..]);
      var t := InsertRow(r, s[1..]);
      forall j | 0 <= j < |t| ensures Less(s[0].line, t[j].line) { assert t[j] in t; }
      AmountJoins([s[0]], t);
      AmountJoins([s[0]], s[1..]);
      assert s == [s[0]] + s[1..];
      assert forall x :: x in s <==> x == s[0] || x in s[1..];
    }
  }

  lemma {:induction false} AmountJoins(a: seq<Kept>, b: seq<Kept>)
    ensures Amount(a + b) == Amount(a) + Amount(b)
  {
    hide Price;
    if b == [] {
      assert a + b == a;
    } else {
      assert (a + b)[..|a + b| - 1] == a + b[..|b| - 1];
      AmountJoins(a, b[..|b| - 1]);
    }
  }

  lemma {:induction false} ByLineIs(rows: seq<Kept>)
    requires Apart(rows)
    ensures ByLineSorted(ByLine(rows)) && |ByLine(rows)| == |rows| && Amount(ByLine(rows)) == Amount(rows)
    ensures forall x :: x in ByLine(rows) <==> x in rows
  {
    hide Price;
    if rows != [] {
      var (before, last) := (rows[..|rows| - 1], rows[|rows| - 1]);
      assert ByLine(rows) == InsertRow(last, ByLine(before)) && Amount(rows) == Amount(before) + Price(last.quantity, last.unit);
      hide ByLine, InsertRow, Amount, ByLineSorted;
      BeforeApart(rows);
      ByLineIs(before);
      hide Apart;
      InsertRowIs(last, ByLine(before));
      forall x ensures x in ByLine(rows) <==> x in rows { assert rows == before + [last]; }
    }
  }

  lemma BeforeApart(rows: seq<Kept>)
    requires Apart(rows) && rows != []
    ensures Apart(rows[..|rows| - 1]) && forall x | x in rows[..|rows| - 1] :: x.line != rows[|rows| - 1].line
  {
    forall x | x in rows[..|rows| - 1] ensures x.line != rows[|rows| - 1].line {
      var k :| 0 <= k < |rows| - 1 && rows[..|rows| - 1][k] == x;
      assert rows[k] == x;
    }
  }

  /** Two lists of the same rows, strictly sorted by line, are the same list. */
  lemma {:induction false} SortedRowsUnique(a: seq<Kept>, b: seq<Kept>)
    requires ByLineSorted(a) && ByLineSorted(b) && forall x :: x in a <==> x in b
    ensures a == b
  {
    assert |a| > 0 ==> a[0] in a;
    assert |b| > 0 ==> b[0] in b;
    if a != [] && b != [] {
      FirstRowLeast(a, b);
      forall x ensures x in a[1..] <==> x in b[1..] {
        RestOfRows(a, x);
        RestOfRows(b, x);
      }
      SortedRowsUnique(a[1..], b[1..]);
      assert a == [a[0]] + a[1..] && b == [b[0]] + b[1..];
    }
  }

  lemma RestOfRows(a: seq<Kept>, x: Kept)
    requires ByLineSorted(a) && a != []
    ensures x in a[1..] <==> x in a && x != a[0]
  {
    LessIrreflexive(a[0].line);
    if x in a && x != a[0] {
      var i :| 0 <= i < |a| && a[i] == x;
      assert x == a[1..][i - 1];
    }
  }

  lemma FirstRowLeast(a: seq<Kept>, b: seq<Kept>)
    requires ByLineSorted(a) && ByLineSorted(b) && a != [] && b != [] && (forall x :: x in a <==> x in b)
    ensures a[0] == b[0]
  {
    var i :| 0 <= i < |b| && b[i] == a[0] by { assert a[0] in b; }
    var j :| 0 <= j < |a| && a[j] == b[0] by { assert b[0] in a; }
    if i > 0 && j > 0 {
      LessTransitive(a[0].line, a[j].line, b[i].line);
      LessIrreflexive(a[0].line);
    }
  }

  // --------------------------------------------------------------------- canonical

  predicate Keepable(provider: Provider, r: Snapshot, skus: map<string, string>) {
    Plain(provider, r) && r.product in skus
  }

  function KeptOf(r: Snapshot, skus: map<string, string>): Kept
    requires r.product in skus
  {
    KeepRow(r, skus[r.product])
  }

  ghost predicate KeptFrom(provider: Provider, page: seq<Snapshot>, kept: seq<Kept>, skus: map<string, string>) {
    |kept| == |page| && forall i | 0 <= i < |page| :: Keepable(provider, page[i], skus) && kept[i] == KeptOf(page[i], skus)
  }

  lemma {:induction false} KeepAllIs(provider: Provider, page: seq<Snapshot>, skus: map<string, string>)
    ensures KeepAll(provider, page, skus).None? <==> exists i :: 0 <= i < |page| && !Keepable(provider, page[i], skus)
    ensures KeepAll(provider, page, skus).Some? ==> KeptFrom(provider, page, KeepAll(provider, page, skus).value, skus)
  {
    hide Plain, KeepRow;
    if page != [] {
      var (before, last) := (page[..|page| - 1], page[|page| - 1]);
      KeepAllIs(provider, before, skus);
      assert forall i | 0 <= i < |before| :: before[i] == page[i];
      var n := |page| - 1;
      assert page[n] == last;
      if !Keepable(provider, last, skus) { assert !Keepable(provider, page[n], skus); }
    }
  }

  ghost predicate FromPage(page: seq<Snapshot>, skus: map<string, string>, x: Kept) {
    exists i :: 0 <= i < |page| && page[i].product in skus && x == KeptOf(page[i], skus)
  }

  lemma KeptRows(provider: Provider, page: seq<Snapshot>, skus: map<string, string>)
    requires KeepAll(provider, page, skus).Some? && LinesUnique(page)
    ensures Apart(KeepAll(provider, page, skus).value)
    ensures forall x :: x in KeepAll(provider, page, skus).value <==> FromPage(page, skus, x)
  {
    KeepAllIs(provider, page, skus);
    var kept := KeepAll(provider, page, skus).value;
    hide KeepAll, Plain;
    forall x ensures x in kept <==> FromPage(page, skus, x) {
      if FromPage(page, skus, x) {
        var i :| 0 <= i < |page| && page[i].product in skus && x == KeptOf(page[i], skus);
        assert kept[i] == x;
      }
    }
  }

  /** Two orders of the same page keep the same rows. */
  lemma SameKept(provider: Provider, page: seq<Snapshot>, other: seq<Snapshot>, skus: map<string, string>)
    requires LinesUnique(page) && LinesUnique(other) && forall r :: r in page <==> r in other
    ensures KeepAll(provider, page, skus).Some? <==> KeepAll(provider, other, skus).Some?
    ensures KeepAll(provider, page, skus).Some? ==>
              Apart(KeepAll(provider, page, skus).value) && Apart(KeepAll(provider, other, skus).value)
              && forall x :: x in KeepAll(provider, page, skus).value <==> x in KeepAll(provider, other, skus).value
  {
    KeepAllIs(provider, page, skus);
    KeepAllIs(provider, other, skus);
    hide KeepAll, Plain;
    assert forall i | 0 <= i < |page| :: page[i] in other;
    assert forall i | 0 <= i < |other| :: other[i] in page;
    if KeepAll(provider, page, skus).Some? && KeepAll(provider, other, skus).Some? {
      KeptRows(provider, page, skus);
      KeptRows(provider, other, skus);
      forall x ensures FromPage(page, skus, x) <==> FromPage(other, skus, x) {
        if FromPage(page, skus, x) {
          var i :| 0 <= i < |page| && page[i].product in skus && x == KeptOf(page[i], skus);
          var j :| 0 <= j < |other| && other[j] == page[i];
        }
        if FromPage(other, skus, x) {
          var i :| 0 <= i < |other| && other[i].product in skus && x == KeptOf(other[i], skus);
          var j :| 0 <= j < |page| && page[j] == other[i];
        }
      }
    }
  }

  lemma SkusApartByMembers(rows: seq<Kept>)
    requires Apart(rows)
    ensures SkusApart(rows) <==> forall x, y | x in rows && y in rows && x.sku == y.sku :: x == y
  {
    if SkusApart(rows) {
      forall x, y | x in rows && y in rows && x.sku == y.sku ensures x == y {
        var i :| 0 <= i < |rows| && rows[i] == x;
        var j :| 0 <= j < |rows| && rows[j] == y;
      }
    }
    if forall x, y | x in rows && y in rows && x.sku == y.sku :: x == y {
      forall i, j | 0 <= i < j < |rows| ensures rows[i].sku != rows[j].sku {
        assert rows[i] in rows && rows[j] in rows;
      }
    }
  }

  lemma SameOrderSameItem(provider: Provider, claims: Option<string>, a: seq<Kept>, b: seq<Kept>, order: string)
    requires Apart(a) && Apart(b) && forall x :: x in a <==> x in b
    ensures ItemFor(provider, claims, a, order) == ItemFor(provider, claims, b, order)
    ensures SkusApart(RowsOf(a, order)) <==> SkusApart(RowsOf(b, order))
  {
    RowsOfIs(a, order);
    RowsOfIs(b, order);
    ByLineIs(RowsOf(a, order));
    ByLineIs(RowsOf(b, order));
    SortedRowsUnique(ByLine(RowsOf(a, order)), ByLine(RowsOf(b, order)));
    SkusApartByMembers(RowsOf(a, order));
    SkusApartByMembers(RowsOf(b, order));
  }

  lemma SameItems(provider: Provider, claims: Option<string>, a: seq<Kept>, b: seq<Kept>)
    requires Apart(a) && Apart(b) && forall x :: x in a <==> x in b
    ensures OrdersOf(a) == OrdersOf(b)
    ensures AllNormal(provider, claims, a, OrdersOf(a)) <==> AllNormal(provider, claims, b, OrdersOf(b))
    ensures Items(provider, claims, a, OrdersOf(a)) == Items(provider, claims, b, OrdersOf(b))
  {
    OrdersOfIs(a);
    OrdersOfIs(b);
    SortedUnique(OrdersOf(a), OrdersOf(b));
    hide OrdersOf, Normal;
    forall o ensures ItemFor(provider, claims, a, o) == ItemFor(provider, claims, b, o) && (SkusApart(RowsOf(a, o)) <==> SkusApart(RowsOf(b, o))) {
      SameOrderSameItem(provider, claims, a, b, o);
    }
  }

  lemma SameMembers(page: seq<Snapshot>, other: seq<Snapshot>)
    requires multiset(page) == multiset(other)
    ensures (forall r :: r in page <==> r in other) && |page| == |other|
  {
    assert forall r :: r in page <==> r in multiset(page);
    assert forall r :: r in other <==> r in multiset(other);
    assert |multiset(page)| == |page| && |multiset(other)| == |other|;
  }

  /** The bridge does not depend on the order of the rows on the page. */
  lemma BridgeIsCanonical(provider: Provider, claims: Option<string>, complete: bool, page: seq<Snapshot>, other: seq<Snapshot>, skus: map<string, string>)
    requires multiset(page) == multiset(other) && LinesUnique(page)
    ensures Bridge(provider, claims, complete, page, skus) == Bridge(provider, claims, complete, other, skus)
  {
    SameMembers(page, other);
    UniqueShuffled(page, other);
    SameKept(provider, page, other, skus);
    hide KeepAll, OrdersOf, AllNormal, Apart, LinesUnique;
    if KeepAll(provider, page, skus).Some? {
      SameItems(provider, claims, KeepAll(provider, page, skus).value, KeepAll(provider, other, skus).value);
    }
  }

  lemma UniqueShuffled(page: seq<Snapshot>, other: seq<Snapshot>)
    requires multiset(page) == multiset(other) && LinesUnique(page)
    ensures LinesUnique(other)
  {
    forall i, j | 0 <= i < j < |other| ensures other[i].line != other[j].line {
      if other[i].line == other[j].line {
        assert other[i] in multiset(other) && other[j] in multiset(other);
        assert other[i] in page && other[j] in page;
        var a :| 0 <= a < |page| && page[a] == other[i];
        var b :| 0 <= b < |page| && page[b] == other[j];
        assert a == b;
        CountsTwice(other, i, j);
        CountsOnce(page, a);
      }
    }
  }

  lemma CountsTwice(s: seq<Snapshot>, i: nat, j: nat)
    requires i < j < |s| && s[i] == s[j]
    ensures multiset(s)[s[i]] >= 2
  {
    assert s == s[..j] + s[j..];
    assert s[..j][i] in s[..j] && s[j..][0] in s[j..];
    assert multiset(s) == multiset(s[..j]) + multiset(s[j..]);
  }

  lemma CountsOnce(s: seq<Snapshot>, i: nat)
    requires i < |s| && LinesUnique(s)
    ensures multiset(s)[s[i]] == 1
  {
    var (before, after) := (s[..i], s[i + 1..]);
    assert s == before + [s[i]] + after;
    assert s[i] !in before && s[i] !in after;
    assert multiset(s) == multiset(before) + multiset([s[i]]) + multiset(after);
  }

  // ------------------------------------------------------------------ conservation

  function Totals(items: seq<Item>): int {
    if items == [] then 0 else Totals(items[..|items| - 1]) + items[|items| - 1].total
  }

  function LineCount(items: seq<Item>): nat {
    if items == [] then 0 else LineCount(items[..|items| - 1]) + |items[|items| - 1].lines|
  }

  /** Unit price times quantity over the page. */
  function PageAmount(page: seq<Snapshot>): int {
    if page == [] then 0 else PageAmount(page[..|page| - 1]) + Price(page[|page| - 1].remaining, page[|page| - 1].amounts.unitPrice)
  }

  function OrderAmounts(rows: seq<Kept>, orders: seq<string>): int {
    if orders == [] then 0 else OrderAmounts(rows, orders[..|orders| - 1]) + Amount(RowsOf(rows, orders[|orders| - 1]))
  }

  function OrderLines(rows: seq<Kept>, orders: seq<string>): nat {
    if orders == [] then 0 else OrderLines(rows, orders[..|orders| - 1]) + |RowsOf(rows, orders[|orders| - 1])|
  }

  lemma {:induction false} NoRows(orders: seq<string>)
    ensures OrderAmounts([], orders) == 0 && OrderLines([], orders) == 0
  {
    hide Price;
    if orders != [] { NoRows(orders[..|orders| - 1]); }
  }

  /** One more row goes to its own order and to no other. */
  lemma {:induction false} OneMoreRow(rows: seq<Kept>, last: Kept, orders: seq<string>)
    requires Sorted(orders)
    ensures OrderAmounts(rows + [last], orders) == OrderAmounts(rows, orders) + (if last.order in orders then Price(last.quantity, last.unit) else 0)
    ensures OrderLines(rows + [last], orders) == OrderLines(rows, orders) + (if last.order in orders then 1 else 0)
  {
    hide Price;
    assert (rows + [last])[..|rows|] == rows;
    if orders != [] {
      var (before, name) := (orders[..|orders| - 1], orders[|orders| - 1]);
      OneMoreRow(rows, last, before);
      assert orders == before + [name];
      var own := RowsOf(rows, name);
      if name == last.order {
        LessIrreflexive(name);
        assert forall i | 0 <= i < |before| :: Less(orders[i], orders[|orders| - 1]);
        assert name !in before;
        assert RowsOf(rows + [last], name) == own + [last];
        assert (own + [last])[..|own|] == own;
      } else {
        assert RowsOf(rows + [last], name) == own;
      }
    }
  }

  lemma {:induction false} RowsPartition(rows: seq<Kept>, orders: seq<string>)
    requires Sorted(orders) && forall r | r in rows :: r.order in orders
    ensures OrderAmounts(rows, orders) == Amount(rows) && OrderLines(rows, orders) == |rows|
  {
    hide Price;
    if rows == [] {
      NoRows(orders);
    } else {
      var (before, last) := (rows[..|rows| - 1], rows[|rows| - 1]);
      assert rows == before + [last];
      RowsPartition(before, orders);
      OneMoreRow(before, last, orders);
    }
  }

  lemma {:induction false} ItemSums(provider: Provider, claims: Option<string>, rows: seq<Kept>, orders: seq<string>)
    requires Apart(rows)
    ensures Totals(Items(provider, claims, rows, orders)) == OrderAmounts(rows, orders)
    ensures LineCount(Items(provider, claims, rows, orders)) == OrderLines(rows, orders)
  {
    if orders != [] {
      var (before, name) := (orders[..|orders| - 1], orders[|orders| - 1]);
      hide RowsOf, ByLine, Amount, Apart, ByLineSorted, ItemFor, Items;
      ItemSums(provider, claims, rows, before);
      OneItem(provider, claims, rows, name);
      LastItem(provider, claims, rows, orders);
      var items := Items(provider, claims, rows, orders);
      assert items[..|items| - 1] == Items(provider, claims, rows, before);
    }
  }

  lemma LastItem(provider: Provider, claims: Option<string>, rows: seq<Kept>, orders: seq<string>)
    requires orders != []
    ensures Items(provider, claims, rows, orders)
            == Items(provider, claims, rows, orders[..|orders| - 1]) + [ItemFor(provider, claims, rows, orders[|orders| - 1])]
  {}

  lemma OneItem(provider: Provider, claims: Option<string>, rows: seq<Kept>, order: string)
    requires Apart(rows)
    ensures ItemFor(provider, claims, rows, order).total == Amount(RowsOf(rows, order))
    ensures |ItemFor(provider, claims, rows, order).lines| == |RowsOf(rows, order)|
  {
    RowsOfIs(rows, order);
    ByLineIs(RowsOf(rows, order));
  }

  lemma {:induction false} KeptAmount(provider: Provider, page: seq<Snapshot>, kept: seq<Kept>, skus: map<string, string>)
    requires KeptFrom(provider, page, kept, skus)
    ensures Amount(kept) == PageAmount(page)
  {
    hide Price;
    if page != [] {
      var (p, k) := (page[..|page| - 1], kept[..|kept| - 1]);
      assert KeptFrom(provider, p, k, skus);
      KeptAmount(provider, p, k, skus);
    }
  }

  /** The bridge conserves money and lines: the items' totals are the page's unit
      prices times quantities, and there are as many item lines as channel lines. */
  lemma BridgeConserves(provider: Provider, claims: Option<string>, complete: bool, page: seq<Snapshot>, skus: map<string, string>)
    requires LinesUnique(page) && Bridge(provider, claims, complete, page, skus).Some?
    ensures var items := Bridge(provider, claims, complete, page, skus).value;
      Totals(items) == PageAmount(page) && LineCount(items) == |page|
  {
    var kept := KeepAll(provider, page, skus).value;
    KeepAllIs(provider, page, skus);
    KeptRows(provider, page, skus);
    OrdersOfIs(kept);
    hide KeepAll, OrdersOf, AllNormal, Plain;
    RowsPartition(kept, OrdersOf(kept));
    ItemSums(provider, claims, kept, OrdersOf(kept));
    KeptAmount(provider, page, kept, skus);
  }

  ghost predicate Placed(items: seq<Item>, i: nat, j: nat, key: string) {
    i < |items| && j < |items[i].lines| && items[i].lines[j].key == key
  }

  ghost predicate PlacedAs(items: seq<Item>, i: nat, j: nat, r: Snapshot) {
    Placed(items, i, j, r.line) && items[i].order == r.order
    && items[i].lines[j].quantity == r.remaining && items[i].lines[j].unit == r.amounts.unitPrice
  }

  /** Each channel line is one line of the item of its own order, with its own quantity and price. */
  lemma LineIsPlaced(provider: Provider, claims: Option<string>, complete: bool, page: seq<Snapshot>, skus: map<string, string>, k: nat) returns (i: nat, j: nat)
    requires LinesUnique(page) && Bridge(provider, claims, complete, page, skus).Some? && k < |page|
    ensures PlacedAs(Bridge(provider, claims, complete, page, skus).value, i, j, page[k])
  {
    var kept := KeepAll(provider, page, skus).value;
    KeepAllIs(provider, page, skus);
    KeptRows(provider, page, skus);
    OrdersOfIs(kept);
    hide KeepAll, OrdersOf, AllNormal, Plain, LinesUnique, ByLine, RowsOf, ByLineSorted, FromPage;
    var orders := OrdersOf(kept);
    var row := kept[k];
    assert row in kept && row.order in orders;
    i :| 0 <= i < |orders| && orders[i] == row.order;
    RowsOfIs(kept, row.order);
    ByLineIs(RowsOf(kept, row.order));
    var own := ByLine(RowsOf(kept, row.order));
    assert row in own;
    j :| 0 <= j < |own| && own[j] == row;
    assert ItemFor(provider, claims, kept, orders[i]).lines[j] == LineItem(row);
  }

  /** No line identity occurs twice among the items. */
  lemma LinePlacedOnce(provider: Provider, claims: Option<string>, complete: bool, page: seq<Snapshot>, skus: map<string, string>,
                       key: string, i: nat, j: nat, x: nat, y: nat)
    requires LinesUnique(page) && Bridge(provider, claims, complete, page, skus).Some?
    requires Placed(Bridge(provider, claims, complete, page, skus).value, i, j, key)
    requires Placed(Bridge(provider, claims, complete, page, skus).value, x, y, key)
    ensures i == x && j == y
  {
    var kept := KeepAll(provider, page, skus).value;
    KeptRows(provider, page, skus);
    OrdersOfIs(kept);
    hide KeepAll, OrdersOf, AllNormal, Plain;
    var orders := OrdersOf(kept);
    var items := Items(provider, claims, kept, orders);
    var row := PlacedRow(provider, claims, kept, orders, i, j);
    PlacedIsRow(provider, claims, kept, orders, x, y, row);
    PlacedIsRow(provider, claims, kept, orders, i, j, row);
    LessIrreflexive(orders[i]);
    LessIrreflexive(row.line);
    assert i == x;
    RowsOfIs(kept, orders[i]);
    ByLineIs(RowsOf(kept, orders[i]));
  }

  lemma PlacedRow(provider: Provider, claims: Option<string>, kept: seq<Kept>, orders: seq<string>, i: nat, j: nat) returns (row: Kept)
    requires Apart(kept) && i < |orders| && j < |Items(provider, claims, kept, orders)[i].lines|
    ensures row in kept && Items(provider, claims, kept, orders)[i].lines[j].key == row.line
  {
    RowsOfIs(kept, orders[i]);
    ByLineIs(RowsOf(kept, orders[i]));
    row := ByLine(RowsOf(kept, orders[i]))[j];
    assert row in ByLine(RowsOf(kept, orders[i]));
  }

  lemma PlacedIsRow(provider: Provider, claims: Option<string>, kept: seq<Kept>, orders: seq<string>, x: nat, y: nat, row: Kept)
    requires Apart(kept) && row in kept && Placed(Items(provider, claims, kept, orders), x, y, row.line)
    ensures x < |orders| && y < |ByLine(RowsOf(kept, orders[x]))| && ByLine(RowsOf(kept, orders[x]))[y] == row && row.order == orders[x]
  {
    RowsOfIs(kept, orders[x]);
    ByLineIs(RowsOf(kept, orders[x]));
    var r := ByLine(RowsOf(kept, orders[x]))[y];
    assert r in ByLine(RowsOf(kept, orders[x]));
    var a :| 0 <= a < |kept| && kept[a] == r;
    var b :| 0 <= b < |kept| && kept[b] == row;
  }

  // ------------------------------------------------------------ the loops of the source

  method KeepRows(provider: Provider, page: seq<Snapshot>, skus: map<string, string>) returns (kept: Option<seq<Kept>>)
    ensures kept == KeepAll(provider, page, skus)
  {
    var rows: seq<Kept> := [];
    for i := 0 to |page|
      invariant KeepAll(provider, page[..i], skus) == Some(rows)
    {
      assert page[..i + 1][..i] == page[..i];
      if !Plain(provider, page[i]) || page[i].product !in skus {
        KeepAllIs(provider, page, skus);
        assert !Keepable(provider, page[i], skus);
        return None;
      }
      rows := rows + [KeepRow(page[i], skus[page[i].product])];
    }
    assert page[..|page|] == page;
    kept := Some(rows);
  }

  /** Rows grouped by order in a dictionary; its keys are read in order. */
  method Group(rows: seq<Kept>) returns (grouped: map<string, seq<Kept>>, orders: seq<string>)
    ensures orders == OrdersOf(rows)
    ensures forall o | o in orders :: o in grouped && grouped[o] == RowsOf(rows, o)
  {
    grouped, orders := map[], [];
    for i := 0 to |rows|
      invariant orders == OrdersOf(rows[..i])
      invariant forall o :: o in grouped <==> o in orders
      invariant forall o | o in grouped :: grouped[o] == RowsOf(rows[..i], o)
      invariant forall o | o !in grouped :: RowsOf(rows[..i], o) == []
    {
      assert rows[..i + 1][..i] == rows[..i];
      var row := rows[i];
      OrdersOfIs(rows[..i]);
      if row.order !in grouped {
        InsertSorts(row.order, orders);
        grouped := grouped[row.order := []];
        orders := Insert(row.order, orders);
      }
      grouped := grouped[row.order := grouped[row.order] + [row]];
    }
    assert rows[..|rows|] == rows;
  }

  method Load(provider: Provider, claims: Option<string>, complete: bool, page: seq<Snapshot>, skus: map<string, string>)
    returns (loaded: Option<seq<Item>>)
    ensures loaded == Bridge(provider, claims, complete, page, skus)
  {
    hide KeepAll, OrdersOf, Normal, ItemFor, RowsOf;
    if !complete || page == [] { return None; }
    var kept := KeepRows(provider, page, skus);
    if kept.None? { return None; }
    var grouped, orders := Group(kept.value);
    var items: seq<Item> := [];
    for i := 0 to |orders|
      invariant |items| == i
      invariant forall k | 0 <= k < i ::
        items[k] == ItemFor(provider, claims, kept.value, orders[k]) && Normal(items[k]) && SkusApart(RowsOf(kept.value, orders[k]))
    {
      if !SkusApart(grouped[orders[i]]) { return None; }
      var item := BuildItem(provider, claims, grouped[orders[i]], orders[i], kept.value);
      var ok := NormalizeDemoOrder(item);
      if !ok { return None; }
      items := items + [item];
    }
    assert items == Items(provider, claims, kept.value, orders);
    if |items| > MAX_ITEMS { return None; }
    loaded := Some(items);
  }

  method BuildItem(provider: Provider, claims: Option<string>, own: seq<Kept>, order: string, ghost rows: seq<Kept>) returns (item: Item)
    requires own == RowsOf(rows, order)
    ensures item == ItemFor(provider, claims, rows, order)
  {
    var sorted := ByLine(own);
    var total := 0;
    for i := 0 to |own|
      invariant total == Amount(own[..i])
    {
      assert own[..i + 1][..i] == own[..i];
      total := total + Price(own[i].quantity, own[i].unit);
    }
    assert own[..|own|] == own;
    item := Item(order, Digest(provider, claims, Identities(sorted)), total, LineItems(sorted));
  }
}

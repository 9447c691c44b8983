/** finance01.py: settlement rows grouped by order and matched against the order book. */
module Settlement {
  import opened Common
  import opened Text

  datatype Kind = Sale | Fee | Refund

  datatype Row = Row(order: string, kind: Kind, amount: int, currency: string, source: string)

  /** What the repository knows of a channel order, found by its external key. */
  datatype Known = Known(id: nat, currency: string, total: int, purchaseCost: int)

  type Book = map<string, Known>

  datatype Line = Line(row: Row, order: Option<Known>, matched: bool)

  /** Realized profit of one order within a batch; `projected` only when purchases are known. */
  datatype Profit = Profit(order: nat, projected: Option<int>, realized: Option<int>, reconciled: bool)

  datatype Batch = Batch(lines: seq<Line>, profits: seq<Profit>, reconciled: bool)

  function Match(book: Book, r: Row): Line {
    if r.order in book then Line(r, Some(book[r.order]), book[r.order].currency == r.currency) else Line(r, None, false)
  }

  function Lines(book: Book, rows: seq<Row>): (lines: seq<Line>)
    ensures |lines| == |rows| && forall i | 0 <= i < |rows| :: lines[i] == Match(book, rows[i])
  {
    seq(|rows|, i requires 0 <= i < |rows| => Match(book, rows[i]))
  }

  predicate Of(l: Line, id: nat) { l.order.Some? && l.order.value.id == id }

  /** The amounts of an order's lines, of all kinds or of sales only. */
  function Sum(lines: seq<Line>, id: nat, salesOnly: bool): int {
    if lines == [] then 0
    else
      var last := lines[|lines| - 1];
      Sum(lines[..|lines| - 1], id, salesOnly) + if Of(last, id) && (!salesOnly || last.row.kind == Sale) then last.row.amount else 0
  }

  function Total(lines: seq<Line>): int {
    if lines == [] then 0 else Total(lines[..|lines| - 1]) + lines[|lines| - 1].row.amount
  }

  predicate AllMatched(lines: seq<Line>, id: nat) {
    forall i | 0 <= i < |lines| && Of(lines[i], id) :: lines[i].matched
  }

  /** The orders a batch speaks of, in the order it first does. */
  function Orders(lines: seq<Line>): seq<Known> {
    if lines == [] then []
    else
      var before := Orders(lines[..|lines| - 1]);
      var last := lines[|lines| - 1];
      if last.order.None? || last.order.value in before then before else before + [last.order.value]
  }

  predicate Settled(lines: seq<Line>, o: Known) { Sum(lines, o.id, true) == o.total && AllMatched(lines, o.id) }

  function ProfitOf(lines: seq<Line>, o: Known): Profit {
    var ok := Settled(lines, o);
    Profit(o.id, if o.purchaseCost != 0 && ok then Some(o.total - o.purchaseCost) else None,
           if ok then Some(Sum(lines, o.id, false)) else None, ok)
  }

  function Profits(lines: seq<Line>, orders: seq<Known>): (profits: seq<Profit>)
    ensures |profits| == |orders| && forall i | 0 <= i < |orders| :: profits[i] == ProfitOf(lines, orders[i])
  {
    seq(|orders|, i requires 0 <= i < |orders| => ProfitOf(lines, orders[i]))
  }

  /** Every source reference is used once. */
  predicate SourcesApart(rows: seq<Row>) { forall i, j | 0 <= i < j < |rows| :: rows[i].source != rows[j].source }

  predicate RowOk(r: Row) {
    Written(r.order, 255, false) && Written(r.source, 255, false) && r.currency in ["KRW", "USD", "JPY", "EUR", "GBP", "CNY"]
  }

  predicate WellFormed(rows: seq<Row>) { rows != [] && SourcesApart(rows) && forall i | 0 <= i < |rows| :: RowOk(rows[i]) }

  function Import(book: Book, rows: seq<Row>): Option<Batch> {
    if !WellFormed(rows) then None
    else
      var lines := Lines(book, rows);
      var profits := Profits(lines, Orders(lines));
      Some(Batch(lines, profits, (forall i | 0 <= i < |lines| :: lines[i].matched) && (forall i | 0 <= i < |profits| :: profits[i].reconciled)))
  }

  datatype Stored = Stored(rows: seq<Row>, batch: Batch)

  type Batches = map<string, Stored>

  /** `import_demo_settlement`: a key is bound to its rows; the value says whether it was a replay. */
  function ImportKeyed(batches: Batches, book: Book, rows: seq<Row>, key: string): Tx<Batches, (Batch, bool)> {
    var wellFormed := WellFormed(rows);
    :- Need(wellFormed, Conflict);
    if key in batches then
      :- Need(batches[key].rows == rows, Conflict);
      Commit(batches, (batches[key].batch, true))
    else
      var batch := Import(book, rows).value;
      Commit(batches[key := Stored(rows, batch)], (batch, false))
  }

  /** External keys name different orders. */
  ghost predicate KeysApart(book: Book) {
    forall a, b | a in book && b in book && book[a].id == book[b].id :: a == b
  }

  // ------------------------------------------------------------- what it means

  function Realized(profits: seq<Profit>): int {
    if profits == [] then 0
    else Realized(profits[..|profits| - 1]) + if profits[|profits| - 1].realized.Some? then profits[|profits| - 1].realized.value else 0
  }

  function Sums(lines: seq<Line>, orders: seq<Known>): int {
    if orders == [] then 0 else Sums(lines, orders[..|orders| - 1]) + Sum(lines, orders[|orders| - 1].id, false)
  }

  ghost predicate Distinct(orders: seq<Known>) { forall i, j | 0 <= i < j < |orders| :: orders[i].id != orders[j].id }

  lemma {:induction false} OrdersAre(lines: seq<Line>)
    ensures forall o :: o in Orders(lines) <==> exists i :: 0 <= i < |lines| && lines[i].order == Some(o)
  {
    if lines != [] {
      var (before, last) := (lines[..|lines| - 1], lines[|lines| - 1]);
      OrdersAre(before);
      forall o ensures o in Orders(lines) <==> exists i :: 0 <= i < |lines| && lines[i].order == Some(o) {
        if o in Orders(before) {
          var i :| 0 <= i < |before| && before[i].order == Some(o);
          assert lines[i].order == Some(o);
        }
        if last.order == Some(o) { assert lines[|lines| - 1].order == Some(o); }
        if i :| 0 <= i < |lines| && lines[i].order == Some(o) && i < |before| { assert before[i].order == Some(o); }
      }
    }
  }

  /** Lines of the book refer to the same order exactly when they carry the same id. */
  ghost predicate FromBook(lines: seq<Line>) {
    forall i, j | 0 <= i < |lines| && 0 <= j < |lines| && lines[i].order.Some? && lines[j].order.Some?
      && lines[i].order.value.id == lines[j].order.value.id :: lines[i].order == lines[j].order
  }

  lemma {:induction false} OrdersDistinct(lines: seq<Line>)
    requires FromBook(lines)
    ensures Distinct(Orders(lines))
  {
    if lines != [] {
      var (before, last) := (lines[..|lines| - 1], lines[|lines| - 1]);
      OrdersDistinct(before);
      OrdersAre(before);
      if last.order.Some? && last.order.value !in Orders(before) {
        forall k | 0 <= k < |Orders(before)| ensures Orders(before)[k].id != last.order.value.id {
          assert Orders(before)[k] in Orders(before);
          var i :| 0 <= i < |before| && before[i].order == Some(Orders(before)[k]);
          assert lines[i].order == before[i].order && lines[|lines| - 1] == last;
        }
      }
    }
  }

  /** A line counts for its own order and no other. */
  lemma {:induction false} OneMoreLine(lines: seq<Line>, last: Line, orders: seq<Known>)
    requires Distinct(orders)
    ensures Sums(lines + [last], orders)
            == Sums(lines, orders) + (if exists k :: 0 <= k < |orders| && Of(last, orders[k].id) then last.row.amount else 0)
  {
    assert (lines + [last])[..|lines|] == lines;
    if orders != [] {
      var (before, o) := (orders[..|orders| - 1], orders[|orders| - 1]);
      OneMoreLine(lines, last, before);
      assert forall k | 0 <= k < |before| :: before[k] == orders[k];
      var n := |orders| - 1;
      assert orders[n] == o;
      if Of(last, o.id) {
        assert forall k | 0 <= k < |before| :: orders[k].id != orders[n].id;
        assert exists k :: 0 <= k < |orders| && Of(last, orders[k].id);
      } else {
        assert (exists k :: 0 <= k < |orders| && Of(last, orders[k].id)) ==> exists k :: 0 <= k < |before| && Of(last, before[k].id);
        if k :| 0 <= k < |before| && Of(last, before[k].id) { assert Of(last, orders[k].id); }
      }
    }
  }

  lemma {:induction false} NoLines(orders: seq<Known>)
    ensures Sums([], orders) == 0
  {
    if orders != [] { NoLines(orders[..|orders| - 1]); }
  }

  lemma {:induction false} LinesPartition(lines: seq<Line>, orders: seq<Known>)
    requires Distinct(orders) && forall i | 0 <= i < |lines| :: lines[i].order.Some? && lines[i].order.value in orders
    ensures Sums(lines, orders) == Total(lines)
  {
    if lines == [] {
      NoLines(orders);
    } else {
      var (before, last) := (lines[..|lines| - 1], lines[|lines| - 1]);
      assert lines == before + [last];
      assert forall i | 0 <= i < |before| :: before[i] == lines[i];
      LinesPartition(before, orders);
      OneMoreLine(before, last, orders);
      assert lines[|lines| - 1].order.value in orders;
      var k :| 0 <= k < |orders| && orders[k] == last.order.value;
      assert Of(last, orders[k].id);
    }
  }

  lemma {:induction false} RealizedIsSums(lines: seq<Line>, orders: seq<Known>)
    requires forall k | 0 <= k < |orders| :: Settled(lines, orders[k])
    ensures Realized(Profits(lines, orders)) == Sums(lines, orders)
  {
    if orders != [] {
      RealizedIsSums(lines, orders[..|orders| - 1]);
      assert Profits(lines, orders)[..|orders| - 1] == Profits(lines, orders[..|orders| - 1]);
    }
  }

  lemma BookLines(book: Book, rows: seq<Row>)
    requires KeysApart(book)
    ensures FromBook(Lines(book, rows))
  {}

  /** A row that counts towards a reconciled batch: its order is known in its
      currency, and all the sales of that order add up to its total. */
  predicate Balanced(book: Book, lines: seq<Line>, r: Row) {
    r.order in book && book[r.order].currency == r.currency && Sum(lines, book[r.order].id, true) == book[r.order].total
  }

  /** A reconciled batch accounts for everything imported: each row's order is known
      in its currency, each order's sales add up to its total, and the realized
      amounts add up to all rows. */
  lemma ReconciledBalances(book: Book, rows: seq<Row>)
    requires KeysApart(book) && Import(book, rows).Some? && Import(book, rows).value.reconciled
    ensures var b := Import(book, rows).value;
      && Realized(b.profits) == Total(b.lines)
      && (forall i | 0 <= i < |rows| :: Balanced(book, b.lines, rows[i]))
  {
    var b := Import(book, rows).value;
    var orders := Orders(b.lines);
    BookLines(book, rows);
    OrdersAre(b.lines);
    OrdersDistinct(b.lines);
    hide Orders, Sum, AllMatched, RowOk, SourcesApart;
    forall k | 0 <= k < |orders| ensures Settled(b.lines, orders[k]) { assert b.profits[k].reconciled; }
    RealizedIsSums(b.lines, orders);
    forall i | 0 <= i < |b.lines| ensures b.lines[i].order.Some? && b.lines[i].order.value in orders { assert b.lines[i].matched; }
    LinesPartition(b.lines, orders);
    forall i | 0 <= i < |rows| ensures Balanced(book, b.lines, rows[i]) {
      assert b.lines[i] == Match(book, rows[i]) && b.lines[i].matched;
      var k :| 0 <= k < |orders| && orders[k] == book[rows[i].order];
      assert Settled(b.lines, orders[k]);
    }
  }

  /** Exactly when a batch reconciles. */
  lemma ReconciledExact(book: Book, rows: seq<Row>)
    requires Import(book, rows).Some?
    ensures var b := Import(book, rows).value; b.reconciled <==> forall i | 0 <= i < |rows| :: Balanced(book, b.lines, rows[i])
  {
    var b := Import(book, rows).value;
    var orders := Orders(b.lines);
    OrdersAre(b.lines);
    hide Orders, Sum, RowOk, SourcesApart, AllMatched;
    assert forall i | 0 <= i < |rows| :: b.lines[i] == Match(book, rows[i]);
    if forall i | 0 <= i < |rows| :: Balanced(book, b.lines, rows[i]) {
      forall k | 0 <= k < |orders| ensures b.profits[k].reconciled {
        assert orders[k] in orders;
        var i :| 0 <= i < |b.lines| && b.lines[i].order == Some(orders[k]);
        AllMatchedIs(b.lines, orders[k].id);
      }
    }
    if b.reconciled {
      forall i | 0 <= i < |rows| ensures Balanced(book, b.lines, rows[i]) {
        assert b.lines[i].matched;
        var k :| 0 <= k < |orders| && orders[k] == book[rows[i].order];
        assert b.profits[k].reconciled;
      }
    }
  }

  lemma AllMatchedIs(lines: seq<Line>, id: nat)
    requires forall i | 0 <= i < |lines| :: lines[i].matched
    ensures AllMatched(lines, id)
  {}

  /** Sums are sums: nothing of nothing, a line's amount if it is of the order (and, for
      sales, a sale), and of two parts the one and the other. */
  lemma {:induction false} SumExact(a: seq<Line>, b: seq<Line>, l: Line, id: nat, salesOnly: bool)
    ensures Sum([], id, salesOnly) == 0
    ensures Sum([l], id, salesOnly)
      == if l.order.Some? && l.order.value.id == id && (salesOnly ==> l.row.kind == Sale) then l.row.amount else 0
    ensures Sum(a + b, id, salesOnly) == Sum(a, id, salesOnly) + Sum(b, id, salesOnly)
  {
    assert [l][..0] == [];
    if b == [] {
      assert a + b == a;
    } else {
      assert (a + b)[..|a + b| - 1] == a + b[..|b| - 1];
      SumExact(a, b[..|b| - 1], l, id, salesOnly);
    }
  }

  /** The lines of an order are all in its currency. */
  ghost predicate InCurrency(book: Book, rows: seq<Row>, o: Known) {
    forall i | 0 <= i < |rows| && rows[i].order in book && book[rows[i].order].id == o.id :: book[rows[i].order].currency == rows[i].currency
  }

  /** What a batch says of each order it speaks of: reconciled exactly when its sales add up to
      its total and all its rows are in its currency; then its rows are what was realized,
      and, where its purchases are known, what they leave of its total was projected. */
  lemma ProfitExact(book: Book, rows: seq<Row>, i: nat)
    requires Import(book, rows).Some? && i < |rows| && rows[i].order in book
    ensures var (b, o) := (Import(book, rows).value, book[rows[i].order]);
      var ok := Sum(b.lines, o.id, true) == o.total && InCurrency(book, rows, o);
      Profit(o.id, if ok && o.purchaseCost != 0 then Some(o.total - o.purchaseCost) else None,
             if ok then Some(Sum(b.lines, o.id, false)) else None, ok) in b.profits
  {
    var (b, o) := (Import(book, rows).value, book[rows[i].order]);
    hide *;
    ImportIs(book, rows);
    MatchedIsCurrency(book, rows, b.lines, o);
    var k := OrderListed(book, rows, i);
    assert b.profits[k] == ProfitOf(b.lines, o) && b.profits[k] in b.profits;
    ProfitIs(b.lines, o);
  }

  lemma ImportIs(book: Book, rows: seq<Row>)
    requires Import(book, rows).Some?
    ensures var b := Import(book, rows).value; b.lines == Lines(book, rows) && b.profits == Profits(b.lines, Orders(b.lines))
  {
    hide Lines, Profits, Orders, WellFormed;
  }

  lemma OrderListed(book: Book, rows: seq<Row>, i: nat) returns (k: nat)
    requires i < |rows| && rows[i].order in book
    ensures k < |Orders(Lines(book, rows))| && Orders(Lines(book, rows))[k] == book[rows[i].order]
  {
    var lines := Lines(book, rows);
    OrdersAre(lines);
    hide Orders;
    assert lines[i].order == Some(book[rows[i].order]);
    k :| 0 <= k < |Orders(lines)| && Orders(lines)[k] == book[rows[i].order];
  }

  lemma ProfitIs(lines: seq<Line>, o: Known)
    ensures var ok := Sum(lines, o.id, true) == o.total && AllMatched(lines, o.id);
      ProfitOf(lines, o) == Profit(o.id, if ok && o.purchaseCost != 0 then Some(o.total - o.purchaseCost) else None,
                                   if ok then Some(Sum(lines, o.id, false)) else None, ok)
  {
    hide Sum, AllMatched;
  }

  lemma MatchedIsCurrency(book: Book, rows: seq<Row>, lines: seq<Line>, o: Known)
    requires lines == Lines(book, rows)
    ensures AllMatched(lines, o.id) <==> InCurrency(book, rows, o)
  {
    assert forall i | 0 <= i < |rows| :: lines[i] == Match(book, rows[i]);
  }

  /** Exactly which imports are taken: some rows, each source named once, identifiers well
      written and one of six currencies; under a used key only the rows it was used for. */
  lemma ImportExact(batches: Batches, book: Book, rows: seq<Row>, key: string)
    ensures ImportKeyed(batches, book, rows, key).Commit? <==>
              && rows != []
              && (forall i, j | 0 <= i < |rows| && 0 <= j < |rows| && rows[i].source == rows[j].source :: i == j)
              && (forall i | 0 <= i < |rows| ::
                    && Written(rows[i].order, 255, false) && Written(rows[i].source, 255, false)
                    && (rows[i].currency == "KRW" || rows[i].currency == "USD" || rows[i].currency == "JPY"
                        || rows[i].currency == "EUR" || rows[i].currency == "GBP" || rows[i].currency == "CNY"))
              && (key in batches ==> batches[key].rows == rows)
    ensures ImportKeyed(batches, book, rows, key).Commit? && key !in batches ==>
              ImportKeyed(batches, book, rows, key).value.0.lines == Lines(book, rows)
  {
    hide Written;
  }

  // ------------------------------------------------------------ the loops of the source

  method CheckRows(rows: seq<Row>) returns (ok: bool)
    ensures ok <==> WellFormed(rows)
  {
    hide RowOk;
    if rows == [] { return false; }
    var seen: set<string> := {};
    for i := 0 to |rows|
      invariant forall s :: s in seen <==> exists k :: 0 <= k < i && rows[k].source == s
      invariant forall a, b | 0 <= a < b < i :: rows[a].source != rows[b].source
      invariant forall a | 0 <= a < i :: RowOk(rows[a])
    {
      if !RowOk(rows[i]) { return false; }
      if rows[i].source in seen { return false; }
      seen := seen + {rows[i].source};
    }
    ok := true;
  }

  method MatchRows(book: Book, rows: seq<Row>) returns (lines: seq<Line>, grouped: seq<Known>, allMatch: bool)
    ensures lines == Lines(book, rows) && grouped == Orders(lines)
    ensures allMatch <==> forall k | 0 <= k < |lines| :: lines[k].matched
  {
    lines, grouped, allMatch := [], [], true;
    for i := 0 to |rows|
      invariant |lines| == i && (forall k | 0 <= k < i :: lines[k] == Match(book, rows[k])) && grouped == Orders(lines)
      invariant allMatch <==> forall k | 0 <= k < i :: lines[k].matched
    {
      var line := Match(book, rows[i]);
      assert (lines + [line])[..i] == lines;
      if !line.matched { allMatch := false; }
      if line.order.Some? && line.order.value !in grouped { grouped := grouped + [line.order.value]; }
      lines := lines + [line];
      assert lines[i] == line;
    }
    assert lines == Lines(book, rows);
  }

  method SettleAll(lines: seq<Line>, grouped: seq<Known>) returns (profits: seq<Profit>, allReconciled: bool)
    ensures profits == Profits(lines, grouped)
    ensures allReconciled <==> forall k | 0 <= k < |profits| :: profits[k].reconciled
  {
    hide ProfitOf;
    profits, allReconciled := [], true;
    for i := 0 to |grouped|
      invariant |profits| == i && forall k | 0 <= k < i :: profits[k] == ProfitOf(lines, grouped[k])
      invariant allReconciled <==> forall k | 0 <= k < i :: profits[k].reconciled
    {
      var profit := SettleOrder(lines, grouped[i]);
      profits := profits + [profit];
      if !profit.reconciled { allReconciled := false; }
      assert profits[i] == profit;
    }
    assert profits == Profits(lines, grouped);
  }

  method BatchOf(book: Book, rows: seq<Row>) returns (batch: Batch)
    requires WellFormed(rows)
    ensures Import(book, rows) == Some(batch)
  {
    hide WellFormed, Orders;
    var lines, grouped, allMatch := MatchRows(book, rows);
    var profits, allReconciled := SettleAll(lines, grouped);
    batch := Batch(lines, profits, allMatch && allReconciled);
  }

  class SettlementRepository {
    /** The imported batches by idempotency key, each with the rows it was made from. */
    var batches: Batches

    constructor ()
      ensures batches == map[]
    { batches := map[]; }

    method ImportDemoSettlement(book: Book, rows: seq<Row>, key: string) returns (r: Result<(Batch, bool)>)
      modifies this
      ensures Ran(ImportKeyed(old(batches), book, rows, key), old(batches), batches, r)
    {
      hide WellFormed, Import;
      var ok := CheckRows(rows);
      if !ok { return Err(Conflict); }
      if key in batches {
        if batches[key].rows != rows { return Err(Conflict); }
        return Ok((batches[key].batch, true));
      }
      var batch := BatchOf(book, rows);
      batches := batches[key := Stored(rows, batch)];
      r := Ok((batch, false));
    }
  }

  // --------------------------------------------------------------------- every run

  datatype Call = Call(book: Book, rows: seq<Row>, key: string)

  function After(calls: seq<Call>): Batches {
    if calls == [] then map[]
    else
      var (before, last) := (After(calls[..|calls| - 1]), calls[|calls| - 1]);
      match ImportKeyed(before, last.book, last.rows, last.key) case Commit(b, _) => b case Abort(_) => before
  }

  lemma {:induction false} KeyStays(calls: seq<Call>, n: nat, key: string)
    requires n <= |calls| && key in After(calls[..n])
    ensures key in After(calls) && After(calls)[key] == After(calls[..n])[key]
  {
    hide Import, WellFormed;
    if n == |calls| {
      assert calls[..n] == calls;
    } else {
      assert calls[..|calls| - 1][..n] == calls[..n];
      KeyStays(calls[..|calls| - 1], n, key);
    }
  }

  /** Once an import succeeded, its key yields that very batch for the same rows,
      whatever has become of the orders since, and refuses any other rows. */
  lemma KeyIsOneBatch(calls: seq<Call>, n: nat, book: Book, rows: seq<Row>)
    requires n < |calls| && ImportKeyed(After(calls[..n]), calls[n].book, calls[n].rows, calls[n].key).Commit?
    ensures var first := ImportKeyed(After(calls[..n]), calls[n].book, calls[n].rows, calls[n].key).value.0;
            var again := ImportKeyed(After(calls), book, rows, calls[n].key);
      if rows == calls[n].rows then again == Commit(After(calls), (first, true)) else again == Abort(Conflict)
  {
    hide Import, WellFormed;
    assert calls[..n + 1][..n] == calls[..n] && calls[..n + 1][n] == calls[n];
    RowsWellFormed(calls, n);
    KeyStays(calls, n + 1, calls[n].key);
  }

  lemma RowsWellFormed(calls: seq<Call>, n: nat)
    requires n < |calls| && ImportKeyed(After(calls[..n]), calls[n].book, calls[n].rows, calls[n].key).Commit?
    ensures WellFormed(calls[n].rows)
  {}

  /** One order: its sales against its total, its lines all matched. */
  method SettleOrder(lines: seq<Line>, o: Known) returns (profit: Profit)
    ensures profit == ProfitOf(lines, o)
  {
    var sales, realized, matched := 0, 0, true;
    for i := 0 to |lines|
      invariant sales == Sum(lines[..i], o.id, true) && realized == Sum(lines[..i], o.id, false)
      invariant matched <==> AllMatched(lines[..i], o.id)
    {
      assert lines[..i + 1][..i] == lines[..i] && lines[..i + 1][i] == lines[i];
      if Of(lines[i], o.id) {
        realized := realized + lines[i].row.amount;
        if lines[i].row.kind == Sale { sales := sales + lines[i].row.amount; }
        if !lines[i].matched { matched := false; }
      }
      assert AllMatched(lines[..i + 1], o.id) <==> AllMatched(lines[..i], o.id) && (Of(lines[i], o.id) ==> lines[i].matched) by {
        assert forall k | 0 <= k < i :: lines[..i + 1][k] == lines[..i][k];
      }
    }
    assert lines[..|lines|] == lines;
    var ok := sales == o.total && matched;
    profit := Profit(o.id, if o.purchaseCost != 0 && ok then Some(o.total - o.purchaseCost) else None, if ok then Some(realized) else None, ok);
  }
}

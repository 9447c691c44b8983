/** orders.py: all-or-nothing routing to the cheapest feasible supplier quote. */
module Routing {
  import opened Common
  import opened Domain
  import opened Text

  datatype Quote = Quote(supplier: string, cost: int, available: int)

  type Quotes = map<string, seq<Quote>>

  datatype Line = Line(id: nat, sku: string, quantity: int)

  /** A line with the supplier and unit cost chosen for it. */
  datatype Choice = Choice(line: Line, supplier: string, cost: int)

  /** The lines one supplier gets, as one purchase order. */
  datatype Draft = Draft(supplier: string, lines: seq<PoLine>)

  function QuotesFor(quotes: Quotes, sku: string): seq<Quote> {
    if sku in quotes then quotes[sku] else []
  }

  predicate Feasible(q: Quote, quantity: int) { q.cost >= 0 && q.available >= quantity }

  /** Cheaper, or as cheap from a supplier that sorts first. */
  predicate Better(a: Quote, b: Quote) {
    a.cost < b.cost || (a.cost == b.cost && Less(a.supplier, b.supplier))
  }

  /** A least feasible quote: feasible, and no feasible quote is better. */
  ghost predicate IsBest(q: Quote, quotes: seq<Quote>, quantity: int) {
    q in quotes && Feasible(q, quantity) && forall o | o in quotes && Feasible(o, quantity) :: !Better(o, q)
  }

  function Best(quotes: seq<Quote>, quantity: int): Option<Quote> {
    if quotes == [] then None
    else
      var rest := Best(quotes[..|quotes| - 1], quantity);
      var last := quotes[|quotes| - 1];
      if Feasible(last, quantity) && (rest.None? || Better(last, rest.value)) then Some(last) else rest
  }

  lemma {:induction false} BestIsBest(quotes: seq<Quote>, quantity: int)
    ensures Best(quotes, quantity).Some? ==> IsBest(Best(quotes, quantity).value, quotes, quantity)
    ensures Best(quotes, quantity).None? <==> forall q | q in quotes :: !Feasible(q, quantity)
  {
    if quotes != [] {
      var (before, last) := (quotes[..|quotes| - 1], quotes[|quotes| - 1]);
      BestIsBest(before, quantity);
      assert quotes == before + [last];
      LessIrreflexive(last.supplier);
      var best := Best(before, quantity);
      if Feasible(last, quantity) && best.Some? && Better(last, best.value) {
        forall o | o in before && Feasible(o, quantity) ensures !Better(o, last) {
          if Better(o, last) { BetterChain(o, last, best.value); }
        }
      }
    }
  }

  /** The choice in plain terms: enough of it at a price, and whoever else has enough asks more,
      or the same under a name that does not sort before. */
  lemma BestExact(quotes: seq<Quote>, quantity: int)
    ensures match Best(quotes, quantity)
            case None => forall q | q in quotes :: q.cost < 0 || q.available < quantity
            case Some(b) =>
              && b in quotes && b.cost >= 0 && b.available >= quantity
              && forall q | q in quotes && q.cost >= 0 && q.available >= quantity ::
                   b.cost < q.cost || (b.cost == q.cost && (b.supplier == q.supplier || Less(b.supplier, q.supplier)))
  {
    BestIsBest(quotes, quantity);
    var best := Best(quotes, quantity);
    if best.Some? {
      forall q | q in quotes && q.cost >= 0 && q.available >= quantity
        ensures best.value.cost < q.cost || (best.value.cost == q.cost && (best.value.supplier == q.supplier || Less(best.value.supplier, q.supplier)))
      {
        assert Feasible(q, quantity) && !Better(q, best.value);
        LessTotal(q.supplier, best.value.supplier);
      }
    }
  }

  lemma BetterChain(a: Quote, b: Quote, c: Quote)
    requires Better(a, b) && Better(b, c)
    ensures Better(a, c)
  {
    if a.cost == b.cost == c.cost { LessTransitive(a.supplier, b.supplier, c.supplier); }
  }

  /** Every line's choice in line order, or nothing as soon as one line has no feasible quote. */
  function Select(lines: seq<Line>, quotes: Quotes): Option<seq<Choice>> {
    if lines == [] then Some([])
    else
      var (before, last) := (lines[..|lines| - 1], lines[|lines| - 1]);
      var chosen := Select(before, quotes);
      var best := Best(QuotesFor(quotes, last.sku), last.quantity);
      if chosen.None? || best.None? then None
      else Some(chosen.value + [Choice(last, best.value.supplier, best.value.cost)])
  }

  function ItemOf(c: Choice): PoLine { PoLine(c.line.id, c.line.quantity, c.cost) }

  function ItemsFor(choices: seq<Choice>, supplier: string): seq<PoLine> {
    if choices == [] then []
    else
      ItemsFor(choices[..|choices| - 1], supplier)
      + if choices[|choices| - 1].supplier == supplier then [ItemOf(choices[|choices| - 1])] else []
  }

  function Suppliers(choices: seq<Choice>): seq<string> {
    if choices == [] then []
    else
      var before := Suppliers(choices[..|choices| - 1]);
      var last := choices[|choices| - 1].supplier;
      if last in before then before else Insert(last, before)
  }

  function Drafts(choices: seq<Choice>): seq<Draft> {
    var names := Suppliers(choices);
    seq(|names|, i requires 0 <= i < |names| => Draft(names[i], ItemsFor(choices, names[i])))
  }

  // ------------------------------------------------------- what routing promises

  ghost predicate Unroutable(line: Line, quotes: Quotes) {
    forall q | q in QuotesFor(quotes, line.sku) :: !Feasible(q, line.quantity)
  }

  ghost predicate LeastFor(c: Choice, line: Line, quotes: Quotes) {
    c.line == line
    && exists q :: IsBest(q, QuotesFor(quotes, line.sku), line.quantity) && q.supplier == c.supplier && q.cost == c.cost
  }

  /** Somebody offers the line's SKU, at a price and in the quantity it asks for. */
  ghost predicate Offered(line: Line, quotes: Quotes) {
    line.sku in quotes && exists q :: q in quotes[line.sku] && q.cost >= 0 && q.available >= line.quantity
  }

  lemma RoutableExact(lines: seq<Line>, quotes: Quotes)
    ensures Select(lines, quotes).Some? <==> forall i | 0 <= i < |lines| :: Offered(lines[i], quotes)
  {
    SelectExact(lines, quotes);
    forall i | 0 <= i < |lines| ensures Offered(lines[i], quotes) <==> !Unroutable(lines[i], quotes) {
      if q :| q in QuotesFor(quotes, lines[i].sku) && Feasible(q, lines[i].quantity) { assert q in quotes[lines[i].sku]; }
      if Offered(lines[i], quotes) {
        var q :| q in quotes[lines[i].sku] && q.cost >= 0 && q.available >= lines[i].quantity;
        assert q in QuotesFor(quotes, lines[i].sku) && Feasible(q, lines[i].quantity);
      }
    }
    hide Select, Offered, Unroutable;
  }

  /** Routing succeeds exactly when every line has a feasible quote, and then each
      line goes, in order, to a least one. */
  lemma {:induction false} SelectExact(lines: seq<Line>, quotes: Quotes)
    ensures Select(lines, quotes).None? <==> exists i :: 0 <= i < |lines| && Unroutable(lines[i], quotes)
    ensures Select(lines, quotes).Some? ==>
              |Select(lines, quotes).value| == |lines|
              && forall i | 0 <= i < |lines| :: LeastFor(Select(lines, quotes).value[i], lines[i], quotes)
  {
    if lines != [] {
      var (before, last) := (lines[..|lines| - 1], lines[|lines| - 1]);
      SelectExact(before, quotes);
      BestIsBest(QuotesFor(quotes, last.sku), last.quantity);
      assert forall i | 0 <= i < |before| :: before[i] == lines[i];
      assert Best(QuotesFor(quotes, last.sku), last.quantity).None? <==> Unroutable(lines[|lines| - 1], quotes);
      hide Unroutable, Best;
    }
  }

  lemma {:induction false} SuppliersSorted(choices: seq<Choice>)
    ensures Sorted(Suppliers(choices))
    ensures forall s :: s in Suppliers(choices) <==> exists i :: 0 <= i < |choices| && choices[i].supplier == s
  {
    if choices != [] {
      var (before, last) := (choices[..|choices| - 1], choices[|choices| - 1]);
      SuppliersSorted(before);
      if last.supplier !in Suppliers(before) { InsertSorts(last.supplier, Suppliers(before)); }
      forall s ensures s in Suppliers(choices) <==> exists i :: 0 <= i < |choices| && choices[i].supplier == s {
        if s in Suppliers(before) {
          var i :| 0 <= i < |before| && before[i].supplier == s;
          assert choices[i].supplier == s;
        }
        if s == last.supplier { assert choices[|choices| - 1].supplier == s; }
        if i :| 0 <= i < |choices| && choices[i].supplier == s && i < |before| { assert before[i].supplier == s; }
      }
    }
  }

  function CostOf(items: seq<PoLine>): int {
    if items == [] then 0 else CostOf(items[..|items| - 1]) + items[|items| - 1].quantity * items[|items| - 1].unitCost
  }

  function TotalCost(choices: seq<Choice>): int {
    if choices == [] then 0 else TotalCost(choices[..|choices| - 1]) + choices[|choices| - 1].line.quantity * choices[|choices| - 1].cost
  }

  function DraftCost(choices: seq<Choice>, names: seq<string>): int {
    if names == [] then 0 else DraftCost(choices, names[..|names| - 1]) + CostOf(ItemsFor(choices, names[|names| - 1]))
  }

  /** How many of the named suppliers' drafts hold items of a line. */
  function Placements(choices: seq<Choice>, names: seq<string>, line: nat): nat {
    if names == [] then 0
    else Placements(choices, names[..|names| - 1], line) + |Matching(ItemsFor(choices, names[|names| - 1]), line)|
  }

  function Matching(items: seq<PoLine>, line: nat): seq<PoLine> {
    if items == [] then []
    else Matching(items[..|items| - 1], line) + if items[|items| - 1].line == line then [items[|items| - 1]] else []
  }

  function Occurrences(choices: seq<Choice>, line: nat): nat {
    if choices == [] then 0
    else Occurrences(choices[..|choices| - 1], line) + if choices[|choices| - 1].line.id == line then 1 else 0
  }

  /** One more choice adds its item to its own supplier's draft and to no other. */
  lemma {:induction false} OneMoreChoice(choices: seq<Choice>, last: Choice, names: seq<string>, line: nat)
    requires Sorted(names)
    ensures var all := choices + [last];
      && DraftCost(all, names) == DraftCost(choices, names) + (if last.supplier in names then last.line.quantity * last.cost else 0)
      && Placements(all, names, line) == Placements(choices, names, line) + (if last.supplier in names && last.line.id == line then 1 else 0)
  {
    var all := choices + [last];
    assert all[..|choices|] == choices;
    if names != [] {
      var (before, name) := (names[..|names| - 1], names[|names| - 1]);
      OneMoreChoice(choices, last, before, line);
      assert names == before + [name];
      if name == last.supplier {
        assert name !in before by {
          LessIrreflexive(name);
          assert forall i | 0 <= i < |before| :: Less(names[i], names[|names| - 1]);
        }
        var items := ItemsFor(choices, name);
        assert ItemsFor(all, name) == items + [ItemOf(last)];
        assert (items + [ItemOf(last)])[..|items|] == items;
      } else {
        assert ItemsFor(all, name) == ItemsFor(choices, name);
      }
    }
  }

  /** A supplier without items contributes nothing. */
  lemma {:induction false} UnusedSuppliers(names: seq<string>, line: nat)
    ensures DraftCost([], names) == 0 && Placements([], names, line) == 0
  {
    if names != [] { UnusedSuppliers(names[..|names| - 1], line); }
  }

  lemma {:induction false} Partition(choices: seq<Choice>, names: seq<string>, line: nat)
    requires Sorted(names) && forall i | 0 <= i < |choices| :: choices[i].supplier in names
    ensures DraftCost(choices, names) == TotalCost(choices)
    ensures Placements(choices, names, line) == Occurrences(choices, line)
  {
    if choices == [] {
      UnusedSuppliers(names, line);
    } else {
      var (before, last) := (choices[..|choices| - 1], choices[|choices| - 1]);
      assert choices == before + [last];
      Partition(before, names, line);
      OneMoreChoice(before, last, names, line);
    }
  }

  /** The purchase orders partition the routed lines: each line is in exactly as
      many drafts as it was chosen (once), and what the drafts cost together is
      the sum of the lines' least costs. */
  lemma DraftsPartition(choices: seq<Choice>, line: nat)
    ensures Placements(choices, Suppliers(choices), line) == Occurrences(choices, line)
    ensures DraftCost(choices, Suppliers(choices)) == TotalCost(choices)
  {
    SuppliersSorted(choices);
    Partition(choices, Suppliers(choices), line);
  }

  lemma {:induction false} ChosenOnce(lines: seq<Line>, quotes: Quotes, k: nat)
    requires k < |lines| && Select(lines, quotes).Some?
    requires forall i, j | 0 <= i < j < |lines| :: lines[i].id != lines[j].id
    ensures Occurrences(Select(lines, quotes).value, lines[k].id) == 1
  {
    var n := |lines| - 1;
    if k == n { NotChosen(lines[..n], quotes, lines[n].id); } else { ChosenOnce(lines[..n], quotes, k); }
    var all := Select(lines, quotes).value;
    assert all[..|all| - 1] == Select(lines[..n], quotes).value;
  }

  lemma {:induction false} NotChosen(lines: seq<Line>, quotes: Quotes, id: nat)
    requires Select(lines, quotes).Some? && forall i | 0 <= i < |lines| :: lines[i].id != id
    ensures Occurrences(Select(lines, quotes).value, id) == 0
  {
    if lines != [] {
      NotChosen(lines[..|lines| - 1], quotes, id);
      var all := Select(lines, quotes).value;
      assert all[..|all| - 1] == Select(lines[..|lines| - 1], quotes).value;
    }
  }

  /** Every order line is placed exactly once, with one supplier. */
  lemma EveryLinePlacedOnce(lines: seq<Line>, quotes: Quotes, k: nat)
    requires k < |lines| && Select(lines, quotes).Some?
    requires forall i, j | 0 <= i < j < |lines| :: lines[i].id != lines[j].id
    ensures var choices := Select(lines, quotes).value; Placements(choices, Suppliers(choices), lines[k].id) == 1
  {
    ChosenOnce(lines, quotes, k);
    DraftsPartition(Select(lines, quotes).value, lines[k].id);
  }

  // ------------------------------------------------------------ the loops of the source

  /** Candidates in quote order, then the least of them. */
  method Cheapest(quotes: seq<Quote>, quantity: int) returns (best: Option<Quote>)
    ensures best == Best(quotes, quantity)
  {
    best := None;
    for i := 0 to |quotes|
      invariant best == Best(quotes[..i], quantity)
    {
      assert quotes[..i + 1][..i] == quotes[..i];
      if Feasible(quotes[i], quantity) && (best.None? || Better(quotes[i], best.value)) { best := Some(quotes[i]); }
    }
    assert quotes[..|quotes|] == quotes;
  }

  method Choose(lines: seq<Line>, quotes: Quotes) returns (selected: Option<seq<Choice>>)
    ensures selected == Select(lines, quotes)
  {
    var chosen: seq<Choice> := [];
    for i := 0 to |lines|
      invariant Select(lines[..i], quotes) == Some(chosen)
    {
      assert lines[..i + 1][..i] == lines[..i];
      var best := Cheapest(QuotesFor(quotes, lines[i].sku), lines[i].quantity);
      if best.None? {
        NoneStays(lines, quotes, i + 1);
        return None;
      }
      chosen := chosen + [Choice(lines[i], best.value.supplier, best.value.cost)];
    }
    assert lines[..|lines|] == lines;
    selected := Some(chosen);
  }

  lemma {:induction false} NoneStays(lines: seq<Line>, quotes: Quotes, n: nat)
    requires n <= |lines| && Select(lines[..n], quotes).None?
    ensures Select(lines, quotes).None?
  {
    if n == |lines| {
      assert lines[..n] == lines;
    } else {
      assert lines[..|lines| - 1][..n] == lines[..n];
      NoneStays(lines[..|lines| - 1], quotes, n);
    }
  }

  /** The dictionary of groups, filled line by line, then read in key order. */
  method GroupBySupplier(choices: seq<Choice>) returns (drafts: seq<Draft>)
    ensures drafts == Drafts(choices)
  {
    var grouped: map<string, seq<PoLine>> := map[];
    var names: seq<string> := [];
    for i := 0 to |choices|
      invariant names == Suppliers(choices[..i])
      invariant forall s :: s in grouped <==> s in names
      invariant forall s | s in grouped :: grouped[s] == ItemsFor(choices[..i], s)
      invariant forall s | s !in grouped :: ItemsFor(choices[..i], s) == []
    {
      assert choices[..i + 1][..i] == choices[..i];
      var c := choices[i];
      SuppliersSorted(choices[..i]);
      if c.supplier !in grouped {
        InsertSorts(c.supplier, names);
        grouped := grouped[c.supplier := []];
        names := Insert(c.supplier, names);
      }
      grouped := grouped[c.supplier := grouped[c.supplier] + [ItemOf(c)]];
    }
    assert choices[..|choices|] == choices;
    drafts := seq(|names|, i requires 0 <= i < |names| && names[i] in grouped => Draft(names[i], grouped[names[i]]));
  }
}

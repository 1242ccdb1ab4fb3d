/**
  GET /cart's answer: every line whose pearl the catalogue still has, priced from
  the catalogue, the total of those lines and the count of all stored lines.
 */
module CartSummary {
  import opened Wrappers
  import opened Catalog
  import opened Carts
  import opened Seqs

  datatype SummaryLine = SummaryLine(id: string, pearl: Pearl, quantity: int, total: int)

  datatype Summary = Summary(items: seq<SummaryLine>, total: int, count: int)

  const EmptySummary := Summary([], 0, 0)

  /** The summary line for one cart line, or none when its pearl is not in the catalogue. */
  function LineSummary(item: CartItem, pearls: seq<Pearl>): seq<SummaryLine>
  {
    match FindPearl(pearls, item.pearlId)
    case Some(p) => [SummaryLine(item.id, p, item.quantity, p.price * item.quantity)]
    case None => []
  }

  /** The summary lines, in cart order, of the lines whose pearl the catalogue has. */
  function Lines(items: seq<CartItem>, pearls: seq<Pearl>): (r: seq<SummaryLine>)
    ensures |r| <= |items|
    ensures forall l :: l in r ==> l.pearl in pearls && l.total == l.pearl.price * l.quantity
  {
    if items == [] then [] else LineSummary(items[0], pearls) + Lines(items[1..], pearls)
  }

  /** The price times quantity of the lines whose pearl the catalogue has. */
  function Total(items: seq<CartItem>, pearls: seq<Pearl>): int
  {
    if items == [] then 0
    else
      (match FindPearl(pearls, items[0].pearlId)
       case Some(p) => p.price * items[0].quantity
       case None => 0)
      + Total(items[1..], pearls)
  }

  /** The sum of the totals of some summary lines. */
  function SumTotals(lines: seq<SummaryLine>): int
  {
    if lines == [] then 0 else lines[0].total + SumTotals(lines[1..])
  }

  function Summarized(items: seq<CartItem>, pearls: seq<Pearl>): Summary
  {
    Summary(Lines(items, pearls), Total(items, pearls), Count(items))
  }

  /** The two loops of GET /cart over the stored lines of an existing cart. */
  method Summarize(items: seq<CartItem>, pearls: seq<Pearl>) returns (s: Summary)
    ensures s == Summarized(items, pearls)
  {
    var cartItems: seq<SummaryLine> := [];
    var total := 0;
    var i := 0;
    while i < |items|
      invariant 0 <= i <= |items|
      invariant cartItems == Lines(items[..i], pearls)
      invariant total == Total(items[..i], pearls)
    {
      var item := items[i];
      LinesAppend(items[..i], [item], pearls);
      TotalAppend(items[..i], [item], pearls);
      assert items[..i + 1] == items[..i] + [item];
      var pearl := FindPearl(pearls, item.pearlId);
      if pearl.Some? {
        var itemTotal := pearl.value.price * item.quantity;
        cartItems := cartItems + [SummaryLine(item.id, pearl.value, item.quantity, itemTotal)];
        total := total + itemTotal;
      }
      i := i + 1;
    }
    var count := 0;
    i := 0;
    while i < |items|
      invariant 0 <= i <= |items|
      invariant count == Count(items[..i])
    {
      CountAppend(items[..i], [items[i]]);
      assert items[..i + 1] == items[..i] + [items[i]];
      count := count + items[i].quantity;
      i := i + 1;
    }
    assert items[..|items|] == items;
    s := Summary(cartItems, total, count);
  }

  lemma {:induction false} LinesAppend(a: seq<CartItem>, b: seq<CartItem>, pearls: seq<Pearl>)
    ensures Lines(a + b, pearls) == Lines(a, pearls) + Lines(b, pearls)
  {
    if a == [] {
      assert a + b == b;
    } else {
      assert (a + b)[1..] == a[1..] + b;
      LinesAppend(a[1..], b, pearls);
    }
  }

  lemma {:induction false} TotalAppend(a: seq<CartItem>, b: seq<CartItem>, pearls: seq<Pearl>)
    ensures Total(a + b, pearls) == Total(a, pearls) + Total(b, pearls)
  {
    if a == [] {
      assert a + b == b;
    } else {
      assert (a + b)[1..] == a[1..] + b;
      TotalAppend(a[1..], b, pearls);
    }
  }

  lemma {:induction false} SumTotalsAppend(a: seq<SummaryLine>, b: seq<SummaryLine>)
    ensures SumTotals(a + b) == SumTotals(a) + SumTotals(b)
  {
    if a == [] {
      assert a + b == b;
    } else {
      assert (a + b)[1..] == a[1..] + b;
      SumTotalsAppend(a[1..], b);
    }
  }

  /** The cart total is the sum of the totals of the lines the answer lists. */
  lemma {:induction false} TotalIsSumOfLines(items: seq<CartItem>, pearls: seq<Pearl>)
    ensures Summarized(items, pearls).total == SumTotals(Summarized(items, pearls).items)
  {
    if items != [] {
      TotalIsSumOfLines(items[1..], pearls);
      SumTotalsAppend(LineSummary(items[0], pearls), Lines(items[1..], pearls));
    }
  }

  /**
    A line whose pearl has left the catalogue is not listed and adds nothing to
    the total, but its quantity still counts.
   */
  lemma MissingPearlCountsOnly(items: seq<CartItem>, item: CartItem, pearls: seq<Pearl>)
    requires forall p :: p in pearls ==> p.id != item.pearlId
    ensures Summarized(items + [item], pearls).items == Summarized(items, pearls).items
    ensures Summarized(items + [item], pearls).total == Summarized(items, pearls).total
    ensures Summarized(items + [item], pearls).count == Summarized(items, pearls).count + item.quantity
  {
    LinesAppend(items, [item], pearls);
    TotalAppend(items, [item], pearls);
    CountAppend(items, [item]);
    assert [item][1..] == [];
  }

  /**
    A line whose pearl the catalogue has is listed after the earlier lines, with
    its own id, the catalogue pearl and its quantity, and its total adds to the cart total.
   */
  lemma PresentPearlIsListed(items: seq<CartItem>, item: CartItem, pearls: seq<Pearl>, p: Pearl)
    requires FindPearl(pearls, item.pearlId) == Some(p)
    ensures Summarized(items + [item], pearls).items
            == Summarized(items, pearls).items + [SummaryLine(item.id, p, item.quantity, p.price * item.quantity)]
    ensures Summarized(items + [item], pearls).total == Summarized(items, pearls).total + p.price * item.quantity
    ensures Summarized(items + [item], pearls).count == Summarized(items, pearls).count + item.quantity
  {
    LinesAppend(items, [item], pearls);
    TotalAppend(items, [item], pearls);
    CountAppend(items, [item]);
    assert [item][1..] == [];
  }

  /**
    A cart with two lines, two pearls at 100.00 and one at 50.00, reports a count
    of 3 and a total of 250.00; after removing the second line, 2 and 200.00.
   */
  lemma TwoLineScenario(a: Pearl, b: Pearl)
    requires a.id != b.id && a.price == 10000 && b.price == 5000
    ensures var items := [CartItem("line-a", a.id, 2, 0), CartItem("line-b", b.id, 1, 0)];
            && Summarized(items, [a, b]).count == 3
            && Summarized(items, [a, b]).total == 25000
            && Summarized(Without(items, "line-b"), [a, b]).count == 2
            && Summarized(Without(items, "line-b"), [a, b]).total == 20000
  {
    var pearls := [a, b];
    var la, lb := CartItem("line-a", a.id, 2, 0), CartItem("line-b", b.id, 1, 0);
    var items := [la, lb];
    assert pearls[1..] == [b];
    assert FindPearl(pearls, a.id) == Some(a);
    assert FindPearl(pearls, b.id) == Some(b);
    assert items[1..] == [lb];
    assert Count([lb]) == 1 && Total([lb], pearls) == 5000 by {
      assert [lb][1..] == [];
    }
    var keep := (l: CartItem) => l.id != "line-b";
    assert Filter([lb], keep) == [] by {
      assert [lb][1..] == [];
    }
    assert Without(items, "line-b") == [la];
    assert Count([la]) == 2 && Total([la], pearls) == 20000 by {
      assert [la][1..] == [];
    }
  }
}

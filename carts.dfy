/**
  A user's cart as the server stores it: an ordered list of lines, each naming a
  pearl and a quantity. The functions here say what the cart endpoints do to the
  list; the methods are the loops the endpoints run over it.
 */
module Carts {
  import opened Wrappers
  import opened Seqs

  datatype CartItem = CartItem(id: string, pearlId: string, quantity: int, addedAt: int)

  datatype Cart = Cart(id: string, userId: string, items: seq<CartItem>, createdAt: int, updatedAt: int)

  /** A line is looked up either by its own id or by the pearl it holds. */
  datatype LineKey = LineId(id: string) | PearlRef(pearlId: string)

  predicate Matches(line: CartItem, key: LineKey)
  {
    match key
    case LineId(id) => line.id == id
    case PearlRef(pearlId) => line.pearlId == pearlId
  }

  /** The position of the first line that matches `key`, if any. */
  function FirstMatch(items: seq<CartItem>, key: LineKey): (r: Option<nat>)
    ensures r.Some? ==> r.value < |items| && Matches(items[r.value], key)
    ensures r.Some? ==> forall j :: 0 <= j < r.value ==> !Matches(items[j], key)
    ensures r.None? <==> forall j :: 0 <= j < |items| ==> !Matches(items[j], key)
  {
    if items == [] then None
    else if Matches(items[0], key) then Some(0)
    else
      match FirstMatch(items[1..], key)
      case None => None
      case Some(k) => Some(k + 1)
  }

  /** No two lines hold the same pearl: adding a pearl already in the cart merges. */
  predicate PearlsDistinct(items: seq<CartItem>)
  {
    forall i, j :: 0 <= i < j < |items| ==> items[i].pearlId != items[j].pearlId
  }

  /** The sum of the quantities of all lines. */
  function Count(items: seq<CartItem>): int
  {
    if items == [] then 0 else items[0].quantity + Count(items[1..])
  }

  /** The sum of the quantities of the lines that match `key`. */
  function QuantityWhere(items: seq<CartItem>, key: LineKey): int
  {
    if items == [] then 0
    else (if Matches(items[0], key) then items[0].quantity else 0) + QuantityWhere(items[1..], key)
  }

  // ---------------------------------------------------------------------------
  // What the endpoints do to the line list

  /** The lines after adding `quantity` of `pearlId`. */
  function Merge(items: seq<CartItem>, pearlId: string, quantity: int, lineId: string, now: int): (r: seq<CartItem>)
    ensures |items| <= |r| <= |items| + 1
  {
    match FirstMatch(items, PearlRef(pearlId))
    case Some(k) => items[k := items[k].(quantity := items[k].quantity + quantity)]
    case None => items + [CartItem(lineId, pearlId, quantity, now)]
  }

  /** The lines after setting the quantity of line `itemId`. */
  function WithQuantity(items: seq<CartItem>, itemId: string, quantity: int): (r: seq<CartItem>)
    ensures |r| == |items|
  {
    match FirstMatch(items, LineId(itemId))
    case Some(k) => items[k := items[k].(quantity := quantity)]
    case None => items
  }

  /** The lines after pulling every line whose id is `itemId`. */
  function Without(items: seq<CartItem>, itemId: string): (r: seq<CartItem>)
    ensures |r| <= |items|
  {
    Filter(items, (l: CartItem) => l.id != itemId)
  }

  /** The cart after adding a pearl the catalogue knows; a missing cart is first created empty. */
  function AddedTo(cart: Option<Cart>, userId: string, pearlId: string, quantity: int,
                   cartId: string, lineId: string, now: int): (c: Cart)
    ensures c.userId == (if cart.Some? then cart.value.userId else userId)
    ensures c.items == Merge(ItemsOf(cart), pearlId, quantity, lineId, now)
    ensures cart.Some? ==> c == cart.value.(items := Merge(cart.value.items, pearlId, quantity, lineId, now),
                                            updatedAt := now)
    ensures cart.None? ==> c == Cart(cartId, userId, [CartItem(lineId, pearlId, quantity, now)], now, now)
  {
    var base := if cart.Some? then cart.value else Cart(cartId, userId, [], now, now);
    base.(items := Merge(base.items, pearlId, quantity, lineId, now), updatedAt := now)
  }

  /** The lines of a cart, and none when there is no cart. */
  function ItemsOf(cart: Option<Cart>): seq<CartItem>
  {
    if cart.Some? then cart.value.items else []
  }

  const ItemAdded := "Item added to cart"
  const ItemRemoved := "Item removed from cart"
  const CartUpdated := "Cart updated"

  datatype AddOutcome = AddOutcome(reply: Reply, cart: Cart)

  /**
    POST /cart/add once the user and the pearl are known, as the code is written:
    with no cart yet it stores a fresh empty cart and then fails, because it asks
    the freshly built cart object (not a stored document) for its items.
   */
  function AddToCartAsWritten(cart: Option<Cart>, userId: string, pearlId: string, quantity: int,
                              cartId: string, lineId: string, now: int): (r: AddOutcome)
    ensures r.reply.Success? <==> cart.Some?
    ensures cart.None? ==> r.reply == Failure(InternalServerError) && r.cart.items == []
  {
    match cart
    case None => AddOutcome(Failure(InternalServerError), Cart(cartId, userId, [], now, now))
    case Some(_) => AddOutcome(Success(ItemAdded), AddedTo(cart, userId, pearlId, quantity, cartId, lineId, now))
  }

  // ---------------------------------------------------------------------------
  // The loops of the endpoints

  /** The search loop of POST /cart/add (and any first-match search over the lines). */
  method FindLine(items: seq<CartItem>, key: LineKey) returns (r: Option<nat>)
    ensures r == FirstMatch(items, key)
  {
    r := None;
    var i := 0;
    while i < |items|
      invariant 0 <= i <= |items|
      invariant forall j :: 0 <= j < i ==> !Matches(items[j], key)
    {
      if Matches(items[i], key) {
        r := Some(i);
        break;
      }
      i := i + 1;
    }
  }

  /** The loop of PUT /cart/{id}: set the quantity of the first line with that id. */
  method SetQuantity(items: seq<CartItem>, itemId: string, quantity: int) returns (r: seq<CartItem>)
    ensures r == WithQuantity(items, itemId, quantity)
  {
    r := items;
    var i := 0;
    while i < |r|
      invariant 0 <= i <= |r| && r == items
      invariant forall j :: 0 <= j < i ==> r[j].id != itemId
    {
      if r[i].id == itemId {
        r := r[i := r[i].(quantity := quantity)];
        break;
      }
      i := i + 1;
    }
  }

  // ---------------------------------------------------------------------------
  // Adding

  /** Adding a pearl that is already in the cart grows its first line and changes nothing else. */
  lemma MergeIntoExisting(items: seq<CartItem>, pearlId: string, quantity: int, lineId: string, now: int, k: nat)
    requires k < |items| && items[k].pearlId == pearlId
    requires forall j :: 0 <= j < k ==> items[j].pearlId != pearlId
    ensures |Merge(items, pearlId, quantity, lineId, now)| == |items|
    ensures Merge(items, pearlId, quantity, lineId, now)[k] == items[k].(quantity := items[k].quantity + quantity)
    ensures forall j :: 0 <= j < |items| && j != k ==> Merge(items, pearlId, quantity, lineId, now)[j] == items[j]
  {
  }

  /** Adding a pearl the cart does not hold appends exactly one new line at the end. */
  lemma MergeAppendsNew(items: seq<CartItem>, pearlId: string, quantity: int, lineId: string, now: int)
    requires forall j :: 0 <= j < |items| ==> items[j].pearlId != pearlId
    ensures Merge(items, pearlId, quantity, lineId, now) == items + [CartItem(lineId, pearlId, quantity, now)]
  {
  }

  lemma {:induction false} CountAppend(a: seq<CartItem>, b: seq<CartItem>)
    ensures Count(a + b) == Count(a) + Count(b)
  {
    if a == [] {
      assert a + b == b;
    } else {
      assert (a + b)[1..] == a[1..] + b;
      CountAppend(a[1..], b);
    }
  }

  lemma {:induction false} QuantityWhereAppend(a: seq<CartItem>, b: seq<CartItem>, key: LineKey)
    ensures QuantityWhere(a + b, key) == QuantityWhere(a, key) + QuantityWhere(b, key)
  {
    if a == [] {
      assert a + b == b;
    } else {
      assert (a + b)[1..] == a[1..] + b;
      QuantityWhereAppend(a[1..], b, key);
    }
  }

  /** Replacing one line changes the cart's count by the change of that line's quantity. */
  lemma {:induction false} CountUpdate(items: seq<CartItem>, k: nat, line: CartItem)
    requires k < |items|
    ensures Count(items[k := line]) == Count(items) - items[k].quantity + line.quantity
  {
    if k > 0 {
      assert items[k := line][1..] == items[1..][k - 1 := line];
      CountUpdate(items[1..], k - 1, line);
    } else {
      assert items[k := line][1..] == items[1..];
    }
  }

  lemma {:induction false} QuantityWhereUpdate(items: seq<CartItem>, k: nat, line: CartItem, key: LineKey)
    requires k < |items|
    ensures QuantityWhere(items[k := line], key) ==
            QuantityWhere(items, key)
            - (if Matches(items[k], key) then items[k].quantity else 0)
            + (if Matches(line, key) then line.quantity else 0)
  {
    if k > 0 {
      assert items[k := line][1..] == items[1..][k - 1 := line];
      QuantityWhereUpdate(items[1..], k - 1, line, key);
    } else {
      assert items[k := line][1..] == items[1..];
    }
  }

  /** Adding `quantity` of a pearl grows the cart's count, and that pearl's quantity, by `quantity`. */
  lemma MergeAddsQuantity(items: seq<CartItem>, pearlId: string, quantity: int, lineId: string, now: int)
    ensures Count(Merge(items, pearlId, quantity, lineId, now)) == Count(items) + quantity
    ensures QuantityWhere(Merge(items, pearlId, quantity, lineId, now), PearlRef(pearlId))
            == QuantityWhere(items, PearlRef(pearlId)) + quantity
  {
    var line := CartItem(lineId, pearlId, quantity, now);
    match FirstMatch(items, PearlRef(pearlId))
    case Some(k) =>
      var grown := items[k].(quantity := items[k].quantity + quantity);
      CountUpdate(items, k, grown);
      QuantityWhereUpdate(items, k, grown, PearlRef(pearlId));
    case None =>
      CountAppend(items, [line]);
      QuantityWhereAppend(items, [line], PearlRef(pearlId));
      assert [line][1..] == [];
  }

  /** Adding keeps the cart free of two lines for the same pearl. */
  lemma MergeKeepsPearlsDistinct(items: seq<CartItem>, pearlId: string, quantity: int, lineId: string, now: int)
    requires PearlsDistinct(items)
    ensures PearlsDistinct(Merge(items, pearlId, quantity, lineId, now))
  {
  }

  /**
    The cart the corrected add produces holds `quantity` more of the pearl, and
    `quantity` more in all, than before, whether or not a cart existed.
   */
  lemma AddedToAddsQuantity(cart: Option<Cart>, userId: string, pearlId: string, quantity: int,
                            cartId: string, lineId: string, now: int)
    ensures var c := AddedTo(cart, userId, pearlId, quantity, cartId, lineId, now);
            QuantityWhere(c.items, PearlRef(pearlId)) == QuantityWhere(ItemsOf(cart), PearlRef(pearlId)) + quantity
            && Count(c.items) == Count(ItemsOf(cart)) + quantity
  {
    MergeAddsQuantity(ItemsOf(cart), pearlId, quantity, lineId, now);
  }

  /** As written, a first add of a non-zero quantity to a user with no cart loses the item. */
  lemma AsWrittenLosesFirstAdd(userId: string, pearlId: string, quantity: int,
                               cartId: string, lineId: string, now: int)
    requires quantity != 0
    ensures var o := AddToCartAsWritten(None, userId, pearlId, quantity, cartId, lineId, now);
            o.reply.Failure?
            && QuantityWhere(o.cart.items, PearlRef(pearlId)) != QuantityWhere([], PearlRef(pearlId)) + quantity
    ensures AddedTo(None, userId, pearlId, quantity, cartId, lineId, now).items
            == [CartItem(lineId, pearlId, quantity, now)]
  {
  }

  // ---------------------------------------------------------------------------
  // Setting a quantity

  /** Setting a quantity changes only the first line with that id, and only its quantity. */
  lemma WithQuantitySetsFirst(items: seq<CartItem>, itemId: string, quantity: int, k: nat)
    requires k < |items| && items[k].id == itemId
    requires forall j :: 0 <= j < k ==> items[j].id != itemId
    ensures |WithQuantity(items, itemId, quantity)| == |items|
    ensures WithQuantity(items, itemId, quantity)[k] == items[k].(quantity := quantity)
    ensures forall j :: 0 <= j < |items| && j != k ==> WithQuantity(items, itemId, quantity)[j] == items[j]
    ensures Count(WithQuantity(items, itemId, quantity)) == Count(items) - items[k].quantity + quantity
  {
    var r := FirstMatch(items, LineId(itemId));
    assert r.Some? && r.value == k;
    CountUpdate(items, k, items[k].(quantity := quantity));
  }

  /** Setting the quantity of a line the cart does not hold changes nothing. */
  lemma WithQuantityAbsent(items: seq<CartItem>, itemId: string, quantity: int)
    requires forall j :: 0 <= j < |items| ==> items[j].id != itemId
    ensures WithQuantity(items, itemId, quantity) == items
  {
  }

  /** Setting a quantity keeps every line's id and pearl, so pearls stay distinct. */
  lemma WithQuantityKeepsPearls(items: seq<CartItem>, itemId: string, quantity: int)
    ensures |WithQuantity(items, itemId, quantity)| == |items|
    ensures forall j :: 0 <= j < |items| ==>
              WithQuantity(items, itemId, quantity)[j].pearlId == items[j].pearlId
              && WithQuantity(items, itemId, quantity)[j].id == items[j].id
    ensures PearlsDistinct(items) ==> PearlsDistinct(WithQuantity(items, itemId, quantity))
  {
  }

  // ---------------------------------------------------------------------------
  // Removing

  /** After removal no line has the id, and every other line is still there, in order. */
  lemma WithoutRemovesExactly(items: seq<CartItem>, itemId: string)
    ensures forall l :: l in Without(items, itemId) ==> l in items && l.id != itemId
    ensures forall l :: l in items && l.id != itemId ==> l in Without(items, itemId)
    ensures IsSubseq(Without(items, itemId), items)
  {
    var p := (l: CartItem) => l.id != itemId;
    forall l | l in Without(items, itemId) ensures l in items && l.id != itemId {
      FilterSound(items, p, l);
    }
    forall l | l in items && l.id != itemId ensures l in Without(items, itemId) {
      FilterComplete(items, p, l);
    }
    FilterIsSubseq(items, p);
  }

  /** Removing the same line twice is removing it once. */
  lemma WithoutIdempotent(items: seq<CartItem>, itemId: string)
    ensures Without(Without(items, itemId), itemId) == Without(items, itemId)
  {
    FilterIdempotent(items, (l: CartItem) => l.id != itemId);
  }

  /** Removing a line the cart does not hold changes nothing. */
  lemma WithoutAbsent(items: seq<CartItem>, itemId: string)
    requires forall l :: l in items ==> l.id != itemId
    ensures Without(items, itemId) == items
  {
    FilterKeepsAll(items, (l: CartItem) => l.id != itemId);
  }

  /** Removing lowers the count by exactly the quantities of the removed lines. */
  lemma {:induction false} WithoutCount(items: seq<CartItem>, itemId: string)
    ensures Count(Without(items, itemId)) == Count(items) - QuantityWhere(items, LineId(itemId))
  {
    if items != [] {
      WithoutCount(items[1..], itemId);
    }
  }

  /** Removing keeps the cart free of two lines for the same pearl. */
  lemma {:induction false} WithoutKeepsPearlsDistinct(items: seq<CartItem>, itemId: string)
    requires PearlsDistinct(items)
    ensures PearlsDistinct(Without(items, itemId))
  {
    if items != [] {
      var p := (l: CartItem) => l.id != itemId;
      var rest := Without(items[1..], itemId);
      assert PearlsDistinct(items[1..]);
      WithoutKeepsPearlsDistinct(items[1..], itemId);
      if p(items[0]) {
        assert Without(items, itemId) == [items[0]] + rest;
        forall l | l in rest ensures l.pearlId != items[0].pearlId {
          FilterSound(items[1..], p, l);
        }
        var r := [items[0]] + rest;
        forall i, j | 0 <= i < j < |r| ensures r[i].pearlId != r[j].pearlId {
          if i == 0 {
            assert r[j] in rest;
          } else {
            assert r[i] == rest[i - 1] && r[j] == rest[j - 1];
          }
        }
      }
    }
  }
}

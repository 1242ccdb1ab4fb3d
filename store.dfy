/**
  The server's collections (pearls, users, sessions, carts) held in memory, and
  the endpoints that read and change them. Each endpoint receives the user that
  session resolution produced for the request, or none.
 */
module Store {
  import opened Wrappers
  import opened Catalog
  import opened Carts
  import opened CartSummary
  import opened Sessions

  /** The cart stored for the user, if any. */
  function CartOf(carts: map<string, Cart>, userId: string): Option<Cart>
  {
    if userId in carts then Some(carts[userId]) else None
  }

  /** The carts after pulling line `itemId` from the user's cart; without a cart nothing changes. */
  function Removed(carts: map<string, Cart>, userId: string, itemId: string, now: int): (r: map<string, Cart>)
    ensures r.Keys == carts.Keys
    ensures forall u :: u in carts && u != userId ==> r[u] == carts[u]
    ensures userId in carts ==>
              r[userId] == carts[userId].(items := Without(carts[userId].items, itemId), updatedAt := now)
  {
    if userId in carts
    then carts[userId := carts[userId].(items := Without(carts[userId].items, itemId), updatedAt := now)]
    else carts
  }

  class Store {
    var pearls: seq<Pearl>
    var users: seq<User>
    var sessions: seq<Session>
    /** Carts keyed by the id of the user who owns them. */
    var carts: map<string, Cart>

    ghost predicate Valid()
      reads this
    {
      forall u :: u in carts ==> carts[u].userId == u && PearlsDistinct(carts[u].items)
    }

    constructor (pearls: seq<Pearl>, users: seq<User>, sessions: seq<Session>)
      ensures Valid()
      ensures this.pearls == pearls && this.users == users && this.sessions == sessions
      ensures carts == map[]
    {
      this.pearls := pearls;
      this.users := users;
      this.sessions := sessions;
      carts := map[];
    }

    /** Resolve the request's credentials; an expired session found on the way is deleted. */
    method GetCurrentUser(cookie: Option<string>, bearer: Option<string>, now: int) returns (user: Option<User>)
      modifies this`sessions
      ensures user == UserOf(Resolve(cookie, bearer, old(sessions), users, now))
      ensures var r := Resolve(cookie, bearer, old(sessions), users, now);
              sessions == if r.Expired? then DeleteAt(old(sessions), r.index) else old(sessions)
    {
      var r := Resolve(cookie, bearer, sessions, users, now);
      if r.Expired? {
        sessions := DeleteAt(sessions, r.index);
      }
      user := UserOf(r);
    }

    /** POST /auth/logout: always succeeds, and ends every session of a signed-in user. */
    method Logout(user: Option<User>) returns (success: bool)
      modifies this`sessions
      ensures success
      ensures sessions == if user.Some? then EndSessions(old(sessions), user.value.id) else old(sessions)
    {
      if user.Some? {
        sessions := EndSessions(sessions, user.value.id);
      }
      success := true;
    }

    /** GET /cart: the priced summary of the user's cart; a user without a cart gets a new empty one. */
    method GetCart(user: Option<User>, cartId: string, now: int) returns (r: Result<Summary>)
      requires Valid()
      modifies this`carts
      ensures Valid()
      ensures user.None? ==> r == Err(AuthenticationRequired) && carts == old(carts)
      ensures user.Some? && user.value.id !in old(carts) ==>
                r == Ok(EmptySummary)
                && carts == old(carts)[user.value.id := Cart(cartId, user.value.id, [], now, now)]
      ensures user.Some? && user.value.id in old(carts) ==>
                r == Ok(Summarized(old(carts)[user.value.id].items, pearls)) && carts == old(carts)
    {
      if user.None? {
        return Err(AuthenticationRequired);
      }
      var userId := user.value.id;
      if userId !in carts {
        carts := carts[userId := Cart(cartId, userId, [], now, now)];
        return Ok(EmptySummary);
      }
      var summary := Summarize(carts[userId].items, pearls);
      r := Ok(summary);
    }

    /**
      POST /cart/add with the missing-cart case corrected: merge into the line
      holding the pearl, or append a new line, creating the cart first if needed.
      `Carts.AddToCartAsWritten` is what the code does when no cart exists.
     */
    method AddToCart(user: Option<User>, pearlId: string, quantity: int,
                     cartId: string, lineId: string, now: int) returns (r: Reply)
      requires Valid()
      modifies this`carts
      ensures Valid()
      ensures user.None? ==> r == Failure(AuthenticationRequired) && carts == old(carts)
      ensures user.Some? && FindPearl(pearls, pearlId).None? ==>
                r == Failure(PearlNotFound) && carts == old(carts)
      ensures user.Some? && FindPearl(pearls, pearlId).Some? ==>
                r == Success(ItemAdded)
                && carts == old(carts)[user.value.id :=
                     AddedTo(CartOf(old(carts), user.value.id), user.value.id, pearlId, quantity, cartId, lineId, now)]
    {
      if user.None? {
        return Failure(AuthenticationRequired);
      }
      if FindPearl(pearls, pearlId).None? {
        return Failure(PearlNotFound);
      }
      var userId := user.value.id;
      if userId !in carts {
        carts := carts[userId := Cart(cartId, userId, [], now, now)];
      }
      var cart := carts[userId];
      var existing := FindLine(cart.items, PearlRef(pearlId));
      var items;
      if existing.Some? {
        var k := existing.value;
        items := cart.items[k := cart.items[k].(quantity := cart.items[k].quantity + quantity)];
      } else {
        items := cart.items + [CartItem(lineId, pearlId, quantity, now)];
      }
      MergeKeepsPearlsDistinct(cart.items, pearlId, quantity, lineId, now);
      carts := carts[userId := cart.(items := items, updatedAt := now)];
      r := Success(ItemAdded);
    }

    /** DELETE /cart/{id}: pull every line with that id; succeeds even when nothing matches. */
    method RemoveFromCart(user: Option<User>, itemId: string, now: int) returns (r: Reply)
      requires Valid()
      modifies this`carts
      ensures Valid()
      ensures user.None? ==> r == Failure(AuthenticationRequired) && carts == old(carts)
      ensures user.Some? ==> r == Success(ItemRemoved) && carts == Removed(old(carts), user.value.id, itemId, now)
    {
      if user.None? {
        return Failure(AuthenticationRequired);
      }
      var userId := user.value.id;
      if userId in carts {
        WithoutKeepsPearlsDistinct(carts[userId].items, itemId);
      }
      carts := Removed(carts, userId, itemId, now);
      r := Success(ItemRemoved);
    }

    /**
      PUT /cart/{id}: a positive quantity is set on the first line with that id;
      zero or less is a removal.
     */
    method UpdateCartItem(user: Option<User>, itemId: string, quantity: int, now: int) returns (r: Reply)
      requires Valid()
      modifies this`carts
      ensures Valid()
      ensures user.None? ==> r == Failure(AuthenticationRequired) && carts == old(carts)
      ensures user.Some? && quantity <= 0 ==>
                r == Success(ItemRemoved) && carts == Removed(old(carts), user.value.id, itemId, now)
      ensures user.Some? && quantity > 0 && user.value.id !in old(carts) ==>
                r == Failure(CartNotFound) && carts == old(carts)
      ensures user.Some? && quantity > 0 && user.value.id in old(carts) ==>
                r == Success(CartUpdated)
                && carts == old(carts)[user.value.id := old(carts)[user.value.id].(
                     items := WithQuantity(old(carts)[user.value.id].items, itemId, quantity),
                     updatedAt := now)]
    {
      if user.None? {
        return Failure(AuthenticationRequired);
      }
      if quantity <= 0 {
        r := RemoveFromCart(user, itemId, now);
        return;
      }
      var userId := user.value.id;
      if userId !in carts {
        return Failure(CartNotFound);
      }
      var cart := carts[userId];
      var items := SetQuantity(cart.items, itemId, quantity);
      WithQuantityKeepsPearls(cart.items, itemId, quantity);
      carts := carts[userId := cart.(items := items, updatedAt := now)];
      r := Success(CartUpdated);
    }
  }

  /**
    Removal is idempotent on the stored carts: the second removal of a line only
    moves the cart's update time.
   */
  lemma RemovedTwice(carts: map<string, Cart>, userId: string, itemId: string, t1: int, t2: int)
    ensures Removed(Removed(carts, userId, itemId, t1), userId, itemId, t2) == Removed(carts, userId, itemId, t2)
  {
    if userId in carts {
      WithoutIdempotent(carts[userId].items, itemId);
    }
  }

  /** Removing a line the user's cart does not hold only moves the cart's update time. */
  lemma RemovedAbsent(carts: map<string, Cart>, userId: string, itemId: string, now: int)
    requires userId in carts
    requires forall l :: l in carts[userId].items ==> l.id != itemId
    ensures Removed(carts, userId, itemId, now) == carts[userId := carts[userId].(updatedAt := now)]
  {
    WithoutAbsent(carts[userId].items, itemId);
  }
}

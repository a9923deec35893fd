/** The cart store (`useCartStore`): the signed-in user's cart rows as last
    read from `cart_items`, a loading flag, the operations that write the
    table and read it back, and the two totals. */
module Cart {
  import opened Backend
  import opened Auth

  /** The message `addToCart` returns when nobody is signed in. */
  const LoginRequired: string := "cart: sign in first"
  /** The generic messages of the three writing operations, used when a call rejects. */
  const AddFailed: string := "cart: error while adding the product"
  const UpdateFailed: string := "cart: error while updating the quantity"
  const RemoveFailed: string := "cart: error while removing the product"

  // ---------------------------------------------------------------------
  // Totals
  // ---------------------------------------------------------------------

  function Quantity(it: CartItem): int
  {
    it.quantity
  }

  /** One line of the cart: the product's price, or 0 when no product is
      attached, times the quantity. */
  function LinePrice(it: CartItem): int
  {
    (if it.product.Some? then it.product.value.price else 0) * it.quantity
  }

  /** `items.reduce((total, item) => total + f(item), 0)`: a left fold. */
  function Reduce(items: seq<CartItem>, f: CartItem -> int): int
  {
    if items == [] then 0 else Reduce(items[..|items| - 1], f) + f(items[|items| - 1])
  }

  /** The plain sum of `f` over the items, first item first. */
  function Sum(items: seq<CartItem>, f: CartItem -> int): int
  {
    if items == [] then 0 else f(items[0]) + Sum(items[1..], f)
  }

  lemma {:induction false} SumAppend(a: seq<CartItem>, b: seq<CartItem>, f: CartItem -> int)
    ensures Sum(a + b, f) == Sum(a, f) + Sum(b, f)
  {
    if a == [] {
      assert a + b == b;
    } else {
      assert (a + b)[1..] == a[1..] + b;
      SumAppend(a[1..], b, f);
    }
  }

  /** The fold computes the sum. */
  lemma {:induction false} ReduceIsSum(items: seq<CartItem>, f: CartItem -> int)
    ensures Reduce(items, f) == Sum(items, f)
  {
    if items != [] {
      var init, last := items[..|items| - 1], items[|items| - 1];
      ReduceIsSum(init, f);
      SumAppend(init, [last], f);
      assert init + [last] == items;
    }
  }

  /** A sum does not depend on the order of the items. */
  lemma {:induction false} SumPermutation(a: seq<CartItem>, b: seq<CartItem>, f: CartItem -> int)
    requires multiset(a) == multiset(b)
    ensures Sum(a, f) == Sum(b, f)
    decreases |a|
  {
    if a == [] {
      assert |b| == |multiset(b)| == 0;
    } else {
      assert a[0] in multiset(b);
      var k :| 0 <= k < |b| && b[k] == a[0];
      PermutationRest(a, b, k);
      SumPermutation(a[1..], b[..k] + b[k + 1..], f);
      SumRemoveAt(b, k, f);
    }
  }

  /** Taking the first item off one list and the same item off the other
      keeps the two lists permutations of each other. */
  lemma PermutationRest(a: seq<CartItem>, b: seq<CartItem>, k: nat)
    requires multiset(a) == multiset(b) && a != [] && k < |b| && b[k] == a[0]
    ensures multiset(a[1..]) == multiset(b[..k] + b[k + 1..])
  {
    var rest := b[..k] + b[k + 1..];
    assert b == b[..k] + ([b[k]] + b[k + 1..]);
    assert multiset(b) == multiset(b[..k]) + multiset{b[k]} + multiset(b[k + 1..]);
    assert a == [a[0]] + a[1..];
    assert multiset(a) == multiset{a[0]} + multiset(a[1..]);
    assert multiset(rest) == multiset(b[..k]) + multiset(b[k + 1..]);
    assert multiset(a[1..]) == multiset(a) - multiset{a[0]};
    assert multiset(rest) == multiset(b) - multiset{b[k]};
  }

  /** A sum is the item at `k` plus the sum of the others. */
  lemma {:induction false} SumRemoveAt(b: seq<CartItem>, k: nat, f: CartItem -> int)
    requires k < |b|
    ensures Sum(b, f) == f(b[k]) + Sum(b[..k] + b[k + 1..], f)
  {
    assert b == b[..k] + ([b[k]] + b[k + 1..]);
    SumAppend(b[..k], [b[k]] + b[k + 1..], f);
    SumAppend([b[k]], b[k + 1..], f);
    SumAppend(b[..k], b[k + 1..], f);
  }

  /** Both totals are order-independent, so they come out the same however
      the backend orders rows with equal creation times. */
  lemma TotalsIgnoreOrder(a: seq<CartItem>, b: seq<CartItem>)
    requires multiset(a) == multiset(b)
    ensures Reduce(a, Quantity) == Reduce(b, Quantity)
    ensures Reduce(a, LinePrice) == Reduce(b, LinePrice)
  {
    ReduceIsSum(a, Quantity);
    ReduceIsSum(b, Quantity);
    SumPermutation(a, b, Quantity);
    ReduceIsSum(a, LinePrice);
    ReduceIsSum(b, LinePrice);
    SumPermutation(a, b, LinePrice);
  }

  // ---------------------------------------------------------------------
  // What `addToCart` does to the table
  // ---------------------------------------------------------------------

  /** The existence check `.eq('user_id', u).eq('product_id', p).single()`:
      a row only when the call succeeds and exactly one row matches. With
      no row or several rows `.single()` answers with an error, and any
      error leaves `data` empty; the error itself is never read. */
  function LookupSingle(rows: seq<CartRow>, u: UserId, p: ProductId, lookup: Outcome): (found: Option<CartRow>)
    ensures found.Some? <==> lookup.Ok? && |Matching(rows, u, p)| == 1
    ensures found.Some? ==> found.value in rows && found.value.userId == u && found.value.productId == p
  {
    var m := Matching(rows, u, p);
    if lookup.Ok? && |m| == 1 then (assert m[0] in m; Some(m[0])) else None
  }

  /** The table after the write `addToCart` issues: the row found gets its
      quantity raised by `q`; without one a new row is inserted. */
  function AddRow(rows: seq<CartRow>, u: UserId, p: ProductId, q: int,
                  found: Option<CartRow>, newId: RowId, now: int): seq<CartRow>
  {
    match found
    case Some(e) => WithQuantity(rows, e.id, e.quantity + q)
    case None => rows + [CartRow(newId, u, p, q, now)]
  }

  /** At most one row per (user, product) pair. */
  ghost predicate OneRowPerProduct(rows: seq<CartRow>)
  {
    forall u, p :: |Matching(rows, u, p)| <= 1
  }

  /** Adding a product that already has a row merges: the table keeps its
      size, that row's quantity becomes old + q, and every row with another
      id is untouched. */
  lemma AddMergesExistingRow(rows: seq<CartRow>, u: UserId, p: ProductId, q: int, newId: RowId, now: int)
    requires |Matching(rows, u, p)| == 1
    ensures var e := Matching(rows, u, p)[0];
            var after := AddRow(rows, u, p, q, LookupSingle(rows, u, p, Ok), newId, now);
            && |after| == |rows|
            && Matching(after, u, p) == [e.(quantity := e.quantity + q)]
            && forall i :: 0 <= i < |rows| && rows[i].id != e.id ==> after[i] == rows[i]
  {
    var e := Matching(rows, u, p)[0];
    var after := AddRow(rows, u, p, q, LookupSingle(rows, u, p, Ok), newId, now);
    assert after == WithQuantity(rows, e.id, e.quantity + q);
    MatchingWithQuantity(rows, u, p, e.id, e.quantity + q);
    assert Matching(rows, u, p) == [e];
    assert WithQuantity([e], e.id, e.quantity + q) == [e.(quantity := e.quantity + q)];
    forall i | 0 <= i < |rows| && rows[i].id != e.id
      ensures after[i] == rows[i]
    {
      WithQuantityAt(rows, e.id, e.quantity + q, i);
    }
  }

  /** Adding a product without a row found inserts exactly one row, at the
      end, with the requested quantity; nothing else changes. */
  lemma AddInsertsNewRow(rows: seq<CartRow>, u: UserId, p: ProductId, q: int,
                         lookup: Outcome, newId: RowId, now: int)
    requires LookupSingle(rows, u, p, lookup).None?
    ensures var after := AddRow(rows, u, p, q, LookupSingle(rows, u, p, lookup), newId, now);
            && after == rows + [CartRow(newId, u, p, q, now)]
            && Matching(after, u, p) == Matching(rows, u, p) + [CartRow(newId, u, p, q, now)]
  {
    MatchingAppend(rows, CartRow(newId, u, p, q, now), u, p);
  }

  /** Raising the quantity of a row by id keeps at most one row per pair. */
  lemma WithQuantityKeepsOneRowPerProduct(rows: seq<CartRow>, id: RowId, q: int)
    requires OneRowPerProduct(rows)
    ensures OneRowPerProduct(WithQuantity(rows, id, q))
  {
    forall v, w ensures |Matching(WithQuantity(rows, id, q), v, w)| <= 1 {
      MatchingWithQuantity(rows, v, w, id, q);
    }
  }

  /** Appending a row for a pair that has none keeps at most one row per pair. */
  lemma AppendKeepsOneRowPerProduct(rows: seq<CartRow>, row: CartRow)
    requires OneRowPerProduct(rows)
    requires |Matching(rows, row.userId, row.productId)| == 0
    ensures OneRowPerProduct(rows + [row])
  {
    forall v, w ensures |Matching(rows + [row], v, w)| <= 1 {
      MatchingAppend(rows, row, v, w);
    }
  }

  /** Adding never creates a second row for a pair, unless the existence
      check fails while a row already exists: on the usual first add the
      check answers with an error because nothing matches, and that is
      harmless. */
  lemma AddKeepsOneRowPerProduct(rows: seq<CartRow>, u: UserId, p: ProductId, q: int,
                                 lookup: Outcome, newId: RowId, now: int)
    requires OneRowPerProduct(rows)
    requires lookup.Ok? || |Matching(rows, u, p)| == 0
    ensures OneRowPerProduct(AddRow(rows, u, p, q, LookupSingle(rows, u, p, lookup), newId, now))
  {
    match LookupSingle(rows, u, p, lookup)
    case Some(e) =>
      WithQuantityKeepsOneRowPerProduct(rows, e.id, e.quantity + q);
    case None =>
      // either nothing matched, or the lookup answered and then more than
      // one row would have had to match, which the invariant excludes
      assert |Matching(rows, u, p)| <= 1;
      AppendKeepsOneRowPerProduct(rows, CartRow(newId, u, p, q, now));
  }

  /** The existence check's error is never read: when it fails while the
      product already has a row, a second row for the same pair is inserted. */
  lemma FailedLookupInsertsDuplicate(rows: seq<CartRow>, u: UserId, p: ProductId, q: int,
                                     lookup: Outcome, newId: RowId, now: int)
    requires |Matching(rows, u, p)| == 1 && lookup.Err?
    ensures |Matching(AddRow(rows, u, p, q, LookupSingle(rows, u, p, lookup), newId, now), u, p)| == 2
  {
    MatchingAppend(rows, CartRow(newId, u, p, q, now), u, p);
  }

  /** What `fetchCartItems` leaves in `items`. */
  function Fetched(user: Option<User>, rows: seq<CartRow>, products: map<ProductId, Product>,
                   reply: Outcome): seq<CartItem>
  {
    if user.None? || !reply.Ok? then [] else CartQuery(rows, products, user.value.id)
  }

  class CartStore {
    var items: seq<CartItem>
    var loading: bool
    /** The session store whose `user` every operation reads. */
    const auth: AuthStore
    /** The backend the store talks to. */
    const db: Database

    constructor (auth: AuthStore, db: Database)
      ensures items == [] && !loading
      ensures this.auth == auth && this.db == db
    {
      items, loading := [], false;
      this.auth, this.db := auth, db;
    }

    /** `getTotalItems`: the sum of the quantities; 0 for an empty cart. */
    function GetTotalItems(): (n: int)
      reads this
      ensures n == Sum(items, Quantity)
      ensures items == [] ==> n == 0
    {
      ReduceIsSum(items, Quantity);
      Reduce(items, Quantity)
    }

    /** `getTotalPrice`: the sum of price × quantity, a missing product
        counting as price 0; 0 for an empty cart. */
    function GetTotalPrice(): (total: int)
      reads this
      ensures total == Sum(items, LinePrice)
      ensures items == [] ==> total == 0
    {
      ReduceIsSum(items, LinePrice);
      Reduce(items, LinePrice)
    }

    /** `fetchCartItems`: without a user the list is emptied and nothing is
        read; otherwise the list is replaced wholesale by the user's rows,
        newest first, or by the empty list when the read fails. Loading is
        off on every path. */
    method FetchCartItems(reply: Outcome)
      modifies this`items, this`loading
      ensures !loading
      ensures items == Fetched(auth.user, db.cartRows, db.products, reply)
    {
      if auth.user.None? {
        items, loading := [], false;
        return;
      }
      loading := true;
      if reply.Ok? {
        items, loading := CartQuery(db.cartRows, db.products, auth.user.value.id), false;
      } else {
        // an error answer and a rejection are both logged and read as an empty cart
        items, loading := [], false;
      }
    }

    /** `addToCart`: refuses without a user; otherwise looks the pair up,
        merges into the row found or inserts a new one, and reads the cart
        back. A failed write returns its message and skips the read-back. */
    method AddToCart(productId: ProductId, lookup: Outcome, write: Outcome, refetch: Outcome,
                     now: int, quantity: int := 1) returns (r: Response)
      requires db.Valid()
      modifies this`items, this`loading, db`cartRows, db`nextId
      ensures db.Valid()
      ensures auth.user.None? ==> r == Failed(LoginRequired)
      ensures auth.user.Some? && lookup == Throw ==> r == Failed(AddFailed)
      ensures auth.user.Some? && lookup != Throw ==> r == Resolve(write, AddFailed)
      ensures r.Failed? ==> && db.cartRows == old(db.cartRows) && db.nextId == old(db.nextId)
                            && items == old(items) && loading == old(loading)
      ensures r == Done ==>
                && db.cartRows == AddRow(old(db.cartRows), auth.user.value.id, productId, quantity,
                                         LookupSingle(old(db.cartRows), auth.user.value.id, productId, lookup),
                                         old(db.nextId), now)
                && db.nextId == old(db.nextId) +
                     (if LookupSingle(old(db.cartRows), auth.user.value.id, productId, lookup).None? then 1 else 0)
                && items == Fetched(auth.user, db.cartRows, db.products, refetch)
                && !loading
    {
      if auth.user.None? {
        return Failed(LoginRequired);
      }
      var u := auth.user.value.id;
      if lookup == Throw {
        return Failed(AddFailed);
      }
      var existing := LookupSingle(db.cartRows, u, productId, lookup);
      if write != Ok {
        r := Resolve(write, AddFailed);
        assert r.Failed?;
        return;
      }
      WriteAdd(u, productId, quantity, existing, now);
      FetchCartItems(refetch);
      return Done;
    }

    /** The write `addToCart` issues once the lookup is done: raise the
        quantity of the row found, or insert a new row with a fresh id. */
    method WriteAdd(u: UserId, p: ProductId, q: int, existing: Option<CartRow>, now: int)
      requires db.Valid()
      modifies db`cartRows, db`nextId
      ensures db.Valid()
      ensures db.cartRows == AddRow(old(db.cartRows), u, p, q, existing, old(db.nextId), now)
      ensures db.nextId == old(db.nextId) + (if existing.None? then 1 else 0)
    {
      if existing.Some? {
        db.UpdateQuantity(existing.value.id, existing.value.quantity + q);
      } else {
        var id := db.Insert(u, p, q, now);
      }
    }

    /** `removeFromCart`: deletes the row with that id and reads the cart
        back; a failed delete returns its message and changes nothing. */
    method RemoveFromCart(itemId: RowId, write: Outcome, refetch: Outcome) returns (r: Response)
      requires db.Valid()
      modifies this`items, this`loading, db`cartRows
      ensures db.Valid()
      ensures r == Resolve(write, RemoveFailed)
      ensures write.Ok? ==> && db.cartRows == WithoutId(old(db.cartRows), itemId)
                            && items == Fetched(auth.user, db.cartRows, db.products, refetch)
                            && !loading
      ensures !write.Ok? ==> && db.cartRows == old(db.cartRows)
                             && items == old(items) && loading == old(loading)
    {
      if write != Ok {
        return Resolve(write, RemoveFailed);
      }
      db.DeleteById(itemId);
      FetchCartItems(refetch);
      return Done;
    }

    /** `updateQuantity`: a quantity of 0 or less is a removal, exactly as
        `removeFromCart`; otherwise only the row with that id gets the new
        quantity and the cart is read back. */
    method UpdateQuantity(itemId: RowId, quantity: int, write: Outcome, refetch: Outcome) returns (r: Response)
      requires db.Valid()
      modifies this`items, this`loading, db`cartRows
      ensures db.Valid()
      ensures quantity <= 0 ==> && r == Resolve(write, RemoveFailed)
                                && (write.Ok? ==> db.cartRows == WithoutId(old(db.cartRows), itemId))
      ensures quantity > 0 ==> && r == Resolve(write, UpdateFailed)
                               && (write.Ok? ==> db.cartRows == WithQuantity(old(db.cartRows), itemId, quantity))
      ensures write.Ok? ==> items == Fetched(auth.user, db.cartRows, db.products, refetch) && !loading
      ensures !write.Ok? ==> && db.cartRows == old(db.cartRows)
                             && items == old(items) && loading == old(loading)
    {
      if quantity <= 0 {
        r := RemoveFromCart(itemId, write, refetch);
        return;
      }
      if write != Ok {
        return Resolve(write, UpdateFailed);
      }
      db.UpdateQuantity(itemId, quantity);
      FetchCartItems(refetch);
      return Done;
    }

    /** `clearCart`: without a user nothing happens; otherwise all of the
        user's rows are deleted and, only if that succeeds, the list is
        emptied. Failures are silent; loading is never touched. */
    method ClearCart(reply: Outcome)
      requires db.Valid()
      modifies this`items, db`cartRows
      ensures db.Valid()
      ensures loading == old(loading)
      ensures auth.user.Some? && reply.Ok? ==> && db.cartRows == WithoutUser(old(db.cartRows), auth.user.value.id)
                                               && items == []
      ensures auth.user.None? || !reply.Ok? ==> db.cartRows == old(db.cartRows) && items == old(items)
    {
      if auth.user.None? {
        return;
      }
      // an error answer is ignored; a rejection propagates before anything is set
      if reply.Ok? {
        db.DeleteByUser(auth.user.value.id);
        items := [];
      }
    }
  }
}

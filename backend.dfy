/** The hosted backend as the two stores see it: the `cart_items`,
    `products` and `profiles` tables held in memory, the few queries the
    stores issue against them, and the outcome of every call, which is
    supplied from outside (it is decided by the network and the server). */
module Backend {

  datatype Option<+T> = None | Some(value: T)

  /** How one awaited backend call ends: it succeeds, the backend answers
      with an error object carrying a message, or the promise rejects. */
  datatype Outcome = Ok | Err(message: string) | Throw

  /** What a store operation resolves to: `{}` or `{ error: message }`. */
  datatype Response = Done | Failed(error: string)

  /** How a store operation settles once its one write call has ended:
      `{}` on success, the backend's message on an error answer, and the
      operation's own generic message when the call rejects. */
  function Resolve(reply: Outcome, onReject: string): Response
  {
    match reply
    case Ok => Done
    case Err(m) => Failed(m)
    case Throw => Failed(onReject)
  }

  type UserId = string
  type ProductId = string
  /** Row identifiers are assigned by the backend; the model draws them from a counter. */
  type RowId = nat

  /** A product; prices are in cents. */
  datatype Product = Product(id: ProductId, name: string, price: int, stockQuantity: int)

  /** One row of `cart_items`. */
  datatype CartRow = CartRow(id: RowId, userId: UserId, productId: ProductId, quantity: int, createdAt: int)

  /** A cart row as the cart query returns it: the row joined with its product, if any. */
  datatype CartItem = CartItem(
    id: RowId, userId: UserId, productId: ProductId, quantity: int, createdAt: int,
    product: Option<Product>)

  /** One row of `profiles`: its key `id` and every other column by name. */
  datatype Profile = Profile(id: UserId, columns: map<string, string>)

  /** A partial profile: the columns to overwrite, by name. */
  type ProfileUpdate = map<string, string>

  /** `update(updates)` on one row: each column the update names takes the
      update's value; the key and every other column keep theirs. */
  function ApplyUpdate(p: Profile, u: ProfileUpdate): Profile
  {
    p.(columns := p.columns + u)
  }

  /** An update that names no column leaves the row as it is. */
  lemma EmptyUpdateKeepsRow(p: Profile)
    ensures ApplyUpdate(p, map[]) == p
  {
    assert p.columns + map[] == p.columns;
  }

  /** Writing the same update twice is the same as writing it once. */
  lemma UpdateIsIdempotent(p: Profile, u: ProfileUpdate)
    ensures ApplyUpdate(ApplyUpdate(p, u), u) == ApplyUpdate(p, u)
  {
    assert (p.columns + u) + u == p.columns + u;
  }

  /** Updates of disjoint sets of columns commute. */
  lemma DisjointUpdatesCommute(p: Profile, u: ProfileUpdate, v: ProfileUpdate)
    requires u.Keys !! v.Keys
    ensures ApplyUpdate(ApplyUpdate(p, u), v) == ApplyUpdate(ApplyUpdate(p, v), u)
  {
    assert (p.columns + u) + v == (p.columns + v) + u;
  }

  // ---------------------------------------------------------------------
  // Filters on cart_items: `.eq('user_id', u)`, `.eq('product_id', p)`,
  // `.delete().eq('id', id)`, `.delete().eq('user_id', u)`.
  // ---------------------------------------------------------------------

  /** The rows owned by user `u`, in table order. */
  function UserRows(rows: seq<CartRow>, u: UserId): (r: seq<CartRow>)
    ensures |r| <= |rows|
    ensures forall x :: x in r <==> x in rows && x.userId == u
  {
    if rows == [] then []
    else if rows[0].userId == u then [rows[0]] + UserRows(rows[1..], u)
    else UserRows(rows[1..], u)
  }

  /** The rows of user `u` for product `p`, in table order. */
  function Matching(rows: seq<CartRow>, u: UserId, p: ProductId): (r: seq<CartRow>)
    ensures |r| <= |rows|
    ensures forall x :: x in r <==> x in rows && x.userId == u && x.productId == p
  {
    if rows == [] then []
    else if rows[0].userId == u && rows[0].productId == p then [rows[0]] + Matching(rows[1..], u, p)
    else Matching(rows[1..], u, p)
  }

  /** The table after deleting every row whose id is `id`. */
  function WithoutId(rows: seq<CartRow>, id: RowId): (r: seq<CartRow>)
    ensures |r| <= |rows|
    ensures forall x :: x in r <==> x in rows && x.id != id
  {
    if rows == [] then []
    else if rows[0].id == id then WithoutId(rows[1..], id)
    else [rows[0]] + WithoutId(rows[1..], id)
  }

  /** The table after deleting every row owned by `u`. */
  function WithoutUser(rows: seq<CartRow>, u: UserId): (r: seq<CartRow>)
    ensures |r| <= |rows|
    ensures forall x :: x in r <==> x in rows && x.userId != u
  {
    if rows == [] then []
    else if rows[0].userId == u then WithoutUser(rows[1..], u)
    else [rows[0]] + WithoutUser(rows[1..], u)
  }

  /** Each filter keeps every row it selects exactly as often as the table
      holds it, and no other row: nothing is duplicated or dropped. */
  lemma {:induction false} UserRowsCounts(rows: seq<CartRow>, u: UserId)
    ensures forall x :: multiset(UserRows(rows, u))[x] == if x.userId == u then multiset(rows)[x] else 0
  {
    if rows != [] {
      assert rows == [rows[0]] + rows[1..];
      UserRowsCounts(rows[1..], u);
    }
  }

  lemma {:induction false} MatchingCounts(rows: seq<CartRow>, u: UserId, p: ProductId)
    ensures forall x :: multiset(Matching(rows, u, p))[x] ==
                        if x.userId == u && x.productId == p then multiset(rows)[x] else 0
  {
    if rows != [] {
      assert rows == [rows[0]] + rows[1..];
      MatchingCounts(rows[1..], u, p);
    }
  }

  lemma {:induction false} WithoutIdCounts(rows: seq<CartRow>, id: RowId)
    ensures forall x :: multiset(WithoutId(rows, id))[x] == if x.id != id then multiset(rows)[x] else 0
  {
    if rows != [] {
      assert rows == [rows[0]] + rows[1..];
      WithoutIdCounts(rows[1..], id);
    }
  }

  lemma {:induction false} WithoutUserCounts(rows: seq<CartRow>, u: UserId)
    ensures forall x :: multiset(WithoutUser(rows, u))[x] == if x.userId != u then multiset(rows)[x] else 0
  {
    if rows != [] {
      assert rows == [rows[0]] + rows[1..];
      WithoutUserCounts(rows[1..], u);
    }
  }

  /** The table after `.update({ quantity: q }).eq('id', id)`. */
  function WithQuantity(rows: seq<CartRow>, id: RowId, q: int): (r: seq<CartRow>)
    ensures |r| == |rows|
  {
    if rows == [] then []
    else [if rows[0].id == id then rows[0].(quantity := q) else rows[0]] + WithQuantity(rows[1..], id, q)
  }

  /** The update touches only the quantity of the rows with that id. */
  lemma {:induction false} WithQuantityAt(rows: seq<CartRow>, id: RowId, q: int, i: nat)
    requires i < |rows|
    ensures |WithQuantity(rows, id, q)| == |rows|
    ensures WithQuantity(rows, id, q)[i] == if rows[i].id == id then rows[i].(quantity := q) else rows[i]
  {
    if i > 0 {
      WithQuantityAt(rows[1..], id, q, i - 1);
    }
  }

  /** Deleting one user's rows keeps every other user's rows, in order, and none of theirs. */
  lemma {:induction false} WithoutUserKeepsOthers(rows: seq<CartRow>, u: UserId, v: UserId)
    ensures UserRows(WithoutUser(rows, u), v) == if v == u then [] else UserRows(rows, v)
  {
    if rows != [] {
      WithoutUserKeepsOthers(rows[1..], u, v);
      if rows[0].userId != u {
        assert WithoutUser(rows, u) == [rows[0]] + WithoutUser(rows[1..], u);
        assert ([rows[0]] + WithoutUser(rows[1..], u))[1..] == WithoutUser(rows[1..], u);
      }
    }
  }

  /** Updating by id keeps the set of rows each (user, product) pair selects, apart from that quantity. */
  lemma {:induction false} MatchingWithQuantity(rows: seq<CartRow>, u: UserId, p: ProductId, id: RowId, q: int)
    ensures Matching(WithQuantity(rows, id, q), u, p) == WithQuantity(Matching(rows, u, p), id, q)
  {
    if rows != [] {
      MatchingWithQuantity(rows[1..], u, p, id, q);
      var h := if rows[0].id == id then rows[0].(quantity := q) else rows[0];
      assert WithQuantity(rows, id, q) == [h] + WithQuantity(rows[1..], id, q);
      assert ([h] + WithQuantity(rows[1..], id, q))[1..] == WithQuantity(rows[1..], id, q);
      if rows[0].userId == u && rows[0].productId == p {
        assert Matching(rows, u, p) == [rows[0]] + Matching(rows[1..], u, p);
        assert ([rows[0]] + Matching(rows[1..], u, p))[1..] == Matching(rows[1..], u, p);
      }
    }
  }

  /** Appending a row adds it to the end of every filter it passes. */
  lemma {:induction false} MatchingAppend(rows: seq<CartRow>, row: CartRow, u: UserId, p: ProductId)
    ensures Matching(rows + [row], u, p) ==
            Matching(rows, u, p) + (if row.userId == u && row.productId == p then [row] else [])
  {
    if rows == [] {
      assert [row][1..] == [];
    } else {
      assert (rows + [row])[1..] == rows[1..] + [row];
      MatchingAppend(rows[1..], row, u, p);
    }
  }

  // ---------------------------------------------------------------------
  // The cart query: `select('*, product:products(*)')
  //   .eq('user_id', u).order('created_at', { ascending: false })`.
  // ---------------------------------------------------------------------

  function ProductFor(products: map<ProductId, Product>, p: ProductId): Option<Product>
  {
    if p in products then Some(products[p]) else None
  }

  function Join(r: CartRow, products: map<ProductId, Product>): CartItem
  {
    CartItem(r.id, r.userId, r.productId, r.quantity, r.createdAt, ProductFor(products, r.productId))
  }

  /** The row an item was read from. */
  function RowOf(it: CartItem): CartRow
  {
    CartRow(it.id, it.userId, it.productId, it.quantity, it.createdAt)
  }

  function JoinAll(rows: seq<CartRow>, products: map<ProductId, Product>): (r: seq<CartItem>)
    ensures |r| == |rows|
    ensures forall i :: 0 <= i < |rows| ==> r[i] == Join(rows[i], products)
  {
    if rows == [] then [] else [Join(rows[0], products)] + JoinAll(rows[1..], products)
  }

  /** Newest first: creation times never increase along the sequence. */
  predicate NewestFirst(s: seq<CartItem>)
  {
    forall i, j :: 0 <= i < j < |s| ==> s[i].createdAt >= s[j].createdAt
  }

  /** Inserts `x` into a newest-first sequence, ahead of the items no newer than it. */
  function InsertByDate(x: CartItem, s: seq<CartItem>): (r: seq<CartItem>)
    ensures multiset(r) == multiset(s) + multiset{x}
  {
    if s == [] then [x]
    else if s[0].createdAt <= x.createdAt then [x] + s
    else
      assert s == [s[0]] + s[1..];
      [s[0]] + InsertByDate(x, s[1..])
  }

  /** Insertion keeps every creation time within a common upper bound. */
  lemma {:induction false} InsertByDateBounded(x: CartItem, s: seq<CartItem>, bound: int)
    requires x.createdAt <= bound
    requires forall i :: 0 <= i < |s| ==> s[i].createdAt <= bound
    ensures forall i :: 0 <= i < |InsertByDate(x, s)| ==> InsertByDate(x, s)[i].createdAt <= bound
  {
    if s != [] && s[0].createdAt > x.createdAt {
      InsertByDateBounded(x, s[1..], bound);
    }
  }

  /** Insertion keeps a newest-first sequence newest first. */
  lemma {:induction false} InsertByDateSorted(x: CartItem, s: seq<CartItem>)
    requires NewestFirst(s)
    ensures NewestFirst(InsertByDate(x, s))
  {
    if s != [] && s[0].createdAt > x.createdAt {
      var rest := InsertByDate(x, s[1..]);
      InsertByDateSorted(x, s[1..]);
      InsertByDateBounded(x, s[1..], s[0].createdAt);
      var r := [s[0]] + rest;
      assert forall j :: 0 < j < |r| ==> r[j] == rest[j - 1];
    }
  }

  /** The backend's `.order('created_at', { ascending: false })`. Rows with
      equal creation times keep table order. */
  function SortNewestFirst(s: seq<CartItem>): (r: seq<CartItem>)
    ensures multiset(r) == multiset(s)
    ensures NewestFirst(r)
  {
    if s == [] then []
    else
      assert s == [s[0]] + s[1..];
      var sorted := SortNewestFirst(s[1..]);
      InsertByDateSorted(s[0], sorted);
      InsertByDate(s[0], sorted)
  }

  /** What the cart query returns for user `u`. */
  function CartQuery(rows: seq<CartRow>, products: map<ProductId, Product>, u: UserId): seq<CartItem>
  {
    SortNewestFirst(JoinAll(UserRows(rows, u), products))
  }

  /** The cart query returns exactly the user's rows, each joined with its
      product, newest first: nothing of another user, nothing missing, no
      row twice. */
  lemma CartQueryContents(rows: seq<CartRow>, products: map<ProductId, Product>, u: UserId)
    ensures NewestFirst(CartQuery(rows, products, u))
    ensures |CartQuery(rows, products, u)| == |UserRows(rows, u)|
    ensures multiset(CartQuery(rows, products, u)) == multiset(JoinAll(UserRows(rows, u), products))
    ensures forall it :: it in CartQuery(rows, products, u) ==>
              it.userId == u && RowOf(it) in rows && it.product == ProductFor(products, it.productId)
    ensures forall r :: r in rows && r.userId == u ==> Join(r, products) in CartQuery(rows, products, u)
  {
    var own := UserRows(rows, u);
    var joined := JoinAll(own, products);
    var q := CartQuery(rows, products, u);
    assert |multiset(q)| == |multiset(joined)|;
    forall it | it in q
      ensures it.userId == u && RowOf(it) in rows && it.product == ProductFor(products, it.productId)
    {
      assert it in multiset(joined);
      var i :| 0 <= i < |joined| && joined[i] == it;
      assert own[i] in own;
      assert RowOf(it) == own[i];
    }
    forall r | r in rows && r.userId == u
      ensures Join(r, products) in q
    {
      assert r in own;
      var i :| 0 <= i < |own| && own[i] == r;
      assert joined[i] == Join(r, products);
      assert Join(r, products) in multiset(joined);
    }
  }

  /** The backend tables. Only the stores write to `cart_items` and `profiles`. */
  class Database {
    var cartRows: seq<CartRow>
    var products: map<ProductId, Product>
    var profiles: map<UserId, Profile>
    /** The next row id the backend hands out. */
    var nextId: RowId

    /** Every row id was handed out before, so a new id names no existing row. */
    ghost predicate Valid()
      reads this
    {
      forall r :: r in cartRows ==> r.id < nextId
    }

    constructor (products: map<ProductId, Product>, profiles: map<UserId, Profile>)
      ensures Valid()
      ensures cartRows == [] && nextId == 0
      ensures this.products == products && this.profiles == profiles
    {
      cartRows := [];
      this.products := products;
      this.profiles := profiles;
      nextId := 0;
    }

    /** `insert({ user_id, product_id, quantity })`: one new row with a fresh id. */
    method Insert(u: UserId, p: ProductId, q: int, now: int) returns (id: RowId)
      requires Valid()
      modifies this`cartRows, this`nextId
      ensures Valid()
      ensures id == old(nextId) && nextId == id + 1
      ensures forall r :: r in old(cartRows) ==> r.id != id
      ensures cartRows == old(cartRows) + [CartRow(id, u, p, q, now)]
    {
      id := nextId;
      cartRows := cartRows + [CartRow(id, u, p, q, now)];
      nextId := nextId + 1;
    }

    /** `update({ quantity: q }).eq('id', id)`. */
    method UpdateQuantity(id: RowId, q: int)
      requires Valid()
      modifies this`cartRows
      ensures Valid()
      ensures cartRows == WithQuantity(old(cartRows), id, q)
    {
      cartRows := WithQuantity(cartRows, id, q);
      forall r | r in cartRows ensures r.id < nextId {
        var i :| 0 <= i < |cartRows| && cartRows[i] == r;
        WithQuantityAt(old(cartRows), id, q, i);
        assert old(cartRows)[i] in old(cartRows);
      }
    }

    /** `delete().eq('id', id)`. */
    method DeleteById(id: RowId)
      requires Valid()
      modifies this`cartRows
      ensures Valid()
      ensures cartRows == WithoutId(old(cartRows), id)
    {
      cartRows := WithoutId(cartRows, id);
    }

    /** `delete().eq('user_id', u)`. */
    method DeleteByUser(u: UserId)
      requires Valid()
      modifies this`cartRows
      ensures Valid()
      ensures cartRows == WithoutUser(old(cartRows), u)
    {
      cartRows := WithoutUser(cartRows, u);
    }

    /** `profiles.update(updates).eq('id', uid)`: a missing row makes it a no-op. */
    method UpdateProfile(uid: UserId, updates: ProfileUpdate)
      modifies this`profiles
      ensures profiles == if uid in old(profiles)
                          then old(profiles)[uid := ApplyUpdate(old(profiles)[uid], updates)]
                          else old(profiles)
    {
      if uid in profiles {
        profiles := profiles[uid := ApplyUpdate(profiles[uid], updates)];
      }
    }
  }
}

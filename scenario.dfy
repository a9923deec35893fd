/** Clients of the two stores that walk through a cart session using
    nothing but the stores' contracts. */
module Scenario {
  import opened Backend
  import opened Auth
  import opened Cart

  lemma OneLineTotals(it: CartItem)
    ensures Sum([it], Quantity) == it.quantity
    ensures Sum([it], LinePrice) == LinePrice(it)
  {
  }

  /** A product priced 25.00 is added, added again, and then set to
      quantity 0. */
  method AddTwiceThenZero()
  {
    var p := Product("P", "Product P", 2500, 10);
    var db := new Database(map["P" := p], map[]);
    var auth := new AuthStore(db);
    auth.OnAuthStateChange(Some(User("u1", "u1@example.com")), Err("no profile row"));
    var cart := new CartStore(auth, db);

    // No row yet: `.single()` answers with an error and a row is inserted.
    var r := cart.AddToCart("P", Err("no rows"), Ok, Ok, 100);
    var row := CartRow(0, "u1", "P", 1, 100);
    assert db.cartRows == [row];
    assert UserRows([row], "u1") == [row];
    var line := Join(row, db.products);
    assert cart.items == [line];
    OneLineTotals(line);
    assert r == Done && cart.GetTotalItems() == 1 && cart.GetTotalPrice() == 2500;

    // The row exists: the quantities are merged, no second row appears.
    r := cart.AddToCart("P", Ok, Ok, Ok, 200);
    assert Matching([row], "u1", "P") == [row];
    var merged := row.(quantity := 2);
    assert db.cartRows == [merged];
    assert UserRows([merged], "u1") == [merged];
    line := Join(merged, db.products);
    assert cart.items == [line];
    OneLineTotals(line);
    assert r == Done && cart.GetTotalItems() == 2 && cart.GetTotalPrice() == 5000;

    // Quantity 0 removes the row.
    r := cart.UpdateQuantity(0, 0, Ok, Ok);
    assert db.cartRows == [];
    assert r == Done && cart.items == [] && cart.GetTotalItems() == 0 && cart.GetTotalPrice() == 0;
  }

  /** A failing clear leaves the list as it was; a succeeding one empties
      the list and the user's rows. */
  method ClearAfterAdd()
  {
    var p := Product("P", "Product P", 2500, 10);
    var db := new Database(map["P" := p], map[]);
    var auth := new AuthStore(db);
    auth.OnAuthStateChange(Some(User("u1", "u1@example.com")), Err("no profile row"));
    var cart := new CartStore(auth, db);
    var r := cart.AddToCart("P", Err("no rows"), Ok, Ok, 300);
    assert r == Done;
    var before := cart.items;
    cart.ClearCart(Err("network"));
    assert cart.items == before;
    cart.ClearCart(Ok);
    assert cart.items == [] && UserRows(db.cartRows, "u1") == [];
  }
}

/**
 * CheckCart: reads a customer's shopping cart, writing nothing.
 */
module CheckCart {
  import opened Schema
  import Rng

  /** getShoppingCartLines: every row of the query's result set, in the order returned. */
  method GetShoppingCartLines(db: Database, w: int, d: int, c: int) returns (lines: seq<CartLine>)
    ensures lines == db.scan(CartOf(db.cart, w, d, c))
  {
    var rows := db.scan(CartOf(db.cart, w, d, c));
    lines := [];
    for k := 0 to |rows|
      invariant lines == rows[..k]
    {
      lines := lines + [rows[k]];
    }
  }

  /**
   * The lines read are exactly customer (w, d, c)'s cart rows, each as often as it is in
   * the cart, and there are none exactly when the customer has none.
   */
  lemma CheckCartReadsCart(scan: Scan, cart: seq<CartLine>, w: int, d: int, c: int)
    requires Enumerates(scan)
    ensures var lines := scan(CartOf(cart, w, d, c));
      && (forall x :: multiset(lines)[x] == if OfCustomer(x, w, d, c) then multiset(cart)[x] else 0)
      && (forall k :: 0 <= k < |lines| ==> OfCustomer(lines[k], w, d, c) && lines[k] in cart)
      && (lines == [] <==> forall k :: 0 <= k < |cart| ==> !OfCustomer(cart[k], w, d, c))
  {
    var rows := CartOf(cart, w, d, c);
    var lines := scan(rows);
    assert multiset(lines) == multiset(rows);
    forall k | 0 <= k < |lines|
      ensures OfCustomer(lines[k], w, d, c) && lines[k] in cart
    {
      assert lines[k] in multiset(lines);
    }
    if lines == [] {
      forall k | 0 <= k < |cart|
        ensures !OfCustomer(cart[k], w, d, c)
      {
        assert cart[k] in multiset(cart);
      }
    } else {
      assert lines[0] in multiset(lines);
    }
  }

  /** run: a district in the terminal's range and a customer; the procedure only reads. */
  method Run(db: Database, rng: Rng.Source, terminalW: int, dLo: int, dHi: int)
    returns (d: int, c: int, lines: seq<CartLine>)
    requires dLo <= dHi
    modifies rng
    ensures dLo <= d <= dHi
    ensures lines == db.scan(CartOf(db.cart, terminalW, d, c))
  {
    d := rng.Number(dLo, dHi);
    c := rng.Any();
    lines := GetShoppingCartLines(db, terminalW, d, c);
  }
}

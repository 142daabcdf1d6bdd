/**
 * DecreaseCartLine: picks one of the items in a customer's cart by a number, takes a quantity
 * off it, and updates its rows or, when nothing is left, deletes them.
 */
module DecreaseCartLine {
  import opened Schema
  import Rng
  import Batching

  /** Java's int remainder a % b for b > 0: truncating, so it has the sign of a. */
  function JavaRem(a: int, b: int): (r: int)
    requires b > 0
    ensures a >= 0 ==> r == a % b
    ensures a < 0 ==> -b < r <= 0 && (r == 0 <==> a % b == 0)
  {
    if a >= 0 then a % b else NegModZero(a, b); -((-a) % b)
  }

  /** a % b == 0 exactly when (-a) % b == 0. */
  lemma NegModZero(a: int, b: int)
    requires b > 0
    ensures a % b == 0 <==> (-a) % b == 0
  {
    if a % b == 0 {
      assert -a == (-(a / b)) * b;
      Batching.DivModUnique(-a, b, -(a / b), 0);
    }
    if (-a) % b == 0 {
      assert a == (-((-a) / b)) * b;
      Batching.DivModUnique(a, b, -((-a) / b), 0);
    }
  }

  /**
   * getItemToDecrease on the item ids the cart query returns: none is an expected rollback;
   * otherwise the id at index number % size, where a negative index makes List.get throw.
   */
  function ItemToDecrease(rows: seq<CartLine>, number: int): (r: Read<int>)
    ensures rows == [] ==> r == Stop(UserAbort(EmptyCart))
    ensures rows != [] && number >= 0 ==> r == Ok(rows[number % |rows|].item)
    ensures rows != [] && number < 0 ==>
              r == if number % |rows| == 0 then Ok(rows[0].item) else Stop(Fault(IndexOutOfBounds))
    ensures r.Ok? ==> exists k :: 0 <= k < |rows| && rows[k].item == r.value
  {
    if rows == [] then Stop(UserAbort(EmptyCart))
    else
      var idx := JavaRem(number, |rows|);
      if idx < 0 then Stop(Fault(IndexOutOfBounds)) else Ok(rows[idx].item)
  }

  /** The item the transaction picks from customer (w, d, c)'s cart. */
  function PickedItem(t: Tables, scan: Scan, w: int, d: int, c: int, number: int): Read<int>
  {
    ItemToDecrease(scan(CartOf(t.cart, w, d, c)), number)
  }

  /** The whole transaction on a snapshot of the tables; nothing is written unless it commits. */
  function Decrease(t: Tables, scan: Scan, w: int, d: int, c: int, number: int, removeQty: int): (e: Effect)
    ensures !e.outcome.Commit? ==> e.tables == t
  {
    match MissingRow(t, w, d, c)
    case Some(o) => Effect(o, t)
    case None =>
      match PickedItem(t, scan, w, d, c, number)
      case Stop(o) => Effect(o, t)
      case Ok(item) => DecreaseItem(t, scan, w, d, c, item, removeQty)
  }

  /** The transaction once item has been picked. */
  function DecreaseItem(t: Tables, scan: Scan, w: int, d: int, c: int, item: int, removeQty: int): (e: Effect)
    ensures !e.outcome.Commit? ==> e.tables == t
  {
    var q := ItemInCartQuantity(scan(ItemRows(t.cart, w, d, c, item))) - removeQty;
    if item !in t.items then Effect(UserAbort(ItemNotFound), t)
    else if q > 0 then Effect(Commit, t.(cart := SetQuantity(t.cart, w, d, c, item, q, q * t.items[item].price)))
    else Effect(Commit, t.(cart := RemoveItem(t.cart, w, d, c, item)))
  }

  /** getItemToDecrease: collects the item ids of the query's rows into a list and indexes it. */
  method GetItemToDecrease(db: Database, w: int, d: int, c: int, number: int) returns (r: Read<int>)
    ensures r == ItemToDecrease(db.scan(CartOf(db.cart, w, d, c)), number)
  {
    var rows := db.scan(CartOf(db.cart, w, d, c));
    if |rows| == 0 {
      return Stop(UserAbort(EmptyCart));
    }
    var ids := [rows[0].item];
    var k := 1;
    while k < |rows|
      invariant 1 <= k <= |rows| && |ids| == k
      invariant forall j :: 0 <= j < k ==> ids[j] == rows[j].item
    {
      ids := ids + [rows[k].item];
      k := k + 1;
    }
    var idx := JavaRem(number, |ids|);
    if idx < 0 {
      return Stop(Fault(IndexOutOfBounds));
    }
    return Ok(ids[idx]);
  }

  /**
   * decreaseCartLineTransaction: the checks, the item to decrease, its quantity in the cart
   * minus the quantity to remove, the item price, then an update of the item's rows when
   * some quantity is left and their deletion otherwise.
   */
  method DecreaseCartLineTransaction(db: Database, w: int, d: int, c: int, number: int, removeQty: int)
    returns (outcome: Outcome)
    modifies db
    ensures outcome == Decrease(old(db.Snapshot()), db.scan, w, d, c, number, removeQty).outcome
    ensures db.Snapshot() == Decrease(old(db.Snapshot()), db.scan, w, d, c, number, removeQty).tables
  {
    var t := db.Snapshot();
    if (w, d, c) !in t.customers {
      return Fault(CustomerNotFound);
    }
    if w !in t.warehouses {
      return Fault(WarehouseNotFound);
    }
    if (w, d) !in t.districts {
      return Fault(DistrictNotFound);
    }
    var picked := GetItemToDecrease(db, w, d, c, number);
    if picked.Stop? {
      return picked.outcome;
    }
    outcome := DecreaseItemTransaction(db, w, d, c, picked.value, removeQty);
  }

  /** The rest of decreaseCartLineTransaction, from the quantity in the cart on. */
  method DecreaseItemTransaction(db: Database, w: int, d: int, c: int, item: int, removeQty: int)
    returns (outcome: Outcome)
    modifies db
    ensures outcome == DecreaseItem(old(db.Snapshot()), db.scan, w, d, c, item, removeQty).outcome
    ensures db.Snapshot() == DecreaseItem(old(db.Snapshot()), db.scan, w, d, c, item, removeQty).tables
  {
    var t := db.Snapshot();
    var inCartQnty := ItemInCartQuantity(db.scan(ItemRows(t.cart, w, d, c, item)));
    var quantity := inCartQnty - removeQty;
    if item !in t.items {
      return UserAbort(ItemNotFound);
    }
    var amount := quantity * t.items[item].price;
    var cart: seq<CartLine>;
    if quantity > 0 {
      cart := SetQuantity(t.cart, w, d, c, item, quantity, amount);
    } else {
      cart := RemoveItem(t.cart, w, d, c, item);
    }
    db.Install(t.(cart := cart));
    return Commit;
  }

  /** The parameters run draws for one transaction. */
  datatype Request = Request(d: int, c: int, number: int, removeQty: int)

  /** run: a district in the terminal's range, a customer, a number in 0..10000 and a quantity in 1..10. */
  method Run(db: Database, rng: Rng.Source, terminalW: int, dLo: int, dHi: int) returns (r: Request, outcome: Outcome)
    requires dLo <= dHi
    modifies db, rng
    ensures dLo <= r.d <= dHi && 0 <= r.number <= 10000 && 1 <= r.removeQty <= 10
    ensures outcome == Decrease(old(db.Snapshot()), db.scan, terminalW, r.d, r.c, r.number, r.removeQty).outcome
    ensures db.Snapshot() == Decrease(old(db.Snapshot()), db.scan, terminalW, r.d, r.c, r.number, r.removeQty).tables
  {
    var districtID := rng.Number(dLo, dHi);
    var customerID := rng.Any();
    var item := rng.Number(0, 10000);
    var removeQuantity := rng.Number(1, 10);
    r := Request(districtID, customerID, item, removeQuantity);
    outcome := DecreaseCartLineTransaction(db, terminalW, districtID, customerID, item, removeQuantity);
  }

  // ---------------------------------------------------------------------------------------
  // Properties of the transaction.

  /** The picked item is one of the customer's cart rows. */
  lemma PickedFromCart(t: Tables, scan: Scan, w: int, d: int, c: int, number: int)
    requires Enumerates(scan)
    ensures PickedItem(t, scan, w, d, c, number).Ok? ==>
              exists l :: l in t.cart && KeyIs(l, w, d, c, PickedItem(t, scan, w, d, c, number).value)
  {
    var rows := scan(CartOf(t.cart, w, d, c));
    var r := PickedItem(t, scan, w, d, c, number);
    if r.Ok? {
      var k :| 0 <= k < |rows| && rows[k].item == r.value;
      assert rows[k] in multiset(rows);
      assert rows[k] in multiset(CartOf(t.cart, w, d, c));
      assert rows[k] in t.cart && KeyIs(rows[k], w, d, c, r.value);
    }
  }

  /**
   * Which way the transaction ends: a missing customer, warehouse or district faults; an
   * empty cart is an expected rollback, and so is a picked item that is not in the item
   * table; a number drawn as run draws it (never negative) never indexes out of bounds; and
   * otherwise it commits.
   */
  lemma DecreaseOutcomes(t: Tables, scan: Scan, w: int, d: int, c: int, number: int, removeQty: int)
    requires Enumerates(scan)
    ensures MissingRow(t, w, d, c).Some? ==>
              Decrease(t, scan, w, d, c, number, removeQty).outcome == MissingRow(t, w, d, c).value
    ensures MissingRow(t, w, d, c).None? && CartOf(t.cart, w, d, c) == [] ==>
              Decrease(t, scan, w, d, c, number, removeQty).outcome == UserAbort(EmptyCart)
    ensures number >= 0 ==> Decrease(t, scan, w, d, c, number, removeQty).outcome != Fault(IndexOutOfBounds)
    ensures MissingRow(t, w, d, c).None? && PickedItem(t, scan, w, d, c, number).Ok? ==>
              (Decrease(t, scan, w, d, c, number, removeQty).outcome == Commit <==>
               PickedItem(t, scan, w, d, c, number).value in t.items)
    ensures MissingRow(t, w, d, c).None? && PickedItem(t, scan, w, d, c, number).Ok?
            && PickedItem(t, scan, w, d, c, number).value !in t.items ==>
              Decrease(t, scan, w, d, c, number, removeQty) == Effect(UserAbort(ItemNotFound), t)
    ensures Decrease(t, scan, w, d, c, number, removeQty).outcome == Commit ==>
              MissingRow(t, w, d, c).None? && CartOf(t.cart, w, d, c) != []
  {
    ScanLength(scan, CartOf(t.cart, w, d, c));
  }

  /** A negative number faults exactly when it is not a multiple of the number of rows. */
  lemma NegativeNumber(t: Tables, scan: Scan, w: int, d: int, c: int, number: int, removeQty: int)
    requires Enumerates(scan)
    requires MissingRow(t, w, d, c).None? && CartOf(t.cart, w, d, c) != [] && number < 0
    ensures Decrease(t, scan, w, d, c, number, removeQty).outcome == Fault(IndexOutOfBounds) <==>
              number % |CartOf(t.cart, w, d, c)| != 0
  {
    ScanLength(scan, CartOf(t.cart, w, d, c));
  }

  /** The quantity left of item i once removeQty is taken off the first row the scan returns. */
  function Left(t: Tables, scan: Scan, w: int, d: int, c: int, i: int, removeQty: int): int
  {
    ItemInCartQuantity(scan(ItemRows(t.cart, w, d, c, i))) - removeQty
  }

  /**
   * A committed decrease picked an item i that is in the item table and in the customer's
   * cart; the quantity left is that of one of the customer's rows for i minus the quantity
   * removed; and no table other than the cart changes.
   */
  lemma DecreasePicked(t: Tables, scan: Scan, w: int, d: int, c: int, number: int, removeQty: int)
    requires Enumerates(scan)
    requires Decrease(t, scan, w, d, c, number, removeQty).outcome == Commit
    ensures PickedItem(t, scan, w, d, c, number).Ok?
    ensures PickedItem(t, scan, w, d, c, number).value in t.items
    ensures var i := PickedItem(t, scan, w, d, c, number).value;
      exists r :: r in t.cart && KeyIs(r, w, d, c, i) && Left(t, scan, w, d, c, i, removeQty) == r.quantity - removeQty
    ensures var e := Decrease(t, scan, w, d, c, number, removeQty).tables;
      e == t.(cart := e.cart)
  {
    PickedFromCart(t, scan, w, d, c, number);
    var i := PickedItem(t, scan, w, d, c, number).value;
    var l :| l in t.cart && KeyIs(l, w, d, c, i);
    var rows := ItemRows(t.cart, w, d, c, i);
    assert l in multiset(rows);
    ScanLength(scan, rows);
    var first := scan(rows)[0];
    assert first in multiset(scan(rows));
    assert first in multiset(rows);
    assert first in t.cart && KeyIs(first, w, d, c, i);
  }

  /**
   * When some quantity is left, every row of the customer's for the picked item takes it,
   * with the matching amount, and every other row stays where and as it was.
   */
  lemma DecreaseUpdates(t: Tables, scan: Scan, w: int, d: int, c: int, number: int, removeQty: int)
    requires Decrease(t, scan, w, d, c, number, removeQty).outcome == Commit
    requires PickedItem(t, scan, w, d, c, number).Ok?
    requires Left(t, scan, w, d, c, PickedItem(t, scan, w, d, c, number).value, removeQty) > 0
    ensures var i := PickedItem(t, scan, w, d, c, number).value;
      var e := Decrease(t, scan, w, d, c, number, removeQty).tables;
      var q := Left(t, scan, w, d, c, i, removeQty);
      && |e.cart| == |t.cart|
      && forall k :: 0 <= k < |t.cart| ==>
           e.cart[k] == if KeyIs(t.cart[k], w, d, c, i)
                        then t.cart[k].(quantity := q, amount := q * t.items[i].price) else t.cart[k]
  {
  }

  /**
   * When nothing is left, the customer's rows for the picked item are deleted and every
   * other row stays, as often as it was there.
   */
  lemma DecreaseDeletes(t: Tables, scan: Scan, w: int, d: int, c: int, number: int, removeQty: int)
    requires Decrease(t, scan, w, d, c, number, removeQty).outcome == Commit
    requires PickedItem(t, scan, w, d, c, number).Ok?
    requires Left(t, scan, w, d, c, PickedItem(t, scan, w, d, c, number).value, removeQty) <= 0
    ensures var i := PickedItem(t, scan, w, d, c, number).value;
      var e := Decrease(t, scan, w, d, c, number, removeQty).tables;
      forall x :: multiset(e.cart)[x] == if KeyIs(x, w, d, c, i) then 0 else multiset(t.cart)[x]
  {
  }

  /**
   * Taking at least its whole quantity off an item held in a single row empties the cart of
   * that item.
   */
  lemma RemovingAllDeletes(t: Tables, scan: Scan, w: int, d: int, c: int, number: int, removeQty: int, row: CartLine)
    requires Enumerates(scan)
    requires Decrease(t, scan, w, d, c, number, removeQty).outcome == Commit
    requires PickedItem(t, scan, w, d, c, number) == Ok(row.item)
    requires ItemRows(t.cart, w, d, c, row.item) == [row] && row.quantity <= removeQty
    ensures ItemRows(Decrease(t, scan, w, d, c, number, removeQty).tables.cart, w, d, c, row.item) == []
  {
    var rows := ItemRows(t.cart, w, d, c, row.item);
    ScanLength(scan, rows);
    var first := scan(rows)[0];
    assert first in multiset(scan(rows));
    assert first in multiset(rows);
    assert first == row;
    DecreaseDeletes(t, scan, w, d, c, number, removeQty);
    var left := ItemRows(Decrease(t, scan, w, d, c, number, removeQty).tables.cart, w, d, c, row.item);
    assert multiset(left) == multiset{};
  }
}

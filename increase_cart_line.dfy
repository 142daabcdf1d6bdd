/**
 * IncreaseCartLine: adds a quantity of an item to a customer's shopping cart. The quantity
 * already in the cart for that item is added to the requested one, matching rows are updated
 * (keyed by the supplying warehouse), and a new cart row is always inserted.
 */
module IncreaseCartLine {
  import opened Schema
  import Rng

  /** GeoCConfig.INVALID_ITEM_ID: an item id no item has, used to force an expected rollback. */
  const InvalidItemId: int := -12345

  /** MAX(_SCL_NUMBER) over customer (w, d, c)'s cart rows; None (SQL NULL) when there are none. */
  function MaxNumber(cart: seq<CartLine>, w: int, d: int, c: int): (m: Option<int>)
    ensures m.None? <==> forall k :: 0 <= k < |cart| ==> !OfCustomer(cart[k], w, d, c)
    ensures m.Some? ==> forall k :: 0 <= k < |cart| && OfCustomer(cart[k], w, d, c) ==> cart[k].number <= m.value
    ensures m.Some? ==> exists k :: 0 <= k < |cart| && OfCustomer(cart[k], w, d, c) && cart[k].number == m.value
  {
    if cart == [] then None
    else
      var last := cart[|cart| - 1];
      var m := MaxNumber(cart[..|cart| - 1], w, d, c);
      if !OfCustomer(last, w, d, c) then m
      else if m.None? || m.value < last.number then Some(last.number)
      else m
  }

  /**
   * getNextItemID: rs.getInt("LAST_LINE") + 1. The aggregate always yields one row, so the
   * UserAbort of the missing-row test cannot happen; a NULL maximum reads as 0.
   */
  function NextLineNumber(cart: seq<CartLine>, w: int, d: int, c: int): (n: int)
    ensures forall k :: 0 <= k < |cart| && OfCustomer(cart[k], w, d, c) ==> cart[k].number < n
    ensures (forall k :: 0 <= k < |cart| ==> !OfCustomer(cart[k], w, d, c)) ==> n == 1
    ensures (exists k :: 0 <= k < |cart| && OfCustomer(cart[k], w, d, c)) ==>
              exists k :: 0 <= k < |cart| && OfCustomer(cart[k], w, d, c) && cart[k].number == n - 1
  {
    var m := MaxNumber(cart, w, d, c);
    (if m.Some? then m.value else 0) + 1
  }

  /** The whole transaction on a snapshot of the tables; nothing is written unless it commits. */
  function Increase(t: Tables, scan: Scan, w: int, d: int, c: int, item: int, supplyW: int,
                    qty: int, now: Time): (e: Effect)
    ensures !e.outcome.Commit? ==> e.tables == t
  {
    match MissingRow(t, w, d, c)
    case Some(o) => Effect(o, t)
    case None =>
      var inCart := ItemInCartQuantity(scan(ItemRows(t.cart, w, d, c, item)));
      var quantity := qty + inCart;
      if item !in t.items then Effect(UserAbort(ItemNotFound), t)
      else
        var amount := quantity * t.items[item].price;
        var cart := if inCart != 0 then SetQuantity(t.cart, supplyW, d, c, item, quantity, amount) else t.cart;
        if (supplyW, item) !in t.stock then Effect(Fault(StockNotFound), t)
        else
          var line := CartLine(c, d, w, item, supplyW, now, quantity, amount,
                               DistInfo(d, t.stock[(supplyW, item)].dist), NextLineNumber(cart, w, d, c));
          Effect(Commit, t.(cart := cart + [line]))
  }

  /**
   * increaseCartLineTransaction: the checks, the in-cart quantity, the item price, the update
   * of matching rows, the stock read (an insufficient quantity changes nothing), the next
   * line number and the insert.
   */
  method IncreaseCartLineTransaction(db: Database, w: int, d: int, c: int, item: int, supplyW: int,
                                     qty: int, now: Time)
    returns (outcome: Outcome)
    modifies db
    ensures outcome == Increase(old(db.Snapshot()), db.scan, w, d, c, item, supplyW, qty, now).outcome
    ensures db.Snapshot() == Increase(old(db.Snapshot()), db.scan, w, d, c, item, supplyW, qty, now).tables
  {
    var t := db.Snapshot();
    if (w, d, c) !in t.customers {
      return Fault(CustomerNotFound);
    }
    if w !in t.warehouses {
      return Fault(WarehouseNotFound);
    }
    if (w, d) !in t.districts {
      return Fault(DistrictNotFound);
    }
    var inCartQnty := ItemInCartQuantity(db.scan(ItemRows(t.cart, w, d, c, item)));
    var quantity := qty + inCartQnty;
    if item !in t.items {
      return UserAbort(ItemNotFound);
    }
    var amount := quantity * t.items[item].price;
    var cart := t.cart;
    if inCartQnty != 0 {
      cart := SetQuantity(cart, supplyW, d, c, item, quantity, amount);
    }
    if (supplyW, item) !in t.stock {
      return Fault(StockNotFound);
    }
    var s := t.stock[(supplyW, item)];
    if s.quantity < quantity {
      // The source leaves this branch empty: a short stock does not stop the insert.
    }
    var distInfo := DistInfo(d, s.dist);
    var nextId := NextLineNumber(cart, w, d, c);
    cart := cart + [CartLine(c, d, w, item, supplyW, now, quantity, amount, distInfo, nextId)];
    db.Install(t.(cart := cart));
    return Commit;
  }

  /** The parameters run draws for one transaction. */
  datatype Request = Request(d: int, c: int, numItems: int, item: int, supplyW: int, qty: int, allLocal: int)

  /** Every warehouse in 1..numWarehouses but home. */
  function Others(home: int, numWarehouses: int): (r: set<int>)
    ensures forall x :: x in r <==> 1 <= x <= numWarehouses && x != home
  {
    Rng.Between(1, numWarehouses) - {home}
  }

  /**
   * The supplying warehouse: home when the 1..100 draw exceeds 1; otherwise draws from
   * 1..numWarehouses until one differs from home (once only when there is one warehouse),
   * and the order is not local.
   */
  method ChooseSupplier(rng: Rng.Source, home: int, numWarehouses: int) returns (supplyW: int, allLocal: int)
    requires numWarehouses >= 1
    requires numWarehouses > 1 ==> Rng.Fair(rng.raw, 1, numWarehouses, Others(home, numWarehouses))
    modifies rng
    ensures rng.pos > old(rng.pos)
    ensures allLocal == 0 || allLocal == 1
    ensures allLocal == 1 <==> Rng.Reduce(rng.raw(old(rng.pos)), 1, 100) > 1
    ensures allLocal == 1 ==> supplyW == home && rng.pos == old(rng.pos) + 1
    ensures allLocal == 0 ==> 1 <= supplyW <= numWarehouses
    ensures allLocal == 0 && numWarehouses > 1 ==> supplyW != home
  {
    allLocal := 1;
    var branch := rng.Number(1, 100);
    if branch > 1 {
      supplyW := home;
    } else {
      ghost var target: nat := rng.pos;
      if numWarehouses > 1 {
        assert Rng.EventuallyIn(rng.raw, rng.pos, 1, numWarehouses, Others(home, numWarehouses));
        target :| target >= rng.pos && Rng.Reduce(rng.raw(target), 1, numWarehouses) in Others(home, numWarehouses);
      }
      supplyW := rng.Number(1, numWarehouses);
      while supplyW == home && numWarehouses > 1
        invariant 1 <= supplyW <= numWarehouses
        invariant rng.pos >= 1 && supplyW == Rng.Reduce(rng.raw(rng.pos - 1), 1, numWarehouses)
        invariant numWarehouses > 1 ==> rng.pos - 1 <= target
        invariant numWarehouses > 1 ==> Rng.Reduce(rng.raw(target), 1, numWarehouses) in Others(home, numWarehouses)
        decreases target - (rng.pos - 1)
      {
        supplyW := rng.Number(1, numWarehouses);
      }
      allLocal := 0;
    }
  }

  /**
   * The draws of run: a random district in the terminal's range, a customer and an item drawn
   * by getCustomerID and getItemID, a quantity in 1..10, the supplying warehouse (remote
   * exactly when its 1..100 draw is 1), and the invalid item id instead of the drawn one
   * exactly when the last 1..100 draw is 1.
   */
  method DrawRequest(rng: Rng.Source, terminalW: int, numWarehouses: int, dLo: int, dHi: int)
    returns (r: Request)
    requires dLo <= dHi && numWarehouses >= 1
    requires numWarehouses > 1 ==> Rng.Fair(rng.raw, 1, numWarehouses, Others(terminalW, numWarehouses))
    modifies rng
    ensures dLo <= r.d <= dHi && 5 <= r.numItems <= 15 && 1 <= r.qty <= 10
    ensures var p := old(rng.pos);
      && rng.pos >= p + 7
      && r.d == Rng.Reduce(rng.raw(p), dLo, dHi) && r.c == rng.raw(p + 1)
      && r.numItems == Rng.Reduce(rng.raw(p + 2), 5, 15) && r.qty == Rng.Reduce(rng.raw(p + 4), 1, 10)
      && (r.allLocal == 1 <==> Rng.Reduce(rng.raw(p + 5), 1, 100) > 1)
    ensures Rng.Reduce(rng.raw(rng.pos - 1), 1, 100) == 1 ==> r.item == InvalidItemId
    ensures Rng.Reduce(rng.raw(rng.pos - 1), 1, 100) != 1 ==> r.item == rng.raw(old(rng.pos) + 3)
    ensures r.allLocal == 0 || r.allLocal == 1
    ensures r.allLocal == 1 ==> r.supplyW == terminalW
    ensures r.allLocal == 0 ==> 1 <= r.supplyW <= numWarehouses
    ensures r.allLocal == 0 && numWarehouses > 1 ==> r.supplyW != terminalW
  {
    var districtID := rng.Number(dLo, dHi);
    var customerID := rng.Any();
    var numItems := rng.Number(5, 15);
    var itemID := rng.Any();
    var orderQuantity := rng.Number(1, 10);
    var supplyW, allLocal := ChooseSupplier(rng, terminalW, numWarehouses);
    var rollback := rng.Number(1, 100);
    if rollback == 1 {
      itemID := InvalidItemId;
    }
    r := Request(districtID, customerID, numItems, itemID, supplyW, orderQuantity, allLocal);
  }

  /** run: the draws, then the transaction on them. */
  method Run(db: Database, rng: Rng.Source, terminalW: int, numWarehouses: int, dLo: int, dHi: int, now: Time)
    returns (r: Request, outcome: Outcome)
    requires dLo <= dHi && numWarehouses >= 1
    requires numWarehouses > 1 ==> Rng.Fair(rng.raw, 1, numWarehouses, Others(terminalW, numWarehouses))
    modifies db, rng
    ensures dLo <= r.d <= dHi && 5 <= r.numItems <= 15 && 1 <= r.qty <= 10
    ensures var p := old(rng.pos);
      && rng.pos >= p + 7
      && (r.allLocal == 1 <==> Rng.Reduce(rng.raw(p + 5), 1, 100) > 1)
    ensures Rng.Reduce(rng.raw(rng.pos - 1), 1, 100) == 1 ==> r.item == InvalidItemId
    ensures Rng.Reduce(rng.raw(rng.pos - 1), 1, 100) != 1 ==> r.item == rng.raw(old(rng.pos) + 3)
    ensures r.allLocal == 1 ==> r.supplyW == terminalW
    ensures r.allLocal == 0 ==> 1 <= r.supplyW <= numWarehouses
    ensures r.allLocal == 0 && numWarehouses > 1 ==> r.supplyW != terminalW
    ensures outcome == Increase(old(db.Snapshot()), db.scan, terminalW, r.d, r.c, r.item, r.supplyW, r.qty, now).outcome
    ensures db.Snapshot() == Increase(old(db.Snapshot()), db.scan, terminalW, r.d, r.c, r.item, r.supplyW, r.qty, now).tables
  {
    r := DrawRequest(rng, terminalW, numWarehouses, dLo, dHi);
    ghost var drawn := rng.pos;
    outcome := IncreaseCartLineTransaction(db, terminalW, r.d, r.c, r.item, r.supplyW, r.qty, now);
    assert rng.pos == drawn;
  }

  // ---------------------------------------------------------------------------------------
  // Properties of the transaction.

  /**
   * Which way the transaction ends: a missing customer, warehouse or district faults, a
   * missing item is an expected rollback, a missing stock row faults, and otherwise it
   * commits, whatever the stock quantity.
   */
  lemma IncreaseOutcomes(t: Tables, scan: Scan, w: int, d: int, c: int, item: int, supplyW: int, qty: int, now: Time)
    ensures MissingRow(t, w, d, c).Some? ==>
              Increase(t, scan, w, d, c, item, supplyW, qty, now).outcome == MissingRow(t, w, d, c).value
    ensures MissingRow(t, w, d, c).None? && item !in t.items ==>
              Increase(t, scan, w, d, c, item, supplyW, qty, now).outcome == UserAbort(ItemNotFound)
    ensures MissingRow(t, w, d, c).None? && item in t.items && (supplyW, item) !in t.stock ==>
              Increase(t, scan, w, d, c, item, supplyW, qty, now).outcome == Fault(StockNotFound)
    ensures Increase(t, scan, w, d, c, item, supplyW, qty, now).outcome == Commit <==>
              MissingRow(t, w, d, c).None? && item in t.items && (supplyW, item) in t.stock
  {
  }

  /**
   * The 1% rollback: with item ids all positive, as the loader makes them, the invalid item
   * id is never found, so the transaction ends in an expected rollback once the customer,
   * warehouse and district exist.
   */
  lemma InvalidItemRollsBack(t: Tables, scan: Scan, w: int, d: int, c: int, supplyW: int, qty: int, now: Time)
    requires forall i :: i in t.items ==> i >= 1
    requires MissingRow(t, w, d, c).None?
    ensures Increase(t, scan, w, d, c, InvalidItemId, supplyW, qty, now) == Effect(UserAbort(ItemNotFound), t)
  {
  }

  /**
   * A committed increase appends exactly one cart row, for the customer, the item and the
   * supply warehouse requested, delivered at `now`.
   */
  lemma IncreaseInsertsRow(t: Tables, scan: Scan, w: int, d: int, c: int, item: int, supplyW: int, qty: int, now: Time)
    requires Increase(t, scan, w, d, c, item, supplyW, qty, now).outcome == Commit
    ensures item in t.items && (supplyW, item) in t.stock
    ensures |Increase(t, scan, w, d, c, item, supplyW, qty, now).tables.cart| == |t.cart| + 1
    ensures var line := Increase(t, scan, w, d, c, item, supplyW, qty, now).tables.cart[|t.cart|];
      && line.c == c && line.d == d && line.w == w && line.item == item && line.supplyW == supplyW
      && line.deliveryD == now
  {
    var inCart := ItemInCartQuantity(scan(ItemRows(t.cart, w, d, c, item)));
    var q := qty + inCart;
    var cart := if inCart != 0 then SetQuantity(t.cart, supplyW, d, c, item, q, q * t.items[item].price) else t.cart;
    assert |cart| == |t.cart|;
  }

  /**
   * The new row is priced at its quantity times the item's price and carries the stock
   * row's string for the district.
   */
  lemma IncreaseRowValues(t: Tables, scan: Scan, w: int, d: int, c: int, item: int, supplyW: int, qty: int, now: Time)
    requires Increase(t, scan, w, d, c, item, supplyW, qty, now).outcome == Commit
    ensures item in t.items && (supplyW, item) in t.stock
    ensures |Increase(t, scan, w, d, c, item, supplyW, qty, now).tables.cart| == |t.cart| + 1
    ensures var line := Increase(t, scan, w, d, c, item, supplyW, qty, now).tables.cart[|t.cart|];
      && line.amount == line.quantity * t.items[item].price
      && line.distInfo == DistInfo(d, t.stock[(supplyW, item)].dist)
  {
    IncreaseInsertsRow(t, scan, w, d, c, item, supplyW, qty, now);
  }

  /** Whatever the outcome, the increase writes the cart table only. */
  lemma IncreaseWritesCartOnly(t: Tables, scan: Scan, w: int, d: int, c: int, item: int, supplyW: int, qty: int, now: Time)
    ensures var e := Increase(t, scan, w, d, c, item, supplyW, qty, now).tables;
      e == t.(cart := e.cart)
  {
  }

  /**
   * The new row's quantity is the requested one plus that of the first matching row the scan
   * returns, or just the requested one when the item is not in the customer's cart.
   */
  lemma IncreaseQuantity(t: Tables, scan: Scan, w: int, d: int, c: int, item: int, supplyW: int, qty: int, now: Time)
    requires Enumerates(scan)
    requires Increase(t, scan, w, d, c, item, supplyW, qty, now).outcome == Commit
    ensures var line := Increase(t, scan, w, d, c, item, supplyW, qty, now).tables.cart[|t.cart|];
      && (ItemRows(t.cart, w, d, c, item) == [] ==> line.quantity == qty)
      && (ItemRows(t.cart, w, d, c, item) != [] ==>
            exists r :: r in t.cart && KeyIs(r, w, d, c, item) && line.quantity == qty + r.quantity)
  {
    var rows := ItemRows(t.cart, w, d, c, item);
    ScanLength(scan, rows);
    if rows != [] {
      var first := scan(rows)[0];
      assert first in multiset(scan(rows));
      assert first in multiset(rows);
      assert first in t.cart && KeyIs(first, w, d, c, item);
    }
  }

  /**
   * The new row's line number is above every line number the customer already has, and 1
   * when the customer has no rows.
   */
  lemma IncreaseLineNumber(t: Tables, scan: Scan, w: int, d: int, c: int, item: int, supplyW: int, qty: int, now: Time)
    requires Increase(t, scan, w, d, c, item, supplyW, qty, now).outcome == Commit
    ensures var line := Increase(t, scan, w, d, c, item, supplyW, qty, now).tables.cart[|t.cart|];
      && (forall k :: 0 <= k < |t.cart| && OfCustomer(t.cart[k], w, d, c) ==> t.cart[k].number < line.number)
      && ((forall k :: 0 <= k < |t.cart| ==> !OfCustomer(t.cart[k], w, d, c)) ==> line.number == 1)
  {
    IncreaseInsertsRow(t, scan, w, d, c, item, supplyW, qty, now);
    var inCart := ItemInCartQuantity(scan(ItemRows(t.cart, w, d, c, item)));
    var q := qty + inCart;
    var cart := if inCart != 0 then SetQuantity(t.cart, supplyW, d, c, item, q, q * t.items[item].price) else t.cart;
    assert forall k :: 0 <= k < |t.cart| ==>
      cart[k].number == t.cart[k].number && (OfCustomer(cart[k], w, d, c) <==> OfCustomer(t.cart[k], w, d, c));
  }

  /**
   * When the item is already in the cart, the rows updated are those of the SUPPLY
   * warehouse, district d, customer c and the item; every other existing row is unchanged.
   * When it is not, no existing row changes.
   */
  lemma IncreaseUpdatesRows(t: Tables, scan: Scan, w: int, d: int, c: int, item: int, supplyW: int, qty: int, now: Time)
    requires Increase(t, scan, w, d, c, item, supplyW, qty, now).outcome == Commit
    ensures item in t.items
    ensures var e := Increase(t, scan, w, d, c, item, supplyW, qty, now).tables;
      var inCart := ItemInCartQuantity(scan(ItemRows(t.cart, w, d, c, item)));
      var q := qty + inCart;
      && |e.cart| == |t.cart| + 1
      && forall k :: 0 <= k < |t.cart| ==>
           e.cart[k] == if inCart != 0 && KeyIs(t.cart[k], supplyW, d, c, item)
                        then t.cart[k].(quantity := q, amount := q * t.items[item].price)
                        else t.cart[k]
  {
    IncreaseInsertsRow(t, scan, w, d, c, item, supplyW, qty, now);
  }

  /**
   * The update is keyed by the supply warehouse: when it differs from the home warehouse,
   * the customer's own rows for the item are left as they were, and a second row is added.
   */
  lemma RemoteSupplyLeavesHomeRows(t: Tables, scan: Scan, w: int, d: int, c: int, item: int, supplyW: int, qty: int, now: Time)
    requires supplyW != w
    requires Increase(t, scan, w, d, c, item, supplyW, qty, now).outcome == Commit
    ensures var e := Increase(t, scan, w, d, c, item, supplyW, qty, now).tables;
      forall k :: 0 <= k < |t.cart| && KeyIs(t.cart[k], w, d, c, item) ==> e.cart[k] == t.cart[k]
  {
    IncreaseInsertsRow(t, scan, w, d, c, item, supplyW, qty, now);
  }

  /**
   * Because the insert is unconditional, increasing an item that is already in the cart
   * (one row, supplied by the home warehouse) leaves two rows for that item, both holding
   * the new total quantity.
   */
  lemma IncreaseDuplicatesRow(t: Tables, scan: Scan, w: int, d: int, c: int, item: int, qty: int, now: Time, row: CartLine)
    requires Enumerates(scan)
    requires MissingRow(t, w, d, c).None? && item in t.items && (w, item) in t.stock
    requires ItemRows(t.cart, w, d, c, item) == [row] && row.quantity != 0
    ensures var e := Increase(t, scan, w, d, c, item, w, qty, now);
      && e.outcome == Commit
      && KeyIs(e.tables.cart[|t.cart|], w, d, c, item)
      && e.tables.cart[|t.cart|].quantity == qty + row.quantity
      && exists k :: 0 <= k < |t.cart| && KeyIs(e.tables.cart[k], w, d, c, item)
                     && e.tables.cart[k].quantity == qty + row.quantity
  {
    var rows := ItemRows(t.cart, w, d, c, item);
    ScanLength(scan, rows);
    var first := scan(rows)[0];
    assert first in multiset(scan(rows));
    assert first in multiset(rows);
    assert first == row;
    assert row in multiset(rows);
    assert row in t.cart;
    var k :| 0 <= k < |t.cart| && t.cart[k] == row;
    var e := Increase(t, scan, w, d, c, item, w, qty, now);
    assert KeyIs(e.tables.cart[k], w, d, c, item);
  }
}

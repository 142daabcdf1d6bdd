/**
 * ApproveCart: a supervisor turns a customer's shopping cart into an order. The district's
 * next order number is taken, an OORDER and a NEW_ORDER row are inserted, one ORDER_LINE and
 * one stock update are batched per listed cart line, and the customer's cart is deleted.
 */
module ApproveCart {
  import opened Schema
  import Rng

  /** getSupervisorFromCustomer: rs.getInt(1) reads a NULL _C_IND_ID as 0. */
  function SupervisorValue(c: Customer): (v: int)
    ensures c.supervisor.None? ==> v == 0
    ensures c.supervisor.Some? ==> v == c.supervisor.value
  {
    if c.supervisor.Some? then c.supervisor.value else 0
  }

  /**
   * A scanned row as getShoppingCartLines copies it: _SCL_D_ID is read into the customer
   * field, overwriting _SCL_C_ID, and the district field keeps its default 0.
   */
  function AsListed(row: CartLine): (r: CartLine)
    ensures r.c == row.d && r.d == 0
    ensures r.(c := row.c, d := row.d) == row
  {
    row.(c := row.d, d := 0)
  }

  /** The list getShoppingCartLines builds from a non-empty scan: the emptiness test consumes the first row. */
  function Listed(rows: seq<CartLine>): (r: seq<CartLine>)
    requires rows != []
    ensures |r| == |rows| - 1
    ensures forall j :: 0 <= j < |r| ==>
              && r[j].c == rows[j + 1].d && r[j].d == 0
              && r[j].(c := rows[j + 1].c, d := rows[j + 1].d) == rows[j + 1]
  {
    seq(|rows| - 1, k requires 0 <= k < |rows| - 1 => AsListed(rows[k + 1]))
  }

  /** o_all_local: every listed line is supplied by the home warehouse (true for no lines). */
  function AllLocal(lines: seq<CartLine>, w: int): (b: bool)
    ensures b <==> forall j :: 0 <= j < |lines| ==> lines[j].supplyW == w
  {
    if lines == [] then true
    else lines[|lines| - 1].supplyW == w && AllLocal(lines[..|lines| - 1], w)
  }

  /** Every listed line has a stock row for (supply warehouse, item): getStock finds them all. */
  predicate AllStocked(stock: map<(int, int), Stock>, lines: seq<CartLine>)
  {
    forall j :: 0 <= j < |lines| ==> (lines[j].supplyW, lines[j].item) in stock
  }

  /** One row of the stock batch: S_QUANTITY = quantity, S_YTD += ytd, S_ORDER_CNT += 1, S_REMOTE_CNT += remote. */
  datatype StockUpdate = StockUpdate(w: int, i: int, quantity: int, ytd: int, remote: int)

  function ApplyStockUpdate(stock: map<(int, int), Stock>, u: StockUpdate): (r: map<(int, int), Stock>)
    ensures r.Keys == stock.Keys
  {
    var k := (u.w, u.i);
    if k in stock then
      stock[k := stock[k].(quantity := u.quantity, ytd := stock[k].ytd + u.ytd,
                           orderCnt := stock[k].orderCnt + 1, remoteCnt := stock[k].remoteCnt + u.remote)]
    else stock
  }

  /** executeBatch on the stock statement: the updates run in the order they were added. */
  function ApplyStockUpdates(stock: map<(int, int), Stock>, us: seq<StockUpdate>): (r: map<(int, int), Stock>)
    ensures r.Keys == stock.Keys
  {
    if us == [] then stock
    else ApplyStockUpdate(ApplyStockUpdates(stock, us[..|us| - 1]), us[|us| - 1])
  }

  /** The update the loop adds for a line whose stock row reads s: the quantity is written back unchanged. */
  function UpdateFor(line: CartLine, s: Stock, w: int): (u: StockUpdate)
    ensures (u.w, u.i) == (line.supplyW, line.item)
    ensures u.quantity == s.quantity && u.ytd == line.quantity
    ensures u.remote == 0 || u.remote == 1
    ensures u.remote == 0 <==> line.supplyW == w
  {
    StockUpdate(line.supplyW, line.item, s.quantity, line.quantity, if line.supplyW == w then 0 else 1)
  }

  /** The order line the loop adds for a cart line whose stock row reads s. */
  function LineFor(line: CartLine, s: Stock, w: int, d: int, oId: int): OrderLine
  {
    OrderLine(w, d, oId, line.number, line.item, None, line.amount, line.supplyW, line.quantity,
              DistInfo(d, s.dist))
  }

  function StockUpdates(stock: map<(int, int), Stock>, lines: seq<CartLine>, w: int): (us: seq<StockUpdate>)
    requires AllStocked(stock, lines)
    ensures |us| == |lines|
  {
    if lines == [] then []
    else
      var last := lines[|lines| - 1];
      StockUpdates(stock, lines[..|lines| - 1], w) + [UpdateFor(last, stock[(last.supplyW, last.item)], w)]
  }

  function OrderLines(stock: map<(int, int), Stock>, lines: seq<CartLine>, w: int, d: int, oId: int): (ls: seq<OrderLine>)
    requires AllStocked(stock, lines)
    ensures |ls| == |lines|
  {
    if lines == [] then []
    else
      var last := lines[|lines| - 1];
      OrderLines(stock, lines[..|lines| - 1], w, d, oId) + [LineFor(last, stock[(last.supplyW, last.item)], w, d, oId)]
  }

  /** Total quantity of the lines supplied from stock row k. */
  function QuantityFor(lines: seq<CartLine>, k: (int, int)): int
  {
    if lines == [] then 0
    else
      var last := lines[|lines| - 1];
      QuantityFor(lines[..|lines| - 1], k) + (if (last.supplyW, last.item) == k then last.quantity else 0)
  }

  /** Number of lines supplied from stock row k. */
  function LinesFor(lines: seq<CartLine>, k: (int, int)): nat
  {
    if lines == [] then 0
    else
      var last := lines[|lines| - 1];
      LinesFor(lines[..|lines| - 1], k) + (if (last.supplyW, last.item) == k then 1 else 0)
  }

  /** The whole transaction on a snapshot of the tables; nothing is written unless it commits. */
  function Approve(t: Tables, scan: Scan, w: int, d: int, c: int, indId: int, now: Time): (e: Effect)
    ensures !e.outcome.Commit? ==> e.tables == t
  {
    match MissingRow(t, w, d, c)
    case Some(o) => Effect(o, t)
    case None =>
      var oId := t.districts[(w, d)].nextOId;
      if indId != SupervisorValue(t.customers[(w, d, c)]) then Effect(UserAbort(NotSupervisor), t)
      else
        var rows := scan(CartOf(t.cart, w, d, c));
        if rows == [] then Effect(UserAbort(EmptyCart), t)
        else
          var lines := Listed(rows);
          if !AllStocked(t.stock, lines) then Effect(Fault(StockNotFound), t)
          else Effect(Commit, Placed(t, w, d, c, lines, now))
  }

  /**
   * The writes of a committed approval: the district's counter, the OORDER and NEW_ORDER
   * rows under its old value, the order lines, the stock updates and the cart deletion.
   */
  function Placed(t: Tables, w: int, d: int, c: int, lines: seq<CartLine>, now: Time): (e: Tables)
    requires (w, d) in t.districts && AllStocked(t.stock, lines)
    ensures e.warehouses == t.warehouses && e.customers == t.customers && e.items == t.items
    ensures e.districts.Keys == t.districts.Keys
    ensures e.districts[(w, d)].nextOId == t.districts[(w, d)].nextOId + 1
    ensures |e.orders| == |t.orders| + 1 && |e.newOrders| == |t.newOrders| + 1
    ensures |e.orderLines| == |t.orderLines| + |lines|
    ensures e.stock.Keys == t.stock.Keys
  {
    var oId := t.districts[(w, d)].nextOId;
    t.(districts := t.districts[(w, d) := t.districts[(w, d)].(nextOId := oId + 1)],
       orders := t.orders + [Order(w, d, oId, c, None, |lines|, if AllLocal(lines, w) then 1 else 0, now)],
       newOrders := t.newOrders + [NewOrder(w, d, oId)],
       orderLines := t.orderLines + OrderLines(t.stock, lines, w, d, oId),
       stock := ApplyStockUpdates(t.stock, StockUpdates(t.stock, lines, w)),
       cart := ClearCart(t.cart, w, d, c))
  }

  /**
   * getShoppingCartLines: UserAbort when the scan of customer (w, d, c)'s cart returns no
   * row; otherwise the rows it returns after the first, as AsListed copies them.
   */
  method GetShoppingCartLines(db: Database, w: int, d: int, c: int) returns (r: Read<seq<CartLine>>)
    ensures var rows := db.scan(CartOf(db.cart, w, d, c));
      && (rows == [] ==> r == Stop(UserAbort(EmptyCart)))
      && (rows != [] ==> r == Ok(Listed(rows)))
  {
    var rows := db.scan(CartOf(db.cart, w, d, c));
    if |rows| == 0 {
      return Stop(UserAbort(EmptyCart));
    }
    var lines: seq<CartLine> := [];
    var k := 1;
    while k < |rows|
      invariant 1 <= k <= |rows|
      invariant |lines| == k - 1
      invariant forall j :: 0 <= j < k - 1 ==> lines[j] == AsListed(rows[j + 1])
    {
      lines := lines + [AsListed(rows[k])];
      k := k + 1;
    }
    assert lines == Listed(rows);
    return Ok(lines);
  }

  /** The listed lines are one fewer than customer (w, d, c)'s cart rows. */
  lemma ListedCount(scan: Scan, cart: seq<CartLine>, w: int, d: int, c: int)
    requires Enumerates(scan)
    requires CartOf(cart, w, d, c) != []
    ensures scan(CartOf(cart, w, d, c)) != []
    ensures |Listed(scan(CartOf(cart, w, d, c)))| == |CartOf(cart, w, d, c)| - 1
  {
    ScanLength(scan, CartOf(cart, w, d, c));
  }

  lemma StockUpdatesPrefix(stock: map<(int, int), Stock>, lines: seq<CartLine>, w: int, n: int)
    requires 0 <= n < |lines| && AllStocked(stock, lines[..n]) && (lines[n].supplyW, lines[n].item) in stock
    ensures AllStocked(stock, lines[..n + 1])
    ensures StockUpdates(stock, lines[..n + 1], w)
            == StockUpdates(stock, lines[..n], w) + [UpdateFor(lines[n], stock[(lines[n].supplyW, lines[n].item)], w)]
  {
    assert lines[..n + 1][..n] == lines[..n];
  }

  lemma OrderLinesPrefix(stock: map<(int, int), Stock>, lines: seq<CartLine>, w: int, d: int, oId: int, n: int)
    requires 0 <= n < |lines| && AllStocked(stock, lines[..n]) && (lines[n].supplyW, lines[n].item) in stock
    ensures AllStocked(stock, lines[..n + 1])
    ensures OrderLines(stock, lines[..n + 1], w, d, oId)
            == OrderLines(stock, lines[..n], w, d, oId) + [LineFor(lines[n], stock[(lines[n].supplyW, lines[n].item)], w, d, oId)]
  {
    assert lines[..n + 1][..n] == lines[..n];
  }

  lemma ApplyPrefix(stock: map<(int, int), Stock>, us: seq<StockUpdate>, n: int)
    requires 0 <= n < |us|
    ensures ApplyStockUpdates(stock, us[..n + 1]) == ApplyStockUpdate(ApplyStockUpdates(stock, us[..n]), us[n])
  {
    assert us[..n + 1][..n] == us[..n];
  }

  /**
   * The per-line loop: getStock for each listed line in turn (a missing row is a fault), and
   * the order line and stock update it adds to the two batches.
   */
  method BatchLines(db: Database, cartLines: seq<CartLine>, w: int, d: int, oId: int)
    returns (r: Read<(seq<OrderLine>, seq<StockUpdate>)>)
    ensures !AllStocked(db.stock, cartLines) ==> r == Stop(Fault(StockNotFound))
    ensures AllStocked(db.stock, cartLines) ==>
              r == Ok((OrderLines(db.stock, cartLines, w, d, oId), StockUpdates(db.stock, cartLines, w)))
  {
    var lineBatch: seq<OrderLine> := [];
    var stockBatch: seq<StockUpdate> := [];
    var k := 0;
    while k < |cartLines|
      invariant 0 <= k <= |cartLines|
      invariant AllStocked(db.stock, cartLines[..k])
      invariant lineBatch == OrderLines(db.stock, cartLines[..k], w, d, oId)
      invariant stockBatch == StockUpdates(db.stock, cartLines[..k], w)
    {
      var line := cartLines[k];
      if (line.supplyW, line.item) !in db.stock {
        return Stop(Fault(StockNotFound));
      }
      var s := db.stock[(line.supplyW, line.item)];
      OrderLinesPrefix(db.stock, cartLines, w, d, oId, k);
      StockUpdatesPrefix(db.stock, cartLines, w, k);
      lineBatch := lineBatch + [LineFor(line, s, w, d, oId)];
      stockBatch := stockBatch + [UpdateFor(line, s, w)];
      k := k + 1;
    }
    assert cartLines[..k] == cartLines;
    return Ok((lineBatch, stockBatch));
  }

  /** executeBatch on the stock statement: each update in turn. */
  method ExecuteStockBatch(stock0: map<(int, int), Stock>, us: seq<StockUpdate>) returns (stock: map<(int, int), Stock>)
    ensures stock == ApplyStockUpdates(stock0, us)
  {
    stock := stock0;
    var j := 0;
    while j < |us|
      invariant 0 <= j <= |us|
      invariant stock == ApplyStockUpdates(stock0, us[..j])
    {
      ApplyPrefix(stock0, us, j);
      stock := ApplyStockUpdate(stock, us[j]);
      j := j + 1;
    }
    assert us[..j] == us;
  }

  /**
   * approveCartTransaction: the checks, the cart listing, the district update, the two inserts,
   * the per-line loop that batches order lines and stock updates, the two batch executions and
   * the cart deletion. The tables are written only if every step succeeds.
   */
  method ApproveCartTransaction(db: Database, w: int, d: int, c: int, indId: int, now: Time)
    returns (outcome: Outcome)
    modifies db
    ensures outcome == Approve(old(db.Snapshot()), db.scan, w, d, c, indId, now).outcome
    ensures db.Snapshot() == Approve(old(db.Snapshot()), db.scan, w, d, c, indId, now).tables
  {
    ghost var t := db.Snapshot();
    if (w, d, c) !in db.customers {
      return Fault(CustomerNotFound);
    }
    if w !in db.warehouses {
      return Fault(WarehouseNotFound);
    }
    if (w, d) !in db.districts {
      return Fault(DistrictNotFound);
    }
    var cIndId := SupervisorValue(db.customers[(w, d, c)]);
    if indId != cIndId {
      return UserAbort(NotSupervisor);
    }
    assert MissingRow(t, w, d, c) == None;
    var listed := GetShoppingCartLines(db, w, d, c);
    if listed.Stop? {
      return listed.outcome;
    }
    var cartLines := listed.value;
    assert db.scan(CartOf(t.cart, w, d, c)) != [] && cartLines == Listed(db.scan(CartOf(t.cart, w, d, c)));
    outcome := PlaceOrder(db, w, d, c, cartLines, now);
  }

  /**
   * From updateDistrict on: the district update, the two inserts, the per-line loop, the two
   * batch executions and the cart deletion; a missing stock row faults before anything is written.
   */
  method PlaceOrder(db: Database, w: int, d: int, c: int, cartLines: seq<CartLine>, now: Time)
    returns (outcome: Outcome)
    requires (w, d) in db.districts
    modifies db
    ensures !AllStocked(old(db.stock), cartLines) ==>
              outcome == Fault(StockNotFound) && db.Snapshot() == old(db.Snapshot())
    ensures AllStocked(old(db.stock), cartLines) ==>
              outcome == Commit && db.Snapshot() == Placed(old(db.Snapshot()), w, d, c, cartLines, now)
  {
    ghost var t := db.Snapshot();
    var dNextOId := db.districts[(w, d)].nextOId;
    var olCnt := |cartLines|;
    var allLocal := AllLocal(cartLines, w);

    var districts := db.districts[(w, d) := db.districts[(w, d)].(nextOId := db.districts[(w, d)].nextOId + 1)];
    var orders := db.orders + [Order(w, d, dNextOId, c, None, olCnt, if allLocal then 1 else 0, now)];
    var newOrders := db.newOrders + [NewOrder(w, d, dNextOId)];

    var batches := BatchLines(db, cartLines, w, d, dNextOId);
    if batches.Stop? {
      return batches.outcome;
    }
    var orderLines := db.orderLines + batches.value.0;
    var stock := ExecuteStockBatch(db.stock, batches.value.1);
    var cart := ClearCart(db.cart, w, d, c);
    db.Install(Tables(db.warehouses, districts, db.customers, db.items, stock, orders, newOrders, orderLines, cart));
    return Commit;
  }

  /**
   * run: the terminal's warehouse, a random district in the terminal's range and a customer
   * drawn by getCustomerID; the approving individual is always 1.
   */
  method Run(db: Database, rng: Rng.Source, terminalW: int, dLo: int, dHi: int, now: Time)
    returns (d: int, c: int, outcome: Outcome)
    requires dLo <= dHi
    modifies db, rng
    ensures dLo <= d <= dHi
    ensures outcome == Approve(old(db.Snapshot()), db.scan, terminalW, d, c, 1, now).outcome
    ensures db.Snapshot() == Approve(old(db.Snapshot()), db.scan, terminalW, d, c, 1, now).tables
  {
    d := rng.Number(dLo, dHi);
    c := rng.Any();
    outcome := ApproveCartTransaction(db, terminalW, d, c, 1, now);
  }

  // ---------------------------------------------------------------------------------------
  // Properties of the transaction.

  /** Which way the transaction ends, in terms of the tables it starts from. */
  lemma ApproveOutcomes(t: Tables, scan: Scan, w: int, d: int, c: int, indId: int, now: Time)
    requires Enumerates(scan)
    ensures (w, d, c) !in t.customers ==>
              Approve(t, scan, w, d, c, indId, now).outcome == Fault(CustomerNotFound)
    ensures (w, d, c) in t.customers && w !in t.warehouses ==>
              Approve(t, scan, w, d, c, indId, now).outcome == Fault(WarehouseNotFound)
    ensures (w, d, c) in t.customers && w in t.warehouses && (w, d) !in t.districts ==>
              Approve(t, scan, w, d, c, indId, now).outcome == Fault(DistrictNotFound)
    ensures MissingRow(t, w, d, c).None? && indId != SupervisorValue(t.customers[(w, d, c)]) ==>
              Approve(t, scan, w, d, c, indId, now).outcome == UserAbort(NotSupervisor)
    ensures MissingRow(t, w, d, c).None? && indId == SupervisorValue(t.customers[(w, d, c)])
            && CartOf(t.cart, w, d, c) == [] ==>
              Approve(t, scan, w, d, c, indId, now).outcome == UserAbort(EmptyCart)
    ensures MissingRow(t, w, d, c).None? && indId == SupervisorValue(t.customers[(w, d, c)])
            && CartOf(t.cart, w, d, c) != [] && !AllStocked(t.stock, Listed(scan(CartOf(t.cart, w, d, c)))) ==>
              Approve(t, scan, w, d, c, indId, now).outcome == Fault(StockNotFound)
    ensures Approve(t, scan, w, d, c, indId, now).outcome == Commit <==>
              && MissingRow(t, w, d, c).None?
              && indId == SupervisorValue(t.customers[(w, d, c)])
              && scan(CartOf(t.cart, w, d, c)) != []
              && AllStocked(t.stock, Listed(scan(CartOf(t.cart, w, d, c))))
    ensures scan(CartOf(t.cart, w, d, c)) != [] <==> CartOf(t.cart, w, d, c) != []
  {
    ScanLength(scan, CartOf(t.cart, w, d, c));
  }

  /**
   * The supervisor check: with the approver 1 that run passes, a customer whose _C_IND_ID
   * the loader set to 1 passes, while a NULL _C_IND_ID (read as 0) rejects.
   */
  lemma SupervisorCheck(t: Tables, scan: Scan, w: int, d: int, c: int, now: Time)
    requires MissingRow(t, w, d, c).None?
    ensures t.customers[(w, d, c)].supervisor == Some(1) ==>
              Approve(t, scan, w, d, c, 1, now).outcome != UserAbort(NotSupervisor)
    ensures t.customers[(w, d, c)].supervisor == None ==>
              Approve(t, scan, w, d, c, 1, now).outcome == UserAbort(NotSupervisor)
  {
  }

  /**
   * A committed approval takes the district's next order number, bumps it by one, and
   * inserts one OORDER and one NEW_ORDER row under that number. The order's line count is
   * one less than the customer's cart rows, and it is local exactly when every listed line
   * comes from the home warehouse.
   */
  lemma ApproveOrder(t: Tables, scan: Scan, w: int, d: int, c: int, indId: int, now: Time)
    requires Enumerates(scan)
    requires Approve(t, scan, w, d, c, indId, now).outcome == Commit
    ensures (w, d) in t.districts && CartOf(t.cart, w, d, c) != []
    ensures var e := Approve(t, scan, w, d, c, indId, now).tables;
      var oId := t.districts[(w, d)].nextOId;
      var lines := Listed(scan(CartOf(t.cart, w, d, c)));
      && e.districts.Keys == t.districts.Keys
      && e.districts[(w, d)].nextOId == oId + 1
      && (forall k :: k in t.districts && k != (w, d) ==> e.districts[k] == t.districts[k])
      && |e.orders| == |t.orders| + 1 && e.orders[..|t.orders|] == t.orders
      && e.orders[|t.orders|].id == oId && e.orders[|t.orders|].c == c
      && e.orders[|t.orders|].w == w && e.orders[|t.orders|].d == d
      && e.orders[|t.orders|].carrier == None && e.orders[|t.orders|].entryD == now
      && e.orders[|t.orders|].olCnt == |CartOf(t.cart, w, d, c)| - 1
      && (e.orders[|t.orders|].allLocal == 1 <==> forall j :: 0 <= j < |lines| ==> lines[j].supplyW == w)
      && (e.orders[|t.orders|].allLocal == 0 || e.orders[|t.orders|].allLocal == 1)
      && e.newOrders == t.newOrders + [NewOrder(w, d, oId)]
      && e.warehouses == t.warehouses && e.customers == t.customers && e.items == t.items
  {
    ScanLength(scan, CartOf(t.cart, w, d, c));
    var e := Approve(t, scan, w, d, c, indId, now).tables;
    assert e.orders == t.orders + [e.orders[|t.orders|]];
  }

  lemma {:induction false} OrderLinesShape(stock: map<(int, int), Stock>, lines: seq<CartLine>, w: int, d: int, oId: int)
    requires AllStocked(stock, lines)
    ensures var ls := OrderLines(stock, lines, w, d, oId);
      && |ls| == |lines|
      && forall j :: 0 <= j < |lines| ==>
           ls[j] == OrderLine(w, d, oId, lines[j].number, lines[j].item, None, lines[j].amount,
                              lines[j].supplyW, lines[j].quantity,
                              DistInfo(d, stock[(lines[j].supplyW, lines[j].item)].dist))
  {
    if lines != [] {
      var init := lines[..|lines| - 1];
      assert AllStocked(stock, init);
      OrderLinesShape(stock, init, w, d, oId);
    }
  }

  /** One stock update per listed line, in the order of the lines, read from the line's stock row. */
  lemma {:induction false} StockUpdatesShape(stock: map<(int, int), Stock>, lines: seq<CartLine>, w: int)
    requires AllStocked(stock, lines)
    ensures var us := StockUpdates(stock, lines, w);
      forall j :: 0 <= j < |lines| ==> us[j] == UpdateFor(lines[j], stock[(lines[j].supplyW, lines[j].item)], w)
  {
    if lines != [] {
      var init := lines[..|lines| - 1];
      assert AllStocked(stock, init);
      StockUpdatesShape(stock, init, w);
    }
  }

  /**
   * A committed approval appends exactly one order line per listed cart line, carrying the
   * line's number, item, supply warehouse, quantity and amount, and the supplying stock row's
   * string for district d.
   */
  lemma ApproveOrderLines(t: Tables, scan: Scan, w: int, d: int, c: int, indId: int, now: Time)
    requires Enumerates(scan)
    requires Approve(t, scan, w, d, c, indId, now).outcome == Commit
    ensures (w, d) in t.districts && CartOf(t.cart, w, d, c) != []
    ensures var e := Approve(t, scan, w, d, c, indId, now).tables;
      var oId := t.districts[(w, d)].nextOId;
      var lines := Listed(scan(CartOf(t.cart, w, d, c)));
      && AllStocked(t.stock, lines)
      && |e.orderLines| == |t.orderLines| + |lines|
      && e.orderLines[..|t.orderLines|] == t.orderLines
      && forall j :: 0 <= j < |lines| ==>
           e.orderLines[|t.orderLines| + j] ==
             OrderLine(w, d, oId, lines[j].number, lines[j].item, None, lines[j].amount,
                       lines[j].supplyW, lines[j].quantity,
                       DistInfo(d, t.stock[(lines[j].supplyW, lines[j].item)].dist))
  {
    ScanLength(scan, CartOf(t.cart, w, d, c));
    var lines := Listed(scan(CartOf(t.cart, w, d, c)));
    OrderLinesShape(t.stock, lines, w, d, t.districts[(w, d)].nextOId);
  }

  lemma {:induction false} StockEffect(stock: map<(int, int), Stock>, lines: seq<CartLine>, w: int)
    requires AllStocked(stock, lines)
    ensures var s := ApplyStockUpdates(stock, StockUpdates(stock, lines, w));
      && s.Keys == stock.Keys
      && forall k :: k in stock ==>
           s[k] == stock[k].(ytd := stock[k].ytd + QuantityFor(lines, k),
                             orderCnt := stock[k].orderCnt + LinesFor(lines, k),
                             remoteCnt := stock[k].remoteCnt + (if k.0 == w then 0 else LinesFor(lines, k)))
  {
    if lines != [] {
      var init := lines[..|lines| - 1];
      var last := lines[|lines| - 1];
      assert AllStocked(stock, init);
      StockEffect(stock, init, w);
      var us := StockUpdates(stock, lines, w);
      assert us[..|us| - 1] == StockUpdates(stock, init, w);
    }
  }

  /**
   * A committed approval leaves every stock row's quantity as it was (the read value is
   * written back), adds to S_YTD the quantities of the lines it supplies, adds one to
   * S_ORDER_CNT per such line, and adds one to S_REMOTE_CNT per such line when the row
   * belongs to another warehouse.
   */
  lemma ApproveStock(t: Tables, scan: Scan, w: int, d: int, c: int, indId: int, now: Time)
    requires Enumerates(scan)
    requires Approve(t, scan, w, d, c, indId, now).outcome == Commit
    ensures CartOf(t.cart, w, d, c) != []
    ensures var e := Approve(t, scan, w, d, c, indId, now).tables;
      var lines := Listed(scan(CartOf(t.cart, w, d, c)));
      && e.stock.Keys == t.stock.Keys
      && forall k :: k in t.stock ==>
           && e.stock[k].quantity == t.stock[k].quantity
           && e.stock[k].ytd == t.stock[k].ytd + QuantityFor(lines, k)
           && e.stock[k].orderCnt == t.stock[k].orderCnt + LinesFor(lines, k)
           && e.stock[k].remoteCnt == t.stock[k].remoteCnt + (if k.0 == w then 0 else LinesFor(lines, k))
           && e.stock[k].data == t.stock[k].data && e.stock[k].dist == t.stock[k].dist
  {
    ScanLength(scan, CartOf(t.cart, w, d, c));
    StockEffect(t.stock, Listed(scan(CartOf(t.cart, w, d, c))), w);
  }

  /** A committed approval deletes every cart row of customer (w, d, c) and no other row. */
  lemma ApproveClearsCart(t: Tables, scan: Scan, w: int, d: int, c: int, indId: int, now: Time)
    requires Approve(t, scan, w, d, c, indId, now).outcome == Commit
    ensures var e := Approve(t, scan, w, d, c, indId, now).tables;
      && CartOf(e.cart, w, d, c) == []
      && forall l :: multiset(e.cart)[l] == if OfCustomer(l, w, d, c) then 0 else multiset(t.cart)[l]
  {
    var e := Approve(t, scan, w, d, c, indId, now).tables;
    var rest := CartOf(e.cart, w, d, c);
    assert multiset(rest) == multiset{};
  }

  /**
   * Because the first scanned row is consumed and not listed, a cart with a single row
   * commits as an order with no lines: no order line, no stock change, and the row is gone.
   */
  lemma SingleRowCart(t: Tables, scan: Scan, w: int, d: int, c: int, row: CartLine, now: Time)
    requires Enumerates(scan)
    requires MissingRow(t, w, d, c).None?
    requires SupervisorValue(t.customers[(w, d, c)]) == 1
    requires CartOf(t.cart, w, d, c) == [row]
    ensures var e := Approve(t, scan, w, d, c, 1, now);
      && e.outcome == Commit
      && e.tables.orders[|t.orders|].olCnt == 0
      && e.tables.orders[|t.orders|].allLocal == 1
      && e.tables.orderLines == t.orderLines
      && e.tables.stock == t.stock
      && row !in e.tables.cart
  {
    ScanLength(scan, CartOf(t.cart, w, d, c));
    var rows := scan(CartOf(t.cart, w, d, c));
    assert |rows| == 1;
    assert Listed(rows) == [];
    var e := Approve(t, scan, w, d, c, 1, now);
    assert multiset(e.tables.cart)[row] == 0;
  }
}

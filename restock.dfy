/**
 * Restock: raises by a fixed quantity the stock of every item of a warehouse whose quantity is
 * at or below a threshold, and rolls back when there is none.
 */
module Restock {
  import opened Schema

  /** A row of the stock query: S_I_ID and S_QUANTITY. */
  datatype StockInfo = StockInfo(item: int, quantity: int)

  /** One queued UPDATE: SET S_QUANTITY = quantity WHERE S_W_ID = w AND S_I_ID = item. */
  datatype StockWrite = StockWrite(quantity: int, w: int, item: int)

  /** The items of warehouse w whose stock quantity is at most threshold. */
  function Selected(stock: map<(int, int), Stock>, w: int, threshold: int): (s: set<int>)
    ensures forall i :: i in s <==> (w, i) in stock && stock[(w, i)].quantity <= threshold
  {
    set k | k in stock && k.0 == w && stock[k].quantity <= threshold :: k.1
  }

  /** The stock table with the quantity of warehouse w's rows for `items` raised by rq. */
  function Raised(stock: map<(int, int), Stock>, w: int, items: set<int>, rq: int): (r: map<(int, int), Stock>)
    ensures r.Keys == stock.Keys
    ensures forall k :: k in stock ==>
              && r[k].quantity == stock[k].quantity + (if k.0 == w && k.1 in items then rq else 0)
              && r[k].(quantity := stock[k].quantity) == stock[k]
  {
    map k | k in stock :: if k.0 == w && k.1 in items then stock[k].(quantity := stock[k].quantity + rq) else stock[k]
  }

  /** The whole procedure on a snapshot of the tables; nothing is written unless it commits. */
  function Restock(t: Tables, w: int, threshold: int, rq: int): (e: Effect)
    ensures !e.outcome.Commit? ==> e.tables == t
  {
    var items := Selected(t.stock, w, threshold);
    if items == {} then Effect(UserAbort(NothingToRestock), t)
    else Effect(Commit, t.(stock := Raised(t.stock, w, items, rq)))
  }

  /** The item ids of a list of stock rows. */
  function ItemsOf(infos: seq<StockInfo>): (s: set<int>)
    ensures forall j :: 0 <= j < |infos| ==> infos[j].item in s
    ensures forall i :: i in s ==> exists j :: 0 <= j < |infos| && infos[j].item == i
  {
    if infos == [] then {} else ItemsOf(infos[..|infos| - 1]) + {infos[|infos| - 1].item}
  }

  /** What getStockInfo returns: each selected item once, with its quantity. */
  ghost predicate ListsSelected(infos: seq<StockInfo>, stock: map<(int, int), Stock>, w: int, threshold: int)
  {
    && ItemsOf(infos) == Selected(stock, w, threshold)
    && (forall j :: 0 <= j < |infos| ==> (w, infos[j].item) in stock && infos[j].quantity == stock[(w, infos[j].item)].quantity)
    && (forall j, k :: 0 <= j < k < |infos| ==> infos[j].item != infos[k].item)
  }

  /**
   * getStockInfo: the rows of warehouse w with quantity at most threshold, as the query
   * returns them, in an order the database chooses.
   */
  method GetStockInfo(stock: map<(int, int), Stock>, w: int, threshold: int) returns (infos: seq<StockInfo>)
    ensures ListsSelected(infos, stock, w, threshold)
  {
    var keys := stock.Keys;
    infos := [];
    while keys != {}
      invariant keys <= stock.Keys
      invariant forall j :: 0 <= j < |infos| ==>
        infos[j].item in Selected(stock, w, threshold) && (w, infos[j].item) !in keys
        && infos[j].quantity == stock[(w, infos[j].item)].quantity
      invariant forall i :: i in Selected(stock, w, threshold) ==> (w, i) in keys || i in ItemsOf(infos)
      invariant forall j, k :: 0 <= j < k < |infos| ==> infos[j].item != infos[k].item
      decreases |keys|
    {
      var k :| k in keys;
      if k.0 == w && stock[k].quantity <= threshold {
        ghost var before := infos;
        infos := infos + [StockInfo(k.1, stock[k].quantity)];
        assert infos[..|infos| - 1] == before;
        assert ItemsOf(infos) == ItemsOf(before) + {k.1};
      }
      keys := keys - {k};
    }
    forall i | i in Selected(stock, w, threshold)
      ensures i in ItemsOf(infos)
    {
      assert (w, i) !in keys;
    }
    forall i | i in ItemsOf(infos)
      ensures i in Selected(stock, w, threshold)
    {
      var j :| 0 <= j < |infos| && infos[j].item == i;
    }
  }

  /** The stock table after the queued updates, applied in order. */
  function ApplyWrites(stock: map<(int, int), Stock>, batch: seq<StockWrite>): map<(int, int), Stock>
  {
    if batch == [] then stock
    else
      var last := batch[|batch| - 1];
      var s := ApplyWrites(stock, batch[..|batch| - 1]);
      var key := (last.w, last.item);
      if key in s then s[key := s[key].(quantity := last.quantity)] else s
  }

  /** The updates updateStock queues for the listed rows. */
  function Writes(infos: seq<StockInfo>, w: int, rq: int): (batch: seq<StockWrite>)
    ensures |batch| == |infos|
  {
    seq(|infos|, j requires 0 <= j < |infos| => StockWrite(infos[j].quantity + rq, w, infos[j].item))
  }

  /** executeBatch: the queued updates in order; an update whose row does not exist changes nothing. */
  method ExecuteBatch(stock0: map<(int, int), Stock>, batch: seq<StockWrite>) returns (stock: map<(int, int), Stock>)
    ensures stock == ApplyWrites(stock0, batch)
  {
    stock := stock0;
    var j := 0;
    while j < |batch|
      invariant 0 <= j <= |batch|
      invariant stock == ApplyWrites(stock0, batch[..j])
    {
      assert batch[..j + 1][..j] == batch[..j];
      var key := (batch[j].w, batch[j].item);
      if key in stock {
        stock := stock[key := stock[key].(quantity := batch[j].quantity)];
      }
      j := j + 1;
    }
    assert batch[..j] == batch;
  }

  /** Raising one more row of warehouse w. */
  lemma RaisedAdd(stock0: map<(int, int), Stock>, w: int, items: set<int>, i: int, rq: int)
    requires (w, i) in stock0 && i !in items
    ensures Raised(stock0, w, items + {i}, rq) ==
              Raised(stock0, w, items, rq)[(w, i) := stock0[(w, i)].(quantity := stock0[(w, i)].quantity + rq)]
  {
  }

  /**
   * Applying the updates for the first n listed rows, in order, raises exactly those rows by
   * rq, since the rows are distinct and carry the quantities the table holds.
   */
  lemma {:induction false} WritesRaise(stock0: map<(int, int), Stock>, w: int, infos: seq<StockInfo>, rq: int, n: nat)
    requires n <= |infos|
    requires forall j :: 0 <= j < |infos| ==>
               (w, infos[j].item) in stock0 && infos[j].quantity == stock0[(w, infos[j].item)].quantity
    requires forall j, k :: 0 <= j < k < |infos| ==> infos[j].item != infos[k].item
    ensures ApplyWrites(stock0, Writes(infos, w, rq)[..n]) == Raised(stock0, w, ItemsOf(infos[..n]), rq)
  {
    if n > 0 {
      var batch := Writes(infos, w, rq);
      assert batch[..n][..n - 1] == batch[..n - 1];
      assert infos[..n][..n - 1] == infos[..n - 1];
      WritesRaise(stock0, w, infos, rq, n - 1);
      var i := infos[n - 1].item;
      var items := ItemsOf(infos[..n - 1]);
      assert ItemsOf(infos[..n]) == items + {i};
      assert i !in items;
      var prev := ApplyWrites(stock0, batch[..n - 1]);
      assert batch[..n][n - 1] == StockWrite(stock0[(w, i)].quantity + rq, w, i);
      assert (w, i) in prev;
      assert ApplyWrites(stock0, batch[..n]) == prev[(w, i) := prev[(w, i)].(quantity := stock0[(w, i)].quantity + rq)];
      RaisedAdd(stock0, w, items, i, rq);
    }
  }

  /**
   * updateStock: queues, for each listed row, its quantity plus rq for warehouse w and the
   * item, and submits the batch.
   */
  method UpdateStock(stock0: map<(int, int), Stock>, w: int, infos: seq<StockInfo>, rq: int, ghost threshold: int)
    returns (stock: map<(int, int), Stock>)
    requires ListsSelected(infos, stock0, w, threshold)
    ensures stock == Raised(stock0, w, Selected(stock0, w, threshold), rq)
  {
    var batch: seq<StockWrite> := [];
    for j := 0 to |infos|
      invariant batch == Writes(infos[..j], w, rq)
    {
      assert infos[..j + 1][..j] == infos[..j];
      batch := batch + [StockWrite(infos[j].quantity + rq, w, infos[j].item)];
    }
    assert infos[..|infos|] == infos;
    stock := ExecuteBatch(stock0, batch);
    WritesRaise(stock0, w, infos, rq, |infos|);
    assert batch[..|infos|] == batch;
  }

  /** run: the query, an expected rollback when it returns nothing, otherwise the batch of updates. */
  method RestockTransaction(db: Database, w: int, threshold: int, rq: int) returns (outcome: Outcome)
    modifies db
    ensures outcome == Restock(old(db.Snapshot()), w, threshold, rq).outcome
    ensures db.Snapshot() == Restock(old(db.Snapshot()), w, threshold, rq).tables
  {
    var t := db.Snapshot();
    var stocks := GetStockInfo(t.stock, w, threshold);
    if |stocks| == 0 {
      assert Selected(t.stock, w, threshold) == {};
      return UserAbort(NothingToRestock);
    }
    assert stocks[0].item in Selected(t.stock, w, threshold);
    var stock := UpdateStock(t.stock, w, stocks, rq, threshold);
    db.Install(t.(stock := stock));
    return Commit;
  }

  // ---------------------------------------------------------------------------------------
  // Properties of the procedure.

  lemma Witness(s: set<int>)
    requires s != {}
    ensures exists i :: i in s
  {
    if forall i :: i !in s {
      assert false;
    }
  }

  /**
   * Restock commits exactly when some item of warehouse w is at or below the threshold, and
   * then raises the quantity of exactly those rows by rq, leaving every other column, every
   * other row and every other table as it was.
   */
  lemma RestockEffect(t: Tables, w: int, threshold: int, rq: int)
    ensures Restock(t, w, threshold, rq).outcome == Commit <==>
              exists i :: (w, i) in t.stock && t.stock[(w, i)].quantity <= threshold
    ensures Restock(t, w, threshold, rq).outcome != Commit ==>
              Restock(t, w, threshold, rq).outcome == UserAbort(NothingToRestock)
    ensures var e := Restock(t, w, threshold, rq).tables;
      && e == t.(stock := e.stock)
      && e.stock.Keys == t.stock.Keys
      && forall k :: k in t.stock ==>
           e.stock[k] == if k.0 == w && t.stock[k].quantity <= threshold
                         then t.stock[k].(quantity := t.stock[k].quantity + rq) else t.stock[k]
  {
    var items := Selected(t.stock, w, threshold);
    if items != {} {
      Witness(items);
    }
  }

  /**
   * After a committed restock, the items a second restock with the same threshold selects
   * are those the first one raised that are still at or below it.
   */
  lemma RestockAgain(t: Tables, w: int, threshold: int, rq: int)
    requires Restock(t, w, threshold, rq).outcome == Commit
    ensures var s := Restock(t, w, threshold, rq).tables.stock;
      forall i :: i in Selected(s, w, threshold) <==>
        i in Selected(t.stock, w, threshold) && t.stock[(w, i)].quantity + rq <= threshold
  {
    RestockEffect(t, w, threshold, rq);
  }

  /**
   * When the restock quantity exceeds the threshold and no quantity is negative, one
   * committed restock leaves nothing for a second one, which rolls back.
   */
  lemma RestockSettles(t: Tables, w: int, threshold: int, rq: int)
    requires Restock(t, w, threshold, rq).outcome == Commit
    requires rq > threshold
    requires forall k :: k in t.stock ==> t.stock[k].quantity >= 0
    ensures Restock(Restock(t, w, threshold, rq).tables, w, threshold, rq).outcome == UserAbort(NothingToRestock)
  {
    RestockAgain(t, w, threshold, rq);
    var s := Restock(t, w, threshold, rq).tables.stock;
    assert Selected(s, w, threshold) == {};
  }
}

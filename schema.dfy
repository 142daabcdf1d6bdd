/**
 * The GeoC tables, as rows and as the database the cart procedures run against.
 *
 * Money is in integer cents and tax and discount rates in basis points (1/100 of a percent),
 * so the floating-point columns of the schema are exact here. A timestamp is an opaque `Time`.
 */
module Schema {

  datatype Option<T> = None | Some(value: T)

  type Time = int
  type Cents = int
  type BasisPoints = int

  /** The ten per-district strings of a stock row, S_DIST_01 .. S_DIST_10. */
  type Slots = s: seq<string> | |s| == 10 witness ["", "", "", "", "", "", "", "", "", ""]

  datatype Address = Address(street1: string, street2: string, city: string, state: string, zip: string)

  datatype Item = Item(id: int, imId: int, name: string, price: Cents, data: string)

  datatype Warehouse = Warehouse(id: int, ytd: Cents, tax: BasisPoints, name: string, address: Address)

  datatype Stock = Stock(w: int, i: int, quantity: int, ytd: int, orderCnt: int, remoteCnt: int,
                         data: string, dist: Slots)

  datatype District = District(w: int, id: int, ytd: Cents, tax: BasisPoints, nextOId: int,
                               name: string, address: Address)

  /** A customer row; `supervisor` is the _C_IND_ID column, NULL until the loader's second pass. */
  datatype Customer = Customer(w: int, d: int, id: int, discount: BasisPoints, credit: string,
                               last: string, middle: string, first: string, creditLim: Cents,
                               balance: Cents, ytdPayment: Cents, paymentCnt: int, deliveryCnt: int,
                               address: Address, phone: string, since: Time, data: string,
                               supervisor: Option<int>)

  datatype Individual = Individual(id: int, name: string, c: int, d: int, w: int)

  datatype History = History(c: int, cd: int, cw: int, d: int, w: int, date: Time, amount: Cents,
                             data: string)

  /** An OORDER row; `carrier` is O_CARRIER_ID, NULL for an order not yet delivered. */
  datatype Order = Order(w: int, d: int, id: int, c: int, carrier: Option<int>, olCnt: int,
                         allLocal: int, entryD: Time)

  datatype NewOrder = NewOrder(w: int, d: int, o: int)

  datatype OrderLine = OrderLine(w: int, d: int, o: int, number: int, item: int,
                                 deliveryD: Option<Time>, amount: Cents, supplyW: int,
                                 quantity: int, distInfo: Option<string>)

  /** A _SHOPPING_CART_LINE row. */
  datatype CartLine = CartLine(c: int, d: int, w: int, item: int, supplyW: int, deliveryD: Time,
                               quantity: int, amount: Cents, distInfo: Option<string>, number: int)

  /**
   * getDistInfo: the stock row's string for district d, or null when d is not in 1..10.
   */
  function DistInfo(d: int, dist: Slots): (r: Option<string>)
    ensures r.Some? <==> 1 <= d <= 10
    ensures r.Some? ==> r.value == dist[d - 1]
  {
    match d
    case 1 => Some(dist[0])
    case 2 => Some(dist[1])
    case 3 => Some(dist[2])
    case 4 => Some(dist[3])
    case 5 => Some(dist[4])
    case 6 => Some(dist[5])
    case 7 => Some(dist[6])
    case 8 => Some(dist[7])
    case 9 => Some(dist[8])
    case 10 => Some(dist[9])
    case _ => None
  }

  /**
   * getCustomer, getWarehouse and getDistrict, in that order: the first of the three rows
   * that is missing ends the procedure with a fault; None when all three exist.
   */
  function MissingRow(t: Tables, w: int, d: int, c: int): (r: Option<Outcome>)
    ensures r == None <==> (w, d, c) in t.customers && w in t.warehouses && (w, d) in t.districts
    ensures r == Some(Fault(CustomerNotFound)) <==> (w, d, c) !in t.customers
    ensures r == Some(Fault(WarehouseNotFound)) <==> (w, d, c) in t.customers && w !in t.warehouses
    ensures r == Some(Fault(DistrictNotFound)) <==>
              (w, d, c) in t.customers && w in t.warehouses && (w, d) !in t.districts
  {
    if (w, d, c) !in t.customers then Some(Fault(CustomerNotFound))
    else if w !in t.warehouses then Some(Fault(WarehouseNotFound))
    else if (w, d) !in t.districts then Some(Fault(DistrictNotFound))
    else None
  }

  /** The cart rows of `s` that `keep` accepts, each as often as it occurs in `s`. */
  function Filter(s: seq<CartLine>, keep: CartLine -> bool): (r: seq<CartLine>)
    ensures |r| <= |s|
    ensures forall x :: multiset(r)[x] == if keep(x) then multiset(s)[x] else 0
  {
    if s == [] then []
    else
      assert s == s[..|s| - 1] + [s[|s| - 1]];
      Filter(s[..|s| - 1], keep) + (if keep(s[|s| - 1]) then [s[|s| - 1]] else [])
  }

  /** WHERE _SCL_W_ID = w AND _SCL_D_ID = d AND _SCL_C_ID = c. */
  predicate OfCustomer(l: CartLine, w: int, d: int, c: int)
  {
    l.w == w && l.d == d && l.c == c
  }

  /** WHERE _SCL_W_ID = w AND _SCL_D_ID = d AND _SCL_C_ID = c AND _SCL_I_ID = i. */
  predicate KeyIs(l: CartLine, w: int, d: int, c: int, i: int)
  {
    OfCustomer(l, w, d, c) && l.item == i
  }

  /** The cart rows of customer (w, d, c). */
  function CartOf(cart: seq<CartLine>, w: int, d: int, c: int): seq<CartLine>
  {
    Filter(cart, l => OfCustomer(l, w, d, c))
  }

  /** The cart rows of customer (w, d, c) for item i. */
  function ItemRows(cart: seq<CartLine>, w: int, d: int, c: int, i: int): seq<CartLine>
  {
    Filter(cart, l => KeyIs(l, w, d, c, i))
  }

  /** DELETE ... WHERE (w, d, c): the cart with customer (w, d, c)'s rows removed. */
  function ClearCart(cart: seq<CartLine>, w: int, d: int, c: int): (r: seq<CartLine>)
    ensures forall l :: multiset(r)[l] == if OfCustomer(l, w, d, c) then 0 else multiset(cart)[l]
  {
    Filter(cart, l => !OfCustomer(l, w, d, c))
  }

  /** DELETE ... WHERE (w, d, c, i). */
  function RemoveItem(cart: seq<CartLine>, w: int, d: int, c: int, i: int): (r: seq<CartLine>)
    ensures forall l :: multiset(r)[l] == if KeyIs(l, w, d, c, i) then 0 else multiset(cart)[l]
  {
    Filter(cart, l => !KeyIs(l, w, d, c, i))
  }

  /** UPDATE ... SET _SCL_QUANTITY = q, _SCL_AMOUNT = amount WHERE (w, d, c, i). */
  function SetQuantity(cart: seq<CartLine>, w: int, d: int, c: int, i: int, q: int, amount: Cents): (r: seq<CartLine>)
    ensures |r| == |cart|
    ensures forall k :: 0 <= k < |cart| && !KeyIs(cart[k], w, d, c, i) ==> r[k] == cart[k]
    ensures forall k :: 0 <= k < |cart| && KeyIs(cart[k], w, d, c, i) ==>
              && r[k].quantity == q && r[k].amount == amount
              && r[k].(quantity := cart[k].quantity, amount := cart[k].amount) == cart[k]
  {
    seq(|cart|, k requires 0 <= k < |cart| =>
      if KeyIs(cart[k], w, d, c, i) then cart[k].(quantity := q, amount := amount) else cart[k])
  }

  /** getItemInCartQuantity: the quantity of the first row the query returns, 0 when there is none. */
  function ItemInCartQuantity(scan: seq<CartLine>): (q: int)
    ensures scan == [] ==> q == 0
    ensures scan != [] ==> q == scan[0].quantity
  {
    if scan == [] then 0 else scan[0].quantity
  }

  /**
   * The rows a cart query returns, given the rows that match it, in the order the database
   * returns them. SQL leaves the order unspecified.
   */
  type Scan = seq<CartLine> -> seq<CartLine>

  /** The database returns exactly the matching rows, each once, in some order. */
  ghost predicate Enumerates(scan: Scan)
  {
    forall rows :: multiset(scan(rows)) == multiset(rows)
  }

  /** A scan returns no row exactly when no row matches. */
  lemma ScanLength(scan: Scan, rows: seq<CartLine>)
    requires Enumerates(scan)
    ensures |scan(rows)| == |rows|
    ensures scan(rows) == [] <==> rows == []
  {
    assert multiset(scan(rows)) == multiset(rows);
    assert |multiset(scan(rows))| == |scan(rows)|;
  }

  /** Customer (w, d, c) has a cart row for item i. */
  predicate HasItem(cart: seq<CartLine>, w: int, d: int, c: int, i: int)
  {
    exists k :: 0 <= k < |cart| && KeyIs(cart[k], w, d, c, i)
  }

  /** Some cart row of customer (w, d, c) for item i has quantity q. */
  predicate HoldsQuantity(cart: seq<CartLine>, w: int, d: int, c: int, i: int, q: int)
  {
    exists k :: 0 <= k < |cart| && KeyIs(cart[k], w, d, c, i) && cart[k].quantity == q
  }

  /** A row the item query returns is a cart row with the queried key. */
  lemma ScannedItemRow(scan: Scan, cart: seq<CartLine>, w: int, d: int, c: int, i: int, j: int)
    requires Enumerates(scan)
    requires 0 <= j < |scan(ItemRows(cart, w, d, c, i))|
    ensures var l := scan(ItemRows(cart, w, d, c, i))[j];
      KeyIs(l, w, d, c, i) && l in cart
  {
    var rows := ItemRows(cart, w, d, c, i);
    var l := scan(rows)[j];
    assert l in multiset(scan(rows));
    assert l in multiset(rows);
  }

  /** A cart row with the queried key is among the rows the item query matches. */
  lemma KeyedRowListed(cart: seq<CartLine>, w: int, d: int, c: int, i: int, k: int)
    requires 0 <= k < |cart| && KeyIs(cart[k], w, d, c, i)
    ensures ItemRows(cart, w, d, c, i) != []
  {
    assert cart[k] in multiset(cart);
  }

  /**
   * getItemInCartQuantity on the cart: 0 when customer (w, d, c) has no row for item i;
   * otherwise the quantity of one of those rows, and of the only one when there is one.
   */
  lemma InCartQuantity(scan: Scan, cart: seq<CartLine>, w: int, d: int, c: int, i: int)
    requires Enumerates(scan)
    ensures ItemRows(cart, w, d, c, i) == [] <==> !HasItem(cart, w, d, c, i)
    ensures !HasItem(cart, w, d, c, i) ==> ItemInCartQuantity(scan(ItemRows(cart, w, d, c, i))) == 0
    ensures HasItem(cart, w, d, c, i) ==>
              HoldsQuantity(cart, w, d, c, i, ItemInCartQuantity(scan(ItemRows(cart, w, d, c, i))))
    ensures |ItemRows(cart, w, d, c, i)| == 1 ==>
              ItemInCartQuantity(scan(ItemRows(cart, w, d, c, i))) == ItemRows(cart, w, d, c, i)[0].quantity
  {
    var rows := ItemRows(cart, w, d, c, i);
    ScanLength(scan, rows);
    if HasItem(cart, w, d, c, i) {
      var k :| 0 <= k < |cart| && KeyIs(cart[k], w, d, c, i);
      KeyedRowListed(cart, w, d, c, i, k);
    }
    if rows != [] {
      ScannedItemRow(scan, cart, w, d, c, i, 0);
      var first := scan(rows)[0];
      var k :| 0 <= k < |cart| && cart[k] == first;
      assert HoldsQuantity(cart, w, d, c, i, first.quantity);
      if |rows| == 1 {
        assert multiset(scan(rows)) == multiset{rows[0]};
        assert scan(rows) == [first];
        assert first in multiset(scan(rows));
      }
    }
  }

  datatype Tables = Tables(
    warehouses: map<int, Warehouse>,
    districts: map<(int, int), District>,
    customers: map<(int, int, int), Customer>,
    items: map<int, Item>,
    stock: map<(int, int), Stock>,
    orders: seq<Order>,
    newOrders: seq<NewOrder>,
    orderLines: seq<OrderLine>,
    cart: seq<CartLine>)

  datatype AbortReason = NotSupervisor | EmptyCart | ItemNotFound | NothingToRestock

  datatype FaultReason =
    | CustomerNotFound | WarehouseNotFound | DistrictNotFound | StockNotFound | IndexOutOfBounds

  /**
   * How a procedure ends: committed, rolled back by a UserAbortException (an expected
   * rollback), or rolled back by any other exception.
   */
  datatype Outcome = Commit | UserAbort(abort: AbortReason) | Fault(fault: FaultReason)

  /** The outcome of a procedure and the tables it leaves behind (unchanged unless it committed). */
  datatype Effect = Effect(outcome: Outcome, tables: Tables)

  /** A value read inside a procedure, or the outcome that ends it early. */
  datatype Read<T> = Ok(value: T) | Stop(outcome: Outcome)

  /** The shared database state. Big scans are returned in the order `scan` chooses. */
  class Database {
    var warehouses: map<int, Warehouse>
    var districts: map<(int, int), District>
    var customers: map<(int, int, int), Customer>
    var items: map<int, Item>
    var stock: map<(int, int), Stock>
    var orders: seq<Order>
    var newOrders: seq<NewOrder>
    var orderLines: seq<OrderLine>
    var cart: seq<CartLine>
    const scan: Scan

    constructor (t: Tables, scan: Scan)
      ensures Snapshot() == t && this.scan == scan
    {
      warehouses, districts, customers, items, stock := t.warehouses, t.districts, t.customers, t.items, t.stock;
      orders, newOrders, orderLines, cart := t.orders, t.newOrders, t.orderLines, t.cart;
      this.scan := scan;
    }

    function Snapshot(): Tables
      reads this
    {
      Tables(warehouses, districts, customers, items, stock, orders, newOrders, orderLines, cart)
    }

    /** COMMIT: the writes a transaction made to its working copy become the database state. */
    method Install(t: Tables)
      modifies this
      ensures Snapshot() == t
    {
      warehouses, districts, customers, items, stock := t.warehouses, t.districts, t.customers, t.items, t.stock;
      orders, newOrders, orderLines, cart := t.orders, t.newOrders, t.orderLines, t.cart;
    }
  }
}

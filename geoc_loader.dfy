/**
 * GeoCLoader: generates the initial GeoC dataset for one warehouse at a time, writing every
 * table through a batched prepared statement.
 *
 * Each load method draws from an `Rng.Source` in the order the loader calls GeoCUtil, builds
 * its rows in the loader's loop order and adds them to a `Batching.Statement`. Its contract
 * names the rows it submits (a ghost result) and states what each row holds; the parts that
 * come from random strings are only said to come from the string oracle.
 */
module GeoCLoader {
  import opened Schema
  import opened Batching
  import opened LoaderRules
  import Rng

  /** No lower-case ASCII letter, as after toUpperCase. */
  predicate UpperCase(s: string)
  {
    forall j :: 0 <= j < |s| ==> !('a' <= s[j] <= 'z')
  }

  // ---------------------------------------------------------------------------------------
  // Batching shared by every table.

  /** addBatch, k++, and a flush when k is a multiple of the batch size. */
  method AddRow<T>(stmt: Statement<T>, row: T, k: int, batchSize: int, ghost rows: seq<T>) returns (k': int)
    requires Batched(stmt.flushed, stmt.pending, rows, batchSize) && k == |rows|
    modifies stmt
    ensures k' == k + 1
    ensures Batched(stmt.flushed, stmt.pending, rows + [row], batchSize)
  {
    AddStep(stmt.flushed, stmt.pending, rows, batchSize, row);
    stmt.AddBatch(row);
    k' := k + 1;
    if k' != 0 && k' % batchSize == 0 {
      stmt.Flush();
    }
  }

  /** The unconditional executeBatch and clearBatch after the loops. */
  method FinishBatches<T>(stmt: Statement<T>, batchSize: int, ghost rows: seq<T>)
    requires Batched(stmt.flushed, stmt.pending, rows, batchSize)
    modifies stmt
    ensures FlushedInBatches(stmt.flushed, rows, batchSize)
    ensures SubmittedBounded(stmt.flushed, rows, batchSize)
  {
    FinalFlush(stmt.flushed, stmt.pending, rows, batchSize);
    stmt.Flush();
  }

  // ---------------------------------------------------------------------------------------
  // Row generators, one draw after another in the loader's order.

  /** i_data / s_data: the draws DrawnData describes, from the current position on. */
  method GenData(rng: Rng.Source) returns (data: string)
    modifies rng
    ensures (data, rng.pos) == DrawnData(rng.raw, rng.text, old(rng.pos))
  {
    var randPct := rng.Number(1, 100);
    var len := rng.Number(26, 50);
    if randPct > 10 {
      data := rng.Str(len);
    } else {
      var startOriginal := rng.Number(2, len - 8);
      var prefix := rng.Str(startOriginal - 1);
      var suffix := rng.Str(len - startOriginal - 9);
      data := prefix + "ORIGINAL" + suffix;
    }
  }

  /** A random string whose length is drawn from [lo, hi]. */
  method GenText(rng: Rng.Source, lo: int, hi: int) returns (s: string)
    requires lo <= hi
    modifies rng
    ensures rng.pos == old(rng.pos) + 2
    ensures s == rng.text(old(rng.pos) + 1, Rng.Reduce(rng.raw(old(rng.pos)), lo, hi))
  {
    var len := rng.Number(lo, hi);
    s := rng.Str(len);
  }

  /** The two streets, the city and the upper-cased state of an address, zip left to the caller. */
  method GenAddress(rng: Rng.Source, zip: string) returns (a: Address)
    modifies rng
    ensures rng.pos == old(rng.pos) + 7
    ensures a.state == Upper(rng.text(old(rng.pos) + 6, 3)) && UpperCase(a.state)
    ensures a.zip == zip
  {
    var street1 := GenText(rng, 10, 20);
    var street2 := GenText(rng, 10, 20);
    var city := GenText(rng, 10, 20);
    var state := rng.Str(3);
    a := Address(street1, street2, city, Upper(state), zip);
  }

  /** What loadItems promises of item i. */
  ghost predicate ItemRow(it: Item, i: int, raw: nat -> int, text: (nat, int) -> string)
  {
    && it.id == i
    && 100 <= it.price <= 10000
    && 1 <= it.imId <= 10000
    && exists p: nat :: it.data == DrawnData(raw, text, p).0
  }

  method GenItem(rng: Rng.Source, i: int) returns (it: Item)
    modifies rng
    ensures ItemRow(it, i, rng.raw, rng.text)
    ensures it.data == DrawnData(rng.raw, rng.text, old(rng.pos) + 3).0
  {
    var name := GenText(rng, 14, 24);
    var price := rng.Number(100, 10000);
    var data := GenData(rng);
    var imId := rng.Number(1, 10000);
    it := Item(i, imId, name, price, data);
  }

  /** What loadWarehouse promises of the row of warehouse w. */
  predicate WarehouseRow(wh: Warehouse, w: int)
  {
    && wh.id == w
    && wh.ytd == 30000000
    && 0 <= wh.tax <= 2000
    && wh.address.zip == "123456789"
    && UpperCase(wh.address.state)
  }

  /** What loadStock promises of the row of item i in warehouse w. */
  ghost predicate StockRow(s: Stock, w: int, i: int, raw: nat -> int, text: (nat, int) -> string)
  {
    && s.w == w && s.i == i
    && 10 <= s.quantity <= 100
    && s.ytd == 0 && s.orderCnt == 0 && s.remoteCnt == 0
    && exists p: nat :: s.data == DrawnData(raw, text, p).0
  }

  method GenStock(rng: Rng.Source, w: int, i: int) returns (s: Stock)
    modifies rng
    ensures StockRow(s, w, i, rng.raw, rng.text)
    ensures var q := DrawnData(rng.raw, rng.text, old(rng.pos) + 1).1;
      forall j :: 0 <= j < 10 ==> s.dist[j] == rng.text(q + j, 24)
  {
    var quantity := rng.Number(10, 100);
    var data := GenData(rng);
    var dist := GenDist(rng);
    s := Stock(w, i, quantity, 0, 0, 0, data, dist);
  }

  /** S_DIST_01 .. S_DIST_10: ten random strings of length argument 24. */
  method GenDist(rng: Rng.Source) returns (dist: Slots)
    modifies rng
    ensures rng.pos == old(rng.pos) + 10
    ensures forall j :: 0 <= j < 10 ==> dist[j] == rng.text(old(rng.pos) + j, 24)
  {
    var first := GenFive(rng);
    var second := GenFive(rng);
    dist := first + second;
  }

  /** Five of the S_DIST strings. */
  method GenFive(rng: Rng.Source) returns (five: seq<string>)
    modifies rng
    ensures rng.pos == old(rng.pos) + 5
    ensures |five| == 5 && forall j :: 0 <= j < 5 ==> five[j] == rng.text(old(rng.pos) + j, 24)
  {
    var d1 := rng.Str(24);
    var d2 := rng.Str(24);
    var d3 := rng.Str(24);
    var d4 := rng.Str(24);
    var d5 := rng.Str(24);
    five := [d1, d2, d3, d4, d5];
  }

  /** What loadDistricts promises of district d of warehouse w. */
  predicate DistrictRow(x: District, w: int, d: int)
  {
    && x.w == w && x.id == d
    && x.ytd == 3000000
    && 0 <= x.tax <= 2000
    && x.nextOId == CustPerDist + 1
    && x.address.zip == "123456789"
    && UpperCase(x.address.state)
  }

  method GenDistrict(rng: Rng.Source, w: int, d: int) returns (x: District)
    modifies rng
    ensures DistrictRow(x, w, d)
  {
    var tax := rng.Number(0, 2000);
    var name := GenText(rng, 6, 10);
    var address := GenAddress(rng, "123456789");
    x := District(w, d, 3000000, tax, CustPerDist + 1, name, address);
  }

  // ---------------------------------------------------------------------------------------
  // The loaders of the item, warehouse, stock and district tables.

  /**
   * loadItems: items 1..itemCount, flushed whenever a batch reaches batchSize rows and once
   * more at the end if rows are left over, so no batch is empty.
   */
  method LoadItems(rng: Rng.Source, stmt: Statement<Item>, itemCount: int, batchSize: int)
    returns (ghost rows: seq<Item>)
    requires batchSize >= 1 && stmt.flushed == [] && stmt.pending == []
    modifies rng, stmt
    ensures SubmittedBounded(stmt.flushed, rows, batchSize) && stmt.pending == []
    ensures forall j :: 0 <= j < |stmt.flushed| ==> |stmt.flushed[j]| >= 1
    ensures forall j :: 0 <= j < |stmt.flushed| - 1 ==> |stmt.flushed[j]| == batchSize
    ensures |rows| == if itemCount < 1 then 0 else itemCount
    ensures forall j :: 0 <= j < |rows| ==> ItemRow(rows[j], j + 1, rng.raw, rng.text)
  {
    rows := [];
    var inBatch := 0;
    var i := 1;
    while i <= itemCount
      invariant 1 <= i <= if itemCount < 1 then 1 else itemCount + 1
      invariant |rows| == i - 1
      invariant Batched(stmt.flushed, stmt.pending, rows, batchSize) && inBatch == |stmt.pending|
      invariant forall j :: 0 <= j < |rows| ==> ItemRow(rows[j], j + 1, rng.raw, rng.text)
    {
      var it := GenItem(rng, i);
      AddStep(stmt.flushed, stmt.pending, rows, batchSize, it);
      ModStep(|rows|, batchSize);
      stmt.AddBatch(it);
      inBatch := inBatch + 1;
      if inBatch == batchSize {
        stmt.Flush();
        inBatch := 0;
      }
      rows := rows + [it];
      i := i + 1;
    }
    if inBatch > 0 {
      FinalFlush(stmt.flushed, stmt.pending, rows, batchSize);
      stmt.Flush();
    } else {
      assert Flatten(stmt.flushed) == rows;
    }
  }

  /** loadWarehouse: the one row of warehouse w, inserted on its own. */
  method LoadWarehouse(rng: Rng.Source, w: int) returns (wh: Warehouse)
    modifies rng
    ensures WarehouseRow(wh, w)
  {
    var tax := rng.Number(0, 2000);
    var name := GenText(rng, 6, 10);
    var address := GenAddress(rng, "123456789");
    wh := Warehouse(w, 30000000, tax, name, address);
  }

  /**
   * loadStock: a row for each item 1..numItems that warehouse w stocks, in item order,
   * skipping the warehouse-specific items of other warehouses.
   */
  method LoadStock(rng: Rng.Source, stmt: Statement<Stock>, w: int, numItems: int, numWarehouses: int,
                   whseSpecificItems: int, batchSize: int) returns (ghost rows: seq<Stock>)
    requires numWarehouses >= 1
    requires batchSize >= 1 && stmt.flushed == [] && stmt.pending == []
    modifies rng, stmt
    ensures FlushedInBatches(stmt.flushed, rows, batchSize)
    ensures var items := StockedItems(w, numItems, numWarehouses, whseSpecificItems);
      |rows| == |items| && forall j :: 0 <= j < |rows| ==> StockRow(rows[j], w, items[j], rng.raw, rng.text)
  {
    rows := [];
    var k := 0;
    var i := 1;
    while i <= numItems
      invariant 1 <= i <= if numItems < 1 then 1 else numItems + 1
      invariant k == |rows| && Batched(stmt.flushed, stmt.pending, rows, batchSize)
      invariant var items := StockedItems(w, i - 1, numWarehouses, whseSpecificItems);
        |rows| == |items| && forall j :: 0 <= j < |rows| ==> StockRow(rows[j], w, items[j], rng.raw, rng.text)
    {
      if i <= whseSpecificItems && i % numWarehouses + 1 != w {
        i := i + 1;
        continue;
      }
      var s := GenStock(rng, w, i);
      k := AddRow(stmt, s, k, batchSize, rows);
      rows := rows + [s];
      i := i + 1;
    }
    FinishBatches(stmt, batchSize, rows);
  }

  /** loadDistricts: districts 1..districtsPerWarehouse of warehouse w, each inserted on its own. */
  method LoadDistricts(rng: Rng.Source, w: int, districtsPerWarehouse: int) returns (rows: seq<District>)
    modifies rng
    ensures |rows| == if districtsPerWarehouse < 1 then 0 else districtsPerWarehouse
    ensures forall j :: 0 <= j < |rows| ==> DistrictRow(rows[j], w, j + 1)
  {
    rows := [];
    var d := 1;
    while d <= districtsPerWarehouse
      invariant 1 <= d <= if districtsPerWarehouse < 1 then 1 else districtsPerWarehouse + 1
      invariant |rows| == d - 1
      invariant forall j :: 0 <= j < |rows| ==> DistrictRow(rows[j], w, j + 1)
    {
      var x := GenDistrict(rng, w, d);
      rows := rows + [x];
      d := d + 1;
    }
  }

  // ---------------------------------------------------------------------------------------
  // Customers, individuals, the supervisor pass and history: one row per (d, c) of the
  // nested loops, in the order Keys lists them.

  /** What loadCustomers promises of customer c of district d of warehouse w. */
  predicate CustomerRow(x: Customer, w: int, d: int, c: int, lastName: int -> string, now: Time)
  {
    && x.w == w && x.d == d && x.id == c
    && 1 <= x.discount <= 5000
    && (x.credit == "BC" || x.credit == "GC")
    && (c <= 1000 ==> x.last == lastName(c - 1))
    && x.middle == "OE"
    && x.creditLim == 5000000
    && x.balance == -1000 && x.ytdPayment == 1000 && x.paymentCnt == 1 && x.deliveryCnt == 0
    && |x.address.zip| >= 5 && x.address.zip[|x.address.zip| - 5..] == "11111"
    && UpperCase(x.address.state)
    && x.since == now
    && x.supervisor == None
  }

  /** Row j is the customer of the j-th key. */
  ghost predicate CustomerRows(rows: seq<Customer>, ks: seq<(int, int)>, w: int, lastName: int -> string, now: Time)
  {
    |rows| == |ks| && forall j :: 0 <= j < |rows| ==> CustomerRow(rows[j], w, ks[j].0, ks[j].1, lastName, now)
  }

  method GenCustomer(rng: Rng.Source, w: int, d: int, c: int, now: Time) returns (x: Customer)
    modifies rng
    ensures CustomerRow(x, w, d, c, rng.lastName, now)
    ensures x.credit == if Rng.Reduce(rng.raw(old(rng.pos) + 1), 1, 100) <= 10 then "BC" else "GC"
  {
    var discount := rng.Number(1, 5000);
    var creditDraw := rng.Number(1, 100);
    var credit := if creditDraw <= 10 then "BC" else "GC";
    var last;
    if c <= 1000 {
      last := rng.lastName(c - 1);
    } else {
      last := rng.NonUniformLastName();
    }
    var first := GenText(rng, 8, 16);
    var address := GenAddress(rng, "");
    var zipDigits := rng.NStr(4);
    var zip := zipDigits + "11111";
    assert zip[|zip| - 5..] == "11111";
    address := address.(zip := zip);
    var phone := rng.NStr(16);
    var data := GenText(rng, 300, 500);
    x := Customer(w, d, c, discount, credit, last, "OE", first, 5000000, -1000, 1000, 1, 0,
                  address, phone, now, data, None);
  }

  /**
   * loadCustomers: customers 1..customersPerDistrict of districts 1..districtsPerWarehouse,
   * district by district, with no supervisor yet.
   */
  method LoadCustomers(rng: Rng.Source, stmt: Statement<Customer>, w: int, districtsPerWarehouse: int,
                       customersPerDistrict: int, batchSize: int, now: Time) returns (ghost rows: seq<Customer>)
    requires batchSize >= 1 && stmt.flushed == [] && stmt.pending == []
    modifies rng, stmt
    ensures FlushedInBatches(stmt.flushed, rows, batchSize)
    ensures CustomerRows(rows, Keys(districtsPerWarehouse, customersPerDistrict), w, rng.lastName, now)
  {
    rows := [];
    var k := 0;
    var d := 1;
    while d <= districtsPerWarehouse
      invariant 1 <= d <= if districtsPerWarehouse < 1 then 1 else districtsPerWarehouse + 1
      invariant k == |rows| && Batched(stmt.flushed, stmt.pending, rows, batchSize)
      invariant CustomerRows(rows, Keys(d - 1, customersPerDistrict), w, rng.lastName, now)
    {
      k, rows := LoadDistrictCustomers(rng, stmt, w, d, customersPerDistrict, batchSize, now, k, rows,
                                       Keys(d - 1, customersPerDistrict));
      d := d + 1;
    }
    FinishBatches(stmt, batchSize, rows);
  }

  /** The inner loop of loadCustomers, over the customers of district d. */
  method LoadDistrictCustomers(rng: Rng.Source, stmt: Statement<Customer>, w: int, d: int, customersPerDistrict: int,
                               batchSize: int, now: Time, k0: int, ghost rows0: seq<Customer>, ghost ks: seq<(int, int)>)
    returns (k: int, ghost rows: seq<Customer>)
    requires k0 == |rows0| && Batched(stmt.flushed, stmt.pending, rows0, batchSize)
    requires CustomerRows(rows0, ks, w, rng.lastName, now)
    modifies rng, stmt
    ensures k == |rows| && Batched(stmt.flushed, stmt.pending, rows, batchSize)
    ensures CustomerRows(rows, ks + Row(d, customersPerDistrict), w, rng.lastName, now)
  {
    k, rows := k0, rows0;
    assert ks + Row(d, 0) == ks;
    var c := 1;
    while c <= customersPerDistrict
      invariant 1 <= c <= if customersPerDistrict < 1 then 1 else customersPerDistrict + 1
      invariant k == |rows| && Batched(stmt.flushed, stmt.pending, rows, batchSize)
      invariant CustomerRows(rows, ks + Row(d, c - 1), w, rng.lastName, now)
    {
      var x := GenCustomer(rng, w, d, c, now);
      k := AddRow(stmt, x, k, batchSize, rows);
      assert ks + Row(d, c) == ks + Row(d, c - 1) + [(d, c)];
      rows := rows + [x];
      c := c + 1;
    }
  }

  /** Row j is individual t.2 of customer (t.0, t.1) for the j-th key t. */
  ghost predicate IndividualRows(rows: seq<Individual>, ts: seq<(int, int, int)>, w: int)
  {
    |rows| == |ts| &&
    forall j :: 0 <= j < |rows| ==>
      rows[j].w == w && rows[j].d == ts[j].0 && rows[j].c == ts[j].1 && rows[j].id == ts[j].2
  }

  /**
   * loadIndividuals: individuals 1..individualsPerCustomer of every customer, customer by
   * customer in loop order.
   */
  method LoadIndividuals(rng: Rng.Source, stmt: Statement<Individual>, w: int, districtsPerWarehouse: int,
                         customersPerDistrict: int, individualsPerCustomer: int, batchSize: int)
    returns (ghost rows: seq<Individual>)
    requires batchSize >= 1 && stmt.flushed == [] && stmt.pending == []
    modifies rng, stmt
    ensures FlushedInBatches(stmt.flushed, rows, batchSize)
    ensures IndividualRows(rows, Expand(Keys(districtsPerWarehouse, customersPerDistrict), Each(individualsPerCustomer)), w)
  {
    rows := [];
    var k := 0;
    var d := 1;
    while d <= districtsPerWarehouse
      invariant 1 <= d <= if districtsPerWarehouse < 1 then 1 else districtsPerWarehouse + 1
      invariant k == |rows| && Batched(stmt.flushed, stmt.pending, rows, batchSize)
      invariant IndividualRows(rows, Expand(Keys(d - 1, customersPerDistrict), Each(individualsPerCustomer)), w)
    {
      k, rows := LoadDistrictIndividuals(rng, stmt, w, d, customersPerDistrict, individualsPerCustomer, batchSize,
                                         k, rows, Keys(d - 1, customersPerDistrict));
      d := d + 1;
    }
    FinishBatches(stmt, batchSize, rows);
  }

  /** The middle loop of loadIndividuals, over the customers of district d. */
  method LoadDistrictIndividuals(rng: Rng.Source, stmt: Statement<Individual>, w: int, d: int, customersPerDistrict: int,
                                 individualsPerCustomer: int, batchSize: int,
                                 k0: int, ghost rows0: seq<Individual>, ghost ks: seq<(int, int)>)
    returns (k: int, ghost rows: seq<Individual>)
    requires k0 == |rows0| && Batched(stmt.flushed, stmt.pending, rows0, batchSize)
    requires IndividualRows(rows0, Expand(ks, Each(individualsPerCustomer)), w)
    modifies rng, stmt
    ensures k == |rows| && Batched(stmt.flushed, stmt.pending, rows, batchSize)
    ensures IndividualRows(rows, Expand(ks + Row(d, customersPerDistrict), Each(individualsPerCustomer)), w)
  {
    k, rows := k0, rows0;
    assert ks + Row(d, 0) == ks;
    var c := 1;
    while c <= customersPerDistrict
      invariant 1 <= c <= if customersPerDistrict < 1 then 1 else customersPerDistrict + 1
      invariant k == |rows| && Batched(stmt.flushed, stmt.pending, rows, batchSize)
      invariant IndividualRows(rows, Expand(ks + Row(d, c - 1), Each(individualsPerCustomer)), w)
    {
      k, rows := LoadCustomerIndividuals(rng, stmt, w, d, c, individualsPerCustomer, batchSize, k, rows,
                                         Expand(ks + Row(d, c - 1), Each(individualsPerCustomer)));
      ExpandAppend(ks + Row(d, c - 1), (d, c), Each(individualsPerCustomer));
      assert ks + Row(d, c) == ks + Row(d, c - 1) + [(d, c)];
      c := c + 1;
    }
  }

  /** The inner loop of loadIndividuals, over the individuals of customer (w, d, c). */
  method LoadCustomerIndividuals(rng: Rng.Source, stmt: Statement<Individual>, w: int, d: int, c: int,
                                 individualsPerCustomer: int, batchSize: int,
                                 k0: int, ghost rows0: seq<Individual>, ghost ts: seq<(int, int, int)>)
    returns (k: int, ghost rows: seq<Individual>)
    requires k0 == |rows0| && Batched(stmt.flushed, stmt.pending, rows0, batchSize)
    requires IndividualRows(rows0, ts, w)
    modifies rng, stmt
    ensures k == |rows| && Batched(stmt.flushed, stmt.pending, rows, batchSize)
    ensures IndividualRows(rows, ts + Numbered((d, c), Each(individualsPerCustomer)((d, c))), w)
  {
    k, rows := k0, rows0;
    assert ts + Numbered((d, c), 0) == ts;
    var i := 1;
    while i <= individualsPerCustomer
      invariant 1 <= i <= if individualsPerCustomer < 1 then 1 else individualsPerCustomer + 1
      invariant k == |rows| && Batched(stmt.flushed, stmt.pending, rows, batchSize)
      invariant IndividualRows(rows, ts + Numbered((d, c), i - 1), w)
    {
      var name := GenText(rng, 16, 32);
      var x := Individual(i, name, c, d, w);
      k := AddRow(stmt, x, k, batchSize, rows);
      assert ts + Numbered((d, c), i) == ts + Numbered((d, c), i - 1) + [(d, c, i)];
      rows := rows + [x];
      i := i + 1;
    }
  }

  /** updateCustomersWithSupervisors: one update setting supervisor 1 per customer, in loop order. */
  method UpdateCustomersWithSupervisors(stmt: Statement<SupervisorUpdate>, w: int, districtsPerWarehouse: int,
                                        customersPerDistrict: int, batchSize: int)
    returns (ghost rows: seq<SupervisorUpdate>)
    requires batchSize >= 1 && stmt.flushed == [] && stmt.pending == []
    modifies stmt
    ensures FlushedInBatches(stmt.flushed, rows, batchSize)
    ensures rows == Supervisors(w, Keys(districtsPerWarehouse, customersPerDistrict))
  {
    rows := [];
    var k := 0;
    var d := 1;
    while d <= districtsPerWarehouse
      invariant 1 <= d <= if districtsPerWarehouse < 1 then 1 else districtsPerWarehouse + 1
      invariant k == |rows| && Batched(stmt.flushed, stmt.pending, rows, batchSize)
      invariant rows == Supervisors(w, Keys(d - 1, customersPerDistrict))
    {
      k, rows := UpdateDistrictSupervisors(stmt, w, d, customersPerDistrict, batchSize, k, rows,
                                           Keys(d - 1, customersPerDistrict));
      d := d + 1;
    }
    FinishBatches(stmt, batchSize, rows);
  }

  /** The inner loop of updateCustomersWithSupervisors, over the customers of district d. */
  method UpdateDistrictSupervisors(stmt: Statement<SupervisorUpdate>, w: int, d: int, customersPerDistrict: int,
                                   batchSize: int, k0: int, ghost rows0: seq<SupervisorUpdate>, ghost ks: seq<(int, int)>)
    returns (k: int, ghost rows: seq<SupervisorUpdate>)
    requires k0 == |rows0| && Batched(stmt.flushed, stmt.pending, rows0, batchSize)
    requires rows0 == Supervisors(w, ks)
    modifies stmt
    ensures k == |rows| && Batched(stmt.flushed, stmt.pending, rows, batchSize)
    ensures rows == Supervisors(w, ks + Row(d, customersPerDistrict))
  {
    k, rows := k0, rows0;
    assert ks + Row(d, 0) == ks;
    var c := 1;
    while c <= customersPerDistrict
      invariant 1 <= c <= if customersPerDistrict < 1 then 1 else customersPerDistrict + 1
      invariant k == |rows| && Batched(stmt.flushed, stmt.pending, rows, batchSize)
      invariant rows == Supervisors(w, ks + Row(d, c - 1))
    {
      var u := SupervisorUpdate(1, w, d, c);
      k := AddRow(stmt, u, k, batchSize, rows);
      assert ks + Row(d, c) == ks + Row(d, c - 1) + [(d, c)];
      rows := rows + [u];
      c := c + 1;
    }
  }

  /** What loadCustomerHistory promises of the history row of customer (w, d, c). */
  predicate HistoryRow(h: History, w: int, d: int, c: int, now: Time)
  {
    && h.c == c && h.cd == d && h.cw == w && h.d == d && h.w == w
    && h.date == now && h.amount == 1000
  }

  ghost predicate HistoryRows(rows: seq<History>, ks: seq<(int, int)>, w: int, now: Time)
  {
    |rows| == |ks| && forall j :: 0 <= j < |rows| ==> HistoryRow(rows[j], w, ks[j].0, ks[j].1, now)
  }

  /** loadCustomerHistory: one payment of 10.00 per customer, in loop order. */
  method LoadCustomerHistory(rng: Rng.Source, stmt: Statement<History>, w: int, districtsPerWarehouse: int,
                             customersPerDistrict: int, batchSize: int, now: Time) returns (ghost rows: seq<History>)
    requires batchSize >= 1 && stmt.flushed == [] && stmt.pending == []
    modifies rng, stmt
    ensures FlushedInBatches(stmt.flushed, rows, batchSize)
    ensures HistoryRows(rows, Keys(districtsPerWarehouse, customersPerDistrict), w, now)
  {
    rows := [];
    var k := 0;
    var d := 1;
    while d <= districtsPerWarehouse
      invariant 1 <= d <= if districtsPerWarehouse < 1 then 1 else districtsPerWarehouse + 1
      invariant k == |rows| && Batched(stmt.flushed, stmt.pending, rows, batchSize)
      invariant HistoryRows(rows, Keys(d - 1, customersPerDistrict), w, now)
    {
      k, rows := LoadDistrictHistory(rng, stmt, w, d, customersPerDistrict, batchSize, now, k, rows,
                                     Keys(d - 1, customersPerDistrict));
      d := d + 1;
    }
    FinishBatches(stmt, batchSize, rows);
  }

  /** The inner loop of loadCustomerHistory, over the customers of district d. */
  method LoadDistrictHistory(rng: Rng.Source, stmt: Statement<History>, w: int, d: int, customersPerDistrict: int,
                             batchSize: int, now: Time, k0: int, ghost rows0: seq<History>, ghost ks: seq<(int, int)>)
    returns (k: int, ghost rows: seq<History>)
    requires k0 == |rows0| && Batched(stmt.flushed, stmt.pending, rows0, batchSize)
    requires HistoryRows(rows0, ks, w, now)
    modifies rng, stmt
    ensures k == |rows| && Batched(stmt.flushed, stmt.pending, rows, batchSize)
    ensures HistoryRows(rows, ks + Row(d, customersPerDistrict), w, now)
  {
    k, rows := k0, rows0;
    assert ks + Row(d, 0) == ks;
    var c := 1;
    while c <= customersPerDistrict
      invariant 1 <= c <= if customersPerDistrict < 1 then 1 else customersPerDistrict + 1
      invariant k == |rows| && Batched(stmt.flushed, stmt.pending, rows, batchSize)
      invariant HistoryRows(rows, ks + Row(d, c - 1), w, now)
    {
      var data := GenText(rng, 10, 24);
      var h := History(c, d, w, d, w, now, 1000, data);
      k := AddRow(stmt, h, k, batchSize, rows);
      assert ks + Row(d, c) == ks + Row(d, c - 1) + [(d, c)];
      rows := rows + [h];
      c := c + 1;
    }
  }

  // ---------------------------------------------------------------------------------------
  // Orders: the customer column is a shuffled 1..C per district.

  /** The loop filling c_ids with 1..n. */
  method Identity(a: array<int>)
    modifies a
    ensures a[..] == Iota(a.Length)
  {
    for i := 0 to a.Length
      invariant forall j :: 0 <= j < i ==> a[j] == j + 1
    {
      a[i] := i + 1;
    }
  }

  /**
   * After i steps of the shuffle of 1..n: no position before i holds its own number, and
   * every later position holds its own number or one of 1..i.
   */
  ghost predicate Settled(p: seq<int>, i: int)
  {
    && (forall j :: 0 <= j < i && j < |p| ==> p[j] != j + 1)
    && (forall j :: i <= j < |p| && 0 <= j ==> p[j] == j + 1 || p[j] <= i)
  }

  /**
   * Swapping position i with a later position keeps Settled one step further, and the
   * swap into the last position leaves it without its own number.
   */
  lemma SwapStep(p: seq<int>, i: int, s: int)
    requires 0 <= i < s < |p| && Settled(p, i)
    ensures Settled(p[i := p[s]][s := p[i]], i + 1)
    ensures s == |p| - 1 ==> p[i := p[s]][s := p[i]][s] != s + 1
  {
  }

  /** The exchange of c_ids[i] and c_ids[swapIndex] through temp. */
  method Swap(a: array<int>, i: int, s: int)
    requires 0 <= i < a.Length && 0 <= s < a.Length
    modifies a
    ensures a[..] == old(a[..])[i := old(a[s])][s := old(a[i])]
    ensures multiset(a[..]) == multiset(old(a[..]))
  {
    var temp := a[s];
    a[s] := a[i];
    a[i] := temp;
  }

  /**
   * The shuffle of loadOpenOrders: position i is exchanged with a position drawn from
   * i+1..n-1 (Sattolo's algorithm). The contents are permuted, and a shuffled 1..n with
   * n >= 2 leaves no number at its own position.
   */
  method Shuffle(rng: Rng.Source, a: array<int>)
    modifies rng, a
    ensures multiset(a[..]) == multiset(old(a[..]))
    ensures old(a[..]) == Iota(a.Length) && a.Length >= 2 ==> forall j :: 0 <= j < a.Length ==> a[j] != j + 1
  {
    ghost var home := a[..] == Iota(a.Length);
    var i := 0;
    while i < a.Length - 1
      invariant 0 <= i <= if a.Length < 1 then 0 else a.Length - 1
      invariant multiset(a[..]) == multiset(old(a[..]))
      invariant home ==> Settled(a[..], i)
      invariant home && a.Length >= 2 && i == a.Length - 1 ==> a[i] != i + 1
    {
      var remaining := a.Length - i - 1;
      var r := rng.NextInt(remaining);
      var swapIndex := r + i + 1;
      if home {
        SwapStep(a[..], i, swapIndex);
      }
      Swap(a, i, swapIndex);
      i := i + 1;
    }
  }

  /** A permutation of 1..n with, when n >= 2, no fixed point: TPC-C clause 4.3.3.1's o_c_id column. */
  ghost predicate Derangement(p: seq<int>, n: nat)
  {
    && |p| == n
    && multiset(p) == multiset(Iota(n))
    && (n >= 2 ==> forall j :: 0 <= j < n ==> p[j] != j + 1)
  }

  /** What loadOpenOrders promises of order id of district d of warehouse w, placed by customer c. */
  predicate OrderRow(o: Order, w: int, d: int, id: int, c: int, seeded: (int, int, int) -> int, now: Time)
  {
    && o.w == w && o.d == d && o.id == id && o.c == c
    && (id < FirstUnprocessedOId ==> o.carrier.Some? && 1 <= o.carrier.value <= 10)
    && (id >= FirstUnprocessedOId ==> o.carrier == None)
    && o.olCnt == GetRandomCount(seeded, w, id, d)
    && o.allLocal == 1
    && o.entryD == now
  }

  /** Row j is order ks[j].1 of district ks[j].0, placed by that district's permuted customer. */
  ghost predicate OrderRows(rows: seq<Order>, ks: seq<(int, int)>, perms: seq<seq<int>>, w: int,
                            seeded: (int, int, int) -> int, now: Time)
  {
    |rows| == |ks| &&
    forall j :: 0 <= j < |rows| ==>
      && 1 <= ks[j].0 <= |perms| && 1 <= ks[j].1 <= |perms[ks[j].0 - 1]|
      && OrderRow(rows[j], w, ks[j].0, ks[j].1, perms[ks[j].0 - 1][ks[j].1 - 1], seeded, now)
  }

  method GenOrder(rng: Rng.Source, w: int, d: int, id: int, c: int, now: Time) returns (o: Order)
    modifies rng
    ensures OrderRow(o, w, d, id, c, rng.seeded, now)
  {
    var carrier: Option<int> := None;
    if id < FirstUnprocessedOId {
      var x := rng.Number(1, 10);
      carrier := Some(x);
    }
    o := Order(w, d, id, c, carrier, GetRandomCount(rng.seeded, w, id, d), 1, now);
  }

  /**
   * loadOpenOrders: orders 1..customersPerDistrict of every district, the customer of
   * district d's order o being perms[d-1][o-1], a fresh shuffle of 1..customersPerDistrict.
   */
  method LoadOpenOrders(rng: Rng.Source, stmt: Statement<Order>, w: int, districtsPerWarehouse: int,
                        customersPerDistrict: int, batchSize: int, now: Time)
    returns (ghost rows: seq<Order>, ghost perms: seq<seq<int>>)
    requires customersPerDistrict >= 0
    requires batchSize >= 1 && stmt.flushed == [] && stmt.pending == []
    modifies rng, stmt
    ensures FlushedInBatches(stmt.flushed, rows, batchSize)
    ensures |perms| == if districtsPerWarehouse < 1 then 0 else districtsPerWarehouse
    ensures forall x :: 0 <= x < |perms| ==> Derangement(perms[x], customersPerDistrict)
    ensures OrderRows(rows, Keys(districtsPerWarehouse, customersPerDistrict), perms, w, rng.seeded, now)
  {
    rows, perms := [], [];
    var k := 0;
    var d := 1;
    while d <= districtsPerWarehouse
      invariant 1 <= d <= if districtsPerWarehouse < 1 then 1 else districtsPerWarehouse + 1
      invariant k == |rows| && Batched(stmt.flushed, stmt.pending, rows, batchSize)
      invariant |perms| == d - 1 && forall x :: 0 <= x < |perms| ==> Derangement(perms[x], customersPerDistrict)
      invariant OrderRows(rows, Keys(d - 1, customersPerDistrict), perms, w, rng.seeded, now)
    {
      ghost var perm;
      k, rows, perm := LoadDistrictOrders(rng, stmt, w, d, customersPerDistrict, batchSize, now, k, rows,
                                          Keys(d - 1, customersPerDistrict), perms);
      perms := perms + [perm];
      d := d + 1;
    }
    FinishBatches(stmt, batchSize, rows);
  }

  /** One district of loadOpenOrders: fill and shuffle c_ids, then the orders in id order. */
  method LoadDistrictOrders(rng: Rng.Source, stmt: Statement<Order>, w: int, d: int, customersPerDistrict: int,
                            batchSize: int, now: Time, k0: int, ghost rows0: seq<Order>, ghost ks: seq<(int, int)>,
                            ghost perms0: seq<seq<int>>)
    returns (k: int, ghost rows: seq<Order>, ghost perm: seq<int>)
    requires customersPerDistrict >= 0
    requires k0 == |rows0| && Batched(stmt.flushed, stmt.pending, rows0, batchSize)
    requires |perms0| == d - 1 && OrderRows(rows0, ks, perms0, w, rng.seeded, now)
    modifies rng, stmt
    ensures k == |rows| && Batched(stmt.flushed, stmt.pending, rows, batchSize)
    ensures Derangement(perm, customersPerDistrict)
    ensures OrderRows(rows, ks + Row(d, customersPerDistrict), perms0 + [perm], w, rng.seeded, now)
  {
    var cIds := new int[customersPerDistrict];
    Identity(cIds);
    Shuffle(rng, cIds);
    perm := cIds[..];
    OrderRowsExtend(rows0, ks, perms0, perm, w, rng.seeded, now);
    k, rows := LoadShuffledOrders(rng, stmt, cIds, w, d, batchSize, now, k0, rows0, ks, perms0 + [perm]);
  }

  /** Adding a district's permutation keeps what was said of the earlier districts. */
  lemma OrderRowsExtend(rows: seq<Order>, ks: seq<(int, int)>, perms: seq<seq<int>>, perm: seq<int>, w: int,
                        seeded: (int, int, int) -> int, now: Time)
    requires OrderRows(rows, ks, perms, w, seeded, now)
    ensures OrderRows(rows, ks, perms + [perm], w, seeded, now)
  {
    forall j | 0 <= j < |rows|
      ensures (perms + [perm])[ks[j].0 - 1] == perms[ks[j].0 - 1]
    {
    }
  }

  /** One more order row, for key k, placed by the customer k's permutation gives it. */
  lemma OrderRowsAppend(rows: seq<Order>, ks: seq<(int, int)>, perms: seq<seq<int>>, o: Order, k: (int, int), w: int,
                        seeded: (int, int, int) -> int, now: Time)
    requires OrderRows(rows, ks, perms, w, seeded, now)
    requires 1 <= k.0 <= |perms| && 1 <= k.1 <= |perms[k.0 - 1]|
    requires OrderRow(o, w, k.0, k.1, perms[k.0 - 1][k.1 - 1], seeded, now)
    ensures OrderRows(rows + [o], ks + [k], perms, w, seeded, now)
  {
  }

  /** The order loop of one district of loadOpenOrders, reading customers from the shuffled c_ids. */
  method LoadShuffledOrders(rng: Rng.Source, stmt: Statement<Order>, cIds: array<int>, w: int, d: int,
                            batchSize: int, now: Time, k0: int, ghost rows0: seq<Order>, ghost ks: seq<(int, int)>,
                            ghost perms: seq<seq<int>>)
    returns (k: int, ghost rows: seq<Order>)
    requires d >= 1 && |perms| == d && perms[d - 1] == cIds[..]
    requires k0 == |rows0| && Batched(stmt.flushed, stmt.pending, rows0, batchSize)
    requires OrderRows(rows0, ks, perms, w, rng.seeded, now)
    modifies rng, stmt
    ensures k == |rows| && Batched(stmt.flushed, stmt.pending, rows, batchSize)
    ensures OrderRows(rows, ks + Row(d, cIds.Length), perms, w, rng.seeded, now)
  {
    k, rows := k0, rows0;
    assert ks + Row(d, 0) == ks;
    var c := 1;
    while c <= cIds.Length
      invariant 1 <= c <= cIds.Length + 1
      invariant k == |rows| && Batched(stmt.flushed, stmt.pending, rows, batchSize)
      invariant OrderRows(rows, ks + Row(d, c - 1), perms, w, rng.seeded, now)
    {
      var o := GenOrder(rng, w, d, c, cIds[c - 1], now);
      k := AddRow(stmt, o, k, batchSize, rows);
      OrderRowsAppend(rows, ks + Row(d, c - 1), perms, o, (d, c), w, rng.seeded, now);
      assert ks + Row(d, c) == ks + Row(d, c - 1) + [(d, c)];
      rows := rows + [o];
      c := c + 1;
    }
  }

  /**
   * Every loaded order's customer is one of 1..C, and when C >= 2 no order o is placed by
   * customer o.
   */
  lemma OrdersAssignCustomers(rows: seq<Order>, ks: seq<(int, int)>, perms: seq<seq<int>>, customersPerDistrict: nat,
                              w: int, seeded: (int, int, int) -> int, now: Time)
    requires OrderRows(rows, ks, perms, w, seeded, now)
    requires forall x :: 0 <= x < |perms| ==> Derangement(perms[x], customersPerDistrict)
    ensures forall j :: 0 <= j < |rows| ==> 1 <= rows[j].c <= customersPerDistrict
    ensures customersPerDistrict >= 2 ==> forall j :: 0 <= j < |rows| ==> rows[j].c != rows[j].id
  {
    forall j | 0 <= j < |rows|
      ensures 1 <= rows[j].c <= customersPerDistrict
    {
      var p := perms[ks[j].0 - 1];
      assert p[ks[j].1 - 1] in multiset(p);
      assert rows[j].c in Iota(customersPerDistrict);
    }
  }

  // ---------------------------------------------------------------------------------------
  // NEW-ORDER: the open orders, the flush test sitting outside the if.

  /** loadNewOrders: a NEW-ORDER row for every order with id 2101 or more, in loop order. */
  method LoadNewOrders(stmt: Statement<NewOrder>, w: int, districtsPerWarehouse: int, customersPerDistrict: int,
                       batchSize: int) returns (ghost rows: seq<NewOrder>)
    requires batchSize >= 1 && stmt.flushed == [] && stmt.pending == []
    modifies stmt
    ensures SubmittedBounded(stmt.flushed, rows, batchSize)
    ensures rows == AllNewOrders(w, districtsPerWarehouse, customersPerDistrict)
  {
    rows := [];
    var k := 0;
    var d := 1;
    while d <= districtsPerWarehouse
      invariant 1 <= d <= if districtsPerWarehouse < 1 then 1 else districtsPerWarehouse + 1
      invariant k == |rows| && LooseBatched(stmt.flushed, stmt.pending, rows, batchSize)
      invariant rows == AllNewOrders(w, d - 1, customersPerDistrict)
    {
      k, rows := LoadDistrictNewOrders(stmt, w, d, customersPerDistrict, batchSize, k, rows);
      d := d + 1;
    }
    LooseFinalFlush(stmt.flushed, stmt.pending, rows, batchSize);
    stmt.Flush();
  }

  /** The inner loop of loadNewOrders, over the orders of district d. */
  method LoadDistrictNewOrders(stmt: Statement<NewOrder>, w: int, d: int, customersPerDistrict: int, batchSize: int,
                               k0: int, ghost rows0: seq<NewOrder>) returns (k: int, ghost rows: seq<NewOrder>)
    requires k0 == |rows0| && LooseBatched(stmt.flushed, stmt.pending, rows0, batchSize)
    modifies stmt
    ensures k == |rows| && LooseBatched(stmt.flushed, stmt.pending, rows, batchSize)
    ensures rows == rows0 + NewOrderRows(w, d, customersPerDistrict)
  {
    k, rows := k0, rows0;
    assert rows0 + NewOrderRows(w, d, 0) == rows0;
    var c := 1;
    while c <= customersPerDistrict
      invariant 1 <= c <= if customersPerDistrict < 1 then 1 else customersPerDistrict + 1
      invariant k == |rows| && LooseBatched(stmt.flushed, stmt.pending, rows, batchSize)
      invariant rows == rows0 + NewOrderRows(w, d, c - 1)
    {
      k, rows := NewOrderStep(stmt, w, d, c, batchSize, k, rows);
      assert NewOrderRows(w, d, c) == NewOrderRows(w, d, c - 1) + if c >= FirstUnprocessedOId then [NewOrder(w, d, c)] else [];
      c := c + 1;
    }
  }

  /** One pass of the inner loop of loadNewOrders: the row when c >= 2101, then the flush test. */
  method NewOrderStep(stmt: Statement<NewOrder>, w: int, d: int, c: int, batchSize: int,
                      k0: int, ghost rows0: seq<NewOrder>) returns (k: int, ghost rows: seq<NewOrder>)
    requires k0 == |rows0| && LooseBatched(stmt.flushed, stmt.pending, rows0, batchSize)
    modifies stmt
    ensures k == |rows| && LooseBatched(stmt.flushed, stmt.pending, rows, batchSize)
    ensures rows == rows0 + if c >= FirstUnprocessedOId then [NewOrder(w, d, c)] else []
    ensures c < FirstUnprocessedOId && k0 != 0 && k0 % batchSize == 0 ==>
              stmt.flushed == old(stmt.flushed) + [[]]
  {
    ghost var added: seq<NewOrder> := if c >= FirstUnprocessedOId then [NewOrder(w, d, c)] else [];
    LooseStep(stmt.flushed, stmt.pending, rows0, batchSize, added);
    k := k0;
    if c >= FirstUnprocessedOId {
      stmt.AddBatch(NewOrder(w, d, c));
      k := k + 1;
    }
    if k != 0 && k % batchSize == 0 {
      stmt.Flush();
    }
    rows := rows0 + added;
  }

  // ---------------------------------------------------------------------------------------
  // Order lines.

  /**
   * What loadOrderLines promises of line t.2 of order t.1 of district t.0: an item that
   * warehouse w stocks, the delivery date and amount the order's id calls for, supplied by
   * w, quantity 5.
   */
  ghost predicate LineRow(l: OrderLine, w: int, t: (int, int, int), numWarehouses: int, whseSpecificItems: int,
                          now: Time)
    requires numWarehouses >= 1
  {
    && l.w == w && l.d == t.0 && l.o == t.1 && l.number == t.2
    && 1 <= l.item <= ItemCount && HasStockRow(w, l.item, numWarehouses, whseSpecificItems)
    && (t.1 < FirstUnprocessedOId ==> l.deliveryD == Some(now) && l.amount == 0)
    && (t.1 >= FirstUnprocessedOId ==> l.deliveryD == None && 1 <= l.amount <= 999999)
    && l.supplyW == w && l.quantity == 5
    && l.distInfo.Some?
  }

  ghost predicate LineRows(rows: seq<OrderLine>, ts: seq<(int, int, int)>, w: int, numWarehouses: int,
                           whseSpecificItems: int, now: Time)
    requires numWarehouses >= 1
  {
    |rows| == |ts| && forall j :: 0 <= j < |rows| ==> LineRow(rows[j], w, ts[j], numWarehouses, whseSpecificItems, now)
  }

  /**
   * The item of an order line: drawn from 1..configItemCount and redrawn while it is
   * another warehouse's specific item. The loop ends once the stream yields an item w stocks.
   */
  method GenLineItem(rng: Rng.Source, w: int, numWarehouses: int, whseSpecificItems: int) returns (item: int)
    requires numWarehouses >= 1
    requires Rng.Fair(rng.raw, 1, ItemCount, Eligible(w, ItemCount, numWarehouses, whseSpecificItems))
    modifies rng
    ensures 1 <= item <= ItemCount && HasStockRow(w, item, numWarehouses, whseSpecificItems)
  {
    ghost var good := Eligible(w, ItemCount, numWarehouses, whseSpecificItems);
    assert Rng.EventuallyIn(rng.raw, rng.pos, 1, ItemCount, good);
    ghost var target: nat :| target >= rng.pos && Rng.Reduce(rng.raw(target), 1, ItemCount) in good;
    item := rng.Number(1, ItemCount);
    while item <= whseSpecificItems && item % numWarehouses + 1 != w
      invariant 1 <= item <= ItemCount
      invariant rng.pos >= 1 && item == Rng.Reduce(rng.raw(rng.pos - 1), 1, ItemCount)
      invariant rng.pos - 1 <= target
      decreases target - (rng.pos - 1)
    {
      item := rng.Number(1, ItemCount);
    }
  }

  method GenLine(rng: Rng.Source, w: int, d: int, o: int, number: int, numWarehouses: int, whseSpecificItems: int,
                 now: Time) returns (l: OrderLine)
    requires numWarehouses >= 1
    requires Rng.Fair(rng.raw, 1, ItemCount, Eligible(w, ItemCount, numWarehouses, whseSpecificItems))
    modifies rng
    ensures LineRow(l, w, (d, o, number), numWarehouses, whseSpecificItems, now)
  {
    var item := GenLineItem(rng, w, numWarehouses, whseSpecificItems);
    var deliveryD: Option<Time>;
    var amount;
    if o < FirstUnprocessedOId {
      deliveryD := Some(now);
      amount := 0;
    } else {
      deliveryD := None;
      amount := rng.Number(1, 999999);
    }
    var distInfo := rng.Str(24);
    l := OrderLine(w, d, o, number, item, deliveryD, amount, w, 5, Some(distInfo));
  }

  /**
   * loadOrderLines: for every order (d, o) in loop order, lines 1..getRandomCount(w, o, d).
   */
  method LoadOrderLines(rng: Rng.Source, stmt: Statement<OrderLine>, w: int, districtsPerWarehouse: int,
                        customersPerDistrict: int, numWarehouses: int, whseSpecificItems: int, batchSize: int,
                        now: Time) returns (ghost rows: seq<OrderLine>)
    requires numWarehouses >= 1
    requires Rng.Fair(rng.raw, 1, ItemCount, Eligible(w, ItemCount, numWarehouses, whseSpecificItems))
    requires batchSize >= 1 && stmt.flushed == [] && stmt.pending == []
    modifies rng, stmt
    ensures FlushedInBatches(stmt.flushed, rows, batchSize)
    ensures LineRows(rows, Expand(Keys(districtsPerWarehouse, customersPerDistrict), LineCount(rng.seeded, w)), w,
                     numWarehouses, whseSpecificItems, now)
  {
    rows := [];
    var k := 0;
    var d := 1;
    while d <= districtsPerWarehouse
      invariant 1 <= d <= if districtsPerWarehouse < 1 then 1 else districtsPerWarehouse + 1
      invariant k == |rows| && Batched(stmt.flushed, stmt.pending, rows, batchSize)
      invariant LineRows(rows, Expand(Keys(d - 1, customersPerDistrict), LineCount(rng.seeded, w)), w,
                         numWarehouses, whseSpecificItems, now)
    {
      k, rows := LoadDistrictLines(rng, stmt, w, d, customersPerDistrict, numWarehouses, whseSpecificItems,
                                   batchSize, now, k, rows, Keys(d - 1, customersPerDistrict));
      d := d + 1;
    }
    FinishBatches(stmt, batchSize, rows);
  }

  /** The middle loop of loadOrderLines, over the orders of district d. */
  method LoadDistrictLines(rng: Rng.Source, stmt: Statement<OrderLine>, w: int, d: int, customersPerDistrict: int,
                           numWarehouses: int, whseSpecificItems: int, batchSize: int, now: Time,
                           k0: int, ghost rows0: seq<OrderLine>, ghost ks: seq<(int, int)>)
    returns (k: int, ghost rows: seq<OrderLine>)
    requires numWarehouses >= 1
    requires Rng.Fair(rng.raw, 1, ItemCount, Eligible(w, ItemCount, numWarehouses, whseSpecificItems))
    requires k0 == |rows0| && Batched(stmt.flushed, stmt.pending, rows0, batchSize)
    requires LineRows(rows0, Expand(ks, LineCount(rng.seeded, w)), w, numWarehouses, whseSpecificItems, now)
    modifies rng, stmt
    ensures k == |rows| && Batched(stmt.flushed, stmt.pending, rows, batchSize)
    ensures LineRows(rows, Expand(ks + Row(d, customersPerDistrict), LineCount(rng.seeded, w)), w,
                     numWarehouses, whseSpecificItems, now)
  {
    k, rows := k0, rows0;
    assert ks + Row(d, 0) == ks;
    var c := 1;
    while c <= customersPerDistrict
      invariant 1 <= c <= if customersPerDistrict < 1 then 1 else customersPerDistrict + 1
      invariant k == |rows| && Batched(stmt.flushed, stmt.pending, rows, batchSize)
      invariant LineRows(rows, Expand(ks + Row(d, c - 1), LineCount(rng.seeded, w)), w,
                         numWarehouses, whseSpecificItems, now)
    {
      k, rows := LoadLinesOfOrder(rng, stmt, w, d, c, numWarehouses, whseSpecificItems, batchSize, now, k, rows,
                                  Expand(ks + Row(d, c - 1), LineCount(rng.seeded, w)));
      ExpandAppend(ks + Row(d, c - 1), (d, c), LineCount(rng.seeded, w));
      assert ks + Row(d, c) == ks + Row(d, c - 1) + [(d, c)];
      c := c + 1;
    }
  }

  /** The inner loop of loadOrderLines: lines 1..getRandomCount(w, o, d) of order o of district d. */
  method LoadLinesOfOrder(rng: Rng.Source, stmt: Statement<OrderLine>, w: int, d: int, o: int,
                          numWarehouses: int, whseSpecificItems: int, batchSize: int, now: Time,
                          k0: int, ghost rows0: seq<OrderLine>, ghost ts: seq<(int, int, int)>)
    returns (k: int, ghost rows: seq<OrderLine>)
    requires numWarehouses >= 1
    requires Rng.Fair(rng.raw, 1, ItemCount, Eligible(w, ItemCount, numWarehouses, whseSpecificItems))
    requires k0 == |rows0| && Batched(stmt.flushed, stmt.pending, rows0, batchSize)
    requires LineRows(rows0, ts, w, numWarehouses, whseSpecificItems, now)
    modifies rng, stmt
    ensures k == |rows| && Batched(stmt.flushed, stmt.pending, rows, batchSize)
    ensures LineRows(rows, ts + Numbered((d, o), LineCount(rng.seeded, w)((d, o))), w,
                     numWarehouses, whseSpecificItems, now)
  {
    var count := GetRandomCount(rng.seeded, w, o, d);
    k, rows := k0, rows0;
    assert ts + Numbered((d, o), 0) == ts;
    var l := 1;
    while l <= count
      invariant 1 <= l <= count + 1
      invariant k == |rows| && Batched(stmt.flushed, stmt.pending, rows, batchSize)
      invariant LineRows(rows, ts + Numbered((d, o), l - 1), w, numWarehouses, whseSpecificItems, now)
    {
      var line := GenLine(rng, w, d, o, l, numWarehouses, whseSpecificItems, now);
      k := AddRow(stmt, line, k, batchSize, rows);
      assert ts + Numbered((d, o), l) == ts + Numbered((d, o), l - 1) + [(d, o, l)];
      rows := rows + [line];
      l := l + 1;
    }
  }

  // ---------------------------------------------------------------------------------------
  // Properties across the tables of one warehouse.

  /** The (district, order, line number) keys of a list of order lines. */
  function LineKeys(lines: seq<OrderLine>): (ts: seq<(int, int, int)>)
    ensures |ts| == |lines|
    ensures forall j :: 0 <= j < |lines| ==> ts[j] == (lines[j].d, lines[j].o, lines[j].number)
  {
    seq(|lines|, j requires 0 <= j < |lines| => (lines[j].d, lines[j].o, lines[j].number))
  }

  /**
   * ORDER and ORDER-LINE agree: the lines of each loaded order are numbered 1..o_ol_cnt,
   * in that order, and no line belongs to a (district, order) pair outside the loops.
   */
  lemma LinesMatchOrders(orders: seq<Order>, perms: seq<seq<int>>, lines: seq<OrderLine>, w: int,
                         districtsPerWarehouse: int, customersPerDistrict: int, numWarehouses: int,
                         whseSpecificItems: int, seeded: (int, int, int) -> int, now: Time)
    requires numWarehouses >= 1
    requires OrderRows(orders, Keys(districtsPerWarehouse, customersPerDistrict), perms, w, seeded, now)
    requires LineRows(lines, Expand(Keys(districtsPerWarehouse, customersPerDistrict), LineCount(seeded, w)), w,
                      numWarehouses, whseSpecificItems, now)
    ensures forall j :: 0 <= j < |orders| ==>
              LinesOf(LineKeys(lines), (orders[j].d, orders[j].id)) == Numbered((orders[j].d, orders[j].id), orders[j].olCnt)
    ensures forall x: (int, int) :: !(1 <= x.0 <= districtsPerWarehouse && 1 <= x.1 <= customersPerDistrict) ==>
              LinesOf(LineKeys(lines), x) == []
  {
    var ks := Keys(districtsPerWarehouse, customersPerDistrict);
    var count := LineCount(seeded, w);
    var ts := Expand(ks, count);
    assert LineKeys(lines) == ts;
    KeysDistinct(districtsPerWarehouse, customersPerDistrict);
    KeysEnumerate(districtsPerWarehouse, customersPerDistrict);
    forall j | 0 <= j < |orders|
      ensures LinesOf(ts, (orders[j].d, orders[j].id)) == Numbered((orders[j].d, orders[j].id), orders[j].olCnt)
    {
      assert (orders[j].d, orders[j].id) == ks[j];
      ExpandLines(ks, count, ks[j]);
    }
    forall x: (int, int) | !(1 <= x.0 <= districtsPerWarehouse && 1 <= x.1 <= customersPerDistrict)
      ensures LinesOf(ts, x) == []
    {
      ExpandLines(ks, count, x);
    }
  }

  /** Some row of `stock` is the stock of item i in warehouse w. */
  predicate Stocked(stock: seq<Stock>, w: int, i: int)
  {
    exists j :: 0 <= j < |stock| && stock[j].w == w && stock[j].i == i
  }

  /**
   * Every order line names an item for which loadStock, run for the same warehouse over
   * the same items, wrote a stock row of its supplying warehouse.
   */
  lemma LineItemsStocked(lines: seq<OrderLine>, ts: seq<(int, int, int)>, stock: seq<Stock>, w: int,
                         numWarehouses: int, whseSpecificItems: int, now: Time,
                         raw: nat -> int, text: (nat, int) -> string)
    requires numWarehouses >= 1
    requires LineRows(lines, ts, w, numWarehouses, whseSpecificItems, now)
    requires var items := StockedItems(w, ItemCount, numWarehouses, whseSpecificItems);
      |stock| == |items| && forall j :: 0 <= j < |stock| ==> StockRow(stock[j], w, items[j], raw, text)
    ensures forall k :: 0 <= k < |lines| ==> Stocked(stock, lines[k].supplyW, lines[k].item)
  {
    var items := StockedItems(w, ItemCount, numWarehouses, whseSpecificItems);
    assert forall k :: 0 <= k < |lines| ==> lines[k].supplyW == w && lines[k].item in items;
    assert forall j :: 0 <= j < |stock| ==> stock[j].w == w && stock[j].i == items[j];
    StockedItemsFound(lines, stock, items, w);
  }

  /** The key columns are enough: a line whose item is listed finds the stock row written for it. */
  lemma StockedItemsFound(lines: seq<OrderLine>, stock: seq<Stock>, items: seq<int>, w: int)
    requires forall k :: 0 <= k < |lines| ==> lines[k].supplyW == w && lines[k].item in items
    requires |stock| == |items| && forall j :: 0 <= j < |stock| ==> stock[j].w == w && stock[j].i == items[j]
    ensures forall k :: 0 <= k < |lines| ==> Stocked(stock, lines[k].supplyW, lines[k].item)
  {
    forall k | 0 <= k < |lines|
      ensures Stocked(stock, lines[k].supplyW, lines[k].item)
    {
      var j :| 0 <= j < |items| && items[j] == lines[k].item;
      assert stock[j].w == lines[k].supplyW && stock[j].i == lines[k].item;
    }
  }

  /**
   * ORDER and NEW-ORDER agree: an order is undelivered (no carrier) exactly when it has a
   * NEW-ORDER row, and every NEW-ORDER row belongs to a loaded, undelivered order.
   */
  lemma OpenOrdersAreNewOrders(orders: seq<Order>, perms: seq<seq<int>>, w: int, districtsPerWarehouse: int,
                               customersPerDistrict: int, seeded: (int, int, int) -> int, now: Time)
    requires OrderRows(orders, Keys(districtsPerWarehouse, customersPerDistrict), perms, w, seeded, now)
    ensures forall j :: 0 <= j < |orders| ==>
              (orders[j].carrier == None <==>
               NewOrder(w, orders[j].d, orders[j].id) in AllNewOrders(w, districtsPerWarehouse, customersPerDistrict))
    ensures forall r :: r in AllNewOrders(w, districtsPerWarehouse, customersPerDistrict) ==>
              exists j :: 0 <= j < |orders| && orders[j].d == r.d && orders[j].id == r.o && orders[j].carrier == None
  {
    var ks := Keys(districtsPerWarehouse, customersPerDistrict);
    KeysEnumerate(districtsPerWarehouse, customersPerDistrict);
    AllNewOrdersEnumerate(w, districtsPerWarehouse, customersPerDistrict);
    forall j | 0 <= j < |orders|
      ensures 1 <= orders[j].d <= districtsPerWarehouse && orders[j].id <= customersPerDistrict
    {
      assert (orders[j].d, orders[j].id) == ks[j] && ks[j] in ks;
    }
    forall r | r in AllNewOrders(w, districtsPerWarehouse, customersPerDistrict)
      ensures exists j :: 0 <= j < |orders| && orders[j].d == r.d && orders[j].id == r.o && orders[j].carrier == None
    {
      assert (r.d, r.o) in ks;
      var j :| 0 <= j < |ks| && ks[j] == (r.d, r.o);
      assert orders[j].d == r.d && orders[j].id == r.o;
    }
  }

  /** The customer table built from the inserted rows, keyed by (w, d, id). */
  function CustomerTable(rows: seq<Customer>): (t: map<(int, int, int), Customer>)
    ensures forall j :: 0 <= j < |rows| ==> (rows[j].w, rows[j].d, rows[j].id) in t
  {
    if rows == [] then map[]
    else
      var last := rows[|rows| - 1];
      var init := rows[..|rows| - 1];
      assert forall j :: 0 <= j < |init| ==> init[j] == rows[j];
      CustomerTable(init)[(last.w, last.d, last.id) := last]
  }

  /** The table holds no key but those of the rows. */
  lemma {:induction false} TableKeys(rows: seq<Customer>, ks: seq<(int, int)>, w: int)
    requires |rows| == |ks| && forall x :: 0 <= x < |rows| ==> (rows[x].w, rows[x].d, rows[x].id) == (w, ks[x].0, ks[x].1)
    ensures forall k :: k in CustomerTable(rows) ==> k.0 == w && (k.1, k.2) in ks
  {
    if rows != [] {
      var n := |rows| - 1;
      TableKeys(rows[..n], ks[..n], w);
      assert ks[n] in ks;
      assert forall x :: x in ks[..n] ==> x in ks;
    }
  }

  /**
   * After loadCustomers and updateCustomersWithSupervisors, every loaded customer has
   * _C_IND_ID 1 and is otherwise the row loadCustomers inserted; no other row exists.
   */
  lemma CustomersSupervised(rows: seq<Customer>, w: int, districtsPerWarehouse: int, customersPerDistrict: int,
                            lastName: int -> string, now: Time)
    requires CustomerRows(rows, Keys(districtsPerWarehouse, customersPerDistrict), w, lastName, now)
    ensures var t := ApplySupervisorUpdates(CustomerTable(rows), Supervisors(w, Keys(districtsPerWarehouse, customersPerDistrict)));
      && (forall j :: 0 <= j < |rows| ==>
            var key := (rows[j].w, rows[j].d, rows[j].id);
            key in t && t[key] == rows[j].(supervisor := Some(1)))
      && (forall k :: k in t ==> k.0 == w && 1 <= k.1 <= districtsPerWarehouse && 1 <= k.2 <= customersPerDistrict)
  {
    var ks := Keys(districtsPerWarehouse, customersPerDistrict);
    assert |rows| == |ks| && forall j :: 0 <= j < |rows| ==> (rows[j].w, rows[j].d, rows[j].id) == (w, ks[j].0, ks[j].1);
    KeysDistinct(districtsPerWarehouse, customersPerDistrict);
    KeysEnumerate(districtsPerWarehouse, customersPerDistrict);
    SupervisedKeys(rows, ks, w);
  }

  /** CustomersSupervised on the key columns: rows keyed by distinct (d, c) pairs. */
  lemma SupervisedKeys(rows: seq<Customer>, ks: seq<(int, int)>, w: int)
    requires |rows| == |ks| && forall j :: 0 <= j < |rows| ==> (rows[j].w, rows[j].d, rows[j].id) == (w, ks[j].0, ks[j].1)
    requires forall j, k :: 0 <= j < k < |ks| ==> ks[j] != ks[k]
    ensures var t := ApplySupervisorUpdates(CustomerTable(rows), Supervisors(w, ks));
      && (forall j :: 0 <= j < |rows| ==>
            (rows[j].w, rows[j].d, rows[j].id) in t && t[(rows[j].w, rows[j].d, rows[j].id)] == rows[j].(supervisor := Some(1)))
      && (forall k :: k in t ==> k.0 == w && (k.1, k.2) in ks)
  {
    var table := CustomerTable(rows);
    var us := Supervisors(w, ks);
    SupervisedByOne(table, us);
    forall j | 0 <= j < |rows|
      ensures table[(rows[j].w, rows[j].d, rows[j].id)] == rows[j]
    {
      TableRow(rows, ks, w, j);
    }
    TableKeys(rows, ks, w);
  }

  /** With distinct keys, the table maps row j's key to row j: no later row overwrites it. */
  lemma {:induction false} TableRow(rows: seq<Customer>, ks: seq<(int, int)>, w: int, j: int)
    requires |rows| == |ks| && forall x :: 0 <= x < |rows| ==> (rows[x].w, rows[x].d, rows[x].id) == (w, ks[x].0, ks[x].1)
    requires forall x, y :: 0 <= x < y < |ks| ==> ks[x] != ks[y]
    requires 0 <= j < |rows|
    ensures CustomerTable(rows)[(rows[j].w, rows[j].d, rows[j].id)] == rows[j]
  {
    var n := |rows| - 1;
    if j < n {
      var init := rows[..n];
      assert ks[j] != ks[n];
      TableRow(init, ks[..n], w, j);
      assert init[j] == rows[j];
    }
  }
}

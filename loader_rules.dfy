/**
 * The rules behind the GeoC dataset loader: which rows exist, in which order the loader
 * generates them, and the values that do not come from the random source.
 */
module LoaderRules {
  import opened Schema
  import Rng

  /** Orders with a smaller id are delivered; the others are open and have a NEW-ORDER row. */
  const FirstUnprocessedOId: int := 2101
  /** GeoCConfig.configItemCount. */
  const ItemCount: int := 100000
  /** GeoCConfig.configCustPerDist. */
  const CustPerDist: int := 1000

  /**
   * Whether warehouse w has a stock row for item i (an id from 1 up, as the loader's loops
   * produce them): items up to whseSpecificItems belong to warehouse (i mod numWarehouses) + 1
   * only, every other item to every warehouse.
   */
  predicate HasStockRow(w: int, i: int, numWarehouses: int, whseSpecificItems: int): (b: bool)
    requires numWarehouses >= 1 && i >= 1
    ensures b <==> i > whseSpecificItems || w == Owner(i, numWarehouses)
  {
    !(i <= whseSpecificItems && i % numWarehouses + 1 != w)
  }

  /** The warehouse that owns a warehouse-specific item. */
  function Owner(i: int, numWarehouses: int): (w: int)
    requires numWarehouses >= 1 && i >= 1
    ensures 1 <= w <= numWarehouses
  {
    i % numWarehouses + 1
  }

  /**
   * A warehouse-specific item is stocked by exactly one warehouse, its owner, which lies in
   * 1..numWarehouses; every other item is stocked by every warehouse.
   */
  lemma StockEligibility(w: int, i: int, numWarehouses: int, whseSpecificItems: int)
    requires numWarehouses >= 1 && i >= 1
    ensures HasStockRow(w, i, numWarehouses, whseSpecificItems) <==>
              i > whseSpecificItems || w == Owner(i, numWarehouses)
    ensures HasStockRow(Owner(i, numWarehouses), i, numWarehouses, whseSpecificItems)
  {
  }

  /** The items 1..n warehouse w stocks, in increasing order: the rows loadStock generates. */
  function StockedItems(w: int, n: int, numWarehouses: int, whseSpecificItems: int): (s: seq<int>)
    requires numWarehouses >= 1
    ensures forall i :: i in s <==> 1 <= i <= n && HasStockRow(w, i, numWarehouses, whseSpecificItems)
    ensures forall j, k :: 0 <= j < k < |s| ==> s[j] < s[k]
    decreases n
  {
    if n < 1 then []
    else
      var s := StockedItems(w, n - 1, numWarehouses, whseSpecificItems);
      assert forall j :: 0 <= j < |s| ==> s[j] in s;
      if HasStockRow(w, n, numWarehouses, whseSpecificItems) then s + [n] else s
  }

  /** The items 1..n warehouse w stocks, as a set: the ids the order-line loop accepts. */
  function Eligible(w: int, n: int, numWarehouses: int, whseSpecificItems: int): (s: set<int>)
    requires numWarehouses >= 1
    ensures forall i :: i in s <==> 1 <= i <= n && HasStockRow(w, i, numWarehouses, whseSpecificItems)
    decreases n
  {
    if n < 1 then {}
    else
      var s := Eligible(w, n - 1, numWarehouses, whseSpecificItems);
      if HasStockRow(w, n, numWarehouses, whseSpecificItems) then s + {n} else s
  }

  /**
   * getRandomCount: the first draw in 5..15 of a generator seeded with the hash code of the
   * customer triple (w, c, d), so the same triple always gets the same count.
   */
  function GetRandomCount(seeded: (int, int, int) -> int, w: int, c: int, d: int): (n: int)
    ensures 5 <= n <= 15
  {
    Rng.Reduce(seeded(w, c, d), 5, 15)
  }

  /** The (district, customer) pairs of the loader's nested loops, in loop order. */
  function Keys(districts: int, customers: int): seq<(int, int)>
    decreases districts
  {
    if districts < 1 then []
    else Keys(districts - 1, customers) + Row(districts, customers)
  }

  /** The pairs (d, 1), ..., (d, customers). */
  function Row(d: int, customers: int): (r: seq<(int, int)>)
    ensures |r| == if customers < 1 then 0 else customers
    ensures forall j :: 0 <= j < |r| ==> r[j] == (d, j + 1)
    decreases customers
  {
    if customers < 1 then [] else Row(d, customers - 1) + [(d, customers)]
  }

  /**
   * Keys lists every pair (d, c) with d in 1..districts and c in 1..customers, and nothing
   * else, in increasing lexicographic order, so each exactly once.
   */
  lemma {:induction false} KeysEnumerate(districts: int, customers: int)
    ensures var ks := Keys(districts, customers);
      && (forall d, c :: (d, c) in ks <==> 1 <= d <= districts && 1 <= c <= customers)
      && (forall j, k :: 0 <= j < k < |ks| ==> ks[j].0 < ks[k].0 || (ks[j].0 == ks[k].0 && ks[j].1 < ks[k].1))
    decreases districts
  {
    if districts >= 1 {
      KeysEnumerate(districts - 1, customers);
      var ks := Keys(districts - 1, customers);
      var r := Row(districts, customers);
      forall d, c ensures (d, c) in r <==> d == districts && 1 <= c <= customers {
        if d == districts && 1 <= c <= customers {
          assert r[c - 1] == (d, c);
        }
      }
      forall j | 0 <= j < |ks| ensures ks[j].0 < districts {
        assert ks[j] in ks;
      }
    }
  }

  /** Keys lists no pair twice. */
  lemma KeysDistinct(districts: int, customers: int)
    ensures var ks := Keys(districts, customers);
      forall j, k :: 0 <= j < k < |ks| ==> ks[j] != ks[k]
  {
    KeysEnumerate(districts, customers);
  }

  /** The keys (d, o, 1), ..., (d, o, n) of the n lines of order (d, o). */
  function Numbered(k: (int, int), n: int): (r: seq<(int, int, int)>)
    ensures |r| == if n < 1 then 0 else n
    ensures forall j :: 0 <= j < |r| ==> r[j] == (k.0, k.1, j + 1)
    decreases n
  {
    if n < 1 then [] else Numbered(k, n - 1) + [(k.0, k.1, n)]
  }

  /** The line keys of the orders ks, in order, order k having count(k) lines. */
  function Expand(ks: seq<(int, int)>, count: ((int, int)) -> int): seq<(int, int, int)>
  {
    if ks == [] then [] else Expand(ks[..|ks| - 1], count) + Numbered(ks[|ks| - 1], count(ks[|ks| - 1]))
  }

  lemma ExpandAppend(ks: seq<(int, int)>, k: (int, int), count: ((int, int)) -> int)
    ensures Expand(ks + [k], count) == Expand(ks, count) + Numbered(k, count(k))
  {
    assert (ks + [k])[..|ks|] == ks;
  }

  /** The line keys of ts that belong to order k, in order. */
  function LinesOf(ts: seq<(int, int, int)>, k: (int, int)): (r: seq<(int, int, int)>)
    ensures forall j :: 0 <= j < |r| ==> r[j] in ts && (r[j].0, r[j].1) == k
  {
    if ts == [] then []
    else
      var last := ts[|ts| - 1];
      LinesOf(ts[..|ts| - 1], k) + if (last.0, last.1) == k then [last] else []
  }

  lemma {:induction false} LinesOfAppend(ts: seq<(int, int, int)>, us: seq<(int, int, int)>, k: (int, int))
    ensures LinesOf(ts + us, k) == LinesOf(ts, k) + LinesOf(us, k)
    decreases |us|
  {
    if us == [] {
      assert ts + us == ts;
    } else {
      var u := us[..|us| - 1];
      assert (ts + us)[..|ts + us| - 1] == ts + u;
      LinesOfAppend(ts, u, k);
    }
  }

  lemma {:induction false} LinesOfNumbered(k: (int, int), n: int, x: (int, int))
    ensures LinesOf(Numbered(k, n), x) == if x == k then Numbered(k, n) else []
    decreases n
  {
    if n >= 1 {
      var r := Numbered(k, n);
      assert r[..|r| - 1] == Numbered(k, n - 1);
      LinesOfNumbered(k, n - 1, x);
    }
  }

  /**
   * When the orders ks are distinct, the lines of order x among Expand(ks, count) are
   * numbered 1..count(x) if x is one of them, and there are none otherwise.
   */
  lemma {:induction false} ExpandLines(ks: seq<(int, int)>, count: ((int, int)) -> int, x: (int, int))
    requires forall j, k :: 0 <= j < k < |ks| ==> ks[j] != ks[k]
    ensures LinesOf(Expand(ks, count), x) == if x in ks then Numbered(x, count(x)) else []
  {
    if ks != [] {
      var init := ks[..|ks| - 1];
      var k := ks[|ks| - 1];
      assert ks == init + [k];
      ExpandLines(init, count, x);
      LinesOfAppend(Expand(init, count), Numbered(k, count(k)), x);
      LinesOfNumbered(k, count(k), x);
      if x == k {
        assert x !in init by {
          forall j | 0 <= j < |init| ensures init[j] != x {
            assert init[j] == ks[j];
          }
        }
      }
    }
  }

  /** n lines (or individuals) for every order (or customer). */
  function Each(n: int): ((int, int)) -> int
  {
    (k: (int, int)) => n
  }

  /** The line count of order (d, o) of warehouse w: getRandomCount(w, o, d). */
  function LineCount(seeded: (int, int, int) -> int, w: int): ((int, int)) -> int
  {
    (k: (int, int)) => GetRandomCount(seeded, w, k.1, k.0)
  }

  /** 1, 2, ..., n: the array loadOpenOrders fills before shuffling it. */
  function Iota(n: nat): (s: seq<int>)
    ensures |s| == n && forall j :: 0 <= j < n ==> s[j] == j + 1
  {
    seq(n, j requires 0 <= j < n => j + 1)
  }

  /** The NEW-ORDER rows of district d for orders 1..c: those with id 2101 or more. */
  function NewOrderRows(w: int, d: int, c: int): seq<NewOrder>
    decreases c
  {
    if c < FirstUnprocessedOId then []
    else NewOrderRows(w, d, c - 1) + [NewOrder(w, d, c)]
  }

  /** District d's NEW-ORDER rows are its orders 2101..c, each once, in increasing id. */
  lemma {:induction false} NewOrdersEnumerate(w: int, d: int, c: int)
    ensures forall r :: r in NewOrderRows(w, d, c) <==> r.w == w && r.d == d && FirstUnprocessedOId <= r.o <= c
    ensures forall j, k :: 0 <= j < k < |NewOrderRows(w, d, c)| ==> NewOrderRows(w, d, c)[j].o < NewOrderRows(w, d, c)[k].o
    decreases c
  {
    if c >= FirstUnprocessedOId {
      NewOrdersEnumerate(w, d, c - 1);
      var prev := NewOrderRows(w, d, c - 1);
      var rows := prev + [NewOrder(w, d, c)];
      assert NewOrderRows(w, d, c) == rows;
      forall j, k | 0 <= j < k < |rows| ensures rows[j].o < rows[k].o {
        assert rows[j] == prev[j] && prev[j] in prev;
        if k < |prev| {
          assert rows[k] == prev[k];
        }
      }
    }
  }

  /** The NEW-ORDER rows of districts 1..districts, c orders each, in loop order. */
  function AllNewOrders(w: int, districts: int, c: int): seq<NewOrder>
    decreases districts
  {
    if districts < 1 then [] else AllNewOrders(w, districts - 1, c) + NewOrderRows(w, districts, c)
  }

  /** NEW-ORDER holds exactly the orders 2101..c of districts 1..districts of warehouse w. */
  lemma {:induction false} AllNewOrdersEnumerate(w: int, districts: int, c: int)
    ensures forall r :: r in AllNewOrders(w, districts, c) <==>
              r.w == w && 1 <= r.d <= districts && FirstUnprocessedOId <= r.o <= c
    decreases districts
  {
    if districts >= 1 {
      AllNewOrdersEnumerate(w, districts - 1, c);
      NewOrdersEnumerate(w, districts, c);
    }
  }

  /** With the configured 1000 orders per district, no order is open and NEW-ORDER stays empty. */
  lemma {:induction false} NoNewOrdersAsConfigured(w: int, districts: int)
    ensures AllNewOrders(w, districts, CustPerDist) == []
    decreases districts
  {
    if districts >= 1 {
      NoNewOrdersAsConfigured(w, districts - 1);
    }
  }

  /** UPDATE CUSTOMER SET _C_IND_ID = ind WHERE C_W_ID = w AND C_D_ID = d AND C_ID = c. */
  datatype SupervisorUpdate = SupervisorUpdate(ind: int, w: int, d: int, c: int)

  /** The customer table after the updates, in order; an update matching no row changes nothing. */
  function ApplySupervisorUpdates(customers: map<(int, int, int), Customer>, us: seq<SupervisorUpdate>)
    : (r: map<(int, int, int), Customer>)
    ensures r.Keys == customers.Keys
    ensures forall k :: k in customers ==> r[k] == customers[k].(supervisor := r[k].supervisor)
    ensures forall k :: k in customers && (forall j :: 0 <= j < |us| ==> (us[j].w, us[j].d, us[j].c) != k) ==>
              r[k] == customers[k]
  {
    if us == [] then customers
    else
      var u := us[|us| - 1];
      var s := ApplySupervisorUpdates(customers, us[..|us| - 1]);
      var k := (u.w, u.d, u.c);
      if k in s then s[k := s[k].(supervisor := Some(u.ind))] else s
  }

  /** The second pass's updates for warehouse w's customers ks: supervisor 1 for each. */
  function Supervisors(w: int, ks: seq<(int, int)>): (us: seq<SupervisorUpdate>)
    ensures |us| == |ks|
    ensures forall j :: 0 <= j < |us| ==> us[j] == SupervisorUpdate(1, w, ks[j].0, ks[j].1)
  {
    seq(|ks|, j requires 0 <= j < |ks| => SupervisorUpdate(1, w, ks[j].0, ks[j].1))
  }

  /** After updates that all set supervisor 1, every customer one of them names has supervisor 1. */
  lemma {:induction false} SupervisedByOne(customers: map<(int, int, int), Customer>, us: seq<SupervisorUpdate>)
    requires forall j :: 0 <= j < |us| ==> us[j].ind == 1
    ensures forall j :: 0 <= j < |us| && (us[j].w, us[j].d, us[j].c) in customers ==>
              ApplySupervisorUpdates(customers, us)[(us[j].w, us[j].d, us[j].c)].supervisor == Some(1)
  {
    if us != [] {
      var init := us[..|us| - 1];
      SupervisedByOne(customers, init);
      forall j | 0 <= j < |us| && (us[j].w, us[j].d, us[j].c) in customers
        ensures ApplySupervisorUpdates(customers, us)[(us[j].w, us[j].d, us[j].c)].supervisor == Some(1)
      {
        if j < |us| - 1 {
          assert init[j] == us[j];
        }
      }
    }
  }

  /** String.toUpperCase on ASCII letters; every other character is kept. */
  function Upper(s: string): (r: string)
    ensures |r| == |s|
    ensures forall j :: 0 <= j < |s| ==> !('a' <= r[j] <= 'z')
    ensures forall j :: 0 <= j < |s| && !('a' <= s[j] <= 'z') ==> r[j] == s[j]
  {
    seq(|s|, j requires 0 <= j < |s| => if 'a' <= s[j] <= 'z' then (s[j] as int - 32) as char else s[j])
  }

  /**
   * The i_data / s_data rule at draw position p: a draw in 1..100 and a length in 26..50;
   * above 10 a random string of that length, otherwise a random prefix, "ORIGINAL" and a
   * random suffix, with the marker position drawn from 2..len-8. Returns the string and the
   * position after the last draw.
   */
  function DrawnData(raw: nat -> int, text: (nat, int) -> string, p: nat): (r: (string, nat))
    ensures r.1 > p
    ensures r.1 == p + 3 <==> Rng.Reduce(raw(p), 1, 100) > 10
    ensures r.1 == p + 5 <==> Rng.Reduce(raw(p), 1, 100) <= 10
  {
    var pct := Rng.Reduce(raw(p), 1, 100);
    var len := Rng.Reduce(raw(p + 1), 26, 50);
    if pct > 10 then (text(p + 2, len), p + 3)
    else
      var start := Rng.Reduce(raw(p + 2), 2, len - 8);
      (text(p + 3, start - 1) + "ORIGINAL" + text(p + 4, len - start - 9), p + 5)
  }

  /**
   * The data is plain when the first draw exceeds 10; otherwise "ORIGINAL" follows a prefix
   * drawn for a marker position in 2..len-8, with len in 26..50.
   */
  lemma DrawnDataShape(raw: nat -> int, text: (nat, int) -> string, p: nat)
    ensures var data := DrawnData(raw, text, p).0;
      var len := Rng.Reduce(raw(p + 1), 26, 50);
      && 26 <= len <= 50
      && (Rng.Reduce(raw(p), 1, 100) > 10 ==> data == text(p + 2, len))
      && (Rng.Reduce(raw(p), 1, 100) <= 10 ==>
            var start := Rng.Reduce(raw(p + 2), 2, len - 8);
            var pre := text(p + 3, start - 1);
            && 2 <= start <= len - 8
            && |data| == |pre| + 8 + |text(p + 4, len - start - 9)|
            && data[|pre|..|pre| + 8] == "ORIGINAL")
  {
    var len := Rng.Reduce(raw(p + 1), 26, 50);
    if Rng.Reduce(raw(p), 1, 100) <= 10 {
      var start := Rng.Reduce(raw(p + 2), 2, len - 8);
      var pre := text(p + 3, start - 1);
      var suf := text(p + 4, len - start - 9);
      assert (pre + "ORIGINAL" + suf)[|pre|..|pre| + 8] == "ORIGINAL";
    }
  }
}

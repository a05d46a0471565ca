/** The sales-series side of utils/predictionDataProcessor.js: extracting the sale lines of a
  * product or a category from orders, bucketing records by period start, the sliding-window
  * average, the duplicated trend, and the average and days-of-stock arithmetic. */
module Aggregation {
  import opened RealMath
  import opened Calendar
  import Forecast

  type ProductId = int

  /** A sale record or a bucket of `aggregateByPeriod`: `{ date, quantity, revenue }`. */
  datatype SalesPoint = SalesPoint(time: Timestamp, quantity: real, revenue: real)

  /** A bucket of `aggregateSalesData`: `{ date, quantity, revenue, orders }`, where `orders`
    * counts the order items added to it. `aggregateByPeriod` keeps the same buckets without
    * the count (`Points`). */
  datatype SalesBucket = SalesBucket(time: Timestamp, quantity: real, revenue: real, orders: nat)

  /** One line of an order as the data processor reads it: product, quantity and unit price. */
  datatype Item = Item(product: ProductId, quantity: real, price: real)

  datatype Order = Order(createdAt: Timestamp, items: seq<Item>)

  /** Every record carries a real calendar timestamp (a JavaScript `Date` always does). */
  predicate ValidPoints(data: seq<SalesPoint>)
  {
    forall i :: 0 <= i < |data| ==> ValidTimestamp(data[i].time)
  }

  predicate ValidOrders(orders: seq<Order>)
  {
    forall i :: 0 <= i < |orders| ==> ValidTimestamp(orders[i].createdAt)
  }

  function PointQuantities(s: seq<SalesPoint>): (qs: seq<real>)
    ensures |qs| == |s|
    ensures forall i :: 0 <= i < |s| ==> qs[i] == s[i].quantity
  {
    seq(|s|, i requires 0 <= i < |s| => s[i].quantity)
  }

  function PointRevenues(s: seq<SalesPoint>): (rs: seq<real>)
    ensures |rs| == |s|
    ensures forall i :: 0 <= i < |s| ==> rs[i] == s[i].revenue
  {
    seq(|s|, i requires 0 <= i < |s| => s[i].revenue)
  }

  // ---------------------------------------------------------------------------------------------
  // Extraction of sale records (the loops of getProductSalesData and getCategorySalesData)

  /** The record pushed for one item: the order's date, the quantity and price * quantity. */
  function RecordOf(t: Timestamp, it: Item): SalesPoint
  {
    SalesPoint(t, it.quantity, Revenue(it))
  }

  /** `item.price * item.quantity`. */
  function Revenue(it: Item): real
  {
    it.price * it.quantity
  }

  /** The records of one order's items whose product `keep` accepts, in item order. */
  function ItemSales(t: Timestamp, items: seq<Item>, keep: ProductId -> bool): (r: seq<SalesPoint>)
    ensures |r| <= |items|
    ensures (forall j :: 0 <= j < |items| ==> keep(items[j].product)) ==> |r| == |items|
    ensures forall k :: 0 <= k < |r| ==> r[k].time == t
  {
    if |items| == 0 then []
    else
      var it := items[|items| - 1];
      ItemSales(t, items[..|items| - 1], keep) + (if keep(it.product) then [RecordOf(t, it)] else [])
  }

  /** The records of all orders, in order. `getProductSalesData` keeps one product id,
    * `getCategorySalesData` the ids of the category's products. */
  function Extract(orders: seq<Order>, keep: ProductId -> bool): seq<SalesPoint>
  {
    if |orders| == 0 then []
    else
      var o := orders[|orders| - 1];
      Extract(orders[..|orders| - 1], keep) + ItemSales(o.createdAt, o.items, keep)
  }

  /** The product filter of `getProductSalesData`. */
  function IsProduct(id: ProductId): ProductId -> bool
  {
    p => p == id
  }

  /** The product filter of `getCategorySalesData`: one of the category's products. */
  function InCategory(ids: set<ProductId>): ProductId -> bool
  {
    p => p in ids
  }

  /** No filter: every item of every order gives a record, as in `aggregateSalesData`. */
  function KeepAll(p: ProductId): bool
  {
    true
  }

  /** Item j of an order (dated t) is accepted by `keep` and gives record p. */
  predicate FromItem(t: Timestamp, items: seq<Item>, j: int, keep: ProductId -> bool, p: SalesPoint)
  {
    0 <= j < |items| && keep(items[j].product) && p == RecordOf(t, items[j])
  }

  method ExtractSales(orders: seq<Order>, keep: ProductId -> bool) returns (sales: seq<SalesPoint>)
    ensures sales == Extract(orders, keep)
  {
    sales := [];
    var i := 0;
    while i < |orders|
      invariant 0 <= i <= |orders|
      invariant sales == Extract(orders[..i], keep)
    {
      assert orders[..i + 1][..i] == orders[..i];
      sales := AppendItemSales(sales, orders[i].createdAt, orders[i].items, keep);
      i := i + 1;
    }
    assert orders[..|orders|] == orders;
  }

  /** The inner loop over one order's items. */
  method AppendItemSales(sales: seq<SalesPoint>, t: Timestamp, items: seq<Item>, keep: ProductId -> bool)
    returns (r: seq<SalesPoint>)
    ensures r == sales + ItemSales(t, items, keep)
  {
    r := sales;
    var j := 0;
    while j < |items|
      invariant 0 <= j <= |items|
      invariant r == sales + ItemSales(t, items[..j], keep)
    {
      var item := items[j];
      ItemSalesStep(t, items, j, keep);
      if keep(item.product) {
        r := r + [SalesPoint(t, item.quantity, Revenue(item))];
        assert r == sales + (ItemSales(t, items[..j], keep) + [RecordOf(t, item)]);
      }
      j := j + 1;
    }
    assert items[..|items|] == items;
  }

  lemma ItemSalesStep(t: Timestamp, items: seq<Item>, j: nat, keep: ProductId -> bool)
    requires j < |items|
    ensures ItemSales(t, items[..j + 1], keep)
      == ItemSales(t, items[..j], keep) + (if keep(items[j].product) then [RecordOf(t, items[j])] else [])
  {
    assert items[..j + 1][..j] == items[..j];
  }

  /** Exactly the accepted items give records: p is a record of one order's items iff some
    * accepted item of the order gives p. */
  lemma {:induction false} ItemSalesMembers(t: Timestamp, items: seq<Item>, keep: ProductId -> bool, p: SalesPoint)
    ensures p in ItemSales(t, items, keep) <==> exists j :: FromItem(t, items, j, keep, p)
    decreases |items|
  {
    if |items| > 0 {
      var init := items[..|items| - 1];
      var last := items[|items| - 1];
      ItemSalesMembers(t, init, keep, p);
      if exists j :: FromItem(t, init, j, keep, p) {
        var j :| FromItem(t, init, j, keep, p);
        assert FromItem(t, items, j, keep, p);
      }
      if keep(last.product) && p == RecordOf(t, last) {
        assert FromItem(t, items, |items| - 1, keep, p);
      }
      if exists j :: FromItem(t, items, j, keep, p) {
        var j :| FromItem(t, items, j, keep, p);
        if j < |init| {
          assert FromItem(t, init, j, keep, p);
        }
      }
    }
  }

  /** Exactly the accepted items of all orders give records, each with its order's date,
    * its quantity and revenue price * quantity. */
  lemma {:induction false} ExtractMembers(orders: seq<Order>, keep: ProductId -> bool, p: SalesPoint)
    ensures p in Extract(orders, keep) <==>
      exists o :: 0 <= o < |orders| && exists j :: FromItem(orders[o].createdAt, orders[o].items, j, keep, p)
    decreases |orders|
  {
    if |orders| > 0 {
      var init := orders[..|orders| - 1];
      var last := orders[|orders| - 1];
      ExtractMembers(init, keep, p);
      ItemSalesMembers(last.createdAt, last.items, keep, p);
      var front, back := Extract(init, keep), ItemSales(last.createdAt, last.items, keep);
      assert Extract(orders, keep) == front + back;
      assert p in front + back <==> p in front || p in back;
      if exists o :: 0 <= o < |init| && exists j :: FromItem(init[o].createdAt, init[o].items, j, keep, p) {
        var o :| 0 <= o < |init| && exists j :: FromItem(init[o].createdAt, init[o].items, j, keep, p);
        assert orders[o] == init[o];
      }
      if exists o :: 0 <= o < |orders| && exists j :: FromItem(orders[o].createdAt, orders[o].items, j, keep, p) {
        var o :| 0 <= o < |orders| && exists j :: FromItem(orders[o].createdAt, orders[o].items, j, keep, p);
        if o < |init| {
          assert orders[o] == init[o];
        }
      }
    }
  }

  // ---------------------------------------------------------------------------------------------
  // Bucketing (aggregateByPeriod, aggregateSalesData)

  /** Buckets strictly ascending by key date: sorted, and one bucket per key. */
  predicate SortedByKey(bs: seq<SalesBucket>)
  {
    forall i, j :: 0 <= i < j < |bs| ==> DateBefore(bs[i].time.date, bs[j].time.date)
  }

  /** Adding one record with period start s to the buckets: the bucket keyed by s's date (the
    * `toISOString` day) grows by the record, or a bucket dated s is created for it. The `Map`
    * and the final sort by date are modelled together as a key-ordered sequence. */
  function AddTo(bs: seq<SalesBucket>, s: Timestamp, quantity: real, revenue: real): (out: seq<SalesBucket>)
    decreases |bs|
  {
    if |bs| == 0 then [SalesBucket(s, quantity, revenue, 1)]
    else if bs[0].time.date == s.date then
      [bs[0].(quantity := bs[0].quantity + quantity, revenue := bs[0].revenue + revenue, orders := bs[0].orders + 1)]
      + bs[1..]
    else if DateBefore(s.date, bs[0].time.date) then [SalesBucket(s, quantity, revenue, 1)] + bs
    else [bs[0]] + AddTo(bs[1..], s, quantity, revenue)
  }

  /** The key dates of a bucket sequence. */
  function KeySet(bs: seq<SalesBucket>): set<Date>
  {
    if |bs| == 0 then {} else {bs[0].time.date} + KeySet(bs[1..])
  }

  /** The bucket dates of a bucket sequence. */
  function TimeSet(bs: seq<SalesBucket>): set<Timestamp>
  {
    if |bs| == 0 then {} else {bs[0].time} + TimeSet(bs[1..])
  }

  function TotalQuantity(bs: seq<SalesBucket>): real
  {
    if |bs| == 0 then 0.0 else bs[0].quantity + TotalQuantity(bs[1..])
  }

  function TotalRevenue(bs: seq<SalesBucket>): real
  {
    if |bs| == 0 then 0.0 else bs[0].revenue + TotalRevenue(bs[1..])
  }

  function TotalOrders(bs: seq<SalesBucket>): nat
  {
    if |bs| == 0 then 0 else bs[0].orders + TotalOrders(bs[1..])
  }

  /** What one bucket holds: quantity, revenue and item count. */
  datatype Tally = Tally(quantity: real, revenue: real, orders: nat)

  const NoTally := Tally(0.0, 0.0, 0)

  /** One more record of quantity q and revenue r. */
  function Plus(t: Tally, q: real, r: real): Tally
  {
    Tally(t.quantity + q, t.revenue + r, t.orders + 1)
  }

  /** The tally of the bucket keyed k, or zeros when there is none. */
  function TallyAt(bs: seq<SalesBucket>, k: Date): Tally
  {
    if |bs| == 0 then NoTally
    else if bs[0].time.date == k then Tally(bs[0].quantity, bs[0].revenue, bs[0].orders)
    else TallyAt(bs[1..], k)
  }

  lemma DateOrder(a: Date, b: Date, c: Date)
    ensures !DateBefore(a, a)
    ensures a == b || DateBefore(a, b) || DateBefore(b, a)
    ensures DateBefore(a, b) && DateBefore(b, c) ==> DateBefore(a, c)
    ensures DateBefore(a, b) ==> !DateBefore(b, a)
  {
  }

  /** A key below the first key of sorted buckets is not among their keys. */
  lemma {:induction false} BelowFirstKey(bs: seq<SalesBucket>, k: Date)
    requires SortedByKey(bs) && |bs| > 0 && DateBefore(k, bs[0].time.date)
    ensures k !in KeySet(bs)
    ensures TallyAt(bs, k) == NoTally
    decreases |bs|
  {
    DateOrder(k, bs[0].time.date, k);
    if |bs| > 1 {
      DateOrder(k, bs[0].time.date, bs[1].time.date);
      BelowFirstKey(bs[1..], k);
    }
  }

  lemma {:induction false} AddToSorted(bs: seq<SalesBucket>, s: Timestamp, q: real, r: real)
    requires SortedByKey(bs)
    ensures SortedByKey(AddTo(bs, s, q, r))
    ensures |bs| > 0 ==>
      (AddTo(bs, s, q, r)[0].time.date == bs[0].time.date || AddTo(bs, s, q, r)[0].time.date == s.date)
    decreases |bs|
  {
    if |bs| > 0 && bs[0].time.date != s.date {
      if DateBefore(s.date, bs[0].time.date) {
        var out := AddTo(bs, s, q, r);
        forall j | 0 < j < |out|
          ensures DateBefore(out[0].time.date, out[j].time.date)
        {
          if j > 1 {
            DateOrder(s.date, bs[0].time.date, bs[j - 1].time.date);
          }
        }
      } else {
        DateOrder(s.date, bs[0].time.date, s.date);
        AddToSorted(bs[1..], s, q, r);
        var rest := AddTo(bs[1..], s, q, r);
        var out := AddTo(bs, s, q, r);
        assert out == [bs[0]] + rest;
        forall j | 0 < j < |out|
          ensures DateBefore(out[0].time.date, out[j].time.date)
        {
          AddToMembers(bs[1..], s, q, r, j - 1);
        }
      }
    }
  }

  /** Every bucket after an addition has the key of an old bucket or of the record. */
  lemma {:induction false} AddToMembers(bs: seq<SalesBucket>, s: Timestamp, q: real, r: real, j: nat)
    requires j < |AddTo(bs, s, q, r)|
    ensures AddTo(bs, s, q, r)[j].time.date == s.date
      || (exists i :: 0 <= i < |bs| && AddTo(bs, s, q, r)[j].time.date == bs[i].time.date)
    decreases |bs|
  {
    var out := AddTo(bs, s, q, r);
    if |bs| > 0 && bs[0].time.date != s.date && !DateBefore(s.date, bs[0].time.date) {
      if j > 0 {
        AddToMembers(bs[1..], s, q, r, j - 1);
        if out[j].time.date != s.date {
          var i :| 0 <= i < |bs[1..]| && AddTo(bs[1..], s, q, r)[j - 1].time.date == bs[1..][i].time.date;
          assert out[j].time.date == bs[i + 1].time.date;
        }
      } else {
        assert out[0].time.date == bs[0].time.date;
      }
    } else if |bs| > 0 && bs[0].time.date == s.date {
      if j > 0 {
        assert out[j].time.date == bs[j].time.date;
      }
    } else if |bs| > 0 && j > 0 {
      assert out[j].time.date == bs[j - 1].time.date;
    }
  }

  /** An addition adds the record's key to the keys, and its date to the dates at most. */
  lemma {:induction false} AddToKeys(bs: seq<SalesBucket>, s: Timestamp, q: real, r: real)
    ensures KeySet(AddTo(bs, s, q, r)) == KeySet(bs) + {s.date}
    ensures TimeSet(AddTo(bs, s, q, r)) <= TimeSet(bs) + {s}
    decreases |bs|
  {
    if |bs| > 0 {
      var out := AddTo(bs, s, q, r);
      if bs[0].time.date == s.date {
        assert out[1..] == bs[1..];
      } else if DateBefore(s.date, bs[0].time.date) {
        assert out[1..] == bs;
      } else {
        AddToKeys(bs[1..], s, q, r);
        assert out[1..] == AddTo(bs[1..], s, q, r);
      }
    }
  }

  /** An addition grows the totals by the record and the item count by one. */
  lemma {:induction false} AddToTotals(bs: seq<SalesBucket>, s: Timestamp, q: real, r: real)
    ensures TotalQuantity(AddTo(bs, s, q, r)) == TotalQuantity(bs) + q
    ensures TotalRevenue(AddTo(bs, s, q, r)) == TotalRevenue(bs) + r
    ensures TotalOrders(AddTo(bs, s, q, r)) == TotalOrders(bs) + 1
    decreases |bs|
  {
    if |bs| > 0 {
      var out := AddTo(bs, s, q, r);
      if bs[0].time.date == s.date {
        assert out[1..] == bs[1..];
      } else if DateBefore(s.date, bs[0].time.date) {
        assert out[1..] == bs;
      } else {
        AddToTotals(bs[1..], s, q, r);
        assert out[1..] == AddTo(bs[1..], s, q, r);
      }
    }
  }

  /** In sorted buckets an addition grows the bucket at the record's key by the record's
    * quantity, its revenue and one item, and leaves every other key's bucket alone. */
  lemma {:induction false} AddToAt(bs: seq<SalesBucket>, s: Timestamp, q: real, r: real, k: Date)
    requires SortedByKey(bs)
    ensures TallyAt(AddTo(bs, s, q, r), k) == if k == s.date then Plus(TallyAt(bs, k), q, r) else TallyAt(bs, k)
    decreases |bs|
  {
    if |bs| > 0 {
      var out := AddTo(bs, s, q, r);
      if bs[0].time.date == s.date {
        assert out[1..] == bs[1..];
      } else if DateBefore(s.date, bs[0].time.date) {
        assert out[1..] == bs;
        if k == s.date {
          BelowFirstKey(bs, k);
        }
      } else {
        AddToAt(bs[1..], s, q, r, k);
        assert out[1..] == AddTo(bs[1..], s, q, r);
      }
    }
  }

  /** The buckets of records whose period starts are `starts`, each record added in order. */
  function Bucket(data: seq<SalesPoint>, starts: seq<Timestamp>): seq<SalesBucket>
    requires |starts| == |data|
  {
    if |data| == 0 then []
    else
      var n := |data| - 1;
      AddTo(Bucket(data[..n], starts[..n]), starts[n], data[n].quantity, data[n].revenue)
  }

  /** The period start of every record (`getPeriodStart(item.date, period)`). */
  function Starts(data: seq<SalesPoint>, period: Period): (st: seq<Timestamp>)
    requires ValidPoints(data)
    ensures |st| == |data|
    ensures forall i :: 0 <= i < |data| ==> st[i] == PeriodStart(data[i].time, period)
  {
    seq(|data|, i requires 0 <= i < |data| => PeriodStart(data[i].time, period))
  }

  /** The buckets of a record sequence, each record added at its period start. */
  function Bucketed(data: seq<SalesPoint>, period: Period): seq<SalesBucket>
    requires ValidPoints(data)
  {
    Bucket(data, Starts(data, period))
  }

  /** The buckets without the item count, as `aggregateByPeriod` returns them. */
  function Points(bs: seq<SalesBucket>): (ps: seq<SalesPoint>)
    ensures |ps| == |bs|
    ensures forall i :: 0 <= i < |bs| ==> ps[i] == SalesPoint(bs[i].time, bs[i].quantity, bs[i].revenue)
  {
    seq(|bs|, i requires 0 <= i < |bs| => SalesPoint(bs[i].time, bs[i].quantity, bs[i].revenue))
  }

  method AggregateByPeriod(data: seq<SalesPoint>, period: Period) returns (out: seq<SalesPoint>)
    requires ValidPoints(data)
    ensures out == Points(Bucketed(data, period))
  {
    ghost var st := Starts(data, period);
    var buckets := [];
    var i := 0;
    while i < |data|
      invariant 0 <= i <= |data|
      invariant buckets == Bucket(data[..i], st[..i])
    {
      assert data[..i + 1][..i] == data[..i];
      assert st[..i + 1][..i] == st[..i];
      var start := PeriodStart(data[i].time, period);
      buckets := AddTo(buckets, start, data[i].quantity, data[i].revenue);
      i := i + 1;
    }
    assert data[..|data|] == data;
    assert st[..|data|] == st;
    out := Points(buckets);
  }

  /** The dates of a sequence of period starts. */
  function DateSet(starts: seq<Timestamp>): set<Date>
  {
    set i | 0 <= i < |starts| :: starts[i].date
  }

  lemma DateSetStep(starts: seq<Timestamp>)
    requires |starts| > 0
    ensures DateSet(starts) == DateSet(starts[..|starts| - 1]) + {starts[|starts| - 1].date}
  {
    var n := |starts| - 1;
    forall d | d in DateSet(starts)
      ensures d in DateSet(starts[..n]) + {starts[n].date}
    {
      var i :| 0 <= i < |starts| && starts[i].date == d;
      if i < n {
        assert starts[..n][i].date == d;
      }
    }
    forall d | d in DateSet(starts[..n])
      ensures d in DateSet(starts)
    {
      var i :| 0 <= i < n && starts[..n][i].date == d;
      assert starts[i].date == d;
    }
  }

  /** The buckets are sorted by key date, one per key. */
  lemma {:induction false} BucketSorted(data: seq<SalesPoint>, starts: seq<Timestamp>)
    requires |starts| == |data|
    ensures SortedByKey(Bucket(data, starts))
    decreases |data|
  {
    if |data| > 0 {
      var n := |data| - 1;
      BucketSorted(data[..n], starts[..n]);
      AddToSorted(Bucket(data[..n], starts[..n]), starts[n], data[n].quantity, data[n].revenue);
    }
  }

  /** The bucket keys are exactly the dates of the records' period starts, and every bucket
    * is dated by one of those period starts. */
  lemma {:induction false} BucketKeys(data: seq<SalesPoint>, starts: seq<Timestamp>)
    requires |starts| == |data|
    ensures KeySet(Bucket(data, starts)) == DateSet(starts)
    ensures forall t :: t in TimeSet(Bucket(data, starts)) ==> t in starts
    decreases |data|
  {
    if |data| > 0 {
      var n := |data| - 1;
      BucketKeys(data[..n], starts[..n]);
      AddToKeys(Bucket(data[..n], starts[..n]), starts[n], data[n].quantity, data[n].revenue);
      DateSetStep(starts);
      forall t | t in starts[..n]
        ensures t in starts
      {
        var i :| 0 <= i < n && starts[..n][i] == t;
        assert starts[i] == t;
      }
    }
  }

  /** Bucketing keeps the totals: summed bucket quantity and revenue equal the summed record
    * quantity and revenue, and the item count is the number of records. */
  lemma {:induction false} BucketTotals(data: seq<SalesPoint>, starts: seq<Timestamp>)
    requires |starts| == |data|
    ensures TotalQuantity(Bucket(data, starts)) == Sum(PointQuantities(data))
    ensures TotalRevenue(Bucket(data, starts)) == Sum(PointRevenues(data))
    ensures TotalOrders(Bucket(data, starts)) == |data|
    decreases |data|
  {
    if |data| > 0 {
      var n := |data| - 1;
      BucketTotals(data[..n], starts[..n]);
      AddToTotals(Bucket(data[..n], starts[..n]), starts[n], data[n].quantity, data[n].revenue);
      assert PointQuantities(data)[..n] == PointQuantities(data[..n]);
      assert PointRevenues(data)[..n] == PointRevenues(data[..n]);
    }
  }

  /** The records whose period start has date k, summed and counted: what the bucket keyed k
    * must hold. */
  function KeyTally(data: seq<SalesPoint>, starts: seq<Timestamp>, k: Date): Tally
    requires |starts| == |data|
  {
    if |data| == 0 then NoTally
    else
      var n := |data| - 1;
      var t := KeyTally(data[..n], starts[..n], k);
      if starts[n].date == k then Plus(t, data[n].quantity, data[n].revenue) else t
  }

  /** Records of the same key are added into one bucket: the bucket keyed k holds the summed
    * quantity and revenue, and the number, of exactly the records whose key is k. */
  lemma {:induction false} BucketAt(data: seq<SalesPoint>, starts: seq<Timestamp>, k: Date)
    requires |starts| == |data|
    ensures TallyAt(Bucket(data, starts), k) == KeyTally(data, starts, k)
    decreases |data|
  {
    if |data| > 0 {
      var n := |data| - 1;
      BucketAt(data[..n], starts[..n], k);
      BucketSorted(data[..n], starts[..n]);
      AddToAt(Bucket(data[..n], starts[..n]), starts[n], data[n].quantity, data[n].revenue, k);
    }
  }

  /** Dropping the order counts (`Points`) keeps the total quantity. */
  lemma {:induction false} PointsQuantity(bs: seq<SalesBucket>)
    ensures Sum(PointQuantities(Points(bs))) == TotalQuantity(bs)
    decreases |bs|
  {
    if |bs| > 0 {
      PointsQuantity(bs[1..]);
      var qs, qt := PointQuantities(Points(bs)), PointQuantities(Points(bs[1..]));
      assert qs == [bs[0].quantity] + qt by {
        forall i | 1 <= i < |bs|
          ensures qs[i] == qt[i - 1]
        {
          assert bs[1..][i - 1] == bs[i];
        }
      }
      SumCons(bs[0].quantity, qt);
    }
  }

  /** Dropping the order counts keeps the total revenue. */
  lemma {:induction false} PointsRevenue(bs: seq<SalesBucket>)
    ensures Sum(PointRevenues(Points(bs))) == TotalRevenue(bs)
    decreases |bs|
  {
    if |bs| > 0 {
      PointsRevenue(bs[1..]);
      var rs, rt := PointRevenues(Points(bs)), PointRevenues(Points(bs[1..]));
      assert rs == [bs[0].revenue] + rt by {
        forall i | 1 <= i < |bs|
          ensures rs[i] == rt[i - 1]
        {
          assert bs[1..][i - 1] == bs[i];
        }
      }
      SumCons(bs[0].revenue, rt);
    }
  }

  /** `aggregateByPeriod`: sorted by date with one bucket per distinct key, the keys exactly
    * the dates of the records' period starts, each bucket dated by one of those period starts
    * and holding the quantity and revenue of exactly its records, and the totals kept. */
  lemma AggregateByPeriodFacts(data: seq<SalesPoint>, period: Period, k: Date)
    requires ValidPoints(data)
    ensures SortedByKey(Bucketed(data, period))
    ensures KeySet(Bucketed(data, period)) == DateSet(Starts(data, period))
    ensures forall t :: t in TimeSet(Bucketed(data, period)) ==> t in Starts(data, period)
    ensures TallyAt(Bucketed(data, period), k).quantity == KeyTally(data, Starts(data, period), k).quantity
    ensures TallyAt(Bucketed(data, period), k).revenue == KeyTally(data, Starts(data, period), k).revenue
    ensures Sum(PointQuantities(Points(Bucketed(data, period)))) == Sum(PointQuantities(data))
    ensures Sum(PointRevenues(Points(Bucketed(data, period)))) == Sum(PointRevenues(data))
  {
    var st := Starts(data, period);
    BucketSorted(data, st);
    BucketKeys(data, st);
    BucketAt(data, st, k);
    BucketTotals(data, st);
    PointsQuantity(Bucket(data, st));
    PointsRevenue(Bucket(data, st));
  }

  lemma {:induction false} TimeSetMember(bs: seq<SalesBucket>, i: nat)
    requires i < |bs|
    ensures bs[i].time in TimeSet(bs)
    decreases i
  {
    if i > 0 {
      TimeSetMember(bs[1..], i - 1);
    }
  }

  /** A record dated after every bucket opens a new last bucket. */
  lemma {:induction false} AddToLast(bs: seq<SalesBucket>, s: Timestamp, q: real, r: real)
    requires forall i :: 0 <= i < |bs| ==> DateBefore(bs[i].time.date, s.date)
    ensures AddTo(bs, s, q, r) == bs + [SalesBucket(s, q, r, 1)]
    decreases |bs|
  {
    if |bs| > 0 {
      DateOrder(bs[0].time.date, s.date, s.date);
      AddToLast(bs[1..], s, q, r);
      assert [bs[0]] + (bs[1..] + [SalesBucket(s, q, r, 1)]) == bs + [SalesBucket(s, q, r, 1)];
    }
  }

  /** Records on strictly increasing dates, each keyed by its own date, come back unchanged. */
  lemma {:induction false} BucketDistinct(ps: seq<SalesPoint>, starts: seq<Timestamp>)
    requires |starts| == |ps|
    requires forall i :: 0 <= i < |ps| ==> starts[i] == ps[i].time
    requires forall i, j :: 0 <= i < j < |ps| ==> DateBefore(ps[i].time.date, ps[j].time.date)
    ensures Points(Bucket(ps, starts)) == ps
    decreases |ps|
  {
    if |ps| > 0 {
      var n := |ps| - 1;
      BucketDistinct(ps[..n], starts[..n]);
      var bs := Bucket(ps[..n], starts[..n]);
      forall i | 0 <= i < |bs|
        ensures DateBefore(bs[i].time.date, starts[n].date)
      {
        assert Points(bs)[i] == ps[i];
      }
      var last := SalesBucket(ps[n].time, ps[n].quantity, ps[n].revenue, 1);
      AddToLast(bs, starts[n], ps[n].quantity, ps[n].revenue);
      PointsSnoc(bs, last);
      assert ps == ps[..n] + [ps[n]];
    }
  }

  lemma PointsSnoc(bs: seq<SalesBucket>, b: SalesBucket)
    ensures Points(bs + [b]) == Points(bs) + [SalesPoint(b.time, b.quantity, b.revenue)]
  {
    assert forall i :: 0 <= i < |bs| ==> (bs + [b])[i] == bs[i];
  }

  /** Aggregating an aggregate changes nothing: every bucket is dated by a period start, which
    * is its own period start, and the buckets are one per date in increasing order. */
  lemma AggregateIdempotent(data: seq<SalesPoint>, period: Period)
    requires ValidPoints(data)
    ensures ValidPoints(Points(Bucketed(data, period)))
    ensures Points(Bucketed(Points(Bucketed(data, period)), period)) == Points(Bucketed(data, period))
  {
    var st := Starts(data, period);
    var bs := Bucket(data, st);
    BucketSorted(data, st);
    BucketKeys(data, st);
    forall i | 0 <= i < |bs|
      ensures ValidTimestamp(bs[i].time) && PeriodStart(bs[i].time, period) == bs[i].time
    {
      TimeSetMember(bs, i);
      var j :| 0 <= j < |st| && st[j] == bs[i].time;
      PeriodStartIdempotent(data[j].time, period);
    }
    var ps := Points(bs);
    assert ValidPoints(ps);
    BucketDistinct(ps, Starts(ps, period));
  }

  /** The items of one order added at a shared period start s, in item order. */
  function AddItems(bs: seq<SalesBucket>, s: Timestamp, items: seq<Item>): seq<SalesBucket>
  {
    if |items| == 0 then bs
    else
      var it := items[|items| - 1];
      AddTo(AddItems(bs, s, items[..|items| - 1]), s, it.quantity, Revenue(it))
  }

  /** What `aggregateSalesData` returns: every item of every order added at its order's
    * period start. */
  function SalesData(orders: seq<Order>, period: Period): seq<SalesBucket>
    requires ValidOrders(orders)
  {
    if |orders| == 0 then []
    else
      var o := orders[|orders| - 1];
      AddItems(SalesData(orders[..|orders| - 1], period), PeriodStart(o.createdAt, period), o.items)
  }

  method AggregateSalesData(orders: seq<Order>, period: Period) returns (buckets: seq<SalesBucket>)
    requires ValidOrders(orders)
    ensures buckets == SalesData(orders, period)
  {
    buckets := [];
    var i := 0;
    while i < |orders|
      invariant 0 <= i <= |orders|
      invariant buckets == SalesData(orders[..i], period)
    {
      assert orders[..i + 1][..i] == orders[..i];
      var start := PeriodStart(orders[i].createdAt, period);
      buckets := AddOrderItems(buckets, start, orders[i].items);
      i := i + 1;
    }
    assert orders[..|orders|] == orders;
  }

  /** The inner loop over one order's items, all added at the order's period start. */
  method AddOrderItems(bs: seq<SalesBucket>, start: Timestamp, items: seq<Item>) returns (r: seq<SalesBucket>)
    ensures r == AddItems(bs, start, items)
  {
    r := bs;
    var j := 0;
    while j < |items|
      invariant 0 <= j <= |items|
      invariant r == AddItems(bs, start, items[..j])
    {
      AddItemsStep(bs, start, items, j);
      r := AddTo(r, start, items[j].quantity, Revenue(items[j]));
      j := j + 1;
    }
    assert items[..|items|] == items;
  }

  lemma AddItemsStep(bs: seq<SalesBucket>, s: Timestamp, items: seq<Item>, j: nat)
    requires j < |items|
    ensures AddItems(bs, s, items[..j + 1]) == AddTo(AddItems(bs, s, items[..j]), s, items[j].quantity, Revenue(items[j]))
  {
    assert items[..j + 1][..j] == items[..j];
  }

  /** All records of a sequence of orders, one per item. */
  function AllRecords(orders: seq<Order>): seq<SalesPoint>
  {
    Extract(orders, KeepAll)
  }

  /** Every record is dated by an order that has items. */
  lemma RecordOrder(orders: seq<Order>, keep: ProductId -> bool, i: nat)
    requires i < |Extract(orders, keep)|
    ensures exists o :: 0 <= o < |orders| && |orders[o].items| > 0 && orders[o].createdAt == Extract(orders, keep)[i].time
  {
    var p := Extract(orders, keep)[i];
    ExtractMembers(orders, keep, p);
    var o :| 0 <= o < |orders| && exists j :: FromItem(orders[o].createdAt, orders[o].items, j, keep, p);
    var j :| FromItem(orders[o].createdAt, orders[o].items, j, keep, p);
    assert |orders[o].items| > 0 && orders[o].createdAt == p.time;
  }

  /** Every order that has items dates a record. */
  lemma OrderRecord(orders: seq<Order>, o: nat)
    requires o < |orders| && |orders[o].items| > 0
    ensures exists i :: 0 <= i < |AllRecords(orders)| && AllRecords(orders)[i].time == orders[o].createdAt
  {
    var p := RecordOf(orders[o].createdAt, orders[o].items[0]);
    assert FromItem(orders[o].createdAt, orders[o].items, 0, KeepAll, p);
    ExtractMembers(orders, KeepAll, p);
    var i :| 0 <= i < |AllRecords(orders)| && AllRecords(orders)[i] == p;
  }

  lemma ValidRecords(orders: seq<Order>, keep: ProductId -> bool)
    requires ValidOrders(orders)
    ensures ValidPoints(Extract(orders, keep))
  {
    forall i | 0 <= i < |Extract(orders, keep)|
      ensures ValidTimestamp(Extract(orders, keep)[i].time)
    {
      RecordOrder(orders, keep, i);
    }
  }

  /** `getProductSalesData`: the daily buckets of one product's records, sorted by day and
    * holding that product's total quantity and revenue. */
  function ProductSalesData(orders: seq<Order>, id: ProductId): (r: seq<SalesPoint>)
    requires ValidOrders(orders)
    ensures ValidPoints(Extract(orders, IsProduct(id)))
    ensures r == Points(Bucketed(Extract(orders, IsProduct(id)), Daily))
    ensures Sum(PointQuantities(r)) == Sum(PointQuantities(Extract(orders, IsProduct(id))))
    ensures Sum(PointRevenues(r)) == Sum(PointRevenues(Extract(orders, IsProduct(id))))
  {
    ValidRecords(orders, IsProduct(id));
    AggregateByPeriodFacts(Extract(orders, IsProduct(id)), Daily, Date(1970, 1, 1));
    Points(Bucketed(Extract(orders, IsProduct(id)), Daily))
  }

  /** `getCategorySalesData`: the same over the items of any of the category's products. */
  function CategorySalesData(orders: seq<Order>, ids: set<ProductId>): (r: seq<SalesPoint>)
    requires ValidOrders(orders)
    ensures ValidPoints(Extract(orders, InCategory(ids)))
    ensures r == Points(Bucketed(Extract(orders, InCategory(ids)), Daily))
    ensures Sum(PointQuantities(r)) == Sum(PointQuantities(Extract(orders, InCategory(ids))))
    ensures Sum(PointRevenues(r)) == Sum(PointRevenues(Extract(orders, InCategory(ids))))
  {
    ValidRecords(orders, InCategory(ids));
    AggregateByPeriodFacts(Extract(orders, InCategory(ids)), Daily, Date(1970, 1, 1));
    Points(Bucketed(Extract(orders, InCategory(ids)), Daily))
  }

  /** n copies of one period start. */
  function Copies(s: Timestamp, n: nat): (r: seq<Timestamp>)
    ensures |r| == n && forall i :: 0 <= i < n ==> r[i] == s
  {
    seq(n, _ => s)
  }

  /** Adding the items of one order at s is bucketing their records at s. */
  lemma {:induction false} AddItemsBucket(xs: seq<SalesPoint>, starts: seq<Timestamp>, s: Timestamp, t: Timestamp, items: seq<Item>)
    requires |starts| == |xs|
    ensures AddItems(Bucket(xs, starts), s, items) == Bucket(xs + ItemSales(t, items, KeepAll), starts + Copies(s, |items|))
    decreases |items|
  {
    if |items| > 0 {
      var n := |items| - 1;
      var it := items[n];
      AddItemsBucket(xs, starts, s, t, items[..n]);
      var ys0 := xs + ItemSales(t, items[..n], KeepAll);
      var st0 := starts + Copies(s, n);
      assert xs + ItemSales(t, items, KeepAll) == ys0 + [RecordOf(t, it)];
      assert starts + Copies(s, |items|) == st0 + [s];
      BucketSnoc(ys0, st0, RecordOf(t, it), s);
    } else {
      assert xs + ItemSales(t, items, KeepAll) == xs;
      assert starts + Copies(s, |items|) == starts;
    }
  }

  lemma BucketSnoc(data: seq<SalesPoint>, starts: seq<Timestamp>, x: SalesPoint, s: Timestamp)
    requires |starts| == |data|
    ensures Bucket(data + [x], starts + [s]) == AddTo(Bucket(data, starts), s, x.quantity, x.revenue)
  {
    assert (data + [x])[..|data|] == data;
    assert (starts + [s])[..|starts|] == starts;
  }

  /** The period starts of one more order's records: the old ones, then the order's own. */
  lemma StartsStep(xs: seq<SalesPoint>, t: Timestamp, items: seq<Item>, period: Period)
    requires ValidPoints(xs) && ValidTimestamp(t)
    ensures ValidPoints(xs + ItemSales(t, items, KeepAll))
    ensures Starts(xs + ItemSales(t, items, KeepAll), period) == Starts(xs, period) + Copies(PeriodStart(t, period), |items|)
  {
    var ys := xs + ItemSales(t, items, KeepAll);
    assert forall k :: |xs| <= k < |ys| ==> ys[k].time == t;
    assert forall k :: 0 <= k < |xs| ==> ys[k] == xs[k];
  }

  /** Bucketing orders item by item is bucketing their records: `aggregateSalesData` is
    * `aggregateByPeriod` over one record per item, with the item count kept. */
  lemma {:induction false} SalesDataIsBucketedRecords(orders: seq<Order>, period: Period)
    requires ValidOrders(orders)
    ensures ValidPoints(AllRecords(orders))
    ensures SalesData(orders, period) == Bucketed(AllRecords(orders), period)
    decreases |orders|
  {
    ValidRecords(orders, KeepAll);
    if |orders| > 0 {
      var init := orders[..|orders| - 1];
      var o := orders[|orders| - 1];
      SalesDataIsBucketedRecords(init, period);
      var r0 := AllRecords(init);
      AddItemsBucket(r0, Starts(r0, period), PeriodStart(o.createdAt, period), o.createdAt, o.items);
      StartsStep(r0, o.createdAt, o.items, period);
    }
  }

  /** The number of items of a sequence of orders. */
  function ItemCount(orders: seq<Order>): nat
  {
    if |orders| == 0 then 0 else ItemCount(orders[..|orders| - 1]) + |orders[|orders| - 1].items|
  }

  lemma {:induction false} AllRecordsCount(orders: seq<Order>)
    ensures |AllRecords(orders)| == ItemCount(orders)
    decreases |orders|
  {
    if |orders| > 0 {
      AllRecordsCount(orders[..|orders| - 1]);
    }
  }

  /** The number of items of the orders whose period start has date k. */
  function ItemsOn(orders: seq<Order>, period: Period, k: Date): nat
    requires ValidOrders(orders)
  {
    if |orders| == 0 then 0
    else
      var o := orders[|orders| - 1];
      ItemsOn(orders[..|orders| - 1], period, k) + (if PeriodStart(o.createdAt, period).date == k then |o.items| else 0)
  }

  /** Records that all share one period start s count towards s's key only. */
  lemma {:induction false} KeyTallyCopies(xs: seq<SalesPoint>, st: seq<Timestamp>, ys: seq<SalesPoint>, s: Timestamp, k: Date)
    requires |st| == |xs|
    ensures KeyTally(xs + ys, st + Copies(s, |ys|), k).orders == KeyTally(xs, st, k).orders + (if s.date == k then |ys| else 0)
    decreases |ys|
  {
    if |ys| > 0 {
      var m := |ys| - 1;
      KeyTallyCopies(xs, st, ys[..m], s, k);
      assert (xs + ys)[..|xs| + m] == xs + ys[..m];
      assert (st + Copies(s, |ys|))[..|xs| + m] == st + Copies(s, m);
    } else {
      assert xs + ys == xs;
      assert st + Copies(s, 0) == st;
    }
  }

  /** The records keyed k are as many as the items of the orders whose period start is on k. */
  lemma {:induction false} RecordItemsOn(orders: seq<Order>, period: Period, k: Date)
    requires ValidOrders(orders)
    ensures ValidPoints(AllRecords(orders))
    ensures KeyTally(AllRecords(orders), Starts(AllRecords(orders), period), k).orders == ItemsOn(orders, period, k)
    decreases |orders|
  {
    ValidRecords(orders, KeepAll);
    if |orders| > 0 {
      var init := orders[..|orders| - 1];
      var o := orders[|orders| - 1];
      RecordItemsOn(init, period, k);
      var r0 := AllRecords(init);
      StartsStep(r0, o.createdAt, o.items, period);
      KeyTallyCopies(r0, Starts(r0, period), ItemSales(o.createdAt, o.items, KeepAll), PeriodStart(o.createdAt, period), k);
    }
  }

  /** `aggregateSalesData`: the buckets are sorted with one per key; the keys are the period
    * starts of the orders that have items (an order without items makes no bucket); the
    * `orders` fields add up to the number of items, not of orders; and quantity and revenue
    * (price * quantity per item) add up to those of the items. Per key k, the bucket holds
    * the quantity and revenue of the items of the orders starting their period on k, and
    * their number. */
  lemma AggregateSalesDataFacts(orders: seq<Order>, period: Period, k: Date)
    requires ValidOrders(orders)
    ensures SortedByKey(SalesData(orders, period))
    ensures forall k :: k in KeySet(SalesData(orders, period)) <==>
      exists o :: 0 <= o < |orders| && |orders[o].items| > 0 && PeriodStart(orders[o].createdAt, period).date == k
    ensures TotalOrders(SalesData(orders, period)) == ItemCount(orders)
    ensures TotalQuantity(SalesData(orders, period)) == Sum(PointQuantities(AllRecords(orders)))
    ensures TotalRevenue(SalesData(orders, period)) == Sum(PointRevenues(AllRecords(orders)))
    ensures ValidPoints(AllRecords(orders))
    ensures TallyAt(SalesData(orders, period), k) == KeyTally(AllRecords(orders), Starts(AllRecords(orders), period), k)
    ensures TallyAt(SalesData(orders, period), k).orders == ItemsOn(orders, period, k)
  {
    SalesDataIsBucketedRecords(orders, period);
    var recs := AllRecords(orders);
    var st := Starts(recs, period);
    BucketSorted(recs, st);
    BucketKeys(recs, st);
    BucketTotals(recs, st);
    BucketAt(recs, st, k);
    RecordItemsOn(orders, period, k);
    AllRecordsCount(orders);
    forall k
      ensures k in DateSet(st) <==>
        exists o :: 0 <= o < |orders| && |orders[o].items| > 0 && PeriodStart(orders[o].createdAt, period).date == k
    {
      RecordKeys(orders, period, k);
    }
  }

  /** A date is a record's key iff it is the period start of an order that has items. */
  lemma RecordKeys(orders: seq<Order>, period: Period, k: Date)
    requires ValidOrders(orders) && ValidPoints(AllRecords(orders))
    ensures k in DateSet(Starts(AllRecords(orders), period)) <==>
      exists o :: 0 <= o < |orders| && |orders[o].items| > 0 && PeriodStart(orders[o].createdAt, period).date == k
  {
    var recs := AllRecords(orders);
    var st := Starts(recs, period);
    if k in DateSet(st) {
      var i :| 0 <= i < |st| && st[i].date == k;
      RecordOrder(orders, KeepAll, i);
    }
    if exists o :: 0 <= o < |orders| && |orders[o].items| > 0 && PeriodStart(orders[o].createdAt, period).date == k {
      var o :| 0 <= o < |orders| && |orders[o].items| > 0 && PeriodStart(orders[o].createdAt, period).date == k;
      OrderRecord(orders, o);
      var i :| 0 <= i < |recs| && recs[i].time == orders[o].createdAt;
      assert st[i].date == k;
    }
  }

  // ---------------------------------------------------------------------------------------------
  // The series handed to the forecasts, and the duplicated trend

  /** `{ date: new Date(d.date), quantity: d.quantity }`: a record as a forecast observation. */
  function ToObservations(data: seq<SalesPoint>): (obs: seq<Forecast.Observation>)
    requires ValidPoints(data)
    ensures |obs| == |data|
    ensures forall i :: 0 <= i < |data| ==> obs[i] == Forecast.Observation(DayNumber(data[i].time.date), data[i].quantity)
  {
    seq(|data|, i requires 0 <= i < |data| => Forecast.Observation(DayNumber(data[i].time.date), data[i].quantity))
  }

  lemma ObservedQuantities(data: seq<SalesPoint>)
    requires ValidPoints(data)
    ensures Forecast.Quantities(ToObservations(data)) == PointQuantities(data)
  {
  }

  /** `calculateTrend` of the data processor: 0 below two points, else the least-squares slope. */
  function CalculateTrend(data: seq<SalesPoint>): real
  {
    if |data| < 2 then 0.0 else Forecast.FittedLine(PointQuantities(data)).slope
  }

  /** The data processor's trend is the forecast library's trend of the same series. */
  lemma SharedTrend(data: seq<SalesPoint>)
    requires ValidPoints(data)
    ensures CalculateTrend(data) == Forecast.CalculateTrend(ToObservations(data))
  {
    ObservedQuantities(data);
  }

  // ---------------------------------------------------------------------------------------------
  // Sliding-window average (calculateMovingAverage)

  /** Entry k of the sliding average: the date of the window's last record and the mean
    * quantity and revenue of the `window` records ending there. */
  function WindowPoint(data: seq<SalesPoint>, window: nat, k: nat): SalesPoint
    requires window >= 1 && k + window <= |data|
  {
    var w := data[k..k + window];
    SalesPoint(data[k + window - 1].time, Sum(PointQuantities(w)) / AsReal(window), Sum(PointRevenues(w)) / AsReal(window))
  }

  /** What `calculateMovingAverage` returns: the input itself below `window` records, otherwise
    * one window point per position from window-1 on. */
  function SlidingAverage(data: seq<SalesPoint>, window: nat): (r: seq<SalesPoint>)
    requires window >= 1
    ensures |data| < window ==> r == data
    ensures |data| >= window ==> |r| == |data| - window + 1
  {
    if |data| < window then data
    else seq(|data| - window + 1, k requires 0 <= k < |data| - window + 1 => WindowPoint(data, window, k))
  }

  method CalculateMovingAverage(data: seq<SalesPoint>, window: nat) returns (result: seq<SalesPoint>)
    requires window >= 1
    ensures result == SlidingAverage(data, window)
  {
    if |data| < window {
      return data;
    }
    result := [];
    var i := window - 1;
    while i < |data|
      invariant window - 1 <= i <= |data|
      invariant |result| == i - window + 1
      invariant forall k :: 0 <= k < |result| ==> result[k] == WindowPoint(data, window, k)
    {
      var windowData := data[i - window + 1..i + 1];
      var avg := Sum(PointQuantities(windowData)) / AsReal(window);
      result := result + [SalesPoint(data[i].time, avg, Sum(PointRevenues(windowData)) / AsReal(window))];
      i := i + 1;
    }
    assert forall k :: 0 <= k < |result| ==> result[k] == SlidingAverage(data, window)[k];
  }

  /** The last sliding-average entry is the base level the moving-average forecast starts from:
    * the mean of the last `window` quantities. */
  lemma LastWindowIsRecentMean(data: seq<SalesPoint>, window: nat)
    requires window >= 1 && |data| >= window && ValidPoints(data)
    ensures SlidingAverage(data, window)[|data| - window].quantity
      == Forecast.RecentMean(ToObservations(data), window)
  {
    var k := |data| - window;
    LastWindowMean(data, window);
    assert SlidingAverage(data, window)[k] == WindowPoint(data, window, k);
  }

  lemma LastWindowMean(data: seq<SalesPoint>, window: nat)
    requires window >= 1 && |data| >= window && ValidPoints(data)
    ensures WindowPoint(data, window, |data| - window).quantity == Forecast.RecentMean(ToObservations(data), window)
  {
    var k := |data| - window;
    LastWindowQuantities(data, window);
    assert data[k..k + window] == data[|data| - window..|data|];
  }

  lemma LastWindowQuantities(data: seq<SalesPoint>, window: nat)
    requires window >= 1 && |data| >= window && ValidPoints(data)
    ensures Forecast.Quantities(Forecast.LastPoints(ToObservations(data), window))
      == PointQuantities(data[|data| - window..|data|])
  {
    var obs := ToObservations(data);
    var k := |data| - window;
    var last := Forecast.LastPoints(obs, window);
    var slice := data[k..|data|];
    var a := Forecast.Quantities(last);
    var b := PointQuantities(slice);
    assert |last| == window == |slice|;
    forall i | 0 <= i < window
      ensures a[i] == b[i]
    {
      assert last[i] == obs[k + i];
      assert slice[i] == data[k + i];
    }
  }

  /** The mean of a window of a constant series is that constant. */
  lemma WindowOfConstant(data: seq<SalesPoint>, window: nat, k: nat, c: real)
    requires window >= 1 && k + window <= |data|
    requires forall i :: 0 <= i < |data| ==> data[i].quantity == c
    ensures WindowPoint(data, window, k).quantity == c
  {
    var qs := PointQuantities(data[k..k + window]);
    assert |qs| == window;
    forall i | 0 <= i < |qs|
      ensures qs[i] == c
    {
      assert qs[i] == data[k + i].quantity;
    }
    SumConstant(qs, c);
    DivCancel(AsReal(window), c);
  }

  /** A constant series has every window mean equal to that constant. */
  lemma SlidingAverageOfConstant(data: seq<SalesPoint>, window: nat, c: real)
    requires window >= 1 && |data| >= window
    requires forall i :: 0 <= i < |data| ==> data[i].quantity == c
    ensures forall k :: 0 <= k < |data| - window + 1 ==> SlidingAverage(data, window)[k].quantity == c
  {
    forall k | 0 <= k < |data| - window + 1
      ensures SlidingAverage(data, window)[k].quantity == c
    {
      WindowOfConstant(data, window, k, c);
    }
  }

  // ---------------------------------------------------------------------------------------------
  // Averages and days of stock (getProductsWithStock, getCategoriesWithSales)

  /** `total / (days || 1)`: the average over the days, and the total itself when there are none. */
  function AvgDailySales(total: real, days: nat): (a: real)
    ensures days > 0 ==> a * AsReal(days) == total
    ensures days == 0 ==> a == total
  {
    total / AsReal(if days == 0 then 1 else days)
  }

  /** `stock / (avg || 1)`: only a zero average is replaced by 1; a small non-zero one is used
    * as it is. */
  function DaysOfStock(stock: real, avg: real): (d: real)
    ensures avg != 0.0 ==> d * avg == stock
    ensures avg == 0.0 ==> d == stock
  {
    stock / (if avg == 0.0 then 1.0 else avg)
  }

  /** The derived fields `getProductsWithStock` adds to a product. */
  datatype StockSummary = StockSummary(totalSales: real, avgDailySales: real, daysOfStock: real)

  function ProductStock(stock: real, recentSales: seq<SalesPoint>): (s: StockSummary)
    ensures s.totalSales == Sum(PointQuantities(recentSales))
    ensures |recentSales| > 0 ==> s.avgDailySales * AsReal(|recentSales|) == s.totalSales
    ensures s.avgDailySales != 0.0 ==> s.daysOfStock * s.avgDailySales == stock
    ensures s.avgDailySales == 0.0 ==> s.daysOfStock == stock
  {
    var total := Sum(PointQuantities(recentSales));
    var avg := AvgDailySales(total, |recentSales|);
    StockSummary(total, avg, DaysOfStock(stock, avg))
  }

  /** The derived fields `getCategoriesWithSales` adds to a category. */
  datatype CategorySummary = CategorySummary(totalSales: real, totalRevenue: real, avgDailySales: real, trend: real)

  function CategorySales(salesData: seq<SalesPoint>): (s: CategorySummary)
    ensures s.totalSales == Sum(PointQuantities(salesData))
    ensures s.totalRevenue == Sum(PointRevenues(salesData))
    ensures |salesData| > 0 ==> s.avgDailySales * AsReal(|salesData|) == s.totalSales
    ensures s.trend == CalculateTrend(salesData)
  {
    var total := Sum(PointQuantities(salesData));
    CategorySummary(total, Sum(PointRevenues(salesData)), AvgDailySales(total, |salesData|), CalculateTrend(salesData))
  }

  /** A product without recent sales has average 0 and its whole stock as days of stock. */
  lemma NoSalesSummary(stock: real)
    ensures ProductStock(stock, []) == StockSummary(0.0, 0.0, stock)
  {
  }
}

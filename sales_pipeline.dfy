/** The `ordersByRestaurant` aggregation of server/controllers/dashboardController.js,
    stage by stage: unwind the order lines, look up each line's product
    (dropping lines whose product is gone), group by (order, restaurant)
    keeping the order total, group by restaurant counting orders and summing
    totals, then look up the restaurant (dropping deleted ones) and project
    its name. Orders are identified by their position in the collection. */
module SalesPipeline {
  import opened Domain
  import opened OrderModel
  import opened Grouping

  /** A document after `$unwind: '$items'`, the product `$lookup` and
      `$unwind: '$product'`: the order it came from, the product's restaurant
      and the order total. */
  datatype Hit = Hit(order: nat, restaurant: Id, total: int)

  /** A document after the first `$group`: one per (order, restaurant) key,
      with `totalOrder: {$first: '$total'}`. */
  datatype Pair = Pair(order: nat, restaurant: Id, total: int)

  /** A document of the final output. */
  datatype RestaurantStat = RestaurantStat(restaurantName: string, totalOrders: nat, totalSales: int)

  /** The line's product exists and belongs to restaurant `r`. */
  predicate ServedBy(l: OrderLine, products: map<Id, Product>, r: Id)
  {
    l.product in products && products[l.product].restaurant == r
  }

  /** Reference: some line of the order has an existing product of restaurant `r`. */
  predicate Touches(o: Order, products: map<Id, Product>, r: Id)
  {
    exists j :: 0 <= j < |o.items| && ServedBy(o.items[j], products, r)
  }

  /** Reference: the number of orders that touch `r`, each counted once. */
  function OrderCountFor(orders: seq<Order>, products: map<Id, Product>, r: Id): nat
  {
    if orders == [] then 0
    else
      var last := orders[|orders| - 1];
      OrderCountFor(orders[..|orders| - 1], products, r) + (if Touches(last, products, r) then 1 else 0)
  }

  /** Reference: the sum of the full totals of the orders that touch `r`. */
  function SalesFor(orders: seq<Order>, products: map<Id, Product>, r: Id): int
  {
    if orders == [] then 0
    else
      var last := orders[|orders| - 1];
      SalesFor(orders[..|orders| - 1], products, r) + (if Touches(last, products, r) then last.total else 0)
  }

  /** The unwound and looked-up lines of order number `i`. */
  function LineHits(i: nat, total: int, lines: seq<OrderLine>, products: map<Id, Product>): seq<Hit>
  {
    if lines == [] then []
    else
      (if lines[0].product in products then [Hit(i, products[lines[0].product].restaurant, total)] else [])
      + LineHits(i, total, lines[1..], products)
  }

  /** The first three stages over the whole collection. */
  function Hits(orders: seq<Order>, products: map<Id, Product>): seq<Hit>
  {
    if orders == [] then []
    else
      var last := orders[|orders| - 1];
      Hits(orders[..|orders| - 1], products) + LineHits(|orders| - 1, last.total, last.items, products)
  }

  predicate HasPair(ps: seq<Pair>, i: nat, r: Id)
  {
    exists k :: 0 <= k < |ps| && ps[k].order == i && ps[k].restaurant == r
  }

  /** One document folded into the first `$group`: a new key opens a group
      holding this document's total; a known key keeps its first total. */
  function AddPair(ps: seq<Pair>, h: Hit): seq<Pair>
  {
    if HasPair(ps, h.order, h.restaurant) then ps else ps + [Pair(h.order, h.restaurant, h.total)]
  }

  function PairsOnto(ps: seq<Pair>, hs: seq<Hit>): seq<Pair>
  {
    if hs == [] then ps else AddPair(PairsOnto(ps, hs[..|hs| - 1]), hs[|hs| - 1])
  }

  function PairRestaurant(p: Pair): Id { p.restaurant }

  function PairTotal(p: Pair): int { p.total }

  /** The input of the second `$group`: key `$_id.restaurant`, summed value `$totalOrder`. */
  function PairEntries(ps: seq<Pair>): seq<Entry<Id>>
  {
    EntriesBy(ps, PairRestaurant, PairTotal)
  }

  /** The restaurant `$lookup`, `$unwind` and `$project` over the buckets. */
  function Join(bs: seq<Bucket<Id>>, restaurants: map<Id, Restaurant>): seq<RestaurantStat>
  {
    if bs == [] then []
    else
      (if bs[0].key in restaurants
       then [RestaurantStat(restaurants[bs[0].key].name, bs[0].count, bs[0].sum)]
       else [])
      + Join(bs[1..], restaurants)
  }

  /** The restaurant each document of `Join` belongs to, in output order. */
  function JoinKeys(bs: seq<Bucket<Id>>, restaurants: map<Id, Restaurant>): seq<Id>
  {
    if bs == [] then []
    else (if bs[0].key in restaurants then [bs[0].key] else []) + JoinKeys(bs[1..], restaurants)
  }

  /** The whole `ordersByRestaurant` pipeline. */
  function OrdersByRestaurant(orders: seq<Order>, products: map<Id, Product>,
                              restaurants: map<Id, Restaurant>): seq<RestaurantStat>
  {
    Join(GroupBy(PairEntries(PairsOnto([], Hits(orders, products)))), restaurants)
  }

  predicate HitsRestaurant(hs: seq<Hit>, r: Id)
  {
    exists k :: 0 <= k < |hs| && hs[k].restaurant == r
  }

  /** Every hit of an order carries that order's number and total, and the
      order has a hit for `r` exactly when it touches `r`. */
  lemma {:induction false} LineHitsSpec(i: nat, total: int, lines: seq<OrderLine>, products: map<Id, Product>, r: Id)
    ensures forall k :: 0 <= k < |LineHits(i, total, lines, products)| ==>
      LineHits(i, total, lines, products)[k].order == i && LineHits(i, total, lines, products)[k].total == total
    ensures HitsRestaurant(LineHits(i, total, lines, products), r) <==>
      exists j :: 0 <= j < |lines| && ServedBy(lines[j], products, r)
  {
    if lines != [] {
      LineHitsSpec(i, total, lines[1..], products, r);
      var head := if lines[0].product in products then [Hit(i, products[lines[0].product].restaurant, total)] else [];
      var tail := LineHits(i, total, lines[1..], products);
      assert LineHits(i, total, lines, products) == head + tail;
      if HitsRestaurant(tail, r) {
        var k :| 0 <= k < |tail| && tail[k].restaurant == r;
        assert (head + tail)[|head| + k] == tail[k];
      }
      if exists j :: 0 <= j < |lines[1..]| && ServedBy(lines[1..][j], products, r) {
        var j :| 0 <= j < |lines[1..]| && ServedBy(lines[1..][j], products, r);
        assert ServedBy(lines[j + 1], products, r);
      }
      if exists j :: 0 <= j < |lines| && ServedBy(lines[j], products, r) {
        var j :| 0 <= j < |lines| && ServedBy(lines[j], products, r);
        if j > 0 {
          assert ServedBy(lines[1..][j - 1], products, r);
        } else {
          assert (head + tail)[0].restaurant == r;
        }
      }
      if HitsRestaurant(head + tail, r) {
        var k :| 0 <= k < |head + tail| && (head + tail)[k].restaurant == r;
        if k >= |head| {
          assert tail[k - |head|].restaurant == r;
        } else {
          assert ServedBy(lines[0], products, r);
        }
      }
    }
  }

  lemma PairsOntoSplit(ps: seq<Pair>, a: seq<Hit>, b: seq<Hit>)
    ensures PairsOnto(ps, a + b) == PairsOnto(PairsOnto(ps, a), b)
    decreases |b|
  {
    if b != [] {
      PairsOntoSplit(ps, a, b[..|b| - 1]);
      assert (a + b)[..|a + b| - 1] == a + b[..|b| - 1];
    } else {
      assert a + b == a;
    }
  }

  lemma HitsRestaurantSnoc(hs: seq<Hit>, h: Hit, r: Id)
    ensures HitsRestaurant(hs + [h], r) <==> HitsRestaurant(hs, r) || h.restaurant == r
  {
    if HitsRestaurant(hs, r) {
      var k :| 0 <= k < |hs| && hs[k].restaurant == r;
      assert (hs + [h])[k].restaurant == r;
    }
    if h.restaurant == r {
      assert (hs + [h])[|hs|].restaurant == r;
    }
  }

  /** One hit of order `n` folded into the first group: either its
      (order, restaurant) group exists and nothing changes, or one group is
      appended for it. */
  lemma AddPairStep(x: seq<Pair>, h: Hit, n: nat, r: Id)
    requires h.order == n
    requires forall k :: 0 <= k < |x| ==> x[k].order <= n
    ensures forall k :: 0 <= k < |AddPair(x, h)| ==> AddPair(x, h)[k].order <= n
    ensures HasPair(AddPair(x, h), n, r) <==> HasPair(x, n, r) || h.restaurant == r
    ensures HasPair(x, n, h.restaurant) ==> AddPair(x, h) == x
    ensures !HasPair(x, n, h.restaurant) ==>
      && Count(PairEntries(AddPair(x, h)), r) == Count(PairEntries(x), r) + (if h.restaurant == r then 1 else 0)
      && Total(PairEntries(AddPair(x, h)), r) == Total(PairEntries(x), r) + (if h.restaurant == r then h.total else 0)
  {
    if !HasPair(x, n, h.restaurant) {
      var p := Pair(h.order, h.restaurant, h.total);
      var y := x + [p];
      EntriesBySnoc(x, p, PairRestaurant, PairTotal);
      CountSnoc(PairEntries(x), Entry(h.restaurant, h.total), r);
      assert y[|x|] == p;
      if HasPair(y, n, r) && h.restaurant != r {
        var k :| 0 <= k < |y| && y[k].order == n && y[k].restaurant == r;
        assert x[k].order == n && x[k].restaurant == r;
      }
      if HasPair(x, n, r) {
        var k :| 0 <= k < |x| && x[k].order == n && x[k].restaurant == r;
        assert y[k] == x[k];
      }
    }
  }

  /** Folding the hits of one new order (number `n`, total `t`) into the first
      group adds exactly one group per restaurant the order touches, however
      many of its lines that restaurant serves. */
  lemma {:induction false} OrderPairs(ps: seq<Pair>, hs: seq<Hit>, n: nat, t: int, r: Id)
    requires forall k :: 0 <= k < |ps| ==> ps[k].order < n
    requires forall k :: 0 <= k < |hs| ==> hs[k].order == n && hs[k].total == t
    ensures forall k :: 0 <= k < |PairsOnto(ps, hs)| ==> PairsOnto(ps, hs)[k].order <= n
    ensures HasPair(PairsOnto(ps, hs), n, r) <==> HitsRestaurant(hs, r)
    ensures Count(PairEntries(PairsOnto(ps, hs)), r) ==
      Count(PairEntries(ps), r) + (if HitsRestaurant(hs, r) then 1 else 0)
    ensures Total(PairEntries(PairsOnto(ps, hs)), r) ==
      Total(PairEntries(ps), r) + (if HitsRestaurant(hs, r) then t else 0)
    decreases |hs|
  {
    if hs != [] {
      var init := hs[..|hs| - 1];
      var h := hs[|hs| - 1];
      assert hs == init + [h];
      var x := PairsOnto(ps, init);
      OrderPairs(ps, init, n, t, r);
      OrderPairs(ps, init, n, t, h.restaurant);
      HitsRestaurantSnoc(init, h, r);
      AddPairStep(x, h, n, r);
    }
  }

  /** Through the first group, each restaurant receives one group per order
      that touches it, carrying that order's full total. */
  lemma {:induction false} PairsCount(orders: seq<Order>, products: map<Id, Product>, r: Id)
    ensures forall k :: 0 <= k < |PairsOnto([], Hits(orders, products))| ==>
      PairsOnto([], Hits(orders, products))[k].order < |orders|
    ensures Count(PairEntries(PairsOnto([], Hits(orders, products))), r) == OrderCountFor(orders, products, r)
    ensures Total(PairEntries(PairsOnto([], Hits(orders, products))), r) == SalesFor(orders, products, r)
  {
    if orders != [] {
      var init := orders[..|orders| - 1];
      var o := orders[|orders| - 1];
      var n := |init|;
      PairsCount(init, products, r);
      var lh := LineHits(n, o.total, o.items, products);
      PairsOntoSplit([], Hits(init, products), lh);
      LineHitsSpec(n, o.total, o.items, products, r);
      OrderPairs(PairsOnto([], Hits(init, products)), lh, n, o.total, r);
      forall r' {
        LineHitsSpec(n, o.total, o.items, products, r');
      }
    }
  }

  /** Over buckets with distinct keys, `$lookup` + `$unwind` + `$project`
      give exactly one document per bucket whose restaurant still exists:
      document `i` belongs to restaurant `ks[i]`, the restaurants are
      distinct, each carries its bucket's count and sum, and no bucket with
      an existing restaurant is missed. */
  lemma {:induction false} JoinOnePerBucket(bs: seq<Bucket<Id>>, restaurants: map<Id, Restaurant>)
    requires KeysDistinct(bs)
    ensures var ks := JoinKeys(bs, restaurants);
      && |ks| == |Join(bs, restaurants)|
      && (forall i, j :: 0 <= i < j < |ks| ==> ks[i] != ks[j])
      && (forall i :: 0 <= i < |ks| ==> ks[i] in restaurants && HasBucket(bs, ks[i]))
      && (forall i, k :: 0 <= i < |ks| && 0 <= k < |bs| && bs[k].key == ks[i] ==>
            Join(bs, restaurants)[i] == RestaurantStat(restaurants[ks[i]].name, bs[k].count, bs[k].sum))
      && (forall k :: 0 <= k < |bs| && bs[k].key in restaurants ==> bs[k].key in ks)
  {
    if bs != [] {
      var t := bs[1..];
      JoinOnePerBucket(t, restaurants);
      var ks', js' := JoinKeys(t, restaurants), Join(t, restaurants);
      var ks, js := JoinKeys(bs, restaurants), Join(bs, restaurants);
      forall i | 0 <= i < |ks'| ensures ks'[i] != bs[0].key && HasBucket(bs, ks'[i]) {
        var k :| 0 <= k < |t| && t[k].key == ks'[i];
        assert bs[k + 1] == t[k];
      }
      forall k | 0 < k < |bs| && bs[k].key in restaurants ensures bs[k].key in ks {
        assert t[k - 1] == bs[k];
      }
      if bs[0].key in restaurants {
        assert ks == [bs[0].key] + ks' && js == [RestaurantStat(restaurants[bs[0].key].name, bs[0].count, bs[0].sum)] + js';
        forall i, k | 0 <= i < |ks| && 0 <= k < |bs| && bs[k].key == ks[i]
          ensures js[i] == RestaurantStat(restaurants[ks[i]].name, bs[k].count, bs[k].sum)
        {
          if i > 0 && k > 0 {
            assert t[k - 1] == bs[k];
          }
        }
      } else {
        assert ks == ks' && js == js';
        forall i, k | 0 <= i < |ks| && 0 <= k < |bs| && bs[k].key == ks[i]
          ensures js[i] == RestaurantStat(restaurants[ks[i]].name, bs[k].count, bs[k].sum)
        {
          assert t[k - 1] == bs[k];
        }
      }
    }
  }

  /** What `$lookup` + `$unwind` + `$project` keep, as membership: a stat is
      listed iff it is built from a bucket whose restaurant still exists. */
  lemma {:induction false} JoinSpec(bs: seq<Bucket<Id>>, restaurants: map<Id, Restaurant>, s: RestaurantStat)
    ensures s in Join(bs, restaurants) <==>
      exists k :: 0 <= k < |bs| && bs[k].key in restaurants &&
        s == RestaurantStat(restaurants[bs[k].key].name, bs[k].count, bs[k].sum)
  {
    if bs != [] {
      JoinSpec(bs[1..], restaurants, s);
      if exists k :: 0 <= k < |bs[1..]| && bs[1..][k].key in restaurants &&
           s == RestaurantStat(restaurants[bs[1..][k].key].name, bs[1..][k].count, bs[1..][k].sum) {
        var k :| 0 <= k < |bs[1..]| && bs[1..][k].key in restaurants &&
           s == RestaurantStat(restaurants[bs[1..][k].key].name, bs[1..][k].count, bs[1..][k].sum);
        assert bs[k + 1] == bs[1..][k];
      }
      if exists k :: 0 <= k < |bs| && bs[k].key in restaurants &&
           s == RestaurantStat(restaurants[bs[k].key].name, bs[k].count, bs[k].sum) {
        var k :| 0 <= k < |bs| && bs[k].key in restaurants &&
           s == RestaurantStat(restaurants[bs[k].key].name, bs[k].count, bs[k].sum);
        if k > 0 {
          assert bs[1..][k - 1] == bs[k];
        }
      }
    }
  }

  /** The pipeline equals its reference: every output document is, for some
      restaurant that still exists and that at least one order touches, its
      name, the number of orders touching it and the sum of those orders' full
      totals; and every such restaurant has its document. */
  lemma OrdersByRestaurantSpec(orders: seq<Order>, products: map<Id, Product>,
                               restaurants: map<Id, Restaurant>, r: Id, s: RestaurantStat)
    ensures s in OrdersByRestaurant(orders, products, restaurants) ==>
      exists r' :: r' in restaurants && OrderCountFor(orders, products, r') > 0 &&
        s == RestaurantStat(restaurants[r'].name, OrderCountFor(orders, products, r'), SalesFor(orders, products, r'))
    ensures r in restaurants && OrderCountFor(orders, products, r) > 0 ==>
      RestaurantStat(restaurants[r].name, OrderCountFor(orders, products, r), SalesFor(orders, products, r))
        in OrdersByRestaurant(orders, products, restaurants)
  {
    var es := PairEntries(PairsOnto([], Hits(orders, products)));
    var bs := GroupBy(es);
    GroupBySpec(es);
    JoinSpec(bs, restaurants, s);
    if s in OrdersByRestaurant(orders, products, restaurants) {
      var k :| 0 <= k < |bs| && bs[k].key in restaurants &&
        s == RestaurantStat(restaurants[bs[k].key].name, bs[k].count, bs[k].sum);
      PairsCount(orders, products, bs[k].key);
      assert HasBucket(bs, bs[k].key);
    }
    if r in restaurants && OrderCountFor(orders, products, r) > 0 {
      PairsCount(orders, products, r);
      assert HasBucket(bs, r);
      var k :| 0 <= k < |bs| && bs[k].key == r;
      var stat := RestaurantStat(restaurants[r].name, OrderCountFor(orders, products, r), SalesFor(orders, products, r));
      JoinSpec(bs, restaurants, stat);
    }
  }

  /** The restaurant each document of `ordersByRestaurant` belongs to. */
  function StatRestaurants(orders: seq<Order>, products: map<Id, Product>,
                           restaurants: map<Id, Restaurant>): seq<Id>
  {
    JoinKeys(GroupBy(PairEntries(PairsOnto([], Hits(orders, products)))), restaurants)
  }

  /** `ordersByRestaurant` holds exactly one document per restaurant that
      still exists and that some order touches: document `i` is restaurant
      `ks[i]`'s name, order count and sales, no restaurant appears twice, and
      none is missed. */
  lemma OrdersByRestaurantOnePerRestaurant(orders: seq<Order>, products: map<Id, Product>,
                                           restaurants: map<Id, Restaurant>)
    ensures var ks := StatRestaurants(orders, products, restaurants);
      var out := OrdersByRestaurant(orders, products, restaurants);
      && |ks| == |out|
      && (forall i, j :: 0 <= i < j < |ks| ==> ks[i] != ks[j])
      && (forall i :: 0 <= i < |ks| ==>
            ks[i] in restaurants && OrderCountFor(orders, products, ks[i]) > 0
            && out[i] == RestaurantStat(restaurants[ks[i]].name, OrderCountFor(orders, products, ks[i]),
                                        SalesFor(orders, products, ks[i])))
      && (forall r :: r in restaurants && OrderCountFor(orders, products, r) > 0 ==> r in ks)
  {
    var es := PairEntries(PairsOnto([], Hits(orders, products)));
    var bs := GroupBy(es);
    var ks := JoinKeys(bs, restaurants);
    var out := Join(bs, restaurants);
    GroupBySpec(es);
    JoinOnePerBucket(bs, restaurants);
    forall i | 0 <= i < |ks|
      ensures OrderCountFor(orders, products, ks[i]) > 0
      ensures out[i] == RestaurantStat(restaurants[ks[i]].name, OrderCountFor(orders, products, ks[i]),
                                       SalesFor(orders, products, ks[i]))
    {
      var k :| 0 <= k < |bs| && bs[k].key == ks[i];
      PairsCount(orders, products, ks[i]);
    }
    forall r | r in restaurants && OrderCountFor(orders, products, r) > 0 ensures r in ks {
      PairsCount(orders, products, r);
      assert HasBucket(bs, r);
    }
  }

  /** A line whose product no longer exists touches no restaurant: adding it
      to an order changes nothing in the statistics. */
  lemma DanglingLineIgnored(o: Order, l: OrderLine, products: map<Id, Product>, r: Id)
    requires l.product !in products
    ensures Touches(o.(items := o.items + [l]), products, r) <==> Touches(o, products, r)
  {
    var items := o.items + [l];
    if Touches(o, products, r) {
      var j :| 0 <= j < |o.items| && ServedBy(o.items[j], products, r);
      assert items[j] == o.items[j];
    }
    if Touches(o.(items := items), products, r) {
      var j :| 0 <= j < |items| && ServedBy(items[j], products, r);
      assert j < |o.items| && items[j] == o.items[j];
    }
  }

  /** An order with two lines from restaurant `a` and one from `b`, total 3000:
      `a` counts it once, and both `a` and `b` receive the whole 3000. */
  lemma MultiRestaurantOrderExample(o: Order, products: map<Id, Product>, a: Id, b: Id)
    requires |o.items| == 3 && o.total == 3000
    requires ServedBy(o.items[0], products, a) && ServedBy(o.items[1], products, a)
    requires ServedBy(o.items[2], products, b)
    ensures OrderCountFor([o], products, a) == 1 && SalesFor([o], products, a) == 3000
    ensures OrderCountFor([o], products, b) == 1 && SalesFor([o], products, b) == 3000
  {
    assert [o][..0] == [];
    assert Touches(o, products, a);
    assert Touches(o, products, b);
  }
}

/**
 * Grouping of raw purchase line items by product (`agruparPorProducto`):
 * one (product, summed quantity) pair per product, in order of first appearance.
 */
module Grouping {
  import opened Wrappers

  /** One submitted line item, already parsed. `productId` is None when the
      form field is empty; a quantity or price left blank is 0. */
  datatype Item = Item(productId: Option<int>, cantidad: real, precioUnitario: real)

  /** One grouped entry: a product and its summed quantity. */
  datatype Agg = Agg(productId: int, cantidad: real)

  /** The product id as `Number(it.producto_id)` sees it: an absent id is falsy, like 0. */
  function Pid(it: Item): int
  {
    match it.productId
    case None => 0
    case Some(p) => p
  }

  /** An item the grouping keeps: a truthy product id and a non-zero quantity. */
  predicate Counted(it: Item)
  {
    Pid(it) != 0 && it.cantidad != 0.0
  }

  predicate Distinct(ks: seq<int>)
  {
    forall i, j :: 0 <= i < j < |ks| ==> ks[i] != ks[j]
  }

  predicate NonNegative(items: seq<Item>)
  {
    forall i :: 0 <= i < |items| ==> items[i].cantidad >= 0.0
  }

  /** Every product's summed quantity is non-negative; single lines may still be negative. */
  predicate NonNegativeGroups(items: seq<Item>)
  {
    forall i :: 0 <= i < |Grouped(items)| ==> Grouped(items)[i].cantidad >= 0.0
  }

  /** Sum of the quantities of the counted items with product `p`. */
  function SumFor(items: seq<Item>, p: int): real
  {
    if items == [] then 0.0
    else
      var it := items[|items| - 1];
      SumFor(items[..|items| - 1], p) + (if Counted(it) && Pid(it) == p then it.cantidad else 0.0)
  }

  /** The distinct product ids of the counted items, in order of first appearance. */
  function Order(items: seq<Item>): seq<int>
  {
    if items == [] then []
    else
      var prev := Order(items[..|items| - 1]);
      var it := items[|items| - 1];
      if Counted(it) && Pid(it) !in prev then prev + [Pid(it)] else prev
  }

  function Aggregate(ks: seq<int>, items: seq<Item>): seq<Agg>
  {
    seq(|ks|, i requires 0 <= i < |ks| => Agg(ks[i], SumFor(items, ks[i])))
  }

  /** Reference definition of the grouping: each product in first-appearance order with its sum. */
  function Grouped(items: seq<Item>): seq<Agg>
  {
    Aggregate(Order(items), items)
  }

  /** Sum of the quantities that a sequence of grouped entries holds for `p`. */
  function QtyOf(g: seq<Agg>, p: int): real
  {
    if g == [] then 0.0
    else QtyOf(g[..|g| - 1], p) + (if g[|g| - 1].productId == p then g[|g| - 1].cantidad else 0.0)
  }

  function Ids(g: seq<Agg>): set<int>
  {
    set a | a in g :: a.productId
  }

  /** The grouping loop: a map from product id to running sum, plus the
      insertion order of its keys, turned into a sequence of entries at the end. */
  method GroupByProduct(items: seq<Item>) returns (r: seq<Agg>)
    ensures r == Grouped(items)
  {
    var keys: seq<int> := [];
    var sums: map<int, real> := map[];
    for i := 0 to |items|
      invariant keys == Order(items[..i])
      invariant forall k :: k in sums <==> k in keys
      invariant forall k :: k in keys ==> sums[k] == SumFor(items[..i], k)
    {
      assert items[..i + 1][..i] == items[..i];
      var pid := Pid(items[i]);
      var cant := items[i].cantidad;
      if pid == 0 || cant == 0.0 {
        continue;
      }
      if pid !in sums {
        SumForOutsideOrder(items[..i], pid);
        keys := keys + [pid];
        sums := sums[pid := 0.0 + cant];
      } else {
        sums := sums[pid := sums[pid] + cant];
      }
    }
    assert items[..|items|] == items;
    forall i | 0 <= i < |keys|
      ensures keys[i] in sums
    {
      var k := keys[i];
      assert k in keys;
      assert k in sums <==> k in keys;
    }
    r := seq(|keys|, i requires 0 <= i < |keys| && keys[i] in sums => Agg(keys[i], sums[keys[i]]));
  }

  /** Each product id occurs at most once in the grouping. */
  lemma {:induction false} OrderDistinct(items: seq<Item>)
    ensures Distinct(Order(items))
  {
    if items != [] {
      OrderDistinct(items[..|items| - 1]);
    }
  }

  /** A product is grouped exactly when some item counts for it. */
  lemma {:induction false} OrderMembership(items: seq<Item>, p: int)
    ensures p in Order(items) <==> exists j :: 0 <= j < |items| && Counted(items[j]) && Pid(items[j]) == p
  {
    if items != [] {
      var init := items[..|items| - 1];
      OrderMembership(init, p);
      if p in Order(items) && p !in Order(init) {
        assert Counted(items[|items| - 1]) && Pid(items[|items| - 1]) == p;
      }
      if exists j :: 0 <= j < |items| && Counted(items[j]) && Pid(items[j]) == p {
        var j :| 0 <= j < |items| && Counted(items[j]) && Pid(items[j]) == p;
        if j < |init| {
          assert init[j] == items[j];
        }
      }
    }
  }

  /** A product with no counted item has sum 0. */
  lemma {:induction false} SumForOutsideOrder(items: seq<Item>, p: int)
    requires p !in Order(items)
    ensures SumFor(items, p) == 0.0
  {
    if items != [] {
      var init := items[..|items| - 1];
      assert p !in Order(init);
      SumForOutsideOrder(init, p);
    }
  }

  /** First-appearance order: grouping a prefix of the items yields a prefix of the grouping. */
  lemma {:induction false} OrderPrefix(items: seq<Item>, j: nat)
    requires j <= |items|
    ensures Order(items[..j]) <= Order(items)
  {
    if j < |items| {
      var init := items[..|items| - 1];
      assert init[..j] == items[..j];
      OrderPrefix(init, j);
    } else {
      assert items[..j] == items;
    }
  }

  lemma {:induction false} QtyOfAggregate(ks: seq<int>, items: seq<Item>, p: int)
    requires Distinct(ks)
    ensures QtyOf(Aggregate(ks, items), p) == if p in ks then SumFor(items, p) else 0.0
  {
    if ks != [] {
      var init := ks[..|ks| - 1];
      assert Aggregate(ks, items)[..|ks| - 1] == Aggregate(init, items);
      QtyOfAggregate(init, items, p);
      assert p in ks <==> p in init || p == ks[|ks| - 1];
    }
  }

  /** Looked up by product, the grouping holds each product's summed quantity. */
  lemma GroupedQty(items: seq<Item>, p: int)
    ensures QtyOf(Grouped(items), p) == SumFor(items, p)
  {
    OrderDistinct(items);
    QtyOfAggregate(Order(items), items, p);
    if p !in Order(items) {
      SumForOutsideOrder(items, p);
    }
  }

  /** The grouping: distinct ids, exactly the counted products, each with its
      summed quantity, and in total `SumFor` for every product. */
  lemma GroupedCorrect(items: seq<Item>, p: int)
    ensures forall i, j :: 0 <= i < j < |Grouped(items)| ==> Grouped(items)[i].productId != Grouped(items)[j].productId
    ensures p in Ids(Grouped(items)) <==> exists j :: 0 <= j < |items| && Counted(items[j]) && Pid(items[j]) == p
    ensures forall i :: 0 <= i < |Grouped(items)| ==> Grouped(items)[i].cantidad == SumFor(items, Grouped(items)[i].productId)
    ensures QtyOf(Grouped(items), p) == SumFor(items, p)
  {
    OrderDistinct(items);
    OrderMembership(items, p);
    GroupedQty(items, p);
    var g := Grouped(items);
    if p in Order(items) {
      var k :| 0 <= k < |Order(items)| && Order(items)[k] == p;
      assert g[k] in g;
    }
    if p in Ids(g) {
      var a :| a in g && a.productId == p;
    }
  }

  /** Non-negative item quantities give non-negative grouped sums. */
  lemma {:induction false} SumForNonNegative(items: seq<Item>, p: int)
    requires NonNegative(items)
    ensures SumFor(items, p) >= 0.0
  {
    if items != [] {
      SumForNonNegative(items[..|items| - 1], p);
    }
  }

  lemma GroupedNonNegative(items: seq<Item>)
    requires NonNegative(items)
    ensures NonNegativeGroups(items)
  {
    forall i | 0 <= i < |Grouped(items)|
      ensures Grouped(items)[i].cantidad >= 0.0
    {
      SumForNonNegative(items, Grouped(items)[i].productId);
    }
  }

  /** Empty input, or input where nothing counts, groups to nothing. */
  lemma {:induction false} GroupedEmpty(items: seq<Item>)
    requires forall j :: 0 <= j < |items| ==> !Counted(items[j])
    ensures Grouped(items) == []
  {
    if items != [] {
      GroupedEmpty(items[..|items| - 1]);
    }
  }
}

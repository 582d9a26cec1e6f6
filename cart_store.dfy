/**
  The persisted shopping-cart store of lib/cartStore.ts: an ordered list of
  line items keyed by product id, changed by `addItem`, `removeItem`,
  `increment`, `decrement` and `clear`, with the derived `count` and `total`.

  Every operation is first given as a pure transition on the item sequence
  (the new `items` value the store `set`s); the class `Cart` holds the
  `items` field and replaces it through those transitions.
*/
module CartStore {
  import opened Wrappers

  /** One line of the cart; `price` is the optional unit price in the smallest currency unit. */
  datatype CartItem = CartItem(id: string, title: string, price: Option<int>, qty: int)

  /** What one unit of an item adds to the total: an absent price counts as 0. */
  function PriceOrZero(it: CartItem): int {
    it.price.GetOr(0)
  }

  // ---------------------------------------------------------------------------
  // Invariants of the item list
  // ---------------------------------------------------------------------------

  /** At most one line per product id. */
  predicate UniqueIds(s: seq<CartItem>) {
    forall i, j :: 0 <= i < j < |s| ==> s[i].id != s[j].id
  }

  /** Every line present has a quantity of at least one. */
  predicate AllPositive(s: seq<CartItem>) {
    forall i :: 0 <= i < |s| ==> s[i].qty >= 1
  }

  /** The store's invariant: ids are unique and quantities positive. */
  predicate Invariant(s: seq<CartItem>) {
    UniqueIds(s) && AllPositive(s)
  }

  /** No line carries product id `id`. */
  predicate Absent(s: seq<CartItem>, id: string) {
    forall i :: 0 <= i < |s| ==> s[i].id != id
  }

  /** No line before position `k` carries product id `id`. */
  predicate AbsentBefore(s: seq<CartItem>, id: string, k: int) {
    forall j :: 0 <= j < k && j < |s| ==> s[j].id != id
  }

  // ---------------------------------------------------------------------------
  // The transitions
  // ---------------------------------------------------------------------------

  /** `findIndex` by id: the first position holding `id`, or -1 when there is none. */
  function IndexOf(s: seq<CartItem>, id: string): (r: int)
    ensures -1 <= r < |s|
    ensures r == -1 ==> Absent(s, id)
    ensures r >= 0 ==> s[r].id == id && AbsentBefore(s, id, r)
  {
    if s == [] then -1
    else if s[0].id == id then 0
    else
      var k := IndexOf(s[1..], id);
      if k < 0 then -1 else k + 1
  }

  /** `addItem`: one more unit of the first line with `id`, or a new line with qty 1 at the end. */
  function Added(s: seq<CartItem>, id: string, title: string, price: Option<int>): seq<CartItem> {
    var idx := IndexOf(s, id);
    if idx >= 0 then s[idx := s[idx].(qty := s[idx].qty + 1)]
    else s + [CartItem(id, title, price, 1)]
  }

  /** `removeItem`: the lines whose id differs from `id`, in their order (`filter`). */
  function Removed(s: seq<CartItem>, id: string): seq<CartItem> {
    if s == [] then []
    else (if s[0].id == id then [] else [s[0]]) + Removed(s[1..], id)
  }

  /** The `map` callback of `increment`. */
  function Bumped(it: CartItem, id: string): CartItem {
    if it.id == id then it.(qty := it.qty + 1) else it
  }

  /** `increment`: one more unit on every line with `id`, all else as it was. */
  function Incremented(s: seq<CartItem>, id: string): (r: seq<CartItem>)
    ensures |r| == |s|
    ensures forall j :: 0 <= j < |s| ==> r[j] == Bumped(s[j], id)
  {
    if s == [] then [] else [Bumped(s[0], id)] + Incremented(s[1..], id)
  }

  /** `Math.max(0, n)`. */
  function ClampAtZero(n: int): nat {
    if n < 0 then 0 else n
  }

  /** The `map` callback of `decrement`. */
  function Lowered(it: CartItem, id: string): CartItem {
    if it.id == id then it.(qty := ClampAtZero(it.qty - 1)) else it
  }

  /** The `map` step of `decrement`. */
  function LoweredAll(s: seq<CartItem>, id: string): (r: seq<CartItem>)
    ensures |r| == |s|
    ensures forall j :: 0 <= j < |s| ==> r[j] == Lowered(s[j], id)
  {
    if s == [] then [] else [Lowered(s[0], id)] + LoweredAll(s[1..], id)
  }

  /** The `filter((it) => it.qty > 0)` step of `decrement`. */
  function KeepPositive(s: seq<CartItem>): seq<CartItem> {
    if s == [] then []
    else (if s[0].qty > 0 then [s[0]] else []) + KeepPositive(s[1..])
  }

  /** Every line `KeepPositive` keeps comes from `s` and has a positive qty. */
  lemma {:induction false} KeepPositiveSubset(s: seq<CartItem>)
    ensures forall x :: x in KeepPositive(s) ==> x in s && x.qty > 0
  {
    if s != [] {
      KeepPositiveSubset(s[1..]);
      assert s == [s[0]] + s[1..];
    }
  }

  /** `decrement`: one unit fewer on the lines with `id`; every line left at qty 0 or below is dropped. */
  function Decremented(s: seq<CartItem>, id: string): (r: seq<CartItem>)
    ensures forall x :: x in r ==> x.qty >= 1
  {
    KeepPositiveSubset(LoweredAll(s, id));
    KeepPositive(LoweredAll(s, id))
  }

  // ---------------------------------------------------------------------------
  // The aggregates (`reduce` from the left)
  // ---------------------------------------------------------------------------

  /** `count`: the sum of the quantities. */
  function ItemCount(s: seq<CartItem>): (n: int)
    ensures AllPositive(s) ==> n >= |s|
  {
    if s == [] then 0 else ItemCount(s[..|s| - 1]) + s[|s| - 1].qty
  }

  /** What one line adds to the total: `(it.price ?? 0) * it.qty`. */
  function LineAmount(it: CartItem): int {
    PriceOrZero(it) * it.qty
  }

  /** One unit more or less on a line moves its amount by one unit price. */
  lemma LineAmountStep(it: CartItem)
    ensures LineAmount(it.(qty := it.qty + 1)) == LineAmount(it) + PriceOrZero(it)
    ensures LineAmount(it.(qty := it.qty - 1)) == LineAmount(it) - PriceOrZero(it)
  {
    var p := PriceOrZero(it);
    assert p * (it.qty + 1) == p * it.qty + p;
    assert p * (it.qty - 1) == p * it.qty - p;
  }

  /** `total`: the sum of price times quantity, an absent price counting as 0. */
  function ItemTotal(s: seq<CartItem>): int {
    if s == [] then 0 else ItemTotal(s[..|s| - 1]) + LineAmount(s[|s| - 1])
  }

  // ---------------------------------------------------------------------------
  // addItem
  // ---------------------------------------------------------------------------

  /** Re-adding the id at `k` (its first line) adds one unit there and keeps title, price and position. */
  lemma AddItemExisting(s: seq<CartItem>, id: string, title: string, price: Option<int>, k: int)
    requires 0 <= k < |s| && s[k].id == id && AbsentBefore(s, id, k)
    ensures Added(s, id, title, price) == s[k := CartItem(id, s[k].title, s[k].price, s[k].qty + 1)]
  {
    assert IndexOf(s, id) == k;
  }

  /** Adding an absent id appends `{id, title, price, qty: 1}` and leaves the earlier lines alone. */
  lemma AddItemNew(s: seq<CartItem>, id: string, title: string, price: Option<int>)
    requires Absent(s, id)
    ensures Added(s, id, title, price) == s + [CartItem(id, title, price, 1)]
  {
    assert IndexOf(s, id) == -1;
  }

  lemma AddItemKeepsInvariant(s: seq<CartItem>, id: string, title: string, price: Option<int>)
    requires Invariant(s)
    ensures Invariant(Added(s, id, title, price))
  {
    var idx := IndexOf(s, id);
    var r := Added(s, id, title, price);
    if idx < 0 {
      forall i, j | 0 <= i < j < |r| ensures r[i].id != r[j].id {
        if j == |s| { assert r[i] == s[i]; }
      }
    }
  }

  // ---------------------------------------------------------------------------
  // removeItem
  // ---------------------------------------------------------------------------

  lemma {:induction false} RemovedConcat(a: seq<CartItem>, b: seq<CartItem>, id: string)
    ensures Removed(a + b, id) == Removed(a, id) + Removed(b, id)
  {
    if a == [] {
      assert a + b == b;
    } else {
      assert (a + b)[0] == a[0];
      assert (a + b)[1..] == a[1..] + b;
      RemovedConcat(a[1..], b, id);
    }
  }

  /** Every line `removeItem` keeps comes from `s` and has an id other than `id`. */
  lemma {:induction false} RemovedSubset(s: seq<CartItem>, id: string)
    ensures forall x :: x in Removed(s, id) ==> x in s && x.id != id
  {
    if s != [] {
      RemovedSubset(s[1..], id);
      assert s == [s[0]] + s[1..];
    }
  }

  /** `removeItem` keeps every line whose id differs from `id`. */
  lemma {:induction false} RemoveItemKeepsOthers(s: seq<CartItem>, id: string)
    ensures forall x :: x in s && x.id != id ==> x in Removed(s, id)
  {
    if s != [] {
      RemoveItemKeepsOthers(s[1..], id);
      assert s == [s[0]] + s[1..];
    }
  }

  /** `removeItem` of an absent id leaves the list unchanged. */
  lemma {:induction false} RemoveItemAbsent(s: seq<CartItem>, id: string)
    requires Absent(s, id)
    ensures Removed(s, id) == s
  {
    if s != [] {
      RemoveItemAbsent(s[1..], id);
    }
  }

  /** With unique ids, `removeItem` of the id at `k` drops exactly that line and keeps the others in order. */
  lemma RemoveItemPresent(s: seq<CartItem>, id: string, k: int)
    requires UniqueIds(s) && 0 <= k < |s| && s[k].id == id
    ensures Removed(s, id) == s[..k] + s[k + 1..]
  {
    var a, b := s[..k], s[k + 1..];
    assert s == (a + [s[k]]) + b;
    assert Absent(a, id) by {
      forall i | 0 <= i < |a| ensures a[i].id != id {
        assert a[i] == s[i];
      }
    }
    assert Absent(b, id) by {
      forall i | 0 <= i < |b| ensures b[i].id != id {
        assert b[i] == s[k + 1 + i];
      }
    }
    assert Removed([s[k]], id) == [] by {
      assert [s[k]][1..] == [];
    }
    calc {
      Removed(s, id);
      { RemovedConcat(a + [s[k]], b, id); }
      Removed(a + [s[k]], id) + Removed(b, id);
      { RemovedConcat(a, [s[k]], id); }
      Removed(a, id) + Removed([s[k]], id) + Removed(b, id);
      { RemoveItemAbsent(a, id); RemoveItemAbsent(b, id); }
      a + b;
    }
  }

  /** Putting `x` in front of `t` keeps ids unique when `x`'s id is new to `t`. */
  lemma ConsUnique(x: CartItem, t: seq<CartItem>)
    requires UniqueIds(t)
    requires forall y :: y in t ==> y.id != x.id
    ensures UniqueIds([x] + t)
  {
    var r := [x] + t;
    forall i, j | 0 <= i < j < |r| ensures r[i].id != r[j].id {
      assert r[j] == t[j - 1];
      if i > 0 { assert r[i] == t[i - 1]; }
    }
  }

  /** The first line's id occurs nowhere after it. */
  lemma HeadIdFresh(s: seq<CartItem>)
    requires UniqueIds(s) && s != []
    ensures UniqueIds(s[1..])
    ensures forall y :: y in s[1..] ==> y.id != s[0].id
  {
    forall y | y in s[1..] ensures y.id != s[0].id {
      var i :| 0 <= i < |s[1..]| && s[1..][i] == y;
      assert s[i + 1] == y;
    }
  }

  lemma {:induction false} RemovedKeepsUnique(s: seq<CartItem>, id: string)
    requires UniqueIds(s)
    ensures UniqueIds(Removed(s, id))
  {
    if s != [] {
      HeadIdFresh(s);
      RemovedKeepsUnique(s[1..], id);
      RemovedSubset(s[1..], id);
      if s[0].id != id {
        ConsUnique(s[0], Removed(s[1..], id));
      }
    }
  }

  lemma RemoveItemKeepsInvariant(s: seq<CartItem>, id: string)
    requires Invariant(s)
    ensures Invariant(Removed(s, id))
  {
    RemovedKeepsUnique(s, id);
    RemovedSubset(s, id);
    var r := Removed(s, id);
    forall i | 0 <= i < |r| ensures r[i].qty >= 1 {
      assert r[i] in s;
    }
  }

  // ---------------------------------------------------------------------------
  // increment
  // ---------------------------------------------------------------------------

  /** With unique ids, `increment` of the id at `k` adds one unit there and changes nothing else. */
  lemma IncrementPresent(s: seq<CartItem>, id: string, k: int)
    requires UniqueIds(s) && 0 <= k < |s| && s[k].id == id
    ensures Incremented(s, id) == s[k := s[k].(qty := s[k].qty + 1)]
  {
  }

  /** `increment` of an absent id leaves the list unchanged. */
  lemma IncrementAbsent(s: seq<CartItem>, id: string)
    requires Absent(s, id)
    ensures Incremented(s, id) == s
  {
  }

  lemma IncrementKeepsInvariant(s: seq<CartItem>, id: string)
    requires Invariant(s)
    ensures Invariant(Incremented(s, id))
  {
  }

  // ---------------------------------------------------------------------------
  // decrement
  // ---------------------------------------------------------------------------

  lemma {:induction false} KeepPositiveConcat(a: seq<CartItem>, b: seq<CartItem>)
    ensures KeepPositive(a + b) == KeepPositive(a) + KeepPositive(b)
  {
    if a == [] {
      assert a + b == b;
    } else {
      assert (a + b)[0] == a[0];
      assert (a + b)[1..] == a[1..] + b;
      KeepPositiveConcat(a[1..], b);
    }
  }

  lemma {:induction false} KeepPositiveOfPositive(s: seq<CartItem>)
    requires AllPositive(s)
    ensures KeepPositive(s) == s
  {
    if s != [] {
      KeepPositiveOfPositive(s[1..]);
    }
  }

  lemma {:induction false} KeepPositiveKeepsUnique(s: seq<CartItem>)
    requires UniqueIds(s)
    ensures UniqueIds(KeepPositive(s))
  {
    if s != [] {
      HeadIdFresh(s);
      KeepPositiveKeepsUnique(s[1..]);
      KeepPositiveSubset(s[1..]);
      if s[0].qty > 0 {
        ConsUnique(s[0], KeepPositive(s[1..]));
      }
    }
  }

  /** With unique ids, the `map` step of `decrement` touches only the line at `k`. */
  lemma LoweredAllPresent(s: seq<CartItem>, id: string, k: int)
    requires UniqueIds(s) && 0 <= k < |s| && s[k].id == id
    ensures LoweredAll(s, id) == s[k := Lowered(s[k], id)]
  {
  }

  /** The `filter` step of `decrement` around one line at `k`, all others positive. */
  lemma KeepPositiveAround(a: seq<CartItem>, x: CartItem, b: seq<CartItem>)
    requires AllPositive(a) && AllPositive(b)
    ensures KeepPositive(a + [x] + b) == if x.qty > 0 then a + [x] + b else a + b
  {
    KeepPositiveConcat(a + [x], b);
    KeepPositiveConcat(a, [x]);
    KeepPositiveOfPositive(a);
    KeepPositiveOfPositive(b);
    var kx := KeepPositive([x]);
    assert [x][1..] == [];
    if x.qty > 0 {
      assert kx == [x];
    } else {
      assert kx == [];
      assert a + kx == a;
    }
  }

  /**
    Under the invariant, `decrement` of the id at `k` removes that line when its qty is 1
    and otherwise lowers its qty by one, keeping every other line in place.
  */
  lemma DecrementPresent(s: seq<CartItem>, id: string, k: int)
    requires Invariant(s) && 0 <= k < |s| && s[k].id == id
    ensures Decremented(s, id) ==
      if s[k].qty == 1 then s[..k] + s[k + 1..] else s[k := s[k].(qty := s[k].qty - 1)]
  {
    var x := Lowered(s[k], id);
    LoweredAllPresent(s, id, k);
    assert s[k := x] == s[..k] + [x] + s[k + 1..];
    KeepPositiveAround(s[..k], x, s[k + 1..]);
  }

  /** Under the invariant, `decrement` of an absent id leaves the list unchanged. */
  lemma DecrementAbsent(s: seq<CartItem>, id: string)
    requires AllPositive(s) && Absent(s, id)
    ensures Decremented(s, id) == s
  {
    assert LoweredAll(s, id) == s;
    KeepPositiveOfPositive(s);
  }

  lemma DecrementKeepsInvariant(s: seq<CartItem>, id: string)
    requires Invariant(s)
    ensures Invariant(Decremented(s, id))
  {
    var low := LoweredAll(s, id);
    assert UniqueIds(low);
    KeepPositiveKeepsUnique(low);
    var r := Decremented(s, id);
    forall i | 0 <= i < |r| ensures r[i].qty >= 1 {
      assert r[i] in r;
    }
  }

  // ---------------------------------------------------------------------------
  // count and total
  // ---------------------------------------------------------------------------

  lemma {:induction false} CountTotalConcat(a: seq<CartItem>, b: seq<CartItem>)
    ensures ItemCount(a + b) == ItemCount(a) + ItemCount(b)
    ensures ItemTotal(a + b) == ItemTotal(a) + ItemTotal(b)
  {
    if b == [] {
      assert a + b == a;
    } else {
      var b' := b[..|b| - 1];
      assert (a + b)[..|a + b| - 1] == a + b';
      assert (a + b)[|a + b| - 1] == b[|b| - 1];
      CountTotalConcat(a, b');
    }
  }

  /** A single line's `count` is its qty and its `total` its amount. */
  lemma CountTotalSingle(x: CartItem)
    ensures ItemCount([x]) == x.qty && ItemTotal([x]) == LineAmount(x)
  {
    assert [x][..0] == [];
  }

  /** `count` and `total` split around the line at `k`. */
  lemma CountTotalSplit(s: seq<CartItem>, k: int)
    requires 0 <= k < |s|
    ensures ItemCount(s) == ItemCount(s[..k]) + s[k].qty + ItemCount(s[k + 1..])
    ensures ItemTotal(s) == ItemTotal(s[..k]) + LineAmount(s[k]) + ItemTotal(s[k + 1..])
  {
    var a, x, b := s[..k], s[k], s[k + 1..];
    var ax := a + [x];
    assert s == ax + b;
    CountTotalConcat(ax, b);
    CountTotalConcat(a, [x]);
    CountTotalSingle(x);
  }

  /** Replacing the line at `k` by `x` changes `count` and `total` by that line's difference. */
  lemma CountTotalReplace(s: seq<CartItem>, k: int, x: CartItem)
    requires 0 <= k < |s|
    ensures ItemCount(s[k := x]) == ItemCount(s) - s[k].qty + x.qty
    ensures ItemTotal(s[k := x]) == ItemTotal(s) - LineAmount(s[k]) + LineAmount(x)
  {
    var t := s[k := x];
    assert t[..k] == s[..k] && t[k + 1..] == s[k + 1..];
    CountTotalSplit(s, k);
    CountTotalSplit(t, k);
  }

  /** Dropping the line at `k` lowers `count` by its qty and `total` by its price times qty. */
  lemma CountTotalDrop(s: seq<CartItem>, k: int)
    requires 0 <= k < |s|
    ensures ItemCount(s[..k] + s[k + 1..]) == ItemCount(s) - s[k].qty
    ensures ItemTotal(s[..k] + s[k + 1..]) == ItemTotal(s) - LineAmount(s[k])
  {
    CountTotalSplit(s, k);
    CountTotalConcat(s[..k], s[k + 1..]);
  }

  /** One unit more on the line at `k` adds one to `count` and its unit price to `total`. */
  lemma BumpAggregates(s: seq<CartItem>, k: int)
    requires 0 <= k < |s|
    ensures ItemCount(s[k := s[k].(qty := s[k].qty + 1)]) == ItemCount(s) + 1
    ensures ItemTotal(s[k := s[k].(qty := s[k].qty + 1)]) == ItemTotal(s) + PriceOrZero(s[k])
  {
    CountTotalReplace(s, k, s[k].(qty := s[k].qty + 1));
    LineAmountStep(s[k]);
  }

  /** One unit fewer on the line at `k` takes one off `count` and its unit price off `total`. */
  lemma LowerAggregates(s: seq<CartItem>, k: int)
    requires 0 <= k < |s|
    ensures ItemCount(s[k := s[k].(qty := s[k].qty - 1)]) == ItemCount(s) - 1
    ensures ItemTotal(s[k := s[k].(qty := s[k].qty - 1)]) == ItemTotal(s) - PriceOrZero(s[k])
  {
    CountTotalReplace(s, k, s[k].(qty := s[k].qty - 1));
    LineAmountStep(s[k]);
  }

  /** A line appended at the end adds its qty to `count` and its amount to `total`. */
  lemma AppendAggregates(s: seq<CartItem>, x: CartItem)
    ensures ItemCount(s + [x]) == ItemCount(s) + x.qty
    ensures ItemTotal(s + [x]) == ItemTotal(s) + LineAmount(x)
  {
    assert (s + [x])[..|s|] == s;
  }

  /** `addItem` raises `count` by exactly one, whatever the list holds. */
  lemma AddItemCount(s: seq<CartItem>, id: string, title: string, price: Option<int>)
    ensures ItemCount(Added(s, id, title, price)) == ItemCount(s) + 1
  {
    var idx := IndexOf(s, id);
    if idx >= 0 {
      BumpAggregates(s, idx);
    } else {
      AppendAggregates(s, CartItem(id, title, price, 1));
    }
  }

  /**
    `addItem` raises `total` by one unit price: the new call's price for a new id,
    the kept price of the existing line for a re-added one.
  */
  lemma AddItemTotal(s: seq<CartItem>, id: string, title: string, price: Option<int>)
    ensures Absent(s, id) ==> ItemTotal(Added(s, id, title, price)) == ItemTotal(s) + price.GetOr(0)
    ensures !Absent(s, id) ==>
      ItemTotal(Added(s, id, title, price)) == ItemTotal(s) + PriceOrZero(s[IndexOf(s, id)])
  {
    var idx := IndexOf(s, id);
    var r := Added(s, id, title, price);
    if idx >= 0 {
      assert r == s[idx := s[idx].(qty := s[idx].qty + 1)];
      BumpAggregates(s, idx);
    } else {
      var x := CartItem(id, title, price, 1);
      assert r == s + [x];
      AppendAggregates(s, x);
      assert LineAmount(x) == price.GetOr(0);
    }
  }

  /** With unique ids, `removeItem` of the id at `k` takes that line's units and amount off the aggregates. */
  lemma RemoveItemCount(s: seq<CartItem>, id: string, k: int)
    requires UniqueIds(s) && 0 <= k < |s| && s[k].id == id
    ensures ItemCount(Removed(s, id)) == ItemCount(s) - s[k].qty
    ensures ItemTotal(Removed(s, id)) == ItemTotal(s) - LineAmount(s[k])
  {
    RemoveItemPresent(s, id, k);
    CountTotalDrop(s, k);
  }

  /** With unique ids, `increment` of a present id adds one unit and one unit price. */
  lemma IncrementCount(s: seq<CartItem>, id: string, k: int)
    requires UniqueIds(s) && 0 <= k < |s| && s[k].id == id
    ensures ItemCount(Incremented(s, id)) == ItemCount(s) + 1
    ensures ItemTotal(Incremented(s, id)) == ItemTotal(s) + PriceOrZero(s[k])
  {
    IncrementPresent(s, id, k);
    BumpAggregates(s, k);
  }

  /** Under the invariant, `decrement` of a present id takes one unit and one unit price off. */
  lemma DecrementCount(s: seq<CartItem>, id: string, k: int)
    requires Invariant(s) && 0 <= k < |s| && s[k].id == id
    ensures ItemCount(Decremented(s, id)) == ItemCount(s) - 1
    ensures ItemTotal(Decremented(s, id)) == ItemTotal(s) - PriceOrZero(s[k])
  {
    DecrementPresent(s, id, k);
    if s[k].qty == 1 {
      CountTotalDrop(s, k);
    } else {
      LowerAggregates(s, k);
    }
  }

  /** Under the invariant the badge shows 0 exactly when the cart has no line. */
  lemma CountZeroIffEmpty(s: seq<CartItem>)
    requires AllPositive(s)
    ensures ItemCount(s) == 0 <==> s == []
  {
  }

  // ---------------------------------------------------------------------------
  // Any sequence of operations
  // ---------------------------------------------------------------------------

  /** One call on the store. */
  datatype Op =
    | OpAdd(id: string, title: string, price: Option<int>)
    | OpRemove(id: string)
    | OpIncrement(id: string)
    | OpDecrement(id: string)
    | OpClear

  function Apply(s: seq<CartItem>, op: Op): seq<CartItem> {
    match op
    case OpAdd(id, title, price) => Added(s, id, title, price)
    case OpRemove(id) => Removed(s, id)
    case OpIncrement(id) => Incremented(s, id)
    case OpDecrement(id) => Decremented(s, id)
    case OpClear => []
  }

  /** The list after the calls `ops`, in order. */
  function Run(s: seq<CartItem>, ops: seq<Op>): seq<CartItem>
    decreases |ops|
  {
    if ops == [] then s else Run(Apply(s, ops[0]), ops[1..])
  }

  lemma ApplyKeepsInvariant(s: seq<CartItem>, op: Op)
    requires Invariant(s)
    ensures Invariant(Apply(s, op))
  {
    match op
    case OpAdd(id, title, price) => AddItemKeepsInvariant(s, id, title, price);
    case OpRemove(id) => RemoveItemKeepsInvariant(s, id);
    case OpIncrement(id) => IncrementKeepsInvariant(s, id);
    case OpDecrement(id) => DecrementKeepsInvariant(s, id);
    case OpClear =>
  }

  lemma {:induction false} RunKeepsInvariant(s: seq<CartItem>, ops: seq<Op>)
    requires Invariant(s)
    ensures Invariant(Run(s, ops))
    decreases |ops|
  {
    if ops != [] {
      ApplyKeepsInvariant(s, ops[0]);
      RunKeepsInvariant(Apply(s, ops[0]), ops[1..]);
    }
  }

  /** Starting from an empty cart, every sequence of calls keeps ids unique and quantities positive. */
  lemma FromEmptyKeepsInvariant(ops: seq<Op>)
    ensures Invariant(Run([], ops))
  {
    RunKeepsInvariant([], ops);
  }

  // ---------------------------------------------------------------------------
  // Persistence, abstracted to a versioned slot holding the item list
  // ---------------------------------------------------------------------------

  /** The name of the durable slot. */
  const StorageName: string := "smartshopping-cart"

  /** The envelope version written and accepted. */
  const PersistVersion: int := 1

  /** The persisted envelope: a version number and the items. */
  datatype Slot = Slot(version: int, items: seq<CartItem>)

  /** What a write stores. */
  function Snapshot(items: seq<CartItem>): Slot {
    Slot(PersistVersion, items)
  }

  /** What a start-up reads back: the stored items for the known version, else an empty cart. */
  function Restore(slot: Option<Slot>): seq<CartItem> {
    match slot
    case Some(Slot(v, items)) => if v == PersistVersion then items else []
    case None => []
  }

  /** A snapshot restores to the same items, in the same order. */
  lemma RestoreSnapshot(items: seq<CartItem>)
    ensures Restore(Some(Snapshot(items))) == items
  {
  }

  /** A missing slot or an unknown version starts an empty cart. */
  lemma RestoreFallsBackToEmpty(slot: Option<Slot>)
    requires slot.None? || slot.value.version != PersistVersion
    ensures Restore(slot) == []
  {
  }

  // ---------------------------------------------------------------------------
  // The store
  // ---------------------------------------------------------------------------

  class Cart {
    var items: seq<CartItem>

    /** A fresh store holds no items. */
    constructor ()
      ensures items == []
    {
      items := [];
    }

    /** A store rehydrated from the durable slot. */
    constructor Rehydrate(slot: Option<Slot>)
      ensures items == Restore(slot)
    {
      items := Restore(slot);
    }

    function Count(): int
      reads this
    {
      ItemCount(items)
    }

    function Total(): int
      reads this
    {
      ItemTotal(items)
    }

    method AddItem(id: string, title: string, price: Option<int>)
      modifies this
      ensures items == Added(old(items), id, title, price)
      ensures Invariant(old(items)) ==> Invariant(items)
      ensures Count() == old(Count()) + 1
    {
      if Invariant(items) {
        AddItemKeepsInvariant(items, id, title, price);
      }
      AddItemCount(items, id, title, price);
      var idx := IndexOf(items, id);
      if idx >= 0 {
        items := items[idx := items[idx].(qty := items[idx].qty + 1)];
      } else {
        items := items + [CartItem(id, title, price, 1)];
      }
    }

    method RemoveItem(id: string)
      modifies this
      ensures items == Removed(old(items), id)
      ensures Absent(items, id)
      ensures Invariant(old(items)) ==> Invariant(items)
    {
      if Invariant(items) {
        RemoveItemKeepsInvariant(items, id);
      }
      RemovedSubset(items, id);
      items := Removed(items, id);
      assert forall i :: 0 <= i < |items| ==> items[i] in items;
    }

    method Increment(id: string)
      modifies this
      ensures items == Incremented(old(items), id)
      ensures Invariant(old(items)) ==> Invariant(items)
    {
      if Invariant(items) {
        IncrementKeepsInvariant(items, id);
      }
      items := Incremented(items, id);
    }

    method Decrement(id: string)
      modifies this
      ensures items == Decremented(old(items), id)
      ensures AllPositive(items)
      ensures Invariant(old(items)) ==> Invariant(items)
    {
      if Invariant(items) {
        DecrementKeepsInvariant(items, id);
      }
      items := Decremented(items, id);
      assert forall i :: 0 <= i < |items| ==> items[i] in items;
    }

    method Clear()
      modifies this
      ensures items == []
      ensures Count() == 0 && Total() == 0
    {
      items := [];
    }

    /** The envelope written to the durable slot `name`; reading it back yields the current items. */
    method Persist() returns (name: string, slot: Slot)
      ensures name == StorageName
      ensures slot == Snapshot(items) && slot.version == PersistVersion
      ensures Restore(Some(slot)) == items
    {
      name := StorageName;
      slot := Snapshot(items);
    }
  }

  /** The re-add scenario: the second `addItem` of an id keeps the first title and price. */
  method ReAddScenario() {
    var cart := new Cart();
    cart.AddItem("sku-1", "Headphones", Some(30));
    cart.AddItem("sku-1", "Studio Headphones", Some(99));
    assert cart.items == [CartItem("sku-1", "Headphones", Some(30), 2)];
    assert cart.Count() == 2;
    assert cart.Total() == 60 by {
      var line := CartItem("sku-1", "Headphones", Some(30), 2);
      assert [line][..0] == [];
      assert LineAmount(line) == 60;
      assert ItemTotal([line]) == ItemTotal([]) + LineAmount(line);
    }
  }
}

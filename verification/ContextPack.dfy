/**
 The bounded context of an execution: items in a fixed order, control before data, taken
 greedily up to a byte budget.
 */
module ContextPack {
  import opened Common

  datatype Authority = Control | Data

  datatype Item = Item(ref: string, owner: string, authority: Authority, size: int, summary: string)

  datatype Pack = Pack(objective: string, owner: string, control: seq<Item>, data: seq<Item>, omitted: seq<string>, total: int)

  datatype Built = Built(pack: Pack) | OwnerConflict(ref: string)

  // ---------------------------------------------------------------------------
  // The order
  // ---------------------------------------------------------------------------

  /** Lexicographic order of strings. */
  predicate AtMost(a: string, b: string) {
    a == [] || (b != [] && (a[0] < b[0] || (a[0] == b[0] && AtMost(a[1..], b[1..]))))
  }

  /** The sort key is the pair (not control, ref). */
  predicate Before(a: Item, b: Item) {
    if a.authority == b.authority then AtMost(a.ref, b.ref) else a.authority == Control
  }

  predicate SameKey(a: Item, b: Item) { a.authority == b.authority && a.ref == b.ref }

  lemma {:induction false} AtMostTotal(a: string, b: string)
    ensures AtMost(a, b) || AtMost(b, a)
  {
    if a != [] && b != [] && a[0] == b[0] {
      AtMostTotal(a[1..], b[1..]);
    }
  }

  lemma {:induction false} AtMostAntisymmetric(a: string, b: string)
    requires AtMost(a, b) && AtMost(b, a)
    ensures a == b
  {
    if a != [] && b != [] {
      AtMostAntisymmetric(a[1..], b[1..]);
      assert a == [a[0]] + a[1..] && b == [b[0]] + b[1..];
    }
  }

  lemma {:induction false} AtMostTransitive(a: string, b: string, c: string)
    requires AtMost(a, b) && AtMost(b, c)
    ensures AtMost(a, c)
  {
    if a != [] && a[0] == b[0] && b[0] == c[0] {
      AtMostTransitive(a[1..], b[1..], c[1..]);
    }
  }

  /** One string is at most another exactly when it begins it or is the smaller at the first difference. */
  lemma {:induction false} AtMostMeans(a: string, b: string)
    ensures AtMost(a, b) <==>
            a <= b || exists k :: 0 <= k < |a| && k < |b| && a[..k] == b[..k] && a[k] < b[k]
  {
    if a != [] && b != [] {
      if a[0] == b[0] {
        AtMostMeans(a[1..], b[1..]);
        if k :| 0 <= k < |a[1..]| && k < |b[1..]| && a[1..][..k] == b[1..][..k] && a[1..][k] < b[1..][k] {
          assert a[..k + 1] == [a[0]] + a[1..][..k] && b[..k + 1] == [b[0]] + b[1..][..k];
        }
        if k :| 0 <= k < |a| && k < |b| && a[..k] == b[..k] && a[k] < b[k] {
          assert a[1..][..k - 1] == a[..k][1..] && b[1..][..k - 1] == b[..k][1..];
          assert a[1..][k - 1] < b[1..][k - 1];
        }
        if a <= b {
          assert a[1..] <= b[1..];
        }
        if a[1..] <= b[1..] {
          assert a == [a[0]] + a[1..];
          assert b == [b[0]] + b[1..];
        }
      } else {
        if a[0] < b[0] {
          assert a[..0] == b[..0];
        }
        if k :| 0 <= k < |a| && k < |b| && a[..k] == b[..k] && a[k] < b[k] {
          SameStart(a, b, k);
        }
      }
    }
  }

  lemma {:induction false} SameStart(a: string, b: string, k: nat)
    requires k < |a| && k < |b| && a[..k] == b[..k]
    ensures k > 0 ==> a[0] == b[0]
  {
    if k > 0 {
      assert a[..k][0] == b[..k][0];
    }
  }

  lemma {:induction false} BeforeIsAnOrder(a: Item, b: Item, c: Item)
    ensures Before(a, b) || Before(b, a)
    ensures Before(a, b) && Before(b, c) ==> Before(a, c)
    ensures Before(a, b) && Before(b, a) ==> SameKey(a, b)
  {
    AtMostTotal(a.ref, b.ref);
    if AtMost(a.ref, b.ref) && AtMost(b.ref, c.ref) {
      AtMostTransitive(a.ref, b.ref, c.ref);
    }
    if AtMost(a.ref, b.ref) && AtMost(b.ref, a.ref) {
      AtMostAntisymmetric(a.ref, b.ref);
    }
  }

  /** Stable insertion from the end. */
  function Insert(sorted: seq<Item>, x: Item): seq<Item> {
    if sorted == [] || Before(sorted[|sorted| - 1], x) then sorted + [x]
    else Insert(sorted[..|sorted| - 1], x) + [sorted[|sorted| - 1]]
  }

  function Ordered(items: seq<Item>): seq<Item> {
    if items == [] then [] else Insert(Ordered(items[..|items| - 1]), items[|items| - 1])
  }

  ghost function Bag(s: seq<Item>): multiset<Item> { multiset(s) }

  lemma {:induction false} BagLast(s: seq<Item>, x: Item)
    ensures Bag(s + [x]) == Bag(s) + multiset{x} && Bag([]) == multiset{}
    ensures s + [] == s
  {
  }

  lemma {:induction false} BagCut(s: seq<Item>)
    requires s != []
    ensures Bag(s) == Bag(s[..|s| - 1]) + multiset{s[|s| - 1]}
  {
    assert s == s[..|s| - 1] + [s[|s| - 1]];
  }

  lemma {:induction false} BagIn(s: seq<Item>, x: Item)
    ensures x in Bag(s) <==> x in s
    ensures |Bag(s)| == |s|
  {
  }

  ghost predicate IsSorted(s: seq<Item>) { forall i, j :: 0 <= i < j < |s| ==> Before(s[i], s[j]) }

  lemma {:induction false} InsertKeeps(sorted: seq<Item>, x: Item)
    ensures Bag(Insert(sorted, x)) == Bag(sorted) + multiset{x}
  {
    hide Bag;
    if sorted == [] || Before(sorted[|sorted| - 1], x) {
      BagLast(sorted, x);
    } else {
      var n := |sorted| - 1;
      BagCut(sorted);
      InsertKeeps(sorted[..n], x);
      BagLast(Insert(sorted[..n], x), sorted[n]);
    }
  }

  lemma {:induction false} InsertBelow(sorted: seq<Item>, x: Item, top: Item)
    requires Before(x, top) && forall i :: 0 <= i < |sorted| ==> Before(sorted[i], top)
    ensures forall i :: 0 <= i < |Insert(sorted, x)| ==> Before(Insert(sorted, x)[i], top)
  {
    hide Before;
    if sorted != [] && !Before(sorted[|sorted| - 1], x) {
      InsertBelow(sorted[..|sorted| - 1], x, top);
    }
  }

  lemma {:induction false} InsertSorts(sorted: seq<Item>, x: Item)
    requires IsSorted(sorted)
    ensures IsSorted(Insert(sorted, x))
  {
    hide Before;
    if sorted != [] {
      var n := |sorted| - 1;
      var last := sorted[n];
      if Before(last, x) {
        forall i | 0 <= i < n
          ensures Before(sorted[i], x)
        {
          BeforeIsAnOrder(sorted[i], last, x);
        }
      } else {
        BeforeIsAnOrder(last, x, x);
        InsertSorts(sorted[..n], x);
        InsertBelow(sorted[..n], x, last);
      }
    }
  }

  lemma {:induction false} OrderedSorts(items: seq<Item>)
    ensures IsSorted(Ordered(items)) && Bag(Ordered(items)) == Bag(items)
  {
    hide Bag, IsSorted, Insert;
    if items == [] {
      NoneIsSorted();
    } else {
      var n := |items| - 1;
      BagCut(items);
      OrderedSorts(items[..n]);
      InsertSorts(Ordered(items[..n]), items[n]);
      InsertKeeps(Ordered(items[..n]), items[n]);
    }
  }

  lemma {:induction false} NoneIsSorted()
    ensures IsSorted([])
  {
  }

  /** Items with one authority and ref are one item; so with distinct refs. */
  ghost predicate Unambiguous(items: seq<Item>) {
    forall a, b :: a in items && b in items && SameKey(a, b) ==> a == b
  }

  lemma {:induction false} SortedIsUnique(s: seq<Item>, t: seq<Item>)
    requires IsSorted(s) && IsSorted(t) && Bag(s) == Bag(t) && Unambiguous(s)
    ensures s == t
  {
    hide Bag, IsSorted, Unambiguous;
    SameLength(s, t);
    if s != [] {
      var n := |s| - 1;
      SameTop(s, t);
      Shorter(s, t);
      SortedIsUnique(s[..n], t[..n]);
      assert s == s[..n] + [s[n]] && t == t[..n] + [s[n]];
    }
  }

  lemma {:induction false} SameLength(s: seq<Item>, t: seq<Item>)
    requires Bag(s) == Bag(t)
    ensures |s| == |t|
  {
    assert |s| == |multiset(s)| && |t| == |multiset(t)|;
  }

  lemma {:induction false} Shorter(s: seq<Item>, t: seq<Item>)
    requires IsSorted(s) && IsSorted(t) && Bag(s) == Bag(t) && Unambiguous(s)
    requires |s| == |t| > 0 && s[|s| - 1] == t[|t| - 1]
    ensures
      var n := |s| - 1;
      IsSorted(s[..n]) && IsSorted(t[..n]) && Bag(s[..n]) == Bag(t[..n]) && Unambiguous(s[..n])
  {
    hide Bag, Before, SameKey;
    var n := |s| - 1;
    BagCut(s);
    BagCut(t);
    assert Bag(s[..n]) == Bag(s) - multiset{s[n]} && Bag(t[..n]) == Bag(t) - multiset{s[n]};
    assert forall a :: a in s[..n] ==> a in s;
  }

  lemma {:induction false} SameTop(s: seq<Item>, t: seq<Item>)
    requires IsSorted(s) && IsSorted(t) && Bag(s) == Bag(t) && Unambiguous(s) && |s| == |t| > 0
    ensures s[|s| - 1] == t[|t| - 1]
  {
    hide Before, Bag;
    var x, y := s[|s| - 1], t[|t| - 1];
    BagIn(s, x);
    BagIn(t, x);
    BagIn(s, y);
    BagIn(t, y);
    LastIsTop(s, y);
    LastIsTop(t, x);
    BeforeIsAnOrder(x, y, x);
  }

  lemma {:induction false} LastIsTop(s: seq<Item>, y: Item)
    requires IsSorted(s) && y in s
    ensures Before(y, s[|s| - 1])
  {
    var i :| 0 <= i < |s| && s[i] == y;
    BeforeIsAnOrder(y, y, y);
  }

  // ---------------------------------------------------------------------------
  // The selection
  // ---------------------------------------------------------------------------

  datatype Selection = Selection(selected: seq<Item>, omitted: seq<Item>, used: int)

  function Greedy(ordered: seq<Item>, budget: int): Selection {
    if ordered == [] then Selection([], [], 0)
    else
      var s, x := Greedy(ordered[..|ordered| - 1], budget), ordered[|ordered| - 1];
      if s.used + x.size <= budget then Selection(s.selected + [x], s.omitted, s.used + x.size)
      else s.(omitted := s.omitted + [x])
  }

  function Refs(items: seq<Item>): seq<string> {
    if items == [] then [] else Refs(items[..|items| - 1]) + [items[|items| - 1].ref]
  }

  function Only(items: seq<Item>, authority: Authority): seq<Item> {
    if items == [] then []
    else
      Only(items[..|items| - 1], authority)
      + if items[|items| - 1].authority == authority then [items[|items| - 1]] else []
  }

  function Sum(items: seq<Item>): int {
    if items == [] then 0 else Sum(items[..|items| - 1]) + items[|items| - 1].size
  }

  function Packed(objective: string, owner: string, items: seq<Item>, budget: int): Pack {
    var s := Greedy(Ordered(items), budget);
    Pack(objective, owner, Only(s.selected, Control), Only(s.selected, Data), Refs(s.omitted), s.used)
  }

  method BuildContextPack(objective: string, owner: string, items: seq<Item>, budget: int) returns (r: Built)
    ensures r.Built? <==> forall i :: 0 <= i < |items| ==> items[i].owner == owner
    ensures r.Built? ==> r.pack == Packed(objective, owner, items, budget)
    ensures r.OwnerConflict? ==>
              exists k :: 0 <= k < |items| && items[k].owner != owner && items[k].ref == r.ref
                          && forall i :: 0 <= i < k ==> items[i].owner == owner
  {
    for k := 0 to |items|
      invariant forall i :: 0 <= i < k ==> items[i].owner == owner
    {
      if items[k].owner != owner {
        return OwnerConflict(items[k].ref);
      }
    }
    var ordered := Ordered(items);
    var selected: seq<Item>, omitted: seq<string>, used := [], [], 0;
    ghost var left: seq<Item> := [];
    for k := 0 to |ordered|
      invariant Greedy(ordered[..k], budget) == Selection(selected, left, used) && omitted == Refs(left)
    {
      assert ordered[..k + 1][..k] == ordered[..k];
      var x := ordered[k];
      if used + x.size <= budget {
        selected := selected + [x];
        used := used + x.size;
      } else {
        assert (left + [x])[..|left|] == left;
        omitted := omitted + [x.ref];
        left := left + [x];
      }
    }
    assert ordered[..|ordered|] == ordered;
    r := Built(Pack(objective, owner, Only(selected, Control), Only(selected, Data), omitted, used));
  }

  /** The pack does not depend on the order in which the items are given. */
  lemma {:induction false} OrderDoesNotMatter(objective: string, owner: string, items: seq<Item>, other: seq<Item>, budget: int)
    requires Bag(items) == Bag(other) && Unambiguous(items)
    ensures Packed(objective, owner, items, budget) == Packed(objective, owner, other, budget)
  {
    hide Bag, Packed, IsSorted;
    OrderedSorts(items);
    OrderedSorts(other);
    forall a | a in Ordered(items)
      ensures a in items
    {
      BagIn(Ordered(items), a);
      BagIn(items, a);
    }
    SortedIsUnique(Ordered(items), Ordered(other));
    SameOrderSamePack(objective, owner, items, other, budget);
  }

  lemma {:induction false} SameOrderSamePack(objective: string, owner: string, items: seq<Item>, other: seq<Item>, budget: int)
    requires Ordered(items) == Ordered(other)
    ensures Packed(objective, owner, items, budget) == Packed(objective, owner, other, budget)
  {
  }

  // ---------------------------------------------------------------------------
  // What is selected
  // ---------------------------------------------------------------------------

  lemma {:induction false} GreedyPartitions(ordered: seq<Item>, budget: int)
    ensures Bag(Greedy(ordered, budget).selected) + Bag(Greedy(ordered, budget).omitted) == Bag(ordered)
  {
    hide Bag;
    BagLast([], Item("", "", Data, 0, ""));
    if ordered != [] {
      var n := |ordered| - 1;
      var s := Greedy(ordered[..n], budget);
      GreedyPartitions(ordered[..n], budget);
      BagCut(ordered);
      BagLast(s.selected, ordered[n]);
      BagLast(s.omitted, ordered[n]);
    }
  }

  lemma {:induction false} GreedyCounts(ordered: seq<Item>, budget: int)
    ensures Greedy(ordered, budget).used == Sum(Greedy(ordered, budget).selected)
    ensures budget >= 0 ==> Greedy(ordered, budget).used <= budget
  {
    if ordered != [] {
      var n := |ordered| - 1;
      GreedyCounts(ordered[..n], budget);
      SumLast(Greedy(ordered[..n], budget).selected, ordered[n]);
    }
  }

  lemma {:induction false} NothingMoreFits(ordered: seq<Item>, budget: int)
    requires forall i :: 0 <= i < |ordered| ==> ordered[i].size >= 0
    ensures forall x :: x in Greedy(ordered, budget).omitted ==> Greedy(ordered, budget).used + x.size > budget
  {
    if ordered != [] {
      NothingMoreFits(ordered[..|ordered| - 1], budget);
    }
  }

  /** The pack holds the input exactly once, counts it exactly, and leaves out nothing that still fits. */
  lemma {:induction false} PackIsExact(objective: string, owner: string, items: seq<Item>, budget: int)
    requires forall i :: 0 <= i < |items| ==> items[i].size >= 0
    requires budget >= 0
    ensures
      var p, s := Packed(objective, owner, items, budget), Greedy(Ordered(items), budget);
      && Bag(p.control) + Bag(p.data) + Bag(s.omitted) == Bag(items)
      && p.objective == objective && p.owner == owner
      && |p.omitted| == |s.omitted| && (forall i :: 0 <= i < |s.omitted| ==> p.omitted[i] == s.omitted[i].ref)
      && p.total == Sum(p.control) + Sum(p.data) <= budget
      && forall x :: x in s.omitted ==> p.total + x.size > budget
  {
    hide Bag, Greedy, Ordered, Only, Sum, Refs;
    var ordered := Ordered(items);
    OrderedSorts(items);
    forall i | 0 <= i < |ordered|
      ensures ordered[i].size >= 0
    {
      BagIn(ordered, ordered[i]);
      BagIn(items, ordered[i]);
    }
    GreedyPartitions(ordered, budget);
    GreedyCounts(ordered, budget);
    NothingMoreFits(ordered, budget);
    OnlyPartitions(Greedy(ordered, budget).selected);
    OnlyCounts(Greedy(ordered, budget).selected);
    RefsAre(Greedy(ordered, budget).omitted);
  }

  lemma {:induction false} RefsAre(items: seq<Item>)
    ensures |Refs(items)| == |items| && forall i :: 0 <= i < |items| ==> Refs(items)[i] == items[i].ref
  {
    if items != [] {
      RefsAre(items[..|items| - 1]);
    }
  }

  lemma {:induction false} OnlyPartitions(items: seq<Item>)
    ensures Bag(Only(items, Control)) + Bag(Only(items, Data)) == Bag(items)
  {
    hide Bag;
    BagLast([], Item("", "", Data, 0, ""));
    if items != [] {
      var n := |items| - 1;
      OnlyPartitions(items[..n]);
      BagCut(items);
      BagLast(Only(items[..n], Control), items[n]);
      BagLast(Only(items[..n], Data), items[n]);
    }
  }

  lemma {:induction false} OnlyCounts(items: seq<Item>)
    ensures Sum(Only(items, Control)) + Sum(Only(items, Data)) == Sum(items)
  {
    if items != [] {
      var n := |items| - 1;
      OnlyCounts(items[..n]);
      SumLast(Only(items[..n], Control), items[n]);
      SumLast(Only(items[..n], Data), items[n]);
    }
  }

  lemma {:induction false} SumLast(items: seq<Item>, x: Item)
    ensures Sum(items + [x]) == Sum(items) + x.size && items + [] == items
  {
    assert (items + [x])[..|items|] == items;
  }

  // ---------------------------------------------------------------------------
  // Earlier items are preferred
  // ---------------------------------------------------------------------------

  /** Which items of an order are taken. */
  function Picks(ordered: seq<Item>, budget: int): seq<bool> {
    if ordered == [] then []
    else
      var n := |ordered| - 1;
      Picks(ordered[..n], budget) + [Greedy(ordered[..n], budget).used + ordered[n].size <= budget]
  }

  function Weight(ordered: seq<Item>, picks: seq<bool>): int
    requires |picks| == |ordered|
  {
    if ordered == [] then 0
    else
      var n := |ordered| - 1;
      Weight(ordered[..n], picks[..n]) + if picks[n] then ordered[n].size else 0
  }

  lemma {:induction false} PicksPrefix(ordered: seq<Item>, budget: int, k: nat)
    requires k <= |ordered|
    ensures |Picks(ordered, budget)| == |ordered|
    ensures Picks(ordered, budget)[..k] == Picks(ordered[..k], budget)
  {
    hide Greedy;
    if k < |ordered| {
      PicksPrefix(ordered[..|ordered| - 1], budget, k);
      assert ordered[..|ordered| - 1][..k] == ordered[..k];
    } else if ordered != [] {
      PicksPrefix(ordered[..k - 1], budget, k - 1);
      assert ordered[..k] == ordered;
    }
  }

  lemma {:induction false} PicksWeigh(ordered: seq<Item>, budget: int)
    ensures |Picks(ordered, budget)| == |ordered|
    ensures Weight(ordered, Picks(ordered, budget)) == Greedy(ordered, budget).used
  {
    if ordered != [] {
      var n := |ordered| - 1;
      PicksWeigh(ordered[..n], budget);
      assert Picks(ordered, budget)[..n] == Picks(ordered[..n], budget);
    }
  }

  lemma {:induction false} PrefixWeighsLess(ordered: seq<Item>, picks: seq<bool>, k: nat)
    requires |picks| == |ordered| && k <= |ordered|
    requires forall i :: 0 <= i < |ordered| ==> ordered[i].size >= 0
    ensures Weight(ordered[..k], picks[..k]) <= Weight(ordered, picks)
  {
    if k < |ordered| {
      var n := |ordered| - 1;
      PrefixWeighsLess(ordered[..n], picks[..n], k);
      assert ordered[..n][..k] == ordered[..k] && picks[..n][..k] == picks[..k];
    } else {
      assert ordered[..k] == ordered && picks[..k] == picks;
    }
  }

  /** Against any other choice within the budget, the first difference is an item that was taken here
      and passed over there. */
  lemma {:induction false} EarlierItemsWin(ordered: seq<Item>, budget: int, other: seq<bool>, k: nat)
    requires forall i :: 0 <= i < |ordered| ==> ordered[i].size >= 0
    requires |other| == |ordered| && Weight(ordered, other) <= budget
    requires |Picks(ordered, budget)| == |ordered|
    requires k < |ordered| && other[..k] == Picks(ordered, budget)[..k] && other[k] != Picks(ordered, budget)[k]
    ensures Picks(ordered, budget)[k] && !other[k]
  {
    hide Greedy;
    var upto := ordered[..k + 1];
    assert upto[..k] == ordered[..k] && other[..k + 1][..k] == other[..k];
    PicksPrefix(ordered, budget, k);
    PicksPrefix(ordered, budget, k + 1);
    PicksWeigh(ordered[..k], budget);
    PrefixWeighsLess(ordered, other, k + 1);
    PicksPrefix(upto, budget, k);
    assert Picks(ordered, budget)[k] == Picks(upto, budget)[k];
  }

  // ---------------------------------------------------------------------------
  // Data cannot touch control
  // ---------------------------------------------------------------------------

  ghost predicate All(items: seq<Item>, authority: Authority) {
    forall i :: 0 <= i < |items| ==> items[i].authority == authority
  }

  lemma {:induction false} InsertAll(sorted: seq<Item>, x: Item)
    requires All(sorted, x.authority)
    ensures All(Insert(sorted, x), x.authority)
  {
    if sorted != [] && !Before(sorted[|sorted| - 1], x) {
      InsertAll(sorted[..|sorted| - 1], x);
    }
  }

  lemma {:induction false} InsertControl(c: seq<Item>, d: seq<Item>, x: Item)
    requires All(d, Data) && x.authority == Control
    ensures Insert(c + d, x) == Insert(c, x) + d
  {
    if d == [] {
      assert c + d == c && Insert(c, x) + d == Insert(c, x);
    } else {
      var n := |d| - 1;
      assert (c + d)[|c| + n] == d[n] && (c + d)[..|c| + n] == c + d[..n];
      InsertControl(c, d[..n], x);
      assert Insert(c, x) + d[..n] + [d[n]] == Insert(c, x) + d;
    }
  }

  lemma {:induction false} InsertData(c: seq<Item>, d: seq<Item>, x: Item)
    requires All(c, Control) && x.authority == Data
    ensures Insert(c + d, x) == c + Insert(d, x)
  {
    if d == [] {
      assert c + d == c;
    } else {
      var n := |d| - 1;
      assert (c + d)[|c| + n] == d[n] && (c + d)[..|c| + n] == c + d[..n];
      if Before(d[n], x) {
        assert c + d + [x] == c + (d + [x]);
      } else {
        InsertData(c, d[..n], x);
      }
    }
  }

  lemma {:induction false} ControlFirst(items: seq<Item>)
    ensures Ordered(items) == Ordered(Only(items, Control)) + Ordered(Only(items, Data))
    ensures All(Ordered(Only(items, Control)), Control) && All(Ordered(Only(items, Data)), Data)
  {
    if items != [] {
      var n := |items| - 1;
      var x := items[n];
      ControlFirst(items[..n]);
      var c, d := Only(items[..n], Control), Only(items[..n], Data);
      assert (c + [x])[..|c|] == c && (d + [x])[..|d|] == d;
      assert c + [] == c && d + [] == d;
      if x.authority == Control {
        InsertControl(Ordered(c), Ordered(d), x);
        InsertAll(Ordered(c), x);
      } else {
        InsertData(Ordered(c), Ordered(d), x);
        InsertAll(Ordered(d), x);
      }
    }
  }

  lemma {:induction false} GreedyPrefix(c: seq<Item>, d: seq<Item>, budget: int)
    requires All(d, Data)
    ensures Only(Greedy(c + d, budget).selected, Control) == Only(Greedy(c, budget).selected, Control)
  {
    if d == [] {
      assert c + d == c;
    } else {
      var n := |d| - 1;
      assert (c + d)[|c| + n] == d[n] && (c + d)[..|c| + n] == c + d[..n];
      GreedyPrefix(c, d[..n], budget);
      var s := Greedy(c + d[..n], budget).selected;
      assert (s + [d[n]])[..|s|] == s;
    }
  }

  /** The control part of a pack is that of the control items alone: no data item adds to it or
      crowds anything out of it. */
  lemma {:induction false} DataNeverTouchesControl(objective: string, owner: string, items: seq<Item>, budget: int)
    ensures Packed(objective, owner, items, budget).control
         == Packed(objective, owner, Only(items, Control), budget).control
  {
    ControlFirst(items);
    GreedyPrefix(Ordered(Only(items, Control)), Ordered(Only(items, Data)), budget);
  }

  /** `authority_of`: the first item with that ref, control items first. */
  method AuthorityOf(p: Pack, ref: string) returns (r: Option<Authority>)
    requires All(p.control, Control) && All(p.data, Data)
    ensures r == Some(Control) <==> exists i :: 0 <= i < |p.control| && p.control[i].ref == ref
    ensures r == None <==> (forall i :: 0 <= i < |p.control + p.data| ==> (p.control + p.data)[i].ref != ref)
  {
    var all := p.control + p.data;
    for k := 0 to |all|
      invariant forall i :: 0 <= i < k ==> all[i].ref != ref
    {
      if all[k].ref == ref {
        if k < |p.control| {
          assert p.control[k].ref == ref;
        } else {
          assert all[k] == p.data[k - |p.control|];
          assert forall i :: 0 <= i < |p.control| ==> all[i] == p.control[i];
        }
        return Some(all[k].authority);
      }
    }
    assert forall i :: 0 <= i < |p.control| ==> all[i] == p.control[i];
    r := None;
  }

  lemma {:induction false} OnlyIsAll(items: seq<Item>, authority: Authority)
    ensures All(Only(items, authority), authority)
  {
    if items != [] {
      OnlyIsAll(items[..|items| - 1], authority);
    }
  }

  /** A built pack meets what `AuthorityOf` asks for. */
  lemma {:induction false} PackKeepsAuthoritiesApart(objective: string, owner: string, items: seq<Item>, budget: int)
    ensures
      var p := Packed(objective, owner, items, budget);
      All(p.control, Control) && All(p.data, Data)
  {
    var s := Greedy(Ordered(items), budget).selected;
    OnlyIsAll(s, Control);
    OnlyIsAll(s, Data);
  }

  // ---------------------------------------------------------------------------
  // When the order of the input matters
  // ---------------------------------------------------------------------------

  datatype Place = Below | Same | Above

  function PlaceOf(e: Item, x: Item): Place {
    if SameKey(e, x) then Same else if Before(e, x) then Below else Above
  }

  /** The items whose key stands in a given place to that of `x`. */
  function Part(s: seq<Item>, x: Item, r: Place): seq<Item> {
    if s == [] then []
    else Part(s[..|s| - 1], x, r) + if PlaceOf(s[|s| - 1], x) == r then [s[|s| - 1]] else []
  }

  lemma {:induction false} PartLast(s: seq<Item>, e: Item, x: Item, r: Place)
    ensures Part(s + [e], x, r) == if PlaceOf(e, x) == r then Part(s, x, r) + [e] else Part(s, x, r)
  {
    assert (s + [e])[..|s|] == s;
  }

  lemma {:induction false} PartOnly(s: seq<Item>, x: Item, r: Place)
    ensures forall i :: 0 <= i < |Part(s, x, r)| ==> PlaceOf(Part(s, x, r)[i], x) == r && Part(s, x, r)[i] in s
    ensures |Part(s, x, r)| <= |s|
  {
    if s != [] {
      PartOnly(s[..|s| - 1], x, r);
    }
  }

  lemma {:induction false} PartBag(s: seq<Item>, x: Item, r: Place, y: Item)
    ensures Bag(Part(s, x, r))[y] == if PlaceOf(y, x) == r then Bag(s)[y] else 0
  {
    hide Bag, PlaceOf;
    BagLast([], y);
    if s != [] {
      var n := |s| - 1;
      PartBag(s[..n], x, r, y);
      BagCut(s);
      BagLast(Part(s[..n], x, r), s[n]);
    }
  }

  lemma {:induction false} PartSameBag(s: seq<Item>, t: seq<Item>, x: Item, r: Place)
    requires Bag(s) == Bag(t)
    ensures Bag(Part(s, x, r)) == Bag(Part(t, x, r))
  {
    hide Bag, PlaceOf, Part;
    forall y: Item
      ensures Bag(Part(s, x, r))[y] == Bag(Part(t, x, r))[y]
    {
      PartBag(s, x, r, y);
      PartBag(t, x, r, y);
    }
  }

  lemma {:induction false} PlaceIsMonotone(a: Item, b: Item, x: Item)
    requires Before(a, b)
    ensures PlaceOf(b, x) == Below ==> PlaceOf(a, x) == Below
    ensures PlaceOf(b, x) == Same ==> PlaceOf(a, x) != Above
  {
    BeforeIsAnOrder(a, b, x);
    BeforeIsAnOrder(b, a, x);
    BeforeIsAnOrder(b, x, a);
    BeforeIsAnOrder(x, x, x);
  }

  lemma {:induction false} NoPart(s: seq<Item>, x: Item, r: Place)
    requires forall i :: 0 <= i < |s| ==> PlaceOf(s[i], x) != r
    ensures Part(s, x, r) == []
  {
    hide PlaceOf;
    if s != [] {
      NoPart(s[..|s| - 1], x, r);
    }
  }

  /** A sorted sequence is what lies below a key, its group and what lies above. */
  lemma {:induction false} SplitSorted(s: seq<Item>, x: Item)
    requires IsSorted(s)
    ensures s == Part(s, x, Below) + Part(s, x, Same) + Part(s, x, Above)
  {
    hide PlaceOf, Before;
    if s != [] {
      var n := |s| - 1;
      var t, l := s[..n], s[n];
      SplitSorted(t, x);
      SplitLast(t, l, x);
      assert s == t + [l];
    }
  }

  lemma {:induction false} SplitLast(t: seq<Item>, l: Item, x: Item)
    requires t == Part(t, x, Below) + Part(t, x, Same) + Part(t, x, Above)
    requires forall i :: 0 <= i < |t| ==> Before(t[i], l)
    ensures t + [l] == Part(t + [l], x, Below) + Part(t + [l], x, Same) + Part(t + [l], x, Above)
  {
    hide PlaceOf, Before, Part;
    forall i | 0 <= i < |t|
      ensures PlaceOf(l, x) == Below ==> PlaceOf(t[i], x) == Below
      ensures PlaceOf(l, x) == Same ==> PlaceOf(t[i], x) != Above
    {
      PlaceIsMonotone(t[i], l, x);
    }
    PartLast(t, l, x, Below);
    PartLast(t, l, x, Same);
    PartLast(t, l, x, Above);
    match PlaceOf(l, x) {
      case Below =>
        NoPart(t, x, Same);
        NoPart(t, x, Above);
      case Same =>
        NoPart(t, x, Above);
      case Above =>
    }
  }

  lemma {:induction false} InsertAtEnd(s: seq<Item>, e: Item)
    requires forall i :: 0 <= i < |s| ==> Before(s[i], e)
    ensures Insert(s, e) == s + [e]
  {
  }

  lemma {:induction false} PartInsert(s: seq<Item>, e: Item, x: Item, r: Place)
    requires IsSorted(s)
    ensures Part(Insert(s, e), x, r) == if PlaceOf(e, x) == r then Insert(Part(s, x, r), e) else Part(s, x, r)
  {
    hide PlaceOf, Before;
    if s == [] {
      PartLast(s, e, x, r);
    } else {
      var n := |s| - 1;
      hide Part;
      if Before(s[n], e) {
        PartInsertEnd(s, e, x, r);
      } else {
        PartInsert(s[..n], e, x, r);
        PartLast(Insert(s[..n], e), s[n], x, r);
        assert s == s[..n] + [s[n]];
        PartLast(s[..n], s[n], x, r);
        if PlaceOf(s[n], x) == r && PlaceOf(e, x) == r {
          PartInsertLast(s, e, x, r);
        }
      }
    }
  }

  lemma {:induction false} PartInsertEnd(s: seq<Item>, e: Item, x: Item, r: Place)
    requires IsSorted(s) && s != [] && Before(s[|s| - 1], e)
    ensures Part(Insert(s, e), x, r) == if PlaceOf(e, x) == r then Insert(Part(s, x, r), e) else Part(s, x, r)
  {
    hide PlaceOf, Before, Part;
    var n := |s| - 1;
    forall i | 0 <= i < |s|
      ensures Before(s[i], e)
    {
      BeforeIsAnOrder(s[i], s[n], e);
    }
    PartOnly(s, x, r);
    forall i | 0 <= i < |Part(s, x, r)|
      ensures Before(Part(s, x, r)[i], e)
    {
      assert Part(s, x, r)[i] in s;
    }
    InsertAtEnd(Part(s, x, r), e);
    PartLast(s, e, x, r);
  }

  lemma {:induction false} PartInsertLast(s: seq<Item>, e: Item, x: Item, r: Place)
    requires s != [] && !Before(s[|s| - 1], e) && PlaceOf(s[|s| - 1], x) == r
    ensures Insert(Part(s, x, r), e) == Insert(Part(s[..|s| - 1], x, r), e) + [s[|s| - 1]]
  {
    hide PlaceOf, Before;
    var p := Part(s[..|s| - 1], x, r);
    assert Part(s, x, r) == p + [s[|s| - 1]];
    assert (p + [s[|s| - 1]])[..|p|] == p;
  }

  /** The sort is stable: it works on each part of the input by itself. */
  lemma {:induction false} PartOrdered(items: seq<Item>, x: Item, r: Place)
    ensures Part(Ordered(items), x, r) == Ordered(Part(items, x, r))
  {
    hide PlaceOf, Before, Insert, IsSorted;
    if items != [] {
      var n := |items| - 1;
      PartOrdered(items[..n], x, r);
      OrderedSorts(items[..n]);
      PartInsert(Ordered(items[..n]), items[n], x, r);
      OrderedLast(Part(items[..n], x, r), items[n]);
    }
  }

  lemma {:induction false} OrderedLast(s: seq<Item>, e: Item)
    ensures Ordered(s + [e]) == Insert(Ordered(s), e) && s + [] == s
  {
    hide Insert;
    assert (s + [e])[..|s|] == s;
  }

  lemma {:induction false} GroupIsOrdered(g: seq<Item>, x: Item)
    requires forall i :: 0 <= i < |g| ==> SameKey(g[i], x)
    ensures Ordered(g) == g
  {
    if g != [] {
      var n := |g| - 1;
      GroupIsOrdered(g[..n], x);
      forall i | 0 <= i < n
        ensures Before(g[..n][i], g[n])
      {
        BeforeIsAnOrder(g[i], g[n], g[n]);
      }
      hide Before;
      InsertAtEnd(g[..n], g[n]);
      assert g == g[..n] + [g[n]];
    }
  }

  /** How the sorted input is made up around a key. */
  lemma {:induction false} OrderedSplits(items: seq<Item>, x: Item)
    ensures Ordered(items) == Ordered(Part(items, x, Below)) + Part(items, x, Same) + Ordered(Part(items, x, Above))
  {
    hide PlaceOf, IsSorted, Ordered, Part;
    OrderedSorts(items);
    SplitSorted(Ordered(items), x);
    PartOrdered(items, x, Below);
    PartOrdered(items, x, Same);
    PartOrdered(items, x, Above);
    GroupOf(items, x);
    GroupIsOrdered(Part(items, x, Same), x);
  }

  lemma {:induction false} GroupOf(items: seq<Item>, x: Item)
    ensures forall i :: 0 <= i < |Part(items, x, Same)| ==> SameKey(Part(items, x, Same)[i], x)
  {
    PartOnly(items, x, Same);
  }

  // One group at a time

  function GreedyFrom(s: Selection, more: seq<Item>, budget: int): Selection {
    if more == [] then s
    else
      var t, x := GreedyFrom(s, more[..|more| - 1], budget), more[|more| - 1];
      if t.used + x.size <= budget then Selection(t.selected + [x], t.omitted, t.used + x.size)
      else t.(omitted := t.omitted + [x])
  }

  lemma {:induction false} GreedyAppend(p: seq<Item>, g: seq<Item>, budget: int)
    ensures Greedy(p + g, budget) == GreedyFrom(Greedy(p, budget), g, budget)
  {
    if g == [] {
      assert p + g == p;
    } else {
      var n := |g| - 1;
      assert (p + g)[..|p| + n] == p + g[..n] && (p + g)[|p| + n] == g[n];
      GreedyAppend(p, g[..n], budget);
    }
  }

  /** `m` copies of one item, taken one after the other. */
  function Copies(used: int, x: Item, budget: int, m: nat): (seq<Item>, int) {
    if m == 0 then ([], used)
    else
      var (taken, now) := Copies(used, x, budget, m - 1);
      if now + x.size <= budget then (taken + [x], now + x.size) else (taken, now)
  }

  function Repeat(ref: string, n: nat): seq<string> { if n == 0 then [] else Repeat(ref, n - 1) + [ref] }

  /** What a group adds to a selection, when only `x` of it can fit. */
  predicate Adds(s: Selection, t: Selection, x: Item, budget: int, m: nat, length: nat) {
    var (taken, now) := Copies(s.used, x, budget, m);
    && |taken| <= length
    && t.selected == s.selected + taken && t.used == now
    && Refs(t.omitted) == Refs(s.omitted) + Repeat(x.ref, length - |taken|)
  }

  lemma {:induction false} CopiesGrow(used: int, x: Item, budget: int, m: nat)
    requires x.size >= 0
    ensures Copies(used, x, budget, m).1 >= used && |Copies(used, x, budget, m).0| <= m
  {
    if m > 0 {
      CopiesGrow(used, x, budget, m - 1);
    }
  }

  lemma {:induction false} RefsLast(items: seq<Item>, x: Item)
    ensures Refs(items + [x]) == Refs(items) + [x.ref]
  {
    assert (items + [x])[..|items|] == items;
  }

  lemma {:induction false} GroupAdds(s: Selection, g: seq<Item>, x: Item, budget: int)
    requires x.size >= 0 && forall i :: 0 <= i < |g| ==> g[i].ref == x.ref
    requires forall i :: 0 <= i < |g| && g[i] != x ==> s.used + g[i].size > budget
    ensures Adds(s, GreedyFrom(s, g, budget), x, budget, Bag(g)[x], |g|)
  {
    hide Bag, Refs;
    BagLast([], x);
    if g != [] {
      var n := |g| - 1;
      GroupAdds(s, g[..n], x, budget);
      BagCut(g);
      var t := GreedyFrom(s, g[..n], budget);
      CopiesGrow(s.used, x, budget, Bag(g[..n])[x]);
      RefsLast(t.omitted, g[n]);
      assert Bag(g)[x] == Bag(g[..n])[x] + if g[n] == x then 1 else 0;
    }
  }

  /** Two selections that a pack cannot tell apart. */
  predicate Alike(s: Selection, t: Selection) {
    s.selected == t.selected && s.used == t.used && Refs(s.omitted) == Refs(t.omitted)
  }

  lemma {:induction false} GroupsAlike(s: Selection, t: Selection, g: seq<Item>, h: seq<Item>, x: Item, budget: int)
    requires Alike(s, t) && Bag(g) == Bag(h)
    requires x.size >= 0 && forall i :: 0 <= i < |g| ==> g[i].ref == x.ref
    requires forall i :: 0 <= i < |g| && g[i] != x ==> s.used + g[i].size > budget
    ensures Alike(GreedyFrom(s, g, budget), GreedyFrom(t, h, budget))
  {
    hide Bag, GreedyFrom, Refs;
    SameLength(g, h);
    forall i | 0 <= i < |h|
      ensures h[i] in g
    {
      BagIn(h, h[i]);
      BagIn(g, h[i]);
    }
    GroupAdds(s, g, x, budget);
    GroupAdds(t, h, x, budget);
  }

  // The exact condition

  /** The item still fits when the turn of its key comes. */
  predicate Fits(items: seq<Item>, x: Item, budget: int) {
    Greedy(Ordered(Part(items, x, Below)), budget).used + x.size <= budget
  }

  /** For each key at most one distinct item still fits when its turn comes. */
  ghost predicate Settled(items: seq<Item>, budget: int) {
    forall a, b :: a in items && b in items && SameKey(a, b) && Fits(items, a, budget) && Fits(items, b, budget) ==> a == b
  }

  lemma {:induction false} PartOfPart(s: seq<Item>, x: Item, y: Item)
    requires PlaceOf(y, x) == Below
    ensures Part(Part(s, x, Below), y, Below) == Part(s, y, Below)
  {
    hide PlaceOf;
    if s != [] {
      var n := |s| - 1;
      PartOfPart(s[..n], x, y);
      PartLast(Part(s[..n], x, Below), s[n], y, Below);
      BelowBelow(s[n], y, x);
      if PlaceOf(s[n], x) != Below {
        assert Part(s[..n], x, Below) + [] == Part(s[..n], x, Below);
        assert Part(s[..n], y, Below) + [] == Part(s[..n], y, Below);
      }
    }
  }

  lemma {:induction false} BelowBelow(e: Item, y: Item, x: Item)
    requires PlaceOf(y, x) == Below
    ensures PlaceOf(e, y) == Below ==> PlaceOf(e, x) == Below
  {
    if PlaceOf(e, y) == Below {
      PlaceIsMonotone(e, y, x);
    }
  }

  lemma {:induction false} SamePlaces(a: Item, b: Item, e: Item)
    requires SameKey(a, b)
    ensures PlaceOf(e, a) == PlaceOf(e, b)
  {
  }

  lemma {:induction false} SameParts(s: seq<Item>, a: Item, b: Item, r: Place)
    requires SameKey(a, b)
    ensures Part(s, a, r) == Part(s, b, r)
  {
    hide PlaceOf;
    if s != [] {
      SameParts(s[..|s| - 1], a, b, r);
      SamePlaces(a, b, s[|s| - 1]);
    }
  }

  lemma {:induction false} SettledBelow(items: seq<Item>, x: Item, budget: int)
    requires Settled(items, budget)
    ensures Settled(Part(items, x, Below), budget)
  {
    hide PlaceOf, Greedy, Ordered, Part, SameKey;
    var low := Part(items, x, Below);
    PartOnly(items, x, Below);
    forall a, b | a in low && b in low && SameKey(a, b) && Fits(low, a, budget) && Fits(low, b, budget)
      ensures a == b
    {
      PartOfPart(items, x, a);
      PartOfPart(items, x, b);
    }
  }

  /** The item with the last key, and nothing above it. */
  lemma {:induction false} TopItem(items: seq<Item>) returns (x: Item)
    requires items != []
    ensures x in items && forall y :: y in items ==> PlaceOf(y, x) != Above
  {
    OrderedSorts(items);
    SameLength(Ordered(items), items);
    x := Ordered(items)[|items| - 1];
    hide IsSorted, Bag, Ordered, Before;
    BagIn(Ordered(items), x);
    BagIn(items, x);
    forall y | y in items
      ensures PlaceOf(y, x) != Above
    {
      BagIn(Ordered(items), y);
      BagIn(items, y);
      LastIsTop(Ordered(items), y);
    }
  }

  lemma {:induction false} TopSplits(items: seq<Item>, x: Item)
    requires forall y :: y in items ==> PlaceOf(y, x) != Above
    ensures Ordered(items) == Ordered(Part(items, x, Below)) + Part(items, x, Same)
  {
    hide PlaceOf;
    OrderedSplits(items, x);
    NoPart(items, x, Above);
    assert Ordered([]) == [];
  }

  lemma {:induction false} PartIsShorter(items: seq<Item>, x: Item)
    requires x in items
    ensures |Part(items, x, Below)| < |items|
  {
    if items[|items| - 1] == x {
      PartOnly(items[..|items| - 1], x, Below);
    } else {
      PartIsShorter(items[..|items| - 1], x);
    }
  }

  /** Of a group of a settled input at most one distinct item can be taken. */
  lemma {:induction false} OneCandidate(items: seq<Item>, x: Item, budget: int) returns (c: Item)
    requires x in items && Settled(items, budget)
    ensures c in items && SameKey(c, x)
    ensures
      var g := Part(items, x, Same);
      var used := Greedy(Ordered(Part(items, x, Below)), budget).used;
      forall i :: 0 <= i < |g| ==> g[i].ref == c.ref && (g[i] != c ==> used + g[i].size > budget)
  {
    hide Greedy, Ordered, Part;
    var g := Part(items, x, Same);
    PartOnly(items, x, Same);
    if k :| 0 <= k < |g| && Fits(items, g[k], budget) {
      c := g[k];
    } else {
      c := x;
    }
    forall i | 0 <= i < |g|
      ensures g[i].ref == c.ref
      ensures g[i] != c ==> Greedy(Ordered(Part(items, x, Below)), budget).used + g[i].size > budget
    {
      assert SameKey(g[i], x) && g[i] in items;
      SameParts(items, g[i], x, Below);
    }
  }

  lemma {:induction false} SettledIsStable(items: seq<Item>, other: seq<Item>, budget: int)
    requires Bag(items) == Bag(other) && Settled(items, budget)
    requires forall x :: x in items ==> x.size >= 0
    ensures Alike(Greedy(Ordered(items), budget), Greedy(Ordered(other), budget))
    decreases |items|
  {
    hide Bag, Part, PlaceOf, Settled, GreedyFrom, SameKey;
    SameLength(items, other);
    if items != [] {
      hide Greedy, Ordered;
      var x := TopItem(items);
      forall y | y in other
        ensures y in items
      {
        BagIn(items, y);
        BagIn(other, y);
      }
      TopSplits(items, x);
      TopSplits(other, x);
      var low, less := Part(items, x, Below), Part(other, x, Below);
      PartSameBag(items, other, x, Below);
      PartSameBag(items, other, x, Same);
      PartIsShorter(items, x);
      PartOnly(items, x, Below);
      SettledBelow(items, x, budget);
      SettledIsStable(low, less, budget);
      var c := OneCandidate(items, x, budget);
      GroupsAlike(Greedy(Ordered(low), budget), Greedy(Ordered(less), budget),
                  Part(items, x, Same), Part(other, x, Same), c, budget);
      GreedyAppend(Ordered(low), Part(items, x, Same), budget);
      GreedyAppend(Ordered(less), Part(other, x, Same), budget);
    }
  }

  // Where it fails, two orders differ

  lemma {:induction false} SelectedGrows(s: Selection, more: seq<Item>, budget: int)
    ensures s.selected <= GreedyFrom(s, more, budget).selected
  {
    if more != [] {
      SelectedGrows(s, more[..|more| - 1], budget);
    }
  }

  lemma {:induction false} OnlyAppend(a: seq<Item>, b: seq<Item>, authority: Authority)
    ensures Only(a + b, authority) == Only(a, authority) + Only(b, authority)
  {
    if b == [] {
      assert a + b == a;
    } else {
      var n := |b| - 1;
      assert (a + b)[..|a| + n] == a + b[..n] && (a + b)[|a| + n] == b[n];
      OnlyAppend(a, b[..n], authority);
    }
  }

  /** With a fitting item given first, it is the first of its key to be taken. */
  lemma {:induction false} FirstIsTaken(a: Item, rest: seq<Item>, budget: int)
    requires Fits([a] + rest, a, budget)
    ensures
      var low := Greedy(Ordered(Part(rest, a, Below)), budget);
      var taken := Only(Greedy(Ordered([a] + rest), budget).selected, a.authority);
      Only(low.selected, a.authority) + [a] <= taken
  {
    hide Ordered, Part, GreedyFrom, Fits, Greedy, Only;
    var items := [a] + rest;
    var low := Ordered(Part(rest, a, Below));
    var more := FirstOfItsGroup(a, rest);
    BelowFirst(a, rest);
    GreedyAppend(low + [a], more, budget);
    GreedyAppend(low, [a], budget);
    OneTaken(Greedy(low, budget), a, budget, items);
    SelectedGrows(Greedy(low + [a], budget), more, budget);
    OnlyPrefix(Greedy(low, budget).selected, a, Greedy(Ordered(items), budget).selected);
  }

  lemma {:induction false} FirstOfItsGroup(a: Item, rest: seq<Item>) returns (more: seq<Item>)
    ensures Ordered([a] + rest) == Ordered(Part(rest, a, Below)) + [a] + more
  {
    hide Ordered, Part;
    PartFirst(a, rest, Same);
    BelowFirst(a, rest);
    OrderedSplits([a] + rest, a);
    var low, group, high := Ordered(Part(rest, a, Below)), Part(rest, a, Same), Ordered(Part([a] + rest, a, Above));
    more := group + high;
    assert low + ([a] + group) + high == low + [a] + (group + high);
  }

  lemma {:induction false} OnlyPrefix(low: seq<Item>, a: Item, all: seq<Item>)
    requires low + [a] <= all
    ensures Only(low, a.authority) + [a] <= Only(all, a.authority)
  {
    hide Only;
    assert all == low + [a] + all[|low| + 1..];
    OnlyAppend(low + [a], all[|low| + 1..], a.authority);
    OnlyAppend(low, [a], a.authority);
    OnlyOne(a);
  }

  lemma {:induction false} OnlyOne(a: Item)
    ensures Only([a], a.authority) == [a]
  {
    assert [a][..0] == [];
  }

  lemma {:induction false} OneTaken(s: Selection, a: Item, budget: int, items: seq<Item>)
    requires s == Greedy(Ordered(Part(items, a, Below)), budget) && Fits(items, a, budget)
    ensures GreedyFrom(s, [a], budget).selected == s.selected + [a]
  {
    hide Greedy, Ordered, Part;
    assert [a][..0] == [];
    assert GreedyFrom(s, [], budget) == s;
  }

  lemma {:induction false} PartFirst(a: Item, rest: seq<Item>, r: Place)
    ensures Part([a] + rest, a, r) == (if r == Same then [a] else []) + Part(rest, a, r)
  {
    if rest == [] {
      assert [a] + rest == [a] && [a][..0] == [];
    } else {
      var n := |rest| - 1;
      PartFirst(a, rest[..n], r);
      assert ([a] + rest)[..n + 1] == [a] + rest[..n];
    }
  }

  /** One copy of an item is taken out of a sequence. */
  function Drop(s: seq<Item>, x: Item): seq<Item> {
    if s == [] then [] else if s[|s| - 1] == x then s[..|s| - 1] else Drop(s[..|s| - 1], x) + [s[|s| - 1]]
  }

  lemma {:induction false} DropKeepsBag(s: seq<Item>, x: Item)
    requires x in s
    ensures Bag(Drop(s, x)) + multiset{x} == Bag(s)
  {
    hide Bag;
    var n := |s| - 1;
    BagCut(s);
    if s[n] != x {
      DropKeepsBag(s[..n], x);
      BagLast(Drop(s[..n], x), s[n]);
    }
  }

  lemma {:induction false} DropKeepsBelow(s: seq<Item>, x: Item)
    requires x in s
    ensures Part(Drop(s, x), x, Below) == Part(s, x, Below)
  {
    hide Part, Before;
    var n := |s| - 1;
    assert s == s[..n] + [s[n]];
    PartLast(s[..n], s[n], x, Below);
    if s[n] != x {
      hide PlaceOf;
      DropKeepsBelow(s[..n], x);
      PartLast(Drop(s[..n], x), s[n], x, Below);
    }
  }

  lemma {:induction false} DropKeeps(s: seq<Item>, x: Item)
    requires x in s
    ensures Bag([x] + Drop(s, x)) == Bag(s)
    ensures Part(Drop(s, x), x, Below) == Part(s, x, Below)
  {
    hide Bag, Part, Drop;
    DropKeepsBag(s, x);
    DropKeepsBelow(s, x);
    BagFirst(x, Drop(s, x));
  }

  lemma {:induction false} BagFirst(x: Item, s: seq<Item>)
    ensures Bag([x] + s) == multiset{x} + Bag(s)
  {
  }

  ghost predicate OrderMatters(items: seq<Item>, budget: int) {
    exists other, another ::
      Bag(other) == Bag(items) && Bag(another) == Bag(items)
      && Packed("", "", other, budget) != Packed("", "", another, budget)
  }

  lemma {:induction false} FirstDecides(items: seq<Item>, a: Item, b: Item, budget: int)
    requires a in items && b in items && SameKey(a, b) && a != b && Fits(items, a, budget) && Fits(items, b, budget)
    ensures OrderMatters(items, budget)
  {
    hide Bag, Greedy, Ordered, Part, Drop, Only;
    var p, q := Drop(items, a), Drop(items, b);
    DropKeeps(items, a);
    DropKeeps(items, b);
    SameParts(items, a, b, Below);
    BelowFirst(a, p);
    BelowFirst(b, q);
    FirstIsTaken(a, p, budget);
    FirstIsTaken(b, q, budget);
    var low := Only(Greedy(Ordered(Part(items, a, Below)), budget).selected, a.authority);
    var one := Only(Greedy(Ordered([a] + p), budget).selected, a.authority);
    var two := Only(Greedy(Ordered([b] + q), budget).selected, a.authority);
    assert low + [a] <= one && low + [b] <= two;
    assert one[|low|] == (low + [a])[|low|] && two[|low|] == (low + [b])[|low|];
    assert one != two;
    DifferentPacks([a] + p, [b] + q, a.authority, budget);
  }

  lemma {:induction false} BelowFirst(a: Item, rest: seq<Item>)
    ensures Part([a] + rest, a, Below) == Part(rest, a, Below)
  {
    PartFirst(a, rest, Below);
    assert [] + Part(rest, a, Below) == Part(rest, a, Below);
  }

  lemma {:induction false} DifferentPacks(s: seq<Item>, t: seq<Item>, authority: Authority, budget: int)
    requires Only(Greedy(Ordered(s), budget).selected, authority) != Only(Greedy(Ordered(t), budget).selected, authority)
    ensures Packed("", "", s, budget) != Packed("", "", t, budget)
  {
    hide Greedy, Ordered, Only;
  }

  /** For items of non-negative size the order of the input matters if and only if, at the turn of some
      key, two different items under it still fit. */
  lemma {:induction false} OrderMattersIff(items: seq<Item>, budget: int)
    requires forall x :: x in items ==> x.size >= 0
    ensures OrderMatters(items, budget) <==> !Settled(items, budget)
  {
    hide Bag, Greedy, Ordered, Part, Fits, SameKey, Packed;
    if Settled(items, budget) {
      forall other, another | Bag(other) == Bag(items) && Bag(another) == Bag(items)
        ensures Packed("", "", other, budget) == Packed("", "", another, budget)
      {
        SettledIsStable(items, other, budget);
        SettledIsStable(items, another, budget);
        AlikePacks(items, other, budget);
        AlikePacks(items, another, budget);
      }
    } else {
      var a, b :| a in items && b in items && SameKey(a, b) && Fits(items, a, budget) && Fits(items, b, budget) && a != b;
      FirstDecides(items, a, b, budget);
    }
  }

  lemma {:induction false} AlikePacks(s: seq<Item>, t: seq<Item>, budget: int)
    requires Alike(Greedy(Ordered(s), budget), Greedy(Ordered(t), budget))
    ensures Packed("", "", s, budget) == Packed("", "", t, budget)
  {
  }
}

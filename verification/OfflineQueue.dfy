/** The agent's bounded queue of messages that could not be sent, and how a flush empties it. */
module OfflineQueue {
  import opened Text

  datatype Priority = Low | Normal | High

  /** `createdAt` 0 is Go's zero time. */
  datatype Item = Item(id: string, kind: string, priority: Priority, createdAt: int, payload: seq<bv8>,
      approxBytes: nat)

  function Rank(p: Priority): nat {
    match p
    case Low => 0
    case Normal => 1
    case High => 2
  }

  const OVERHEAD := 256
  const FLUSH_LIMIT := 16

  // ---------- what pruning computes ----------

  predicate Aged(item: Item, maxAge: int, now: int) {
    maxAge > 0 && now - item.createdAt > maxAge && Rank(item.priority) < Rank(High)
  }

  function Unexpired(items: seq<Item>, maxAge: int, now: int): seq<Item>
    decreases |items|
  {
    if items == [] then []
    else
      var n := |items| - 1;
      Unexpired(items[..n], maxAge, now) + (if Aged(items[n], maxAge, now) then [] else [items[n]])
  }

  /** The order the queue is sorted by: priority first, then age. */
  predicate Before(a: Item, b: Item) {
    Rank(a.priority) > Rank(b.priority) || (a.priority == b.priority && a.createdAt < b.createdAt)
  }

  predicate Ordered(items: seq<Item>) {
    forall i, j :: 0 <= i < j < |items| ==> !Before(items[j], items[i])
  }

  /** `item` behind everything it does not come before. */
  function Placed(items: seq<Item>, item: Item): (placed: seq<Item>)
    ensures |placed| == |items| + 1
    decreases |items|
  {
    if items == [] then [item]
    else
      var n := |items| - 1;
      if Before(item, items[n]) then Placed(items[..n], item) + [items[n]] else items + [item]
  }

  /** What `sort.SliceStable` leaves: see `SortedIsOrdered` and `SortedIsStable`. */
  function Sorted(items: seq<Item>): (sorted: seq<Item>)
    ensures |sorted| == |items|
    decreases |items|
  {
    if items == [] then [] else Placed(Sorted(items[..|items| - 1]), items[|items| - 1])
  }

  function Total(items: seq<Item>): nat
    decreases |items|
  {
    if items == [] then 0 else Total(items[..|items| - 1]) + items[|items| - 1].approxBytes
  }

  predicate LoneHigh(items: seq<Item>) {
    |items| == 1 && items[0].priority == High
  }

  predicate Fits(items: seq<Item>, maxBytes: int) {
    items == [] || Total(items) <= maxBytes || LoneHigh(items)
  }

  /** `kept` is the longest prefix that fits. */
  predicate LongestFitting(kept: seq<Item>, items: seq<Item>, maxBytes: int) {
    && kept <= items && Fits(kept, maxBytes)
    && forall k :: |kept| < k <= |items| ==> !Fits(items[..k], maxBytes)
  }

  /** The items of one priority and time, in the order they appear. */
  function Tied(items: seq<Item>, key: Item): seq<Item>
    decreases |items|
  {
    if items == [] then []
    else
      var last := items[|items| - 1];
      Tied(items[..|items| - 1], key) + if SameKey(last, key) then [last] else []
  }

  predicate SameKey(a: Item, b: Item) {
    a.priority == b.priority && a.createdAt == b.createdAt
  }

  // ---------- sorting ----------

  lemma {:induction false} PlacedContents(items: seq<Item>, item: Item)
    ensures forall x :: x in Placed(items, item) <==> x in items || x == item
    ensures Total(Placed(items, item)) == Total(items) + item.approxBytes
    decreases |items|
  {
    if items != [] {
      var n := |items| - 1;
      assert items == items[..n] + [items[n]];
      if Before(item, items[n]) {
        PlacedContents(items[..n], item);
        assert Placed(items, item)[..n + 1] == Placed(items[..n], item);
      }
    }
  }

  lemma {:induction false} OrderedMore(items: seq<Item>, item: Item)
    requires Ordered(items) && forall x :: x in items ==> !Before(item, x)
    ensures Ordered(items + [item])
  {
    forall i, j | 0 <= i < j < |items| + 1 ensures !Before((items + [item])[j], (items + [item])[i]) {
      assert items[i] in items;
    }
  }

  lemma {:induction false} NotLater(items: seq<Item>, n: nat, x: Item)
    requires Ordered(items) && n == |items| - 1 && x in items
    ensures !Before(items[n], x)
  {
    var i :| 0 <= i < |items| && items[i] == x;
  }

  lemma {:induction false} PlacedKeepsOrder(items: seq<Item>, item: Item)
    requires Ordered(items)
    ensures Ordered(Placed(items, item))
    decreases |items|
  {
    if items != [] {
      var n := |items| - 1;
      if Before(item, items[n]) {
        var front := Placed(items[..n], item);
        PlacedKeepsOrder(items[..n], item);
        PlacedContents(items[..n], item);
        forall x | x in front ensures !Before(items[n], x) { if x != item { NotLater(items, n, x); } }
        OrderedMore(front, items[n]);
      } else {
        forall x | x in items ensures !Before(item, x) {
          NotLater(items, n, x);
        }
        OrderedMore(items, item);
      }
    }
  }

  lemma {:induction false} SortedContents(items: seq<Item>)
    ensures Total(Sorted(items)) == Total(items) && forall x :: x in Sorted(items) <==> x in items
    decreases |items|
  {
    if items != [] {
      var n := |items| - 1;
      SortedContents(items[..n]);
      PlacedContents(Sorted(items[..n]), items[n]);
      assert items == items[..n] + [items[n]];
    }
  }

  lemma {:induction false} SortedOrder(items: seq<Item>)
    ensures Ordered(Sorted(items))
    decreases |items|
  {
    if items != [] {
      SortedOrder(items[..|items| - 1]);
      PlacedKeepsOrder(Sorted(items[..|items| - 1]), items[|items| - 1]);
    }
  }

  /** The sort puts high priority and old items first, and keeps exactly the items there are. */
  lemma {:induction false} SortedIsOrdered(items: seq<Item>)
    ensures Ordered(Sorted(items)) && Total(Sorted(items)) == Total(items)
    ensures forall x :: x in Sorted(items) <==> x in items
  {
    SortedOrder(items);
    SortedContents(items);
  }

  lemma {:induction false} TiedConcat(a: seq<Item>, b: seq<Item>, key: Item)
    ensures Tied(a + b, key) == Tied(a, key) + Tied(b, key)
    decreases |b|
  {
    if b == [] {
      assert a + b == a;
    } else {
      TiedConcat(a, b[..|b| - 1], key);
      assert (a + b)[..|a + b| - 1] == a + b[..|b| - 1];
    }
  }

  lemma {:induction false} OneTied(item: Item, key: Item)
    ensures Tied([item], key) == if SameKey(item, key) then [item] else []
  {
    assert [item][..0] == [];
  }

  lemma {:induction false} TiedTwo(items: seq<Item>, a: Item, b: Item, key: Item)
    ensures Tied(items + [a] + [b], key) == Tied(items, key) + Tied([a], key) + Tied([b], key)
  {
    TiedConcat(items + [a], [b], key);
    TiedConcat(items, [a], key);
  }

  /** Two items of different keys can change places. */
  lemma {:induction false} SwapUntied(items: seq<Item>, a: Item, b: Item, key: Item)
    requires !SameKey(a, b)
    ensures Tied(items + [a] + [b], key) == Tied(items + [b] + [a], key)
  {
    TiedTwo(items, a, b, key);
    TiedTwo(items, b, a, key);
    OneTied(a, key);
    OneTied(b, key);
  }

  lemma {:induction false} PlacedIsStable(items: seq<Item>, item: Item, key: Item)
    ensures Tied(Placed(items, item), key) == Tied(items + [item], key)
    decreases |items|
  {
    if items != [] && Before(item, items[|items| - 1]) {
      var front, last := items[..|items| - 1], items[|items| - 1];
      PlacedIsStable(front, item, key);
      TiedConcat(Placed(front, item), [last], key);
      TiedConcat(front + [item], [last], key);
      SwapUntied(front, item, last, key);
      assert items == front + [last];
    }
  }

  /** Equal keys keep their order. */
  lemma {:induction false} SortedIsStable(items: seq<Item>, key: Item)
    ensures Tied(Sorted(items), key) == Tied(items, key)
    decreases |items|
  {
    if items != [] {
      var n := |items| - 1;
      SortedIsStable(items[..n], key);
      PlacedIsStable(Sorted(items[..n]), items[n], key);
      TiedConcat(Sorted(items[..n]), [items[n]], key);
      TiedConcat(items[..n], [items[n]], key);
      assert items == items[..n] + [items[n]];
    }
  }

  lemma {:induction false} TiedMembers(items: seq<Item>, key: Item)
    ensures forall x :: x in Tied(items, key) <==> x in items && SameKey(x, key)
    decreases |items|
  {
    if items != [] {
      TiedMembers(items[..|items| - 1], key);
      assert items == items[..|items| - 1] + [items[|items| - 1]];
    }
  }

  lemma {:induction false} OrderedStartsWithTied(items: seq<Item>)
    requires Ordered(items) && items != []
    ensures Tied(items, items[0]) != [] && Tied(items, items[0])[0] == items[0]
    decreases |items|
  {
    if |items| > 1 {
      var n := |items| - 1;
      OrderedStartsWithTied(items[..n]);
    } else {
      assert items[..0] == [];
    }
  }

  lemma {:induction false} TiedTail(items: seq<Item>, key: Item)
    requires items != []
    ensures Tied(items, key) == (if SameKey(items[0], key) then [items[0]] else []) + Tied(items[1..], key)
  {
    TiedConcat([items[0]], items[1..], key);
    assert items == [items[0]] + items[1..];
    assert [items[0]][..0] == [];
  }

  /** An order and, for each key, the sequence of its items determine a sequence: there is only one
      stable sort. */
  lemma {:induction false} StableSortIsUnique(a: seq<Item>, b: seq<Item>)
    requires Ordered(a) && Ordered(b) && forall key :: Tied(a, key) == Tied(b, key)
    ensures a == b
    decreases |a|
  {
    if a == [] {
      if b != [] { OrderedStartsWithTied(b); }
    } else {
      OrderedStartsWithTied(a);
      TiedMembers(b, a[0]);
      assert a[0] in Tied(b, a[0]);
      OrderedStartsWithTied(b);
      TiedMembers(a, b[0]);
      assert b[0] in Tied(a, b[0]);
      assert SameKey(a[0], b[0]) by {
        var i :| 0 <= i < |b| && b[i] == a[0];
        var j :| 0 <= j < |a| && a[j] == b[0];
      }
      assert a[0] == b[0] by {
        TiedTail(b, a[0]);
      }
      forall key ensures Tied(a[1..], key) == Tied(b[1..], key) {
        TiedTail(a, key);
        TiedTail(b, key);
        assert Tied(a, key) == Tied(b, key);
        if SameKey(a[0], key) {
          assert Tied(a, key)[1..] == Tied(a[1..], key) && Tied(b, key)[1..] == Tied(b[1..], key);
        }
        else { assert Tied(a, key) == Tied(a[1..], key) && Tied(b, key) == Tied(b[1..], key); }
      }
      StableSortIsUnique(a[1..], b[1..]);
      assert a == [a[0]] + a[1..] && b == [b[0]] + b[1..];
    }
  }

  // ---------- pruning ----------

  lemma {:induction false} UnexpiredMembers(items: seq<Item>, maxAge: int, now: int)
    ensures forall x :: x in Unexpired(items, maxAge, now) <==> x in items && !Aged(x, maxAge, now)
    ensures |Unexpired(items, maxAge, now)| <= |items|
    decreases |items|
  {
    if items != [] {
      var front, last := items[..|items| - 1], items[|items| - 1];
      UnexpiredMembers(front, maxAge, now);
      UnexpiredLast(items, front, last, maxAge, now);
    }
  }

  lemma {:induction false} NoneExpired(items: seq<Item>, maxAge: int, now: int)
    requires forall x :: x in items ==> !Aged(x, maxAge, now)
    ensures Unexpired(items, maxAge, now) == items
    decreases |items|
  {
    if items != [] {
      var front, last := items[..|items| - 1], items[|items| - 1];
      NoneExpired(front, maxAge, now);
      UnexpiredLast(items, front, last, maxAge, now);
      assert items == front + [last];
    }
  }

  lemma {:induction false} UnexpiredKeeps(items: seq<Item>, maxAge: int, now: int)
    ensures forall x :: x in Unexpired(items, maxAge, now) <==> x in items && !Aged(x, maxAge, now)
    ensures |Unexpired(items, maxAge, now)| <= |items|
    ensures (forall x :: x in items ==> !Aged(x, maxAge, now)) ==> Unexpired(items, maxAge, now) == items
  {
    UnexpiredMembers(items, maxAge, now);
    if forall x :: x in items ==> !Aged(x, maxAge, now) { NoneExpired(items, maxAge, now); }
  }

  lemma {:induction false} UnexpiredLast(items: seq<Item>, front: seq<Item>, x: Item, maxAge: int, now: int)
    requires items != [] && front == items[..|items| - 1] && x == items[|items| - 1]
    ensures Unexpired(items, maxAge, now) == Unexpired(front, maxAge, now) + if Aged(x, maxAge, now) then [] else [x]
    ensures forall y :: y in items <==> y in front || y == x
  {
    assert items == front + [x];
  }

  lemma {:induction false} UnexpiredTied(items: seq<Item>, maxAge: int, now: int, key: Item)
    ensures Tied(Unexpired(items, maxAge, now), key) == if Aged(key, maxAge, now) then [] else Tied(items, key)
    decreases |items|
  {
    if items != [] {
      var n := |items| - 1;
      UnexpiredTied(items[..n], maxAge, now, key);
      var rest := Unexpired(items[..n], maxAge, now);
      if Aged(items[n], maxAge, now) { assert Unexpired(items, maxAge, now) == rest; }
      else { assert (rest + [items[n]])[..|rest|] == rest; }
    }
  }

  /** What pruning keeps of `items`: the longest prefix that fits of what has not aged out, in order. */
  predicate Pruned(kept: seq<Item>, items: seq<Item>, maxBytes: int, maxAge: int, now: int) {
    LongestFitting(kept, Sorted(Unexpired(items, maxAge, now)), maxBytes)
  }

  lemma {:induction false} OneLongest(a: seq<Item>, b: seq<Item>, items: seq<Item>, maxBytes: int)
    requires LongestFitting(a, items, maxBytes) && LongestFitting(b, items, maxBytes)
    ensures a == b
  {
    assert a == items[..|a|] && b == items[..|b|];
  }

  lemma {:induction false} PrefixComesFirst(kept: seq<Item>, sorted: seq<Item>, x: Item, y: Item)
    requires Ordered(sorted) && kept <= sorted && x in kept && y in sorted && y !in kept
    ensures !Before(y, x)
  {
    var j :| 0 <= j < |kept| && kept[j] == x;
    var i :| 0 <= i < |sorted| && sorted[i] == y;
    assert forall k :: 0 <= k < |kept| ==> kept[k] == sorted[k] && kept[k] != y;
  }

  lemma {:induction false} PrefixOfLive(kept: seq<Item>, items: seq<Item>, maxAge: int, now: int)
    requires kept <= Sorted(Unexpired(items, maxAge, now))
    ensures Ordered(kept)
    ensures forall x :: x in kept ==> x in items && !Aged(x, maxAge, now)
    ensures forall x, y :: x in kept && y in items && y !in kept && !Aged(y, maxAge, now) ==> !Before(y, x)
  {
    var live := Unexpired(items, maxAge, now);
    UnexpiredKeeps(items, maxAge, now);
    SortedIsOrdered(live);
    assert kept == Sorted(live)[..|kept|];
    forall x | x in kept ensures x in items && !Aged(x, maxAge, now) { assert x in Sorted(live); }
    forall x, y | x in kept && y in items && y !in kept && !Aged(y, maxAge, now) ensures !Before(y, x) {
      PrefixComesFirst(kept, Sorted(live), x, y);
    }
  }

  /** Pruning never gives up an item for one that it ranks lower: what it dropped is too old, and then
      not of high priority, or comes no earlier in the queue's order than anything it kept. */
  lemma {:induction false} PruningKeepsTheBest(kept: seq<Item>, items: seq<Item>, maxBytes: int, maxAge: int, now: int)
    requires Pruned(kept, items, maxBytes, maxAge, now)
    ensures Ordered(kept)
    ensures forall x :: x in kept ==> x in items && !Aged(x, maxAge, now)
    ensures forall x, y :: x in kept && y in items && y !in kept ==>
            (Aged(y, maxAge, now) && y.priority != High) || !Before(y, x)
  {
    PrefixOfLive(kept, items, maxAge, now);
  }

  /** Items of the same priority and time keep their order, and are dropped from the end. */
  lemma {:induction false} PruningIsStable(kept: seq<Item>, items: seq<Item>, maxBytes: int, maxAge: int, now: int,
                                           key: Item)
    requires Pruned(kept, items, maxBytes, maxAge, now)
    ensures Tied(kept, key) <= Tied(items, key)
  {
    var live := Unexpired(items, maxAge, now);
    SortedIsStable(live, key);
    UnexpiredTied(items, maxAge, now, key);
    TiedConcat(kept, Sorted(live)[|kept|..], key);
    assert Sorted(live) == kept + Sorted(live)[|kept|..];
  }

  /** Of two items of the same priority, an older one is never dropped for space while a newer one is kept. */
  lemma {:induction false} NewestGoesFirst(kept: seq<Item>, items: seq<Item>, maxBytes: int, maxAge: int, now: int,
                                           x: Item, y: Item)
    requires Pruned(kept, items, maxBytes, maxAge, now)
    requires x in items && !Aged(x, maxAge, now) && y in kept
    requires x.priority == y.priority && x.createdAt < y.createdAt
    ensures x in kept
  {
    PruningKeepsTheBest(kept, items, maxBytes, maxAge, now);
    assert Before(x, y);
  }

  // ---------- putting back what could not be sent ----------

  predicate WellFormed(item: Item) {
    item.id != "" && item.createdAt != 0 && item.approxBytes == |item.payload| + OVERHEAD
  }

  predicate AllWellFormed(items: seq<Item>) {
    forall i :: 0 <= i < |items| ==> WellFormed(items[i])
  }

  /** A queue file as every operation leaves it. */
  predicate Settled(items: seq<Item>, maxBytes: int) {
    Ordered(items) && Fits(items, maxBytes) && AllWellFormed(items)
  }

  /** What `Enqueue` puts in the queue. */
  function Stamped(item: Item, now: int): Item {
    item.(createdAt := if item.createdAt == 0 then now else item.createdAt, approxBytes := |item.payload| + OVERHEAD)
  }

  lemma {:induction false} PrunedStaysWellFormed(kept: seq<Item>, items: seq<Item>, maxBytes: int, maxAge: int,
                                                 now: int)
    requires AllWellFormed(items) && Pruned(kept, items, maxBytes, maxAge, now)
    ensures Settled(kept, maxBytes)
  {
    PrefixOfLive(kept, items, maxAge, now);
    forall i | 0 <= i < |kept| ensures WellFormed(kept[i]) {
      assert kept[i] in items;
    }
  }

  lemma {:induction false} TotalConcat(a: seq<Item>, b: seq<Item>)
    ensures Total(a + b) == Total(a) + Total(b)
    decreases |b|
  {
    if b == [] {
      assert a + b == a;
    } else {
      TotalConcat(a, b[..|b| - 1]);
      assert (a + b)[..|a + b| - 1] == a + b[..|b| - 1];
    }
  }

  lemma {:induction false} SortedAlready(items: seq<Item>)
    requires Ordered(items)
    ensures Sorted(items) == items
    decreases |items|
  {
    if items != [] {
      var n := |items| - 1;
      SortedAlready(items[..n]);
      assert items == items[..n] + [items[n]];
      assert n > 0 ==> items[..n][n - 1] == items[n - 1];
    }
  }

  lemma {:induction false} SortedThenOne(items: seq<Item>, x: Item)
    ensures Sorted(Sorted(items) + [x]) == Sorted(items + [x])
  {
    SortedIsOrdered(items);
    SortedAlready(Sorted(items));
    assert (Sorted(items) + [x])[..|items|] == Sorted(items) && (items + [x])[..|items|] == items;
  }

  /** What a failed flush leaves: the items from `i` to `n` put back behind the others one by one. */
  function Requeued(items: seq<Item>, i: nat, n: nat): seq<Item>
    requires i <= n <= |items|
  {
    Sorted(items[n..] + items[i..n])
  }

  lemma {:induction false} PlacedBetween(a: seq<Item>, b: seq<Item>, x: Item)
    requires forall y :: y in b ==> Before(x, y)
    requires a != [] ==> !Before(x, a[|a| - 1])
    ensures Placed(a + b, x) == a + [x] + b
    decreases |b|
  {
    if b == [] {
      assert a + b == a;
    } else {
      var n := |b| - 1;
      PlacedBetween(a, b[..n], x);
      assert (a + b)[..|a + b| - 1] == a + b[..n] && b == b[..n] + [b[n]];
    }
  }

  lemma {:induction false} StrictlyBehind(front: seq<Item>, back: seq<Item>)
    requires Ordered(front) && Ordered(back) && forall x, y :: x in front && y in back ==> Before(x, y)
    ensures Sorted(back + front) == front + back
    decreases |front|
  {
    if front == [] {
      assert back + front == back && front + back == back;
      SortedAlready(back);
    } else {
      var n := |front| - 1;
      StrictlyBehind(front[..n], back);
      assert (back + front)[..|back + front| - 1] == back + front[..n];
      assert n > 0 ==> front[..n][n - 1] == front[n - 1] && !Before(front[n], front[n - 1]);
      PlacedBetween(front[..n], back, front[n]);
      assert front == front[..n] + [front[n]];
    }
  }

  lemma {:induction false} TieSwaps(front: seq<Item>, back: seq<Item>)
    requires Ordered(back) && front != [] && back != [] && SameKey(front[|front| - 1], back[0]) && back[0] !in front
    ensures Sorted(back + front) != front + back
  {
    var key := back[0];
    SortedIsStable(back + front, key);
    TiedConcat(back, front, key);
    TiedConcat(front, back, key);
    TiedMembers(front, key);
    assert front[|front| - 1] in Tied(front, key);
    OrderedStartsWithTied(back);
    assert (Tied(back, key) + Tied(front, key))[0] == back[0];
    assert (Tied(front, key) + Tied(back, key))[0] in Tied(front, key);
  }

  lemma {:induction false} AllStrictlyBehind(items: seq<Item>, i: nat, n: nat, x: Item, y: Item)
    requires Ordered(items) && i <= n <= |items| && x in items[i..n] && y in items[n..]
    requires Before(items[n - 1], items[n])
    ensures Before(x, y)
  {
    var j :| i <= j < n && items[j] == x;
    var k :| n <= k < |items| && items[k] == y;
    assert j < n - 1 ==> !Before(items[n - 1], items[j]);
    assert n < k ==> !Before(items[k], items[n]);
  }

  lemma {:induction false} OrderedSlices(items: seq<Item>, i: nat, n: nat)
    requires Ordered(items) && i <= n <= |items|
    ensures Ordered(items[i..n]) && Ordered(items[n..]) && items[i..n] + items[n..] == items[i..]
  {}

  /** A failed flush leaves exactly the queue that was there, from the first unsent item on, if and only
      if the last item that was taken comes strictly before the first one that was left in the queue. */
  lemma {:induction false} FailedFlushRestores(items: seq<Item>, i: nat, n: nat)
    requires Ordered(items) && i <= n <= |items|
    requires forall j, k :: 0 <= j < k < |items| ==> items[j] != items[k]
    ensures Requeued(items, i, n) == items[i..] <==> (i == n || n == |items| || Before(items[n - 1], items[n]))
  {
    var front, back := items[i..n], items[n..];
    OrderedSlices(items, i, n);
    if i == n || n == |items| {
      StrictlyBehind(front, back);
    } else if Before(items[n - 1], items[n]) {
      forall x, y | x in front && y in back ensures Before(x, y) { AllStrictlyBehind(items, i, n, x, y); }
      StrictlyBehind(front, back);
    } else {
      assert front[|front| - 1] == items[n - 1] && back[0] == items[n];
      TieSwaps(front, back);
    }
  }

  lemma {:induction false} TotalOfOne(x: Item)
    ensures Total([x]) == x.approxBytes
  {
    assert [x][..0] == [];
  }

  // ---------- putting back while items age and the disk fails ----------

  /** One more item put back at time `put`, if the disk took it: only what has aged out by then is dropped. */
  function AfterPut(queue: seq<Item>, x: Item, put: Option<int>, maxAge: int): seq<Item> {
    if put == None then queue else Sorted(Unexpired(queue + [x], maxAge, put.value))
  }

  function AfterPuts(rest: seq<Item>, items: seq<Item>, puts: seq<Option<int>>, maxAge: int): seq<Item>
    requires |puts| == |items|
    decreases |items|
  {
    if items == [] then rest
    else
      var n := |items| - 1;
      AfterPut(AfterPuts(rest, items[..n], puts[..n], maxAge), items[n], puts[n], maxAge)
  }

  lemma {:induction false} UnexpiredTotal(items: seq<Item>, maxAge: int, now: int)
    ensures Total(Unexpired(items, maxAge, now)) <= Total(items)
    decreases |items|
  {
    if items != [] {
      var front, last := items[..|items| - 1], items[|items| - 1];
      UnexpiredTotal(front, maxAge, now);
      TotalConcat(Unexpired(front, maxAge, now), if Aged(last, maxAge, now) then [] else [last]);
      TotalOfOne(last);
    }
  }

  lemma {:induction false} SmallerFits(a: seq<Item>, b: seq<Item>, maxBytes: int)
    requires Fits(b, maxBytes) && Total(a) <= Total(b)
    requires b == [] || LoneHigh(b) ==> a == [] || a == b
    ensures Fits(a, maxBytes)
  {}

  lemma {:induction false} LoneStays(x: Item, maxAge: int, now: int)
    requires x.priority == High
    ensures Sorted(Unexpired([x], maxAge, now)) == [x]
  {
    NoneExpired([x], maxAge, now);
    SortedAlready([x]);
  }

  lemma {:induction false} Lone(queue: seq<Item>, x: Item, more: seq<Item>)
    requires |queue + ([x] + more)| == 1
    ensures queue == [] && more == [] && queue + [x] == [x] && queue + more == [] && [x] + more == [x]
  {}

  /** What was taken out of a queue has room in it again, whatever has aged out meanwhile. */
  lemma {:induction false} RoomFor(queue: seq<Item>, x: Item, more: seq<Item>, maxBytes: int, maxAge: int, now: int)
    requires Fits(queue + ([x] + more), maxBytes)
    ensures Fits(queue + more, maxBytes)
    ensures Fits(Sorted(Unexpired(queue + [x], maxAge, now)), maxBytes)
    ensures Fits(Sorted(Unexpired(queue + [x], maxAge, now)) + more, maxBytes)
  {
    if LoneHigh(queue + ([x] + more)) {
      Lone(queue, x, more);
      LoneStays(x, maxAge, now);
    } else {
      RoomInBytes(queue, x, more, Unexpired(queue + [x], maxAge, now));
      UnexpiredTotal(queue + [x], maxAge, now);
    }
  }

  lemma {:induction false} RoomInBytes(queue: seq<Item>, x: Item, more: seq<Item>, live: seq<Item>)
    ensures Total(queue + ([x] + more)) == Total(queue + [x]) + Total(more) >= Total(queue + more)
    ensures Total(Sorted(live)) == Total(live) && Total(Sorted(live) + more) == Total(live) + Total(more)
  {
    TotalConcat(queue, [x] + more);
    TotalConcat([x], more);
    TotalConcat(queue, more);
    TotalConcat(queue, [x]);
    SortedContents(live);
    TotalConcat(Sorted(live), more);
  }

  predicate NeverAges(x: Item, puts: seq<Option<int>>, maxAge: int) {
    forall k :: 0 <= k < |puts| && puts[k].Some? ==> !Aged(x, maxAge, puts[k].value)
  }

  lemma {:induction false} AfterPutHolds(queue: seq<Item>, x: Item, put: Option<int>, maxAge: int)
    ensures forall y :: y in AfterPut(queue, x, put, maxAge) <==>
                          if put == None then y in queue else (y in queue || y == x) && !Aged(y, maxAge, put.value)
  {
    if put.Some? {
      SortedContents(Unexpired(queue + [x], maxAge, put.value));
      UnexpiredMembers(queue + [x], maxAge, put.value);
    }
  }

  /** The item was put back, and did not age out after that. */
  predicate BackAt(items: seq<Item>, puts: seq<Option<int>>, k: nat, maxAge: int, y: Item)
    requires |puts| == |items|
  {
    k < |items| && items[k] == y && puts[k].Some? && NeverAges(y, puts[k..], maxAge)
  }

  ghost predicate Back(items: seq<Item>, puts: seq<Option<int>>, maxAge: int, y: Item)
    requires |puts| == |items|
  {
    exists k: nat :: BackAt(items, puts, k, maxAge, y)
  }

  lemma {:induction false} OneMoreBackAt(items: seq<Item>, puts: seq<Option<int>>, k: nat, maxAge: int, y: Item)
    requires |puts| == |items| > 0 && k < |items|
    ensures var n := |items| - 1;
            BackAt(items, puts, k, maxAge, y) <==>
              && (puts[n].Some? ==> !Aged(y, maxAge, puts[n].value))
              && if k < n then BackAt(items[..n], puts[..n], k, maxAge, y) else items[n] == y && puts[n].Some?
  {
    var n := |items| - 1;
    OneMorePut(y, puts, k, n, maxAge);
    assert k < n ==> items[..n][k] == items[k] && puts[..n][k] == puts[k];
    assert puts[..n][n..] == [];
  }

  lemma {:induction false} OneMoreBack(items: seq<Item>, puts: seq<Option<int>>, maxAge: int, y: Item)
    requires |puts| == |items| > 0
    ensures var n := |items| - 1;
            Back(items, puts, maxAge, y) <==>
              && (puts[n].Some? ==> !Aged(y, maxAge, puts[n].value))
              && (Back(items[..n], puts[..n], maxAge, y) || (items[n] == y && puts[n].Some?))
  {
    var n := |items| - 1;
    OneMoreBackAt(items, puts, n, maxAge, y);
    if k: nat :| BackAt(items, puts, k, maxAge, y) {
      OneMoreBackAt(items, puts, k, maxAge, y);
      assert k < n ==> BackAt(items[..n], puts[..n], k, maxAge, y);
    }
    if k: nat :| BackAt(items[..n], puts[..n], k, maxAge, y) {
      OneMoreBackAt(items, puts, k, maxAge, y);
      assert (puts[n].Some? && Aged(y, maxAge, puts[n].value)) || BackAt(items, puts, k, maxAge, y);
    }
  }

  /** Exactly what a failed flush can lose: an item is back, or still there, if and only if the disk took it and
      it did not age out afterwards. None is dropped to make room, and nothing else appears. */
  lemma {:induction false} FlushLosesOnlyToAgeAndDisk(rest: seq<Item>, items: seq<Item>, puts: seq<Option<int>>,
                                                      maxAge: int, y: Item)
    requires |puts| == |items|
    ensures y in AfterPuts(rest, items, puts, maxAge) <==>
              (y in rest && NeverAges(y, puts, maxAge)) || Back(items, puts, maxAge, y)
    decreases |items|
  {
    if items != [] {
      var n := |items| - 1;
      FlushLosesOnlyToAgeAndDisk(rest, items[..n], puts[..n], maxAge, y);
      AfterPutHolds(AfterPuts(rest, items[..n], puts[..n], maxAge), items[n], puts[n], maxAge);
      OneMoreBack(items, puts, maxAge, y);
      OneMorePut(y, puts, 0, n, maxAge);
      assert puts[0..] == puts && puts[..n][0..] == puts[..n];
    }
  }

  lemma {:induction false} OneMorePut(y: Item, puts: seq<Option<int>>, k: nat, n: nat, maxAge: int)
    requires k <= n == |puts| - 1
    ensures NeverAges(y, puts[k..], maxAge) <==>
              NeverAges(y, puts[..n][k..], maxAge) && (puts[n].Some? ==> !Aged(y, maxAge, puts[n].value))
  {
    var some, fewer := puts[k..], puts[..n][k..];
    assert some == fewer + [puts[n]];
    assert some[n - k] == puts[n];
    assert forall j :: 0 <= j < n - k ==> some[j] == fewer[j];
  }

  /** When the disk works and nothing ages out meanwhile, all that was not sent is back in the queue. */
  lemma {:induction false} AllPutBack(items: seq<Item>, i: nat, n: nat, puts: seq<Option<int>>, maxAge: int)
    requires Ordered(items) && i <= n <= |items| && |puts| == n - i && None !in puts
    requires forall x :: x in items ==> NeverAges(x, puts, maxAge)
    ensures AfterPuts(items[n..], items[i..n], puts, maxAge) == Requeued(items, i, n)
  {
    SortedAlready(items[n..]);
    PutBackInOrder(items[n..], items[i..n], puts, maxAge);
  }

  lemma {:induction false} PutBackInOrder(rest: seq<Item>, items: seq<Item>, puts: seq<Option<int>>, maxAge: int)
    requires Ordered(rest) && |puts| == |items| && None !in puts
    requires forall x :: x in rest + items ==> NeverAges(x, puts, maxAge)
    ensures AfterPuts(rest, items, puts, maxAge) == Sorted(rest + items)
    decreases |items|
  {
    if items == [] {
      SortedAlready(rest);
      assert rest + items == rest;
    } else {
      var n := |items| - 1;
      var front, fewer, x := items[..n], puts[..n], items[n];
      assert rest + items == (rest + front) + [x];
      assert puts[n] in puts;
      forall y | y in rest + front ensures NeverAges(y, fewer, maxAge) { assert y in rest + items; }
      PutBackInOrder(rest, front, fewer, maxAge);
      SortedContents(rest + front);
      forall y | y in Sorted(rest + front) + [x] ensures !Aged(y, maxAge, puts[n].value) { assert y in rest + items; }
      NoneExpired(Sorted(rest + front) + [x], maxAge, puts[n].value);
      SortedThenOne(rest + front, x);
    }
  }

  // ---------- the queue ----------

  datatype Flushed = NotTaken | AllSent | Stopped

  datatype Io = Fine | CannotRead | CannotWrite

  class Queue {
    const maxBytes: int
    const maxAge: int
    var file: seq<Item>
    var dropped: nat

    constructor (maxBytes: int, maxAge: int)
      ensures this.maxBytes == maxBytes && this.maxAge == maxAge && file == [] && dropped == 0 && Valid()
    {
      this.maxBytes, this.maxAge, file, dropped := maxBytes, maxAge, [], 0;
    }

    predicate Valid()
      reads this
    {
      Settled(file, maxBytes)
    }

    /** In place: what has aged out is closed up over, the rest sorted, and cut from the end. */
    method Prune(items: array<Item>, now: int) returns (n: nat)
      modifies `dropped, items
      ensures n <= items.Length && Pruned(items[..n], old(items[..]), maxBytes, maxAge, now)
      ensures dropped == old(dropped) + items.Length - n
    {
      var kept := Filter(items, now);
      Sort(items, kept);
      n := Cut(items, kept);
    }

    method Filter(items: array<Item>, now: int) returns (kept: nat)
      modifies `dropped, items
      ensures kept <= items.Length && items[..kept] == Unexpired(old(items[..]), maxAge, now)
      ensures dropped == old(dropped) + items.Length - kept
    {
      ghost var all := items[..];
      kept := 0;
      for i := 0 to items.Length
        invariant kept <= i
        invariant items[..kept] == Unexpired(all[..i], maxAge, now)
        invariant forall k :: i <= k < items.Length ==> items[k] == all[k]
        invariant dropped == old(dropped) + i - kept
      {
        assert all[..i + 1][..i] == all[..i];
        if Aged(items[i], maxAge, now) {
          dropped := dropped + 1;
        } else {
          items[kept] := items[i];
          kept := kept + 1;
        }
      }
      assert all[..items.Length] == all;
    }

    /** `sort.SliceStable`. */
    method Sort(items: array<Item>, n: nat)
      requires n <= items.Length
      modifies items
      ensures items[..n] == Sorted(old(items[..n]))
    {
      var sorted := Sorted(items[..n]);
      forall i | 0 <= i < n { items[i] := sorted[i]; }
    }

    method Cut(items: array<Item>, kept: nat) returns (n: nat)
      requires kept <= items.Length
      modifies `dropped
      ensures n <= kept && LongestFitting(items[..n], items[..kept], maxBytes)
      ensures dropped == old(dropped) + kept - n
    {
      var total := 0;
      for i := 0 to kept
        invariant total == Total(items[..i])
      {
        assert items[..i + 1][..i] == items[..i];
        total := total + items[i].approxBytes;
      }
      n := kept;
      while total > maxBytes && n > 0
        invariant n <= kept && total == Total(items[..n])
        invariant dropped == old(dropped) + kept - n
        invariant forall k :: n < k <= kept ==> !Fits(items[..kept][..k], maxBytes)
      {
        if n == 1 && items[0].priority == High { break; }
        assert items[..kept][..n] == items[..n] && items[..n][..n - 1] == items[..n - 1];
        n := n - 1;
        total := total - items[n].approxBytes;
        dropped := dropped + 1;
      }
    }

    /** Returns whether the item was taken; a queue that cannot be written keeps its old file. */
    method Enqueue(item: Item, now: int, io: Io) returns (ok: bool)
      requires Valid() && now != 0
      modifies this
      ensures Valid() && ok == (item.id != "" && io == Fine)
      ensures ok ==>
                && Pruned(file, old(file) + [Stamped(item, now)], maxBytes, maxAge, now)
                && dropped == old(dropped) + |old(file)| + 1 - |file|
      ensures dropped >= old(dropped) && (!ok ==> file == old(file))
    {
      if item.id == "" { return false; }
      var stamped := item;
      if stamped.createdAt == 0 { stamped := stamped.(createdAt := now); }
      stamped := stamped.(approxBytes := |stamped.payload| + OVERHEAD);
      assert stamped == Stamped(item, now);
      if io == CannotRead { return false; }
      var all := file + [stamped];
      var kept := Pack(all, now);
      if io == CannotWrite { return false; }
      file := kept;
      return true;
    }

    method Pack(all: seq<Item>, now: int) returns (kept: seq<Item>)
      requires AllWellFormed(all)
      modifies `dropped
      ensures Pruned(kept, all, maxBytes, maxAge, now) && Settled(kept, maxBytes)
      ensures |kept| <= |all| && dropped == old(dropped) + |all| - |kept|
    {
      var items := new Item[|all|](i requires 0 <= i < |all| => all[i]);
      assert items[..] == all;
      var n := Prune(items, now);
      kept := items[..n];
      PrunedStaysWellFormed(kept, all, maxBytes, maxAge, now);
    }

    /** Take up to `limit` items from the front; a limit of zero or less takes all. */
    method Dequeue(limit: int, io: Io) returns (out: seq<Item>, ok: bool)
      requires Valid()
      modifies `file
      ensures Valid() && ok == (io == Fine)
      ensures ok ==>
                && out + file == old(file)
                && |out| == if limit <= 0 || limit > |old(file)| then |old(file)| else limit
      ensures !ok ==> file == old(file)
    {
      if io == CannotRead { return [], false; }
      var limit := if limit <= 0 || limit > |file| then |file| else limit;
      out := file[..limit];
      if io == CannotWrite { return out, false; }
      SuffixSettled(file, limit);
      file := file[limit..];
      return out, true;
    }

    lemma {:induction false} SuffixSettled(items: seq<Item>, n: nat)
      requires Settled(items, maxBytes) && n <= |items|
      ensures Settled(items[n..], maxBytes)
    {
      TotalConcat(items[..n], items[n..]);
      assert items == items[..n] + items[n..];
    }

    /** Send the first items; when one cannot be sent, put it and the ones after it back. `puts` says when each
        was put back, or that the disk refused it. */
    method Flush() returns (sent: nat, outcome: Flushed, ghost puts: seq<Option<int>>)
      requires Valid()
      modifies this
      ensures Valid() && dropped >= old(dropped)
      ensures outcome == NotTaken ==> file == old(file) && dropped == old(dropped)
      ensures var n := if |old(file)| < 16 then |old(file)| else 16;
              && (outcome == AllSent ==> sent == n && file == old(file)[n..] && dropped == old(dropped))
              && (outcome == Stopped ==>
                    && sent < n && |puts| == n - sent
                    && file == AfterPuts(old(file)[n..], old(file)[sent..n], puts, maxAge)
                    && (None !in puts ==> dropped == old(dropped) + |old(file)| - sent - |file|))
    {
      ghost var before := file;
      var io: Io := *;
      var items, taken := Dequeue(FLUSH_LIMIT, io);
      sent, puts := 0, [];
      if !taken { return 0, NotTaken, []; }
      while sent < |items|
        invariant sent <= |items| && items + file == before && dropped == old(dropped) && Valid()
      {
        var delivered: bool := *;
        if !delivered {
          assert before[|items|..] == file;
          TakenFits(items, file, sent);
          puts := PutBack(items[sent..]);
          assert before[sent..|items|] == items[sent..];
          return sent, Stopped, puts;
        }
        sent := sent + 1;
      }
      return sent, AllSent, [];
    }

    lemma {:induction false} TakenFits(taken: seq<Item>, rest: seq<Item>, i: nat)
      requires Settled(taken + rest, maxBytes) && i <= |taken|
      ensures Fits(rest + taken[i..], maxBytes) && AllWellFormed(taken[i..])
    {
      var some := taken[i..];
      forall k | 0 <= k < |some| ensures WellFormed(some[k]) { assert (taken + rest)[i + k] == some[k]; }
      RestWeighs(taken[..i], some, rest);
      assert taken == taken[..i] + some;
      if |taken + rest| <= 1 { OneTaken(taken[..i], some, rest); }
      SmallerFits(rest + some, taken + rest, maxBytes);
    }

    lemma {:induction false} RestWeighs(sent: seq<Item>, some: seq<Item>, rest: seq<Item>)
      ensures Total(rest + some) <= Total((sent + some) + rest)
    {
      TotalConcat(sent + some, rest);
      TotalConcat(sent, some);
      TotalConcat(rest, some);
    }

    lemma {:induction false} OneTaken(sent: seq<Item>, some: seq<Item>, rest: seq<Item>)
      requires |(sent + some) + rest| <= 1
      ensures rest + some == [] || rest + some == (sent + some) + rest
    {}

    /** One by one, each at its own time and whether or not the disk takes it. */
    method PutBack(items: seq<Item>) returns (ghost puts: seq<Option<int>>)
      requires Valid() && AllWellFormed(items) && Fits(file + items, maxBytes)
      modifies this
      ensures Valid() && dropped >= old(dropped)
      ensures |puts| == |items| && file == AfterPuts(old(file), items, puts, maxAge)
      ensures None !in puts ==> dropped == old(dropped) + |old(file)| + |items| - |file|
    {
      puts := [];
      ghost var rest := file;
      assert items[0..] == items;
      for k := 0 to |items|
        invariant Valid() && dropped >= old(dropped)
        invariant |puts| == k && file == AfterPuts(rest, items[..k], puts, maxAge)
        invariant Fits(file + items[k..], maxBytes)
        invariant None !in puts ==> dropped == old(dropped) + |rest| + k - |file|
      {
        TailFrom(items, k);
        ghost var put := PutBackOne(items[k], items[k + 1..]);
        AfterOneMore(rest, items, puts, put, k);
        puts := puts + [put];
      }
      assert items[..|items|] == items;
    }

    lemma {:induction false} TailFrom(items: seq<Item>, k: nat)
      requires k < |items|
      ensures items[k..] == [items[k]] + items[k + 1..]
    {}

    lemma {:induction false} AfterOneMore(rest: seq<Item>, items: seq<Item>, puts: seq<Option<int>>,
                                          put: Option<int>, k: nat)
      requires k < |items| && |puts| == k
      ensures AfterPuts(rest, items[..k + 1], puts + [put], maxAge)
              == AfterPut(AfterPuts(rest, items[..k], puts, maxAge), items[k], put, maxAge)
    {
      assert items[..k + 1][..k] == items[..k] && (puts + [put])[..k] == puts;
    }

    method PutBackOne(x: Item, ghost more: seq<Item>) returns (ghost put: Option<int>)
      requires Valid() && WellFormed(x) && Fits(file + ([x] + more), maxBytes)
      modifies this
      ensures Valid() && dropped >= old(dropped) && Fits(file + more, maxBytes)
      ensures file == AfterPut(old(file), x, put, maxAge)
      ensures put.Some? ==> dropped == old(dropped) + |old(file)| + 1 - |file|
    {
      ghost var queue := file;
      var now, io := Now();
      var ok := Enqueue(x, now, io);
      put := if ok then Some(now) else None;
      RoomFor(queue, x, more, maxBytes, maxAge, now);
      if ok { AllKept(file, queue, x, now); }
    }

    /** The clock, which never shows the zero time, and what the disk does. */
    method Now() returns (now: int, io: Io)
      ensures now != 0
    {
      now, io := *, *;
      if now == 0 { now := 1; }
    }

    lemma {:induction false} AllKept(kept: seq<Item>, queue: seq<Item>, x: Item, now: int)
      requires Pruned(kept, queue + [x], maxBytes, maxAge, now)
      requires Fits(Sorted(Unexpired(queue + [x], maxAge, now)), maxBytes)
      ensures kept == AfterPut(queue, x, Some(now), maxAge)
    {
      var all := Sorted(Unexpired(queue + [x], maxAge, now));
      assert all[..|all|] == all;
      assert |kept| == |all|;
    }
  }
}

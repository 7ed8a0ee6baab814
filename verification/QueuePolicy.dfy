/** What the written policy of the queue says about space, and exactly when the queue does it. */
module QueuePolicy {
  import opened OfflineQueue

  /** The policy: the low-priority items dropped for space are no newer than those that are kept. */
  predicate DropsOldestLow(kept: seq<Item>, dropped: seq<Item>) {
    forall x, y :: x in kept && y in dropped && x.priority == Low && y.priority == Low ==> y.createdAt <= x.createdAt
  }

  /** The items that go before all low-priority ones. */
  function AboveLow(items: seq<Item>): seq<Item>
    decreases |items|
  {
    if items == [] then []
    else
      var n := |items| - 1;
      AboveLow(items[..n]) + (if items[n].priority == Low then [] else [items[n]])
  }

  /** The low-priority items have different ages, the first of them fits, and not all of them do. */
  predicate CutsThroughLow(live: seq<Item>, maxBytes: int) {
    var sorted, above := Sorted(live), AboveLow(live);
    && |above| < |sorted|
    && Total(above) + sorted[|above|].approxBytes <= maxBytes < Total(live)
    && exists x, y :: x in live && y in live && x.priority == Low && y.priority == Low && x.createdAt != y.createdAt
  }

  lemma {:induction false} AboveLowConcat(a: seq<Item>, b: seq<Item>)
    ensures AboveLow(a + b) == AboveLow(a) + AboveLow(b)
    decreases |b|
  {
    if b == [] {
      assert a + b == a;
    } else {
      var n := |b| - 1;
      AboveLowConcat(a, b[..n]);
      assert (a + b)[..|a + b| - 1] == a + b[..n];
    }
  }

  lemma {:induction false} OneAbove(x: Item)
    ensures AboveLow([x]) == if x.priority == Low then [] else [x]
  {
    assert [x][..0] == [];
  }

  lemma {:induction false} AboveLowPlaced(items: seq<Item>, x: Item)
    ensures |AboveLow(Placed(items, x))| == |AboveLow(items)| + |AboveLow([x])|
    ensures Total(AboveLow(Placed(items, x))) == Total(AboveLow(items)) + Total(AboveLow([x]))
    decreases |items|
  {
    if items == [] {
      OneAbove(x);
    } else {
      var n := |items| - 1;
      var front, last := items[..n], [items[n]];
      assert items == front + last;
      if Before(x, items[n]) {
        AboveLowPlaced(front, x);
        AboveLowConcat(front, last);
        AboveLowConcat(Placed(front, x), last);
        TotalConcat(AboveLow(front), AboveLow(last));
        TotalConcat(AboveLow(Placed(front, x)), AboveLow(last));
      } else {
        AboveLowConcat(items, [x]);
        TotalConcat(AboveLow(items), AboveLow([x]));
      }
    }
  }

  lemma {:induction false} AboveLowLast(items: seq<Item>, front: seq<Item>, x: Item)
    requires items != [] && front == items[..|items| - 1] && x == items[|items| - 1]
    ensures |AboveLow(items)| == |AboveLow(front)| + |AboveLow([x])|
    ensures Total(AboveLow(items)) == Total(AboveLow(front)) + Total(AboveLow([x]))
  {
    OneAbove(x);
    TotalConcat(AboveLow(front), AboveLow([x]));
    assert AboveLow(items) == AboveLow(front) + AboveLow([x]);
  }

  lemma {:induction false} AboveLowSorted(items: seq<Item>)
    ensures |AboveLow(Sorted(items))| == |AboveLow(items)| && Total(AboveLow(Sorted(items))) == Total(AboveLow(items))
    decreases |items|
  {
    if items != [] {
      var front, x := items[..|items| - 1], items[|items| - 1];
      AboveLowSorted(front);
      AboveLowPlaced(Sorted(front), x);
      AboveLowLast(items, front, x);
      SortedLast(items, front, x);
    }
  }

  lemma {:induction false} SortedLast(items: seq<Item>, front: seq<Item>, x: Item)
    requires items != [] && front == items[..|items| - 1] && x == items[|items| - 1]
    ensures Sorted(items) == Placed(Sorted(front), x)
  {}

  /** In a sorted queue they are the front, and only low-priority items follow. */
  lemma {:induction false} AboveLowIsFront(items: seq<Item>)
    requires Ordered(items)
    ensures AboveLow(items) <= items
    ensures forall i :: 0 <= i < |items| ==> (items[i].priority == Low <==> i >= |AboveLow(items)|)
    decreases |items|
  {
    if items != [] {
      var n := |items| - 1;
      AboveLowIsFront(items[..n]);
      assert items == items[..n] + [items[n]];
      if items[n].priority != Low {
        forall i | 0 <= i < n ensures items[i].priority != Low { assert !Before(items[n], items[i]); }
      }
    }
  }

  lemma {:induction false} LongerIsHeavier(items: seq<Item>, j: nat, k: nat)
    requires j <= k <= |items|
    ensures Total(items[..j]) <= Total(items[..k])
  {
    TotalConcat(items[..j], items[j..k]);
    assert items[..k] == items[..j] + items[j..k];
  }

  /** How far the cut goes, in bytes: a front that ends in a low-priority item is kept exactly when it fits. */
  lemma {:induction false} KeptExactlyWhenFits(kept: seq<Item>, sorted: seq<Item>, maxBytes: int, k: nat)
    requires LongestFitting(kept, sorted, maxBytes) && 0 < k <= |sorted| && sorted[k - 1].priority == Low
    ensures k <= |kept| <==> Total(sorted[..k]) <= maxBytes
  {
    if k <= |kept| {
      assert kept[k - 1] == sorted[k - 1] && kept == sorted[..|kept|];
      LongerIsHeavier(sorted, k, |kept|);
    }
  }

  lemma {:induction false} LowestAges(sorted: seq<Item>, u: nat, x: Item)
    requires Ordered(sorted) && x in sorted && x.priority == Low
    requires forall i :: 0 <= i < |sorted| ==> (sorted[i].priority == Low <==> i >= u)
    ensures u < |sorted| && sorted[u].createdAt <= x.createdAt <= sorted[|sorted| - 1].createdAt
  {
    var i :| 0 <= i < |sorted| && sorted[i] == x;
    assert i > u ==> !Before(sorted[i], sorted[u]);
    assert i < |sorted| - 1 ==> !Before(sorted[|sorted| - 1], sorted[i]);
  }

  lemma {:induction false} SortedFront(live: seq<Item>)
    ensures var sorted, above := Sorted(live), AboveLow(live);
            && |above| <= |sorted| && Total(sorted[..|above|]) == Total(above) && Total(sorted) == Total(live)
            && (forall i :: 0 <= i < |sorted| ==> (sorted[i].priority == Low <==> i >= |above|))
  {
    SortedIsOrdered(live);
    AboveLowSorted(live);
    AboveLowIsFront(Sorted(live));
    assert Sorted(live)[..|AboveLow(live)|] == AboveLow(Sorted(live));
  }

  /** The cut falls between the first and the last low-priority item exactly when the first fits and not all do. */
  lemma {:induction false} WhereTheCutIs(kept: seq<Item>, live: seq<Item>, maxBytes: int)
    requires LongestFitting(kept, Sorted(live), maxBytes) && |AboveLow(live)| < |live|
    ensures var sorted, above := Sorted(live), AboveLow(live);
            && (forall i :: 0 <= i < |sorted| ==> (sorted[i].priority == Low <==> i >= |above|))
            && (|above| < |kept| <==> Total(above) + sorted[|above|].approxBytes <= maxBytes)
            && (|kept| < |sorted| <==> maxBytes < Total(live))
  {
    var sorted, u := Sorted(live), |AboveLow(live)|;
    SortedFront(live);
    OneMoreWeighs(sorted, u);
    KeptExactlyWhenFits(kept, sorted, maxBytes, u + 1);
    KeptExactlyWhenFits(kept, sorted, maxBytes, |sorted|);
    WholeOf(sorted);
  }

  lemma {:induction false} WholeOf(items: seq<Item>)
    ensures items[..|items|] == items
  {}

  lemma {:induction false} OneMoreWeighs(items: seq<Item>, u: nat)
    requires u < |items|
    ensures Total(items[..u + 1]) == Total(items[..u]) + items[u].approxBytes
  {
    assert items[..u + 1][..u] == items[..u];
  }

  lemma {:induction false} SameAgeFollowsPolicy(kept: seq<Item>, live: seq<Item>, maxBytes: int)
    requires LongestFitting(kept, Sorted(live), maxBytes) && !CutsThroughLow(live, maxBytes)
    ensures DropsOldestLow(kept, Sorted(live)[|kept|..])
  {
    var sorted := Sorted(live);
    forall x, y | x in kept && y in sorted[|kept|..] && x.priority == Low && y.priority == Low
      ensures y.createdAt <= x.createdAt
    {
      SortedIsOrdered(live);
      AboveLowSorted(live);
      AboveLowIsFront(sorted);
      var i :| 0 <= i < |kept| && kept[i] == x;
      var j :| |kept| <= j < |sorted| && sorted[j] == y;
      assert sorted[i] == x && x in live && y in live;
      WhereTheCutIs(kept, live, maxBytes);
    }
  }

  lemma {:induction false} CutThroughLowBreaksPolicy(kept: seq<Item>, live: seq<Item>, maxBytes: int)
    requires LongestFitting(kept, Sorted(live), maxBytes) && CutsThroughLow(live, maxBytes)
    ensures !DropsOldestLow(kept, Sorted(live)[|kept|..])
  {
    var sorted, u := Sorted(live), |AboveLow(live)|;
    var x, y :| x in live && y in live && x.priority == Low && y.priority == Low && x.createdAt != y.createdAt;
    SortedIsOrdered(live);
    WhereTheCutIs(kept, live, maxBytes);
    LowestAges(sorted, u, x);
    LowestAges(sorted, u, y);
    var oldest, newest := sorted[u], sorted[|sorted| - 1];
    assert kept[u] == oldest && sorted[|kept|..][|sorted| - 1 - |kept|] == newest;
    assert oldest in kept && newest in sorted[|kept|..];
  }

  /** Pruning drops the oldest low-priority items first, as the policy document has it, except exactly when the
      cut has to go through low-priority items of different ages: the first of them fits on top of everything of
      higher priority, and the whole queue does not. Then it keeps the oldest and drops the newest. */
  lemma {:induction false} PolicyKeptExactlyWhen(kept: seq<Item>, items: seq<Item>, maxBytes: int, maxAge: int,
                                                 now: int)
    requires Pruned(kept, items, maxBytes, maxAge, now)
    ensures var live := Unexpired(items, maxAge, now);
            DropsOldestLow(kept, Sorted(live)[|kept|..]) <==> !CutsThroughLow(live, maxBytes)
  {
    var live := Unexpired(items, maxAge, now);
    if CutsThroughLow(live, maxBytes) { CutThroughLowBreaksPolicy(kept, live, maxBytes); }
    else { SameAgeFollowsPolicy(kept, live, maxBytes); }
  }

  lemma {:induction false} TwoSorted(older: Item, newer: Item)
    requires Before(older, newer)
    ensures Sorted([older, newer]) == [older, newer]
    ensures Total([older]) == older.approxBytes && Total([older, newer]) == older.approxBytes + newer.approxBytes
  {
    var both := [older, newer];
    assert both[..1] == [older];
    TotalOfOne(older);
    SortedAlready(both);
    OneMoreWeighs(both, 1);
    assert both[..2] == both;
  }

  /** Two items that show it: there is room for one, and the older one stays. */
  lemma {:induction false} OlderOfTwoStays()
    ensures var older, newer := Item("a", "telemetry", Low, 1, [], OVERHEAD),
            Item("b", "telemetry", Low, 2, [], OVERHEAD);
            Pruned([older], [older, newer], OVERHEAD, 0, 3) && !DropsOldestLow([older], [newer])
  {
    var older, newer := Item("a", "telemetry", Low, 1, [], OVERHEAD), Item("b", "telemetry", Low, 2, [], OVERHEAD);
    var both := [older, newer];
    NoneExpired(both, 0, 3);
    TwoSorted(older, newer);
    assert both[..1] == [older];
    assert forall k :: 1 < k <= 2 ==> both[..k] == both;
    assert LongestFitting([older], both, OVERHEAD);
    assert older in [older] && newer in [newer];
  }

  // ---------- priorities, ages and sizes ----------

  /** An alarm outlasts everything: when one of high priority is dropped, only such items are kept. */
  lemma {:induction false} HighOutlastsAll(kept: seq<Item>, items: seq<Item>, maxBytes: int, maxAge: int, now: int,
                                           x: Item, y: Item)
    requires Pruned(kept, items, maxBytes, maxAge, now)
    requires x in items && x !in kept && x.priority == High && y in kept
    ensures y.priority == High && y.createdAt <= x.createdAt
  {
    PruningKeepsTheBest(kept, items, maxBytes, maxAge, now);
  }

  /** When an item of normal priority is dropped before it is too old, none of low priority is kept. */
  lemma {:induction false} NormalOutlastsLow(kept: seq<Item>, items: seq<Item>, maxBytes: int, maxAge: int, now: int,
                                             x: Item, y: Item)
    requires Pruned(kept, items, maxBytes, maxAge, now)
    requires x in items && x !in kept && x.priority == Normal && !(maxAge > 0 && now - x.createdAt > maxAge)
             && y in kept
    ensures y.priority == High || (y.priority == Normal && y.createdAt <= x.createdAt)
  {
    PruningKeepsTheBest(kept, items, maxBytes, maxAge, now);
  }

  /** What is too old is not kept, unless it is of high priority; no age makes one of those too old. */
  lemma {:induction false} OldItemsGo(kept: seq<Item>, items: seq<Item>, maxBytes: int, maxAge: int, now: int, x: Item)
    requires Pruned(kept, items, maxBytes, maxAge, now) && x in kept && maxAge > 0 && now - x.createdAt > maxAge
    ensures x.priority == High
  {
    PruningKeepsTheBest(kept, items, maxBytes, maxAge, now);
  }

  /** When there is room for all that is not too old, all of that is kept: high priority at any age. */
  lemma {:induction false} RoomForAllKeepsAll(kept: seq<Item>, items: seq<Item>, maxBytes: int, maxAge: int, now: int,
                                              x: Item)
    requires Pruned(kept, items, maxBytes, maxAge, now) && Total(items) <= maxBytes
    ensures x in kept <==> x in items && (x.priority == High || maxAge <= 0 || now - x.createdAt <= maxAge)
  {
    var live := Unexpired(items, maxAge, now);
    UnexpiredTotal(items, maxAge, now);
    UnexpiredMembers(items, maxAge, now);
    SortedContents(live);
    WholeOf(Sorted(live));
    assert |kept| == |Sorted(live)|;
    assert kept == Sorted(live)[..|kept|];
  }

  /** The sorted queue: high before normal before low, and old before new within each. */
  lemma {:induction false} SortedMeans(items: seq<Item>, i: nat, j: nat)
    requires i < j < |Sorted(items)|
    ensures var a, b := Sorted(items)[i], Sorted(items)[j];
            && (b.priority == High ==> a.priority == High)
            && (b.priority == Normal ==> a.priority == High || a.priority == Normal)
            && (a.priority == b.priority ==> a.createdAt <= b.createdAt)
  {
    SortedIsOrdered(items);
    assert !Before(Sorted(items)[j], Sorted(items)[i]);
  }

  /** What is kept fits, or is a single item of high priority; and the next item would not fit. */
  lemma {:induction false} KeptMeans(kept: seq<Item>, items: seq<Item>, maxBytes: int, maxAge: int, now: int)
    requires Pruned(kept, items, maxBytes, maxAge, now)
    ensures var live := Sorted(Unexpired(items, maxAge, now));
            && kept == live[..|kept|]
            && (kept == [] || Total(kept) <= maxBytes || (|kept| == 1 && kept[0].priority == High))
            && (|kept| < |live| ==> Total(kept) + live[|kept|].approxBytes > maxBytes)
  {
    var live := Sorted(Unexpired(items, maxAge, now));
    if |kept| < |live| {
      OneMoreWeighs(live, |kept|);
      assert !Fits(live[..|kept| + 1], maxBytes);
    }
  }

  /** The bytes of a queue are those of its items, and an item weighs its payload and 256 bytes; a time that is not
      given is that of its arrival. */
  lemma {:induction false} WeightsMean(items: seq<Item>, item: Item, now: int)
    ensures Total([]) == 0 && Total(items + [item]) == Total(items) + item.approxBytes
    ensures Stamped(item, now).approxBytes == |item.payload| + 256
    ensures Stamped(item, now).createdAt == if item.createdAt == 0 then now else item.createdAt
    ensures Stamped(item, now).(createdAt := item.createdAt, approxBytes := item.approxBytes) == item
  {
    assert (items + [item])[..|items|] == items;
  }
}

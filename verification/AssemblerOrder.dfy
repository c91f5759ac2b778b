/** In which order the assembled calls come out: the order of their openings, or not. */
module AssemblerOrder {
  import opened Transcript
  import opened Assembler
  import opened AssemblerTheorems

  /** The drained calls are the opened calls in the order in which they were opened. */
  ghost predicate InOrder(ds: seq<ToolCallDelta>) {
    Drained(After(ds, |ds|)) == CallsInOrder(ds)
  }

  ghost function CallsInOrder(ds: seq<ToolCallDelta>): seq<ToolCall> {
    var o := Openings(ds, |ds|);
    seq(|o|, c requires 0 <= c < |o| => Normalized(CallOf(ds, o[c], |ds|)))
  }

  /** Every call among the first `n` deltas is opened at an index above those of all calls before it. */
  ghost predicate IndicesIncrease(ds: seq<ToolCallDelta>, n: nat)
    requires n <= |ds|
  {
    forall j, k {:trigger Opens(ds, j), Opens(ds, k)} ::
      0 <= j < k < n && Opens(ds, j) && Opens(ds, k) ==> ds[j].index.n < ds[k].index.n
  }

  // ----- order in the map -----

  /** An earlier record stands at a higher key than a later one. */
  ghost predicate Inverted(st: Table) {
    exists x, y :: x in st.slots && y in st.slots && st.slots[x] < st.slots[y] && x.n > y.n
  }

  /** No record has two keys. */
  ghost predicate Injective(st: Table) {
    forall x, y :: x in st.slots && y in st.slots && st.slots[x] == st.slots[y] ==> x == y
  }

  /** Every key is the index at which its call was opened. */
  ghost predicate Aligned(ds: seq<ToolCallDelta>, n: nat)
    requires n <= |ds|
  {
    var slots, o := After(ds, n).slots, Openings(ds, n);
    forall x :: x in slots ==> slots[x] < |o| && x == ds[o[slots[x]]].index
  }

  /** As long as indices increase the keys are the opened indices; afterwards the order is lost for good. */
  ghost predicate OrderAt(ds: seq<ToolCallDelta>, n: nat)
    requires n <= |ds|
  {
    && Injective(After(ds, n))
    && (if IndicesIncrease(ds, n) then Aligned(ds, n) else Inverted(After(ds, n)))
  }

  lemma {:induction false} OpeningReaches(ds: seq<ToolCallDelta>, j: nat, n: nat)
    requires j < n <= |ds| && Opens(ds, j)
    ensures LastOpening(ds, n, ds[j].index) >= j
    decreases n
  {
    if j < n - 1 { OpeningReaches(ds, j, n - 1); }
  }

  lemma {:induction false} OpeningsInOrder(ds: seq<ToolCallDelta>, n: nat)
    requires n <= |ds|
    ensures forall b, c :: 0 <= b < c < |Openings(ds, n)| ==> Openings(ds, n)[b] < Openings(ds, n)[c]
    decreases n
  {
    if n > 0 { OpeningsInOrder(ds, n - 1); }
  }

  /** A delta that opens nothing leaves the map as it is. */
  lemma {:induction false} ContinueKeepsSlots(ds: seq<ToolCallDelta>, n: nat, st: Table)
    requires n < |ds| && Tracks(ds, n, st) && Orderly(ds) && !Opens(ds, n)
    ensures Step(st, ds[n]).slots == st.slots
  {
    var owner := Owner(ds, n);
    assert owner == LastOpening(ds, n, ds[n].index) && owner >= 0;
    assert st.cells[st.slots[ds[n].index]] == CallOf(ds, owner, n);
  }

  lemma {:induction false} OrderContinues(ds: seq<ToolCallDelta>, n: nat)
    requires n < |ds| && Tracked(ds, n) && Orderly(ds) && !Opens(ds, n) && OrderAt(ds, n)
    ensures OrderAt(ds, n + 1)
  {
    ContinueKeepsSlots(ds, n, After(ds, n));
    assert After(ds, n + 1).slots == After(ds, n).slots && Openings(ds, n + 1) == Openings(ds, n);
    assert IndicesIncrease(ds, n + 1) == IndicesIncrease(ds, n);
  }

  /** Reusing an occupied index puts the new call below the one it displaces. */
  lemma {:induction false} ReuseInverts(ds: seq<ToolCallDelta>, n: nat, st: Table)
    requires n < |ds| && Tracks(ds, n, st) && Opens(ds, n) && HasRoom(st, ds[n]) && ds[n].index in st.slots
    requires Injective(st)
    ensures Inverted(Step(st, ds[n])) && Injective(Step(st, ds[n]))
  {
    OpenedState(ds, n, st);
    var next, y, slots := At(UnusedIndex(st.slots.Keys)), ds[n].index, Step(st, ds[n]).slots;
    assert y.n < next.n && next !in st.slots;
    assert next in slots && y in slots && slots[next] == st.slots[y] < |st.cells| == slots[y];
  }

  /** A free index keeps whatever inversion there is. */
  lemma {:induction false} FreeIndexKeeps(ds: seq<ToolCallDelta>, n: nat, st: Table)
    requires n < |ds| && Tracks(ds, n, st) && Opens(ds, n) && HasRoom(st, ds[n]) && ds[n].index !in st.slots
    requires Injective(st)
    ensures Step(st, ds[n]).slots == st.slots[ds[n].index := |st.cells|] && Injective(Step(st, ds[n]))
    ensures Inverted(st) ==> Inverted(Step(st, ds[n]))
  {
    OpenedState(ds, n, st);
    if Inverted(st) {
      var x, y :| x in st.slots && y in st.slots && st.slots[x] < st.slots[y] && x.n > y.n;
      var slots := Step(st, ds[n]).slots;
      assert x in slots && y in slots && slots[x] < slots[y];
    }
  }

  /** Opening at a free index below an earlier one inverts the two. */
  lemma {:induction false} LowerIndexInverts(ds: seq<ToolCallDelta>, n: nat, st: Table)
    requires n < |ds| && Tracks(ds, n, st) && Opens(ds, n) && HasRoom(st, ds[n]) && ds[n].index !in st.slots
    requires Injective(st)
    requires IndicesIncrease(ds, n) && !IndicesIncrease(ds, n + 1)
    ensures Inverted(Step(st, ds[n]))
  {
    FreeIndexKeeps(ds, n, st);
    var j, k :| 0 <= j < k < n + 1 && Opens(ds, j) && Opens(ds, k) && ds[j].index.n >= ds[k].index.n;
    assert k == n;
    OpeningReaches(ds, j, n);
    var x, y, slots := ds[j].index, ds[n].index, Step(st, ds[n]).slots;
    assert x in st.slots && x != y;
    assert x.n != y.n by { assert x == At(x.n) && y == At(y.n); }
    assert x in slots && y in slots && slots[x] < slots[y] && x.n > y.n;
  }

  /** Opening above all earlier indices keeps the keys aligned. */
  lemma {:induction false} HigherIndexAligns(ds: seq<ToolCallDelta>, n: nat)
    requires n < |ds| && Tracked(ds, n) && Opens(ds, n) && HasRoom(After(ds, n), ds[n]) && Injective(After(ds, n))
    requires ds[n].index !in After(ds, n).slots && Aligned(ds, n)
    ensures Aligned(ds, n + 1)
  {
    var st := After(ds, n);
    FreeIndexKeeps(ds, n, st);
    assert After(ds, n + 1) == Step(st, ds[n]) && Openings(ds, n + 1) == Openings(ds, n) + [n];
  }

  lemma {:induction false} OrderOpens(ds: seq<ToolCallDelta>, n: nat)
    requires n < |ds| && Tracked(ds, n) && Opens(ds, n) && HasRoom(After(ds, n), ds[n]) && OrderAt(ds, n)
    ensures OrderAt(ds, n + 1)
  {
    if ds[n].index in After(ds, n).slots {
      ReuseInverts(ds, n, After(ds, n));
      NotAbove(ds, n);
      assert After(ds, n + 1) == Step(After(ds, n), ds[n]);
    } else {
      OrderOpensFree(ds, n, After(ds, n));
    }
  }

  lemma {:induction false} OrderOpensFree(ds: seq<ToolCallDelta>, n: nat, st: Table)
    requires n < |ds| && st == After(ds, n) && Tracked(ds, n) && Opens(ds, n) && HasRoom(st, ds[n]) && OrderAt(ds, n)
    requires ds[n].index !in st.slots
    ensures OrderAt(ds, n + 1)
  {
    FreeIndexKeeps(ds, n, st);
    IncreasePrefix(ds, n);
    if IndicesIncrease(ds, n + 1) {
      HigherIndexAligns(ds, n);
    } else if IndicesIncrease(ds, n) {
      LowerIndexInverts(ds, n, st);
    }
    assert After(ds, n + 1) == Step(st, ds[n]);
  }

  lemma {:induction false} IncreasePrefix(ds: seq<ToolCallDelta>, n: nat)
    requires n < |ds|
    ensures IndicesIncrease(ds, n + 1) ==> IndicesIncrease(ds, n)
  {}

  lemma {:induction false} NotAbove(ds: seq<ToolCallDelta>, n: nat)
    requires n < |ds| && Opens(ds, n) && ds[n].index in After(ds, n).slots
    requires IndicesIncrease(ds, n) ==> Aligned(ds, n)
    ensures !IndicesIncrease(ds, n + 1)
  {
    if IndicesIncrease(ds, n) {
      var j := Openings(ds, n)[After(ds, n).slots[ds[n].index]];
      assert Opens(ds, j) && ds[j].index == ds[n].index;
    }
  }

  lemma {:induction false} OrderNext(ds: seq<ToolCallDelta>, n: nat)
    requires n < |ds| && Tracked(ds, n) && Orderly(ds) && OrderAt(ds, n)
    requires Opens(ds, n) ==> HasRoom(After(ds, n), ds[n])
    ensures OrderAt(ds, n + 1)
  {
    if Opens(ds, n) { OrderOpens(ds, n); } else { OrderContinues(ds, n); }
  }

  ghost predicate Going(ds: seq<ToolCallDelta>, n: nat)
    requires n <= |ds|
  {
    Tracked(ds, n) && OrderAt(ds, n)
  }

  lemma {:induction false} GoingStarts(ds: seq<ToolCallDelta>)
    ensures Going(ds, 0)
  {
    TracksNothing(ds);
  }

  lemma {:induction false} GoingOn(ds: seq<ToolCallDelta>, n: nat)
    requires n < |ds| && Going(ds, n) && Orderly(ds) && RoomUpTo(ds, |ds|)
    ensures Going(ds, n + 1)
  {
    assert Opens(ds, n) ==> HasRoom(After(ds, n), ds[n]);
    OrderNext(ds, n);
    TrackStep(ds, n);
  }

  lemma {:induction false} OrderThroughout(ds: seq<ToolCallDelta>)
    requires Orderly(ds) && RoomUpTo(ds, |ds|)
    ensures Going(ds, |ds|)
  {
    GoingStarts(ds);
    for k := 0 to |ds|
      invariant Going(ds, k)
    {
      GoingOn(ds, k);
    }
  }

  lemma {:induction false} AlignedNotInverted(ds: seq<ToolCallDelta>, n: nat)
    requires n <= |ds| && IndicesIncrease(ds, n) && Aligned(ds, n)
    ensures !Inverted(After(ds, n))
  {
    var slots, o := After(ds, n).slots, Openings(ds, n);
    OpeningsInOrder(ds, n);
    forall x, y | x in slots && y in slots && slots[x] < slots[y] ensures x.n < y.n {
      assert Opens(ds, o[slots[x]]) && Opens(ds, o[slots[y]]);
    }
  }

  // ----- order in the drain -----

  /** Records with distinct nonempty ids, each at one key, all come out, in the order of their keys. */
  lemma {:induction false} DrainInLists(keys: seq<Index>, st: Table, seen: set<string>)
    requires Linked(st) && (forall k :: k in keys ==> k in st.slots) && Distinct(keys) && Injective(st)
    requires forall b, c :: 0 <= b < c < |st.cells| ==> st.cells[b].id != st.cells[c].id
    requires forall k :: k in keys ==> st.cells[st.slots[k]].id != "" && st.cells[st.slots[k]].id !in seen
    ensures DrainIn(keys, st, seen) == Listed(keys, st)
    decreases |keys|
  {
    if keys != [] {
      var head, tail := keys[0], keys[1..];
      var id := st.cells[st.slots[head]].id;
      forall k | k in tail ensures st.cells[st.slots[k]].id !in seen + {id} {
        var i :| 0 <= i < |tail| && tail[i] == k;
        assert keys[i + 1] == k != keys[0];
      }
      assert Distinct(tail) by { assert forall i :: 0 <= i < |tail| ==> tail[i] == keys[i + 1]; }
      DrainInLists(tail, st, seen + {id});
      assert Listed(keys, st) == [Normalized(st.cells[st.slots[head]])] + Listed(tail, st);
    }
  }

  /** A strictly increasing list of n numbers below n counts up from zero. */
  lemma {:induction false} CountsUp(f: seq<nat>, i: nat)
    requires i < |f| && (forall a, b :: 0 <= a < b < |f| ==> f[a] < f[b]) && forall a :: 0 <= a < |f| ==> f[a] < |f|
    ensures f[i] == i
  {
    AtLeast(f, i);
    AtMost(f, i);
  }

  lemma {:induction false} AtLeast(f: seq<nat>, i: nat)
    requires i < |f| && forall a, b :: 0 <= a < b < |f| ==> f[a] < f[b]
    ensures f[i] >= i
    decreases i
  {
    if i > 0 { AtLeast(f, i - 1); }
  }

  lemma {:induction false} AtMost(f: seq<nat>, i: nat)
    requires i < |f| && (forall a, b :: 0 <= a < b < |f| ==> f[a] < f[b]) && f[|f| - 1] < |f|
    ensures f[i] <= i
    decreases |f| - i
  {
    if i < |f| - 1 { AtMost(f, i + 1); }
  }

  /** The keys in increasing order, and the records behind them. */
  lemma {:induction false} KeysOf(ds: seq<ToolCallDelta>, st: Table) returns (keys: seq<Index>, f: seq<nat>)
    requires Tracks(ds, |ds|, st) && Injective(st)
    ensures Increasing(keys) && (forall k :: k in keys <==> k in st.slots) && Drained(st) == Listed(keys, st)
    ensures |f| == |keys| == |st.cells| && forall i :: 0 <= i < |f| ==> f[i] == st.slots[keys[i]] < |f|
  {
    keys := SortedKeys(st.slots.Keys);
    assert forall k :: k in keys <==> k in Elems(keys);
    IncreasingIsDistinct(keys);
    DistinctElems(keys);
    CellsDistinct(ds, |ds|, st);
    forall k | k in keys ensures st.cells[st.slots[k]].id != "" {
      var c := st.slots[k];
      assert st.cells[c] == CallOf(ds, Openings(ds, |ds|)[c], |ds|) && Opens(ds, Openings(ds, |ds|)[c]);
    }
    DrainInLists(keys, st, {});
    f := seq(|keys|, i requires 0 <= i < |keys| => st.slots[keys[i]]);
  }

  lemma {:induction false} IncreasingIsDistinct(keys: seq<Index>)
    requires Increasing(keys)
    ensures Distinct(keys)
  {}

  lemma {:induction false} UprightIsInOrder(ds: seq<ToolCallDelta>, st: Table)
    requires Tracks(ds, |ds|, st) && Injective(st) && !Inverted(st)
    ensures Drained(st) == CallsInOrder(ds)
  {
    var keys, f := KeysOf(ds, st);
    forall a, b | 0 <= a < b < |f| ensures f[a] < f[b] {
      assert keys[a] in keys && keys[b] in keys && keys[a].n < keys[b].n;
    }
    forall i | 0 <= i < |f| ensures Drained(st)[i] == CallsInOrder(ds)[i] {
      CountsUp(f, i);
    }
  }

  lemma {:induction false} InOrderIsUpright(ds: seq<ToolCallDelta>, st: Table)
    requires Tracks(ds, |ds|, st) && Injective(st) && Drained(st) == CallsInOrder(ds)
    ensures !Inverted(st)
  {
    var keys, f := KeysOf(ds, st);
    SamePlaces(ds, st, keys, f);
    NotInverted(st, keys);
  }

  lemma {:induction false} SamePlaces(ds: seq<ToolCallDelta>, st: Table, keys: seq<Index>, f: seq<nat>)
    requires Tracks(ds, |ds|, st) && |f| == |keys| == |st.cells| && forall k :: k in keys ==> k in st.slots
    requires Listed(keys, st) == CallsInOrder(ds) && forall i :: 0 <= i < |f| ==> f[i] == st.slots[keys[i]] < |f|
    ensures forall i :: 0 <= i < |keys| ==> st.slots[keys[i]] == i
  {
    CellsDistinct(ds, |ds|, st);
    forall i | 0 <= i < |keys| ensures f[i] == i {
      assert Listed(keys, st)[i] == Normalized(st.cells[f[i]]) && CallsInOrder(ds)[i] == Normalized(st.cells[i]);
      assert st.cells[f[i]].id == st.cells[i].id;
    }
  }

  lemma {:induction false} NotInverted(st: Table, keys: seq<Index>)
    requires Increasing(keys) && (forall k :: k in keys <==> k in st.slots)
    requires forall i :: 0 <= i < |keys| ==> st.slots[keys[i]] == i
    ensures !Inverted(st)
  {
    forall x, y | x in st.slots && y in st.slots && st.slots[x] < st.slots[y] ensures x.n < y.n {
      assert x in keys && y in keys;
      var p :| 0 <= p < |keys| && keys[p] == x;
      var q :| 0 <= q < |keys| && keys[q] == y;
      assert p == st.slots[x] && q == st.slots[y];
    }
  }

  // ----- the exact condition -----

  lemma {:induction false} OrderWithRoom(ds: seq<ToolCallDelta>)
    requires Orderly(ds) && RoomUpTo(ds, |ds|)
    ensures InOrder(ds) <==> IndicesIncrease(ds, |ds|)
  {
    OrderThroughout(ds);
    if IndicesIncrease(ds, |ds|) {
      AlignedNotInverted(ds, |ds|);
      UprightIsInOrder(ds, After(ds, |ds|));
    } else if InOrder(ds) {
      InOrderIsUpright(ds, After(ds, |ds|));
    }
  }

  lemma {:induction false} IncreasingDiffer(ds: seq<ToolCallDelta>)
    requires IndicesIncrease(ds, |ds|)
    ensures IndicesDiffer(ds)
  {
    forall k | 0 <= k < |ds| && Opens(ds, k) ensures LastOpening(ds, k, ds[k].index) < 0 {}
  }

  /** The calls of an orderly stream are drained in the order of their openings if and only if there are at most 512 of
      them and each is opened at an index above all earlier ones. */
  lemma {:induction false} InOrderIffIncreasing(ds: seq<ToolCallDelta>)
    requires Orderly(ds)
    ensures InOrder(ds) <==> IndicesIncrease(ds, |ds|) && |Openings(ds, |ds|)| <= MAX_TOOL_CALLS_PER_ROUND
  {
    RoomOrLoss(ds);
    if RoomUpTo(ds, |ds|) {
      OrderWithRoom(ds);
      if InOrder(ds) { DrainedAlwaysLegal(ds); }
    } else if IndicesIncrease(ds, |ds|) && |Openings(ds, |ds|)| <= MAX_TOOL_CALLS_PER_ROUND {
      IncreasingDiffer(ds);
      OwnIndicesHaveRoom(ds);
    }
  }

  /** Relocation does not keep the order: three calls at index 0 are all assembled, and come out in another order. */
  lemma {:induction false} ReuseReorders()
    ensures var ds := Burst(3); Orderly(ds) && RefinesFold(ds) && !InOrder(ds)
  {
    var ds := Burst(3);
    BurstIsOrderly(3);
    BurstCounts(3, 3);
    FewerThanCapRefine(ds);
    BurstOpens(3, 0);
    BurstOpens(3, 1);
    assert ds[0].index.n >= ds[1].index.n;
    InOrderIffIncreasing(ds);
  }
}

/** What the assembler guarantees of every stream, and of orderly streams. */
module AssemblerTheorems {
  import opened Transcript
  import opened Validators
  import opened Assembler
  import opened Sequences

  // ----- every stream whatsoever -----

  /** Aliases left behind at the cap make the map larger than the list of records, never smaller. */
  ghost predicate Bounded(st: Table) {
    && Linked(st)
    && |st.cells| <= |st.slots|
    && |st.cells| <= MAX_TOOL_CALLS_PER_ROUND
    && forall c :: 0 <= c < |st.cells| ==> |st.cells[c].arguments| <= MAX_TOOL_CALL_ARGUMENTS
  }

  lemma {:induction false} StepBounded(st: Table, d: ToolCallDelta)
    requires Bounded(st)
    ensures Bounded(Step(st, d))
  {
    StepLinked(st, d);
    if d.index in st.slots && IsDifferentCall(st.cells[st.slots[d.index]], d) {
      assert At(UnusedIndex(st.slots.Keys)) !in st.slots;
    }
  }

  lemma {:induction false} RunBounded(ds: seq<ToolCallDelta>, n: nat)
    requires n <= |ds|
    ensures Bounded(After(ds, n))
    decreases n
  {
    if n > 0 {
      RunBounded(ds, n - 1);
      StepBounded(After(ds, n - 1), ds[n - 1]);
    }
  }

  /** Drained calls are records with new nonempty ids, each id once. */
  lemma {:induction false} DrainInIds(keys: seq<Index>, st: Table, seen: set<string>)
    requires Linked(st) && forall k :: k in keys ==> k in st.slots
    ensures var out := DrainIn(keys, st, seen);
      && Distinct(Ids(out))
      && (forall x :: x in Ids(out) ==> x != "" && x !in seen)
      && (forall call :: call in out ==> exists c :: 0 <= c < |st.cells| && call == Normalized(st.cells[c]))
    decreases |keys|
  {
    if keys != [] {
      var call := st.cells[st.slots[keys[0]]];
      if call.id == "" || call.id in seen {
        DrainInIds(keys[1..], st, seen);
      } else {
        DrainInIds(keys[1..], st, seen + {call.id});
        var rest := DrainIn(keys[1..], st, seen + {call.id});
        assert Ids([Normalized(call)] + rest) == [call.id] + Ids(rest);
        DistinctCons(call.id, Ids(rest));
      }
    }
  }

  function IdsAt(keys: seq<Index>, st: Table): seq<string>
    requires Linked(st) && forall k :: k in keys ==> k in st.slots
  {
    seq(|keys|, i requires 0 <= i < |keys| => st.cells[st.slots[keys[i]]].id)
  }

  predicate NonEmpty(id: string) {
    id != ""
  }

  function Listed(keys: seq<Index>, st: Table): seq<ToolCall>
    requires Linked(st) && forall k :: k in keys ==> k in st.slots
  {
    seq(|keys|, i requires 0 <= i < |keys| => Normalized(st.cells[st.slots[keys[i]]]))
  }

  /** Which keys are the first, in key order, to lead to their nonempty id. */
  ghost function FirstsAt(keys: seq<Index>, st: Table, seen: set<string>): (keep: seq<bool>)
    requires Linked(st) && forall k :: k in keys ==> k in st.slots
    ensures |keep| == |keys|
  {
    Firsts(IdsAt(keys, st), NonEmpty, seen)
  }

  lemma {:induction false} FirstsAtCons(keys: seq<Index>, tail: seq<Index>, st: Table, seen: set<string>)
    requires Linked(st) && (forall k :: k in keys ==> k in st.slots) && keys != [] && tail == keys[1..]
    ensures var call := st.cells[st.slots[keys[0]]];
      var first := call.id != "" && call.id !in seen;
      && FirstsAt(keys, st, seen) == [first] + FirstsAt(tail, st, if first then seen + {call.id} else seen)
      && Listed(keys, st) == [Normalized(call)] + Listed(tail, st)
  {
    FirstsCons(IdsAt(keys, st), NonEmpty, seen);
    assert IdsAt(keys, st)[1..] == IdsAt(tail, st);
  }

  /** The drained calls are, in key order, the records whose nonempty id no earlier key has. */
  lemma {:induction false} DrainKeepsFirsts(keys: seq<Index>, st: Table, seen: set<string>)
    requires Linked(st) && forall k :: k in keys ==> k in st.slots
    ensures Selects(DrainIn(keys, st, seen), Listed(keys, st), FirstsAt(keys, st, seen))
    decreases |keys|
  {
    if keys == [] {
      SelectsNothing<ToolCall>();
      assert Listed(keys, st) == [] && FirstsAt(keys, st, seen) == [];
    } else {
      var call, tail := st.cells[st.slots[keys[0]]], keys[1..];
      var first := call.id != "" && call.id !in seen;
      var more := if first then seen + {call.id} else seen;
      DrainKeepsFirsts(tail, st, more);
      SelectsCons(Normalized(call), first, DrainIn(tail, st, more), Listed(tail, st), FirstsAt(tail, st, more));
      FirstsAtCons(keys, tail, st, seen);
    }
  }

  lemma {:induction false} ElemsBound<T>(s: seq<T>)
    ensures |Elems(s)| <= |s|
    decreases |s|
  {
    if s != [] {
      var n := |s| - 1;
      ElemsBound(s[..n]);
      assert s == s[..n] + [s[n]];
      ElemsSnoc(s[..n], s[n]);
    }
  }

  lemma {:induction false} SubsetSize<T>(a: set<T>, b: set<T>)
    requires a <= b
    ensures |a| <= |b|
  {
    assert |b - a| == |b| - |a|;
  }

  /** What a drain of bounded records looks like. */
  lemma {:induction false} DrainInBounded(keys: seq<Index>, st: Table)
    requires Bounded(st) && forall k :: k in keys ==> k in st.slots
    ensures var out := DrainIn(keys, st, {});
      && Distinct(Ids(out)) && Elems(Ids(out)) <= Elems(Ids(st.cells))
      && (forall i :: 0 <= i < |out| ==> out[i].id != "" && |out[i].arguments| <= MAX_TOOL_CALL_ARGUMENTS)
  {
    var out := DrainIn(keys, st, {});
    DrainInIds(keys, st, {});
    forall i | 0 <= i < |out|
      ensures out[i].id != "" && |out[i].arguments| <= MAX_TOOL_CALL_ARGUMENTS && out[i].id in Ids(st.cells)
    {
      assert Ids(out)[i] == out[i].id && Ids(out)[i] in Ids(out) && out[i] in out;
      var c :| 0 <= c < |st.cells| && out[i] == Normalized(st.cells[c]);
      assert Ids(st.cells)[c] == out[i].id;
      assert |st.cells[c].arguments| <= MAX_TOOL_CALL_ARGUMENTS && |"{}"| == 2;
    }
    forall x | x in Ids(out) ensures x in Ids(st.cells) {
      var i :| 0 <= i < |out| && Ids(out)[i] == x;
    }
  }

  lemma {:induction false} DrainedCount(st: Table)
    requires Bounded(st)
    ensures |Drained(st)| <= |st.cells|
  {
    var keys := SortedKeys(st.slots.Keys);
    assert forall k :: k in keys ==> k in Elems(keys);
    var out := Drained(st);
    DrainInBounded(keys, st);
    DistinctElems(Ids(out));
    SubsetSize(Elems(Ids(out)), Elems(Ids(st.cells)));
    ElemsBound(Ids(st.cells));
  }

  /** For every delta stream, with any indices and ids: distinct nonempty ids, at most 512 calls, at most 1 MiB of
      arguments each. */
  lemma {:induction false} DrainedAlwaysLegal(ds: seq<ToolCallDelta>)
    ensures var out := Drained(After(ds, |ds|));
      && Distinct(Ids(out))
      && (forall i :: 0 <= i < |out| ==> out[i].id != "" && |out[i].arguments| <= MAX_TOOL_CALL_ARGUMENTS)
      && |out| <= MAX_TOOL_CALLS_PER_ROUND
  {
    var st := After(ds, |ds|);
    var keys := SortedKeys(st.slots.Keys);
    assert forall k :: k in keys ==> k in Elems(keys);
    RunBounded(ds, |ds|);
    DrainInBounded(keys, st);
    DrainedCount(st);
  }

  // ----- orderly streams: the pure per-call fold -----

  /** The delta at `k` carries an id no earlier delta carried. */
  ghost predicate Opens(ds: seq<ToolCallDelta>, k: nat)
    requires k < |ds|
  {
    ds[k].id != "" && forall j :: 0 <= j < k ==> ds[j].id != ds[k].id
  }

  /** The last opening at index `x` among the first `n` deltas, or -1. */
  ghost function LastOpening(ds: seq<ToolCallDelta>, n: nat, x: Index): (r: int)
    requires n <= |ds|
    ensures -1 <= r < n
    ensures r >= 0 ==> Opens(ds, r) && ds[r].index == x
  {
    if n == 0 then -1
    else if Opens(ds, n - 1) && ds[n - 1].index == x then n - 1
    else LastOpening(ds, n - 1, x)
  }

  /** The opening whose call the delta at `k` belongs to: the latest one at its index. */
  ghost function Owner(ds: seq<ToolCallDelta>, k: nat): int
    requires k < |ds|
  {
    LastOpening(ds, k + 1, ds[k].index)
  }

  /** Everything streamed as arguments of the call opened at `j`: the fragments it owns, in order. */
  ghost function FragmentsOf(ds: seq<ToolCallDelta>, j: nat, n: nat): string
    requires n <= |ds|
  {
    if n == 0 then "" else FragmentsOf(ds, j, n - 1) + (if Owner(ds, n - 1) == j then ds[n - 1].arguments else "")
  }

  /** Its arguments: of the fragments it owns, in order, each one that still fits under the cap. */
  ghost function ArgumentsOf(ds: seq<ToolCallDelta>, j: nat, n: nat): string
    requires n <= |ds|
  {
    if n == 0 then ""
    else
      var before, more := ArgumentsOf(ds, j, n - 1), ds[n - 1].arguments;
      if Owner(ds, n - 1) == j && |before| + |more| <= MAX_TOOL_CALL_ARGUMENTS then before + more else before
  }

  /** Nothing is left out of a call that stays within the cap. */
  lemma {:induction false} AllFragmentsFit(ds: seq<ToolCallDelta>, j: nat, n: nat)
    requires n <= |ds| && |FragmentsOf(ds, j, n)| <= MAX_TOOL_CALL_ARGUMENTS
    ensures ArgumentsOf(ds, j, n) == FragmentsOf(ds, j, n)
    decreases n
  {
    if n > 0 {
      assert |FragmentsOf(ds, j, n - 1)| <= |FragmentsOf(ds, j, n)|;
      AllFragmentsFit(ds, j, n - 1);
      assert FragmentsOf(ds, j, n - 1) + "" == FragmentsOf(ds, j, n - 1);
    }
  }

  /** Its name: the last nonempty one among the fragments it owns. */
  ghost function NameOf(ds: seq<ToolCallDelta>, j: nat, n: nat): string
    requires n <= |ds|
  {
    if n == 0 then ""
    else if Owner(ds, n - 1) == j && ds[n - 1].name != "" then ds[n - 1].name
    else NameOf(ds, j, n - 1)
  }

  ghost function CallOf(ds: seq<ToolCallDelta>, j: nat, n: nat): ToolCall
    requires j < n <= |ds|
  {
    ToolCall(ds[j].id, NameOf(ds, j, n), ArgumentsOf(ds, j, n))
  }

  /** Every delta either opens a call or continues the one its index belongs to. */
  ghost predicate Orderly(ds: seq<ToolCallDelta>) {
    forall k {:trigger Owner(ds, k)} :: 0 <= k < |ds| ==>
      Owner(ds, k) >= 0 && (ds[k].id == "" || ds[k].id == ds[Owner(ds, k)].id)
  }

  ghost function Openings(ds: seq<ToolCallDelta>, n: nat): (o: seq<nat>)
    requires n <= |ds|
    ensures forall c :: 0 <= c < |o| ==> o[c] < n && Opens(ds, o[c])
  {
    if n == 0 then [] else if Opens(ds, n - 1) then Openings(ds, n - 1) + [n - 1] else Openings(ds, n - 1)
  }

  /** The map has room for a call opened by `d`: vacating an occupied index takes one more key. */
  ghost predicate HasRoom(st: Table, d: ToolCallDelta) {
    |st.slots| + (if d.index in st.slots then 1 else 0) < MAX_TOOL_CALLS_PER_ROUND
  }

  /** None of the first `n` deltas opens a call without room for it. */
  ghost predicate RoomUpTo(ds: seq<ToolCallDelta>, n: nat)
    requires n <= |ds|
  {
    forall k {:trigger HasRoom(After(ds, k), ds[k])} :: 0 <= k < n && Opens(ds, k) ==> HasRoom(After(ds, k), ds[k])
  }

  lemma {:induction false} OpeningsComplete(ds: seq<ToolCallDelta>, n: nat, k: nat)
    requires k < n <= |ds| && Opens(ds, k)
    ensures k in Openings(ds, n)
    decreases n
  {
    if k < n - 1 { OpeningsComplete(ds, n - 1, k); }
  }

  lemma {:induction false} OpeningsGrow(ds: seq<ToolCallDelta>, m: nat, n: nat)
    requires m <= n <= |ds|
    ensures |Openings(ds, m)| <= |Openings(ds, n)|
    decreases n
  {
    if m < n { OpeningsGrow(ds, m, n - 1); }
  }

  /** Nothing belongs to a call before it is opened. */
  lemma {:induction false} NothingBefore(ds: seq<ToolCallDelta>, j: nat, n: nat)
    requires n <= j && n <= |ds|
    ensures ArgumentsOf(ds, j, n) == "" && NameOf(ds, j, n) == ""
    decreases n
  {
    if n > 0 { NothingBefore(ds, j, n - 1); }
  }

  ghost predicate Reached(st: Table, c: nat) {
    exists x :: x in st.slots && st.slots[x] == c
  }

  /** The records are the opened calls so far, and each index points at the latest call opened there. */
  ghost predicate Tracks(ds: seq<ToolCallDelta>, n: nat, st: Table)
    requires n <= |ds|
  {
    var o := Openings(ds, n);
    && Linked(st)
    && |st.cells| == |o| == |st.slots|
    && (forall c :: 0 <= c < |o| ==> st.cells[c] == CallOf(ds, o[c], n))
    && (forall x: Index :: LastOpening(ds, n, x) >= 0 ==> x in st.slots && o[st.slots[x]] == LastOpening(ds, n, x))
    && (forall c :: 0 <= c < |o| ==> Reached(st, c))
  }

  /** One more delta changes the call it belongs to and no other. */
  lemma {:induction false} CallOfNext(ds: seq<ToolCallDelta>, j: nat, n: nat)
    requires j < n < |ds|
    requires Owner(ds, n) == j ==> ds[n].id == "" || ds[n].id == ds[j].id
    ensures CallOf(ds, j, n + 1) == if Owner(ds, n) == j then Merge(CallOf(ds, j, n), ds[n]) else CallOf(ds, j, n)
  {}

  lemma {:induction false} CallOfOpening(ds: seq<ToolCallDelta>, n: nat)
    requires n < |ds| && Opens(ds, n)
    ensures CallOf(ds, n, n + 1) == Merge(ToolCall("", "", ""), ds[n])
  {
    NothingBefore(ds, n, n);
  }

  lemma {:induction false} OpeningsDistinct(ds: seq<ToolCallDelta>, n: nat)
    requires n <= |ds|
    ensures Distinct(Openings(ds, n))
    decreases n
  {
    if n > 0 { OpeningsDistinct(ds, n - 1); }
  }

  lemma {:induction false} TrackContinue(ds: seq<ToolCallDelta>, n: nat, st: Table)
    requires n < |ds| && Tracks(ds, n, st) && Orderly(ds) && !Opens(ds, n)
    ensures Tracks(ds, n + 1, Step(st, ds[n]))
  {
    var d, o := ds[n], Openings(ds, n);
    var owner := Owner(ds, n);
    assert owner == LastOpening(ds, n, d.index) && owner >= 0;
    var cell := st.slots[d.index];
    var st' := Step(st, d);
    assert st' == Table(st.slots, st.cells[cell := Merge(st.cells[cell], d)]);
    OpeningsDistinct(ds, n);
    forall c | 0 <= c < |o| ensures st'.cells[c] == CallOf(ds, o[c], n + 1) {
      CallOfNext(ds, o[c], n);
      assert o[c] == owner <==> c == cell;
    }
    forall c | 0 <= c < |o| ensures Reached(st', c) { assert Reached(st, c); }
  }

  lemma {:induction false} TrackOpen(ds: seq<ToolCallDelta>, n: nat, st: Table)
    requires n < |ds| && Tracks(ds, n, st) && Opens(ds, n) && HasRoom(st, ds[n])
    ensures Tracks(ds, n + 1, Step(st, ds[n]))
  {
    StepLinked(st, ds[n]);
    OpenedState(ds, n, st);
    OpenCells(ds, n, st);
    OpenReaches(ds, n, st);
    OpenLatest(ds, n, st);
  }

  lemma {:induction false} OpenCells(ds: seq<ToolCallDelta>, n: nat, st: Table)
    requires n < |ds| && Tracks(ds, n, st) && Opens(ds, n) && HasRoom(st, ds[n])
    ensures var o := Openings(ds, n + 1);
      |Step(st, ds[n]).cells| == |o| && forall c :: 0 <= c < |o| ==> Step(st, ds[n]).cells[c] == CallOf(ds, o[c], n + 1)
  {
    var o := Openings(ds, n);
    OpenedState(ds, n, st);
    assert Owner(ds, n) == n;
    forall c | 0 <= c < |o| + 1 ensures Step(st, ds[n]).cells[c] == CallOf(ds, (o + [n])[c], n + 1) {
      var j := (o + [n])[c];
      if c < |o| { CallOfNext(ds, j, n); } else { CallOfOpening(ds, n); }
    }
  }

  lemma {:induction false} OpenReaches(ds: seq<ToolCallDelta>, n: nat, st: Table)
    requires n < |ds| && Tracks(ds, n, st) && Opens(ds, n) && HasRoom(st, ds[n])
    ensures forall c :: 0 <= c <= |Openings(ds, n)| ==> Reached(Step(st, ds[n]), c)
  {
    var d, o, st' := ds[n], Openings(ds, n), Step(st, ds[n]);
    var next := At(UnusedIndex(st.slots.Keys));
    assert next !in st.slots;
    OpenedState(ds, n, st);
    forall c: nat | c <= |o| ensures Reached(st', c) {
      if c == |o| {
        assert st'.slots[d.index] == c;
      } else {
        assert Reached(st, c);
        var x :| x in st.slots && st.slots[x] == c;
        assert x != d.index ==> st'.slots[x] == c;
        assert x == d.index ==> st'.slots[next] == c;
      }
    }
  }

  lemma {:induction false} OpenLatest(ds: seq<ToolCallDelta>, n: nat, st: Table)
    requires n < |ds| && Tracks(ds, n, st) && Opens(ds, n) && HasRoom(st, ds[n])
    ensures var o := Openings(ds, n + 1);
      forall x: Index :: LastOpening(ds, n + 1, x) >= 0 ==>
        var slots := Step(st, ds[n]).slots;
        x in slots && slots[x] < |o| && o[slots[x]] == LastOpening(ds, n + 1, x)
  {
    OpenedState(ds, n, st);
    assert At(UnusedIndex(st.slots.Keys)) !in st.slots;
  }

  /** An opening always creates a record: an occupied index is vacated first. */
  lemma {:induction false} OpenedState(ds: seq<ToolCallDelta>, n: nat, st: Table)
    requires n < |ds| && Tracks(ds, n, st) && Opens(ds, n) && HasRoom(st, ds[n])
    ensures var d := ds[n];
      var moved := if d.index in st.slots then st.slots[At(UnusedIndex(st.slots.Keys)) := st.slots[d.index]]
        else st.slots;
      && Step(st, d) == Table(moved[d.index := |st.cells|], st.cells + [Merge(ToolCall("", "", ""), d)])
      && |Step(st, d).slots| == |st.slots| + 1
  {
    var d := ds[n];
    if d.index in st.slots {
      var j := Openings(ds, n)[st.slots[d.index]];
      assert st.cells[st.slots[d.index]].id == ds[j].id && ds[j].id != d.id;
      assert At(UnusedIndex(st.slots.Keys)) !in st.slots;
    }
  }

  /** After `n` deltas the assembler's state is the fold's. */
  ghost predicate Tracked(ds: seq<ToolCallDelta>, n: nat)
    requires n <= |ds|
  {
    Tracks(ds, n, After(ds, n))
  }

  lemma {:induction false} TrackStep(ds: seq<ToolCallDelta>, n: nat)
    requires n < |ds| && Tracked(ds, n) && Orderly(ds)
    requires Opens(ds, n) ==> HasRoom(After(ds, n), ds[n])
    ensures Tracked(ds, n + 1)
  {
    var st := After(ds, n);
    assert After(ds, n + 1) == Step(st, ds[n]);
    if Opens(ds, n) {
      TrackOpen(ds, n, st);
    } else {
      TrackContinue(ds, n, st);
    }
  }

  lemma {:induction false} TracksNothing(ds: seq<ToolCallDelta>)
    ensures Tracked(ds, 0)
  {}

  lemma {:induction false} RunTracks(ds: seq<ToolCallDelta>, n: nat)
    requires n <= |ds| && Orderly(ds) && RoomUpTo(ds, n)
    ensures Tracked(ds, n)
  {
    TracksNothing(ds);
    for k := 0 to n
      invariant Tracked(ds, k)
    {
      assert Opens(ds, k) ==> HasRoom(After(ds, k), ds[k]);
      TrackStep(ds, k);
    }
  }

  /** Every drained key's id comes out. */
  lemma {:induction false} DrainInCovers(keys: seq<Index>, st: Table, seen: set<string>, k: Index)
    requires Linked(st) && (forall k :: k in keys ==> k in st.slots) && k in keys
    requires st.cells[st.slots[k]].id != "" && st.cells[st.slots[k]].id !in seen
    requires forall b, c :: 0 <= b < c < |st.cells| ==> st.cells[b].id != st.cells[c].id
    ensures Normalized(st.cells[st.slots[k]]) in DrainIn(keys, st, seen)
    decreases |keys|
  {
    var call := st.cells[st.slots[keys[0]]];
    if call.id == "" || call.id in seen {
      DrainInCovers(keys[1..], st, seen, k);
    } else if st.slots[k] != st.slots[keys[0]] {
      DrainInCovers(keys[1..], st, seen + {call.id}, k);
    }
  }

  lemma {:induction false} CellsDistinct(ds: seq<ToolCallDelta>, n: nat, st: Table)
    requires n <= |ds| && Tracks(ds, n, st)
    ensures forall b, c :: 0 <= b < c < |st.cells| ==> st.cells[b].id != st.cells[c].id
  {
    var o := Openings(ds, n);
    OpeningsDistinct(ds, n);
    forall b, c | 0 <= b < c < |st.cells| ensures st.cells[b].id != st.cells[c].id {
      assert o[b] != o[c];
      assert Opens(ds, o[b]) && Opens(ds, o[c]);
    }
  }

  /** The drained calls are exactly the opened calls, each with its own fragments. */
  ghost predicate RefinesFold(ds: seq<ToolCallDelta>) {
    var out := Drained(After(ds, |ds|));
    && |out| == |Openings(ds, |ds|)| && Distinct(Ids(out))
    && (forall j :: 0 <= j < |ds| && Opens(ds, j) ==> Normalized(CallOf(ds, j, |ds|)) in out)
    && (forall call :: call in out ==>
      exists j :: 0 <= j < |ds| && Opens(ds, j) && call == Normalized(CallOf(ds, j, |ds|)))
  }

  /** A finished call: blank arguments stand for the empty object. */
  ghost predicate Finished(call: ToolCall, id: string, name: string, arguments: string) {
    call == ToolCall(id, name, if Blank(arguments) then "{}" else arguments)
  }

  /** The call is the one opened at `j`, under its own name and with its own fragments. */
  ghost predicate Completes(call: ToolCall, ds: seq<ToolCallDelta>, j: nat)
    requires j < |ds|
  {
    Opens(ds, j) && Finished(call, ds[j].id, NameOf(ds, j, |ds|), ArgumentsOf(ds, j, |ds|))
  }

  ghost predicate HasCall(calls: seq<ToolCall>, ds: seq<ToolCallDelta>, j: nat)
    requires j < |ds|
  {
    exists c :: 0 <= c < |calls| && Completes(calls[c], ds, j)
  }

  ghost predicate IsOpened(call: ToolCall, ds: seq<ToolCallDelta>) {
    exists j: nat {:trigger Completes(call, ds, j)} :: j < |ds| && Completes(call, ds, j)
  }

  /** `calls` are exactly the opened calls, each once. */
  ghost predicate AssembledFrom(ds: seq<ToolCallDelta>, calls: seq<ToolCall>) {
    && |calls| == |Openings(ds, |ds|)| && Distinct(Ids(calls))
    && (forall j: nat {:trigger HasCall(calls, ds, j)} :: j < |ds| && Opens(ds, j) ==> HasCall(calls, ds, j))
    && (forall c {:trigger IsOpened(calls[c], ds)} :: 0 <= c < |calls| ==> IsOpened(calls[c], ds))
  }

  lemma {:induction false} FoldCompletes(ds: seq<ToolCallDelta>, j: nat)
    requires j < |ds| && Opens(ds, j)
    ensures Completes(Normalized(CallOf(ds, j, |ds|)), ds, j)
  {}

  lemma {:induction false} FoldHolds(ds: seq<ToolCallDelta>, out: seq<ToolCall>, j: nat)
    requires j < |ds| && Opens(ds, j) && Normalized(CallOf(ds, j, |ds|)) in out
    ensures HasCall(out, ds, j)
  {
    FoldCompletes(ds, j);
    var c :| 0 <= c < |out| && out[c] == Normalized(CallOf(ds, j, |ds|));
  }

  lemma {:induction false} FoldComes(ds: seq<ToolCallDelta>, call: ToolCall)
    requires exists j :: 0 <= j < |ds| && Opens(ds, j) && call == Normalized(CallOf(ds, j, |ds|))
    ensures IsOpened(call, ds)
  {
    var j :| 0 <= j < |ds| && Opens(ds, j) && call == Normalized(CallOf(ds, j, |ds|));
    FoldCompletes(ds, j);
  }

  lemma {:induction false} FoldIsAssembled(ds: seq<ToolCallDelta>)
    requires RefinesFold(ds)
    ensures AssembledFrom(ds, Drained(After(ds, |ds|)))
  {
    var out := Drained(After(ds, |ds|));
    forall j: nat | j < |ds| && Opens(ds, j) ensures HasCall(out, ds, j) {
      FoldHolds(ds, out, j);
    }
    forall c | 0 <= c < |out| ensures IsOpened(out[c], ds) {
      assert out[c] in out;
      FoldComes(ds, out[c]);
    }
  }

  /** With any interleaving and any reuse of indices, an orderly stream is assembled call by call. */
  lemma {:induction false} AssemblerRefinesFold(ds: seq<ToolCallDelta>)
    requires Orderly(ds) && RoomUpTo(ds, |ds|)
    ensures RefinesFold(ds)
  {
    var n := |ds|;
    var st, o := After(ds, n), Openings(ds, n);
    var out := Drained(st);
    RunTracks(ds, n);
    CellsDrained(ds, n, st);
    forall j | 0 <= j < n && Opens(ds, j) ensures Normalized(CallOf(ds, j, n)) in out {
      OpeningsComplete(ds, n, j);
      var c :| 0 <= c < |o| && o[c] == j;
    }
    forall call | call in out ensures exists j :: 0 <= j < n && Opens(ds, j) && call == Normalized(CallOf(ds, j, n)) {
      var c :| 0 <= c < |st.cells| && call == Normalized(st.cells[c]);
      assert Opens(ds, o[c]);
    }
  }

  /** The drained calls are the records, each once. */
  lemma {:induction false} CellsDrained(ds: seq<ToolCallDelta>, n: nat, st: Table)
    requires n <= |ds| && Tracks(ds, n, st)
    ensures var out := Drained(st);
      && Distinct(Ids(out)) && |out| == |st.cells|
      && (forall c :: 0 <= c < |st.cells| ==> Normalized(st.cells[c]) in out)
      && (forall call :: call in out ==> exists c :: 0 <= c < |st.cells| && call == Normalized(st.cells[c]))
  {
    var keys, out := SortedKeys(st.slots.Keys), Drained(st);
    assert forall k :: k in keys ==> k in Elems(keys);
    CellsDistinct(ds, n, st);
    DrainInIds(keys, st, {});
    forall c | 0 <= c < |st.cells| ensures Normalized(st.cells[c]) in out {
      assert Reached(st, c);
      var k :| k in st.slots && st.slots[k] == c;
      assert k in Elems(keys);
      assert st.cells[c] == CallOf(ds, Openings(ds, n)[c], n);
      DrainInCovers(keys, st, {}, k);
    }
    SameCount(out, st.cells);
  }

  lemma {:induction false} SameCount(out: seq<ToolCall>, cells: seq<ToolCall>)
    requires Distinct(Ids(out)) && Distinct(Ids(cells))
    requires forall call :: call in out ==> exists c :: 0 <= c < |cells| && call == Normalized(cells[c])
    requires forall c :: 0 <= c < |cells| ==> Normalized(cells[c]) in out
    ensures |out| == |cells|
  {
    forall x ensures x in Ids(out) <==> x in Ids(cells) {
      if x in Ids(out) {
        var i :| 0 <= i < |out| && Ids(out)[i] == x;
        assert out[i] in out;
        var c :| 0 <= c < |cells| && out[i] == Normalized(cells[c]);
        assert Ids(cells)[c] == x;
      }
      if x in Ids(cells) {
        var c :| 0 <= c < |cells| && Ids(cells)[c] == x;
        var i :| 0 <= i < |out| && out[i] == Normalized(cells[c]);
        assert Ids(out)[i] == x;
      }
    }
    assert Elems(Ids(out)) == Elems(Ids(cells));
    DistinctElems(Ids(out));
    DistinctElems(Ids(cells));
  }

  /** A full map stays full and admits no further call. */
  lemma {:induction false} FullStaysFull(st: Table, d: ToolCallDelta)
    requires Linked(st) && |st.slots| >= MAX_TOOL_CALLS_PER_ROUND
    ensures Linked(Step(st, d)) && |Step(st, d).slots| >= MAX_TOOL_CALLS_PER_ROUND && |Step(st, d).cells| == |st.cells|
  {
    if d.index in st.slots && IsDifferentCall(st.cells[st.slots[d.index]], d) {
      assert At(UnusedIndex(st.slots.Keys)) !in st.slots;
    }
  }

  lemma {:induction false} FullAtLast(ds: seq<ToolCallDelta>, k: nat, c: nat)
    requires k <= |ds| && FullWith(ds, k, c)
    ensures FullWith(ds, |ds|, c)
  {
    for n := k to |ds|
      invariant FullWith(ds, n, c)
    {
      FullNext(ds, n, c);
    }
  }

  ghost predicate FullWith(ds: seq<ToolCallDelta>, n: nat, c: nat)
    requires n <= |ds|
  {
    |After(ds, n).slots| >= MAX_TOOL_CALLS_PER_ROUND && |After(ds, n).cells| == c
  }

  lemma {:induction false} FullNext(ds: seq<ToolCallDelta>, n: nat, c: nat)
    requires n < |ds| && FullWith(ds, n, c)
    ensures FullWith(ds, n + 1, c)
  {
    FullStaysFull(After(ds, n), ds[n]);
    assert After(ds, n + 1) == Step(After(ds, n), ds[n]);
  }

  /** An opening without room is dropped, and leaves the map full. */
  lemma {:induction false} OpeningDropped(ds: seq<ToolCallDelta>, n: nat, st: Table)
    requires n < |ds| && Tracks(ds, n, st) && Opens(ds, n) && !HasRoom(st, ds[n])
    ensures |Step(st, ds[n]).slots| >= MAX_TOOL_CALLS_PER_ROUND && Step(st, ds[n]).cells == st.cells
  {
    var d := ds[n];
    if d.index in st.slots {
      var j := Openings(ds, n)[st.slots[d.index]];
      assert st.cells[st.slots[d.index]].id == ds[j].id && ds[j].id != d.id;
      assert At(UnusedIndex(st.slots.Keys)) !in st.slots;
    }
  }

  /** So the assembler then drains fewer calls than were opened. */
  lemma {:induction false} DroppedForGood(ds: seq<ToolCallDelta>, k: nat)
    requires k < |ds| && Tracked(ds, k) && Opens(ds, k) && !HasRoom(After(ds, k), ds[k])
    ensures |Drained(After(ds, |ds|))| < |Openings(ds, |ds|)|
  {
    FullBehind(ds, k);
    FullAtLast(ds, k + 1, |Openings(ds, k)|);
    OpeningsGrow(ds, k + 1, |ds|);
    RunBounded(ds, |ds|);
    DrainedCount(After(ds, |ds|));
  }

  lemma {:induction false} FullBehind(ds: seq<ToolCallDelta>, k: nat)
    requires k < |ds| && Tracked(ds, k) && Opens(ds, k) && !HasRoom(After(ds, k), ds[k])
    ensures FullWith(ds, k + 1, |Openings(ds, k)|) && |Openings(ds, k + 1)| == |Openings(ds, k)| + 1
  {
    OpeningDropped(ds, k, After(ds, k));
    assert After(ds, k + 1) == Step(After(ds, k), ds[k]);
  }

  /** The exact condition: an orderly stream is assembled call by call if and only if every opening finds room in the
      map. */
  lemma {:induction false} RefinesExactlyWithRoom(ds: seq<ToolCallDelta>)
    requires Orderly(ds)
    ensures RefinesFold(ds) <==> RoomUpTo(ds, |ds|)
  {
    RoomOrLoss(ds);
    if RoomUpTo(ds, |ds|) { AssemblerRefinesFold(ds); }
  }

  /** Either every opening finds room, or fewer calls are drained than were opened. */
  lemma {:induction false} RoomOrLoss(ds: seq<ToolCallDelta>)
    requires Orderly(ds)
    ensures RoomUpTo(ds, |ds|) || |Drained(After(ds, |ds|))| < |Openings(ds, |ds|)|
  {
    var k := 0;
    while k < |ds| && !(Opens(ds, k) && !HasRoom(After(ds, k), ds[k]))
      invariant k <= |ds| && RoomUpTo(ds, k)
    {
      k := k + 1;
    }
    if k < |ds| {
      RunTracks(ds, k);
      DroppedForGood(ds, k);
    }
  }

  // ----- conditions a driver can read off the stream -----

  /** Below the cap there is always room, reused indices or not. */
  lemma {:induction false} RoomBelowCap(ds: seq<ToolCallDelta>, n: nat)
    requires Orderly(ds) && n <= |ds| && |Openings(ds, n)| < MAX_TOOL_CALLS_PER_ROUND
    ensures RoomUpTo(ds, n)
  {
    TracksNothing(ds);
    for k := 0 to n
      invariant Tracked(ds, k) && RoomUpTo(ds, k)
    {
      RoomForNext(ds, k, n);
      TrackStep(ds, k);
    }
  }

  lemma {:induction false} RoomForNext(ds: seq<ToolCallDelta>, k: nat, n: nat)
    requires k < n <= |ds| && Tracked(ds, k) && |Openings(ds, n)| < MAX_TOOL_CALLS_PER_ROUND
    ensures Opens(ds, k) ==> HasRoom(After(ds, k), ds[k])
  {
    OpeningsGrow(ds, k + 1, n);
  }

  /** Fewer than 512 calls are assembled one by one, whatever their indices. */
  lemma {:induction false} FewerThanCapRefine(ds: seq<ToolCallDelta>)
    requires Orderly(ds) && |Openings(ds, |ds|)| < MAX_TOOL_CALLS_PER_ROUND
    ensures RefinesFold(ds)
  {
    RoomBelowCap(ds, |ds|);
    AssemblerRefinesFold(ds);
  }

  /** At the cap itself it all depends on the last call: 512 calls are assembled if and only if its index is free. */
  lemma {:induction false} CapRefinesIffLastIndexFree(ds: seq<ToolCallDelta>, last: nat)
    requires Orderly(ds) && |Openings(ds, |ds|)| == MAX_TOOL_CALLS_PER_ROUND
    requires last < |ds| && Opens(ds, last) && forall k :: last < k < |ds| ==> !Opens(ds, k)
    ensures RefinesFold(ds) <==> ds[last].index !in After(ds, last).slots
  {
    NoneOpenBehind(ds, last + 1, |ds|);
    RoomBelowCap(ds, last);
    RunTracks(ds, last);
    assert HasRoom(After(ds, last), ds[last]) <==> ds[last].index !in After(ds, last).slots;
    RefinesExactlyWithRoom(ds);
  }

  lemma {:induction false} NoneOpenBehind(ds: seq<ToolCallDelta>, m: nat, n: nat)
    requires m <= n <= |ds| && forall k :: m <= k < n ==> !Opens(ds, k)
    ensures Openings(ds, n) == Openings(ds, m)
    decreases n
  {
    if m < n { NoneOpenBehind(ds, m, n - 1); }
  }

  /** No two calls are opened at the same index. */
  ghost predicate IndicesDiffer(ds: seq<ToolCallDelta>) {
    forall k {:trigger Opens(ds, k)} :: 0 <= k < |ds| && Opens(ds, k) ==> LastOpening(ds, k, ds[k].index) < 0
  }

  /** Then the map holds nothing but the opened indices. */
  ghost predicate OnlyOpened(ds: seq<ToolCallDelta>, n: nat)
    requires n <= |ds|
  {
    forall x :: x in After(ds, n).slots ==> LastOpening(ds, n, x) >= 0
  }

  lemma {:induction false} OnlyOpenedStep(ds: seq<ToolCallDelta>, n: nat)
    requires n < |ds| && Tracked(ds, n) && OnlyOpened(ds, n) && Orderly(ds)
    requires Opens(ds, n) ==> LastOpening(ds, n, ds[n].index) < 0 && HasRoom(After(ds, n), ds[n])
    ensures OnlyOpened(ds, n + 1)
  {
    var st, d := After(ds, n), ds[n];
    assert After(ds, n + 1) == Step(st, d);
    if Opens(ds, n) {
      assert d.index !in st.slots by { LatestIsMapped(ds, n, st, d.index); }
      OpenedState(ds, n, st);
    } else {
      assert Owner(ds, n) == LastOpening(ds, n, d.index);
    }
    forall x | x in Step(st, d).slots ensures LastOpening(ds, n + 1, x) >= 0 {
      if x in st.slots { assert LastOpening(ds, n, x) >= 0; }
    }
  }

  lemma {:induction false} LatestIsMapped(ds: seq<ToolCallDelta>, n: nat, st: Table, x: Index)
    requires n <= |ds| && Tracks(ds, n, st) && LastOpening(ds, n, x) < 0
    requires forall y :: y in st.slots ==> LastOpening(ds, n, y) >= 0
    ensures x !in st.slots
  {}

  lemma {:induction false} RoomAtFreeIndex(ds: seq<ToolCallDelta>, k: nat)
    requires k < |ds| && Tracked(ds, k) && Opens(ds, k) && ds[k].index !in After(ds, k).slots
    requires |Openings(ds, |ds|)| <= MAX_TOOL_CALLS_PER_ROUND
    ensures HasRoom(After(ds, k), ds[k])
  {
    OpeningsGrow(ds, k + 1, |ds|);
  }

  /** Up to 512 calls at indices of their own are assembled one by one. */
  lemma {:induction false} OwnIndicesRefine(ds: seq<ToolCallDelta>)
    requires Orderly(ds) && IndicesDiffer(ds) && |Openings(ds, |ds|)| <= MAX_TOOL_CALLS_PER_ROUND
    ensures RefinesFold(ds)
  {
    OwnIndicesHaveRoom(ds);
    AssemblerRefinesFold(ds);
  }

  lemma {:induction false} OwnIndicesHaveRoom(ds: seq<ToolCallDelta>)
    requires Orderly(ds) && IndicesDiffer(ds) && |Openings(ds, |ds|)| <= MAX_TOOL_CALLS_PER_ROUND
    ensures RoomUpTo(ds, |ds|)
  {
    TracksNothing(ds);
    for k := 0 to |ds|
      invariant Tracked(ds, k) && RoomUpTo(ds, k) && OnlyOpened(ds, k)
    {
      if Opens(ds, k) { RoomAtFreeIndex(ds, k); }
      OnlyOpenedStep(ds, k);
      TrackStep(ds, k);
    }
  }

  // ----- where refinement fails -----

  /** A driver that never sets an index: every delta opens a call of its own at index 0. */
  function Burst(n: nat): seq<ToolCallDelta> {
    seq(n, k requires 0 <= k < n => ToolCallDelta(At(0), seq(k + 1, _ => 'a'), "f", ""))
  }

  lemma {:induction false} BurstOpens(n: nat, k: nat)
    requires k < n
    ensures Opens(Burst(n), k) && Owner(Burst(n), k) == k
  {
    var ds := Burst(n);
    forall j | 0 <= j < k ensures ds[j].id != ds[k].id {
      assert |ds[j].id| == j + 1 && |ds[k].id| == k + 1;
    }
  }

  lemma {:induction false} BurstCounts(n: nat, m: nat)
    requires m <= n
    ensures |Openings(Burst(n), m)| == m
    decreases m
  {
    if m > 0 {
      BurstCounts(n, m - 1);
      BurstOpens(n, m - 1);
    }
  }

  lemma {:induction false} BurstArguments(n: nat, j: nat, m: nat)
    requires m <= n
    ensures FragmentsOf(Burst(n), j, m) == ""
    decreases m
  {
    if m > 0 { BurstArguments(n, j, m - 1); }
  }

  lemma {:induction false} BurstIsOrderly(n: nat)
    ensures Orderly(Burst(n)) && forall k :: 0 <= k < n ==> FragmentsOf(Burst(n), k, n) == ""
  {
    forall k | 0 <= k < n ensures Owner(Burst(n), k) == k && FragmentsOf(Burst(n), k, n) == "" {
      BurstOpens(n, k);
      BurstArguments(n, k, n);
    }
  }

  /** All but one of the calls, each moved aside by the next, leave no room for the last. */
  lemma {:induction false} BurstFillsMap(n: nat)
    requires n == MAX_TOOL_CALLS_PER_ROUND && RoomUpTo(Burst(n), n - 1)
    ensures Opens(Burst(n), n - 1) && !HasRoom(After(Burst(n), n - 1), Burst(n)[n - 1])
  {
    BurstIsOrderly(n);
    RunTracks(Burst(n), n - 1);
    BurstCounts(n, n - 1);
    BurstOpens(n, n - 1);
    BurstOpens(n, n - 2);
    assert LastOpening(Burst(n), n - 1, At(0)) == n - 2;
  }

  /** The 512 calls of such a driver are within both caps, yet they are not all assembled. */
  lemma {:induction false} BurstLosesCall(n: nat)
    requires n == MAX_TOOL_CALLS_PER_ROUND
    ensures Orderly(Burst(n)) && |Openings(Burst(n), n)| == n && !RefinesFold(Burst(n))
    ensures forall k :: 0 <= k < n ==> FragmentsOf(Burst(n), k, n) == ""
  {
    BurstIsOrderly(n);
    BurstCounts(n, n);
    if RoomUpTo(Burst(n), n - 1) { BurstFillsMap(n); }
    RefinesExactlyWithRoom(Burst(n));
  }

  /** What goes wrong without room: one short of the cap, reusing an index loses the new call,
      and a fragment that follows it is appended to the call that held the index before. */
  lemma {:induction false} ReuseAtCapMisroutes(st: Table, opening: ToolCallDelta, fragment: ToolCallDelta)
    requires Linked(st) && |st.slots| == MAX_TOOL_CALLS_PER_ROUND - 1
    requires opening.index in st.slots && IsDifferentCall(st.cells[st.slots[opening.index]], opening)
    requires fragment.index == opening.index && fragment.id == ""
    ensures var st' := Step(st, opening);
      var c := st.slots[opening.index];
      && st'.cells == st.cells
      && Linked(st') && Step(st', fragment).cells == st.cells[c := Merge(st.cells[c], fragment)]
  {
    assert At(UnusedIndex(st.slots.Keys)) !in st.slots;
  }
}

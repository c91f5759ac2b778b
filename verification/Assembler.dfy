/** The tool-call delta assembler: a mutable map from provider-chosen indices to call
    records, with relocation when an index is reused for a different call. */
module Assembler {
  import opened Transcript
  import opened Validators

  const MAX_TOOL_CALLS_PER_ROUND := 512
  const MAX_TOOL_CALL_ARGUMENTS := 1048576

  /** A provider-chosen index: any integer, sparse, negative or repeated. */
  datatype Index = At(n: int)

  datatype ToolCallDelta = ToolCallDelta(index: Index, id: string, name: string, arguments: string)

  /** The records in creation order, and which record each index points at. */
  datatype Table = Table(slots: map<Index, nat>, cells: seq<ToolCall>)

  ghost predicate Linked(st: Table) {
    forall k :: k in st.slots ==> st.slots[k] < |st.cells|
  }

  // ----- specification of one delta -----

  /** The least index that is above every key and not negative. */
  ghost predicate IsUnused(keys: set<Index>, n: int) {
    n >= 0 && (forall k :: k in keys ==> k.n < n) && (n == 0 || At(n - 1) in keys)
  }

  lemma {:induction false} UnusedExists(keys: set<Index>)
    ensures exists n :: IsUnused(keys, n)
    decreases keys
  {
    if keys == {} {
      assert IsUnused(keys, 0);
    } else {
      var k :| k in keys;
      UnusedExists(keys - {k});
      var n :| IsUnused(keys - {k}, n);
      UnusedExtends(keys - {k}, n, k);
      assert keys - {k} + {k} == keys;
    }
  }

  lemma {:induction false} UnusedExtends(keys: set<Index>, n: int, k: Index)
    requires IsUnused(keys, n)
    ensures IsUnused(keys + {k}, if k.n >= n then k.n + 1 else n)
  {}

  ghost function UnusedIndex(keys: set<Index>): (n: int)
    ensures IsUnused(keys, n)
  {
    UnusedExists(keys);
    var n :| IsUnused(keys, n);
    n
  }

  function Merge(call: ToolCall, d: ToolCallDelta): ToolCall {
    ToolCall(
      if d.id != "" then d.id else call.id,
      if d.name != "" then d.name else call.name,
      if |call.arguments| + |d.arguments| > MAX_TOOL_CALL_ARGUMENTS then call.arguments
        else call.arguments + d.arguments)
  }

  /** A differing nonempty id at an occupied index announces a new call. */
  predicate IsDifferentCall(call: ToolCall, d: ToolCallDelta) {
    d.id != "" && call.id != "" && d.id != call.id
  }

  ghost function Step(st: Table, d: ToolCallDelta): Table
    requires Linked(st)
  {
    if d.index in st.slots && !IsDifferentCall(st.cells[st.slots[d.index]], d) then
      var c := st.slots[d.index];
      Table(st.slots, st.cells[c := Merge(st.cells[c], d)])
    else
      var slots := if d.index in st.slots then st.slots[At(UnusedIndex(st.slots.Keys)) := st.slots[d.index]]
        else st.slots;
      if |slots| >= MAX_TOOL_CALLS_PER_ROUND then Table(slots, st.cells)
      else Table(slots[d.index := |st.cells|], st.cells + [Merge(ToolCall("", "", ""), d)])
  }

  lemma {:induction false} StepLinked(st: Table, d: ToolCallDelta)
    requires Linked(st)
    ensures Linked(Step(st, d))
  {}

  /** The state after the first `n` deltas. */
  ghost function After(ds: seq<ToolCallDelta>, n: nat): (st: Table)
    requires n <= |ds|
    ensures Linked(st)
  {
    if n == 0 then Table(map[], []) else
      StepLinked(After(ds, n - 1), ds[n - 1]);
      Step(After(ds, n - 1), ds[n - 1])
  }

  // ----- specification of the drain -----

  function Normalized(call: ToolCall): ToolCall {
    if Blank(call.arguments) then call.(arguments := "{}") else call
  }

  ghost predicate Increasing(s: seq<Index>) {
    forall i, j :: 0 <= i < j < |s| ==> s[i].n < s[j].n
  }

  function DrainIn(keys: seq<Index>, st: Table, seen: set<string>): seq<ToolCall>
    requires forall k :: k in keys ==> k in st.slots
    requires Linked(st)
  {
    if keys == [] then []
    else
      var call := st.cells[st.slots[keys[0]]];
      if call.id == "" || call.id in seen then DrainIn(keys[1..], st, seen)
      else [Normalized(call)] + DrainIn(keys[1..], st, seen + {call.id})
  }

  /** The first `n` keys have been drained. */
  ghost predicate DrainedUpTo(keys: seq<Index>, n: nat, st: Table, seen: set<string>, drained: seq<ToolCall>)
    requires n <= |keys| && Linked(st) && forall k :: k in keys ==> k in st.slots
  {
    drained + DrainIn(keys[n..], st, seen) == DrainIn(keys, st, {})
  }

  lemma {:induction false} DrainStarts(keys: seq<Index>, st: Table)
    requires Linked(st) && forall k :: k in keys ==> k in st.slots
    ensures DrainedUpTo(keys, 0, st, {}, [])
  {
    assert keys[0..] == keys;
  }

  lemma {:induction false} DrainStep(keys: seq<Index>, n: nat, st: Table, seen: set<string>, drained: seq<ToolCall>)
    requires n < |keys| && Linked(st) && (forall k :: k in keys ==> k in st.slots)
    requires DrainedUpTo(keys, n, st, seen, drained)
    ensures var call := st.cells[st.slots[keys[n]]];
      if call.id == "" || call.id in seen then DrainedUpTo(keys, n + 1, st, seen, drained)
      else DrainedUpTo(keys, n + 1, st, seen + {call.id}, drained + [Normalized(call)])
  {
    var call := st.cells[st.slots[keys[n]]];
    assert keys[n..][1..] == keys[n + 1..];
    ConcatAssoc(drained, [Normalized(call)], DrainIn(keys[n + 1..], st, seen + {call.id}));
  }

  lemma {:induction false} DrainEnds(keys: seq<Index>, st: Table, seen: set<string>, drained: seq<ToolCall>)
    requires Linked(st) && (forall k :: k in keys ==> k in st.slots) && DrainedUpTo(keys, |keys|, st, seen, drained)
    ensures drained == DrainIn(keys, st, {})
  {}

  lemma {:induction false} IncreasingUnique(s: seq<Index>, t: seq<Index>)
    requires Increasing(s) && Increasing(t) && Elems(s) == Elems(t)
    ensures s == t
    decreases |s|
  {
    if s != [] || t != [] {
      var a, b := |s| - 1, |t| - 1;
      assert s != [] by { if t != [] { assert t[0] in Elems(s); } }
      assert t != [] by { assert s[0] in Elems(t); }
      assert s[a] == t[b] by {
        assert s[a] in Elems(t) && t[b] in Elems(s);
      }
      assert Elems(s[..a]) == Elems(s) - {s[a]};
      assert Elems(t[..b]) == Elems(t) - {t[b]};
      IncreasingUnique(s[..a], t[..b]);
      assert s == s[..a] + [s[a]] && t == t[..b] + [t[b]];
    }
  }

  lemma {:induction false} SortedExists(keys: set<Index>)
    ensures exists s: seq<Index> :: Increasing(s) && Elems(s) == keys
    decreases keys
  {
    if keys == {} {
      assert Increasing([]) && Elems<Index>([]) == keys;
    } else {
      var m := Greatest(keys);
      SortedExists(keys - {m});
      var s: seq<Index> :| Increasing(s) && Elems(s) == keys - {m};
      var t := s + [m];
      forall i | 0 <= i < |s| ensures s[i].n < m.n { assert s[i] in Elems(s); }
      assert Increasing(t);
      ElemsSnoc(s, m);
    }
  }

  lemma {:induction false} Greatest(keys: set<Index>) returns (m: Index)
    requires keys != {}
    ensures m in keys && forall k :: k in keys ==> k.n <= m.n
    decreases keys
  {
    var k :| k in keys;
    if keys - {k} == {} {
      assert keys == {k};
      m := k;
    } else {
      var n := Greatest(keys - {k});
      m := if n.n > k.n then n else k;
    }
  }

  ghost function SortedKeys(keys: set<Index>): (s: seq<Index>)
    ensures Increasing(s) && Elems(s) == keys
  {
    SortedExists(keys);
    var s :| Increasing(s) && Elems(s) == keys;
    s
  }

  /** Calls in index order, without empty and repeated ids. */
  ghost function Drained(st: Table): seq<ToolCall>
    requires Linked(st)
  {
    var keys := SortedKeys(st.slots.Keys);
    assert forall k :: k in keys ==> k in Elems(keys);
    DrainIn(keys, st, {})
  }

  // ----- the code -----

  class Cell {
    var id: string
    var name: string
    var arguments: string

    constructor ()
      ensures id == "" && name == "" && arguments == ""
    {
      id, name, arguments := "", "", "";
    }

    function Value(): ToolCall
      reads this
    {
      ToolCall(id, name, arguments)
    }

    method Normalize()
      modifies this`arguments
      ensures Value() == Normalized(old(Value()))
    {
      if Blank(arguments) {
        arguments := "{}";
      }
    }

    method Absorb(d: ToolCallDelta)
      modifies this
      ensures Value() == Merge(old(Value()), d)
    {
      if d.id != "" {
        id := d.id;
      }
      if d.name != "" {
        name := d.name;
      }
      if |arguments| + |d.arguments| <= MAX_TOOL_CALL_ARGUMENTS {
        arguments := arguments + d.arguments;
      }
    }
  }

  method FindUnusedIndex(keys: set<Index>) returns (next: int)
    ensures next == UnusedIndex(keys)
  {
    next := 0;
    var rest := keys;
    while rest != {}
      invariant rest <= keys && IsUnused(keys - rest, next)
      decreases rest
    {
      var index :| index in rest;
      UnusedExtends(keys - rest, next, index);
      assert keys - (rest - {index}) == keys - rest + {index};
      if index.n >= next {
        next := index.n + 1;
      }
      rest := rest - {index};
    }
    assert keys - rest == keys;
  }

  method SortKeys(keys: set<Index>) returns (sorted: seq<Index>)
    ensures sorted == SortedKeys(keys) && forall k :: k in sorted ==> k in keys
  {
    sorted := [];
    var rest := keys;
    while rest != {}
      invariant rest <= keys && Increasing(sorted) && Elems(sorted) == keys - rest
      invariant forall k, r :: k in sorted && r in rest ==> k.n < r.n
      decreases rest
    {
      var least := Least(rest);
      assert least !in sorted;
      forall i | 0 <= i < |sorted| ensures sorted[i].n < least.n { assert sorted[i] in sorted; }
      ElemsSnoc(sorted, least);
      sorted := sorted + [least];
      rest := rest - {least};
    }
    IncreasingUnique(sorted, SortedKeys(keys));
    assert forall k :: k in sorted ==> k in Elems(sorted);
  }

  method Least(keys: set<Index>) returns (m: Index)
    requires keys != {}
    ensures m in keys && forall k :: k in keys ==> m.n <= k.n
  {
    m :| m in keys;
    var rest := keys - {m};
    while rest != {}
      invariant rest <= keys && m in keys && forall k :: k in keys - rest ==> m.n <= k.n
      decreases rest
    {
      var k :| k in rest;
      if k.n < m.n {
        m := k;
      }
      rest := rest - {k};
    }
  }

  class ToolCallAssembler {
    var calls: map<Index, Cell>
    /** Every record ever created, in order, and the abstract state they amount to. */
    ghost var cells: seq<Cell>
    ghost var state: Table

    /** The map points where the specification's map points. */
    ghost predicate Indexed()
      reads this
    {
      && Linked(state) && |cells| == |state.cells| && Distinct(cells)
      && calls.Keys == state.slots.Keys
      && (forall k :: k in calls ==> calls[k] == cells[state.slots[k]])
    }

    ghost predicate Valid()
      reads this, cells
    {
      && Indexed()
      && (forall c :: 0 <= c < |cells| ==> cells[c].Value() == state.cells[c])
    }

    constructor ()
      ensures Valid() && fresh(cells) && state == Table(map[], [])
    {
      calls, cells, state := map[], [], Table(map[], []);
    }

    /** One delta. At the per-round cap the new call is dropped, but an index reused for it is relocated already. */
    method Consume(d: ToolCallDelta)
      requires Valid()
      modifies this, cells
      ensures Valid() && state == Step(old(state), d)
      ensures forall c :: 0 <= c < |cells| ==> cells[c] in old(cells) || fresh(cells[c])
    {
      if d.index in calls && !IsDifferentCall(calls[d.index].Value(), d) {
        Continue(d);
        return;
      }
      if d.index in calls {
        Relocate(d.index);
      }
      if |calls| >= MAX_TOOL_CALLS_PER_ROUND {
        return;
      }
      Open(d);
    }

    method Continue(d: ToolCallDelta)
      requires Valid() && d.index in calls
      modifies this`state, cells
      ensures Valid() && cells == old(cells)
      ensures var c := old(state).slots[d.index];
        state == Table(old(state).slots, old(state).cells[c := Merge(old(state).cells[c], d)])
    {
      ghost var c := state.slots[d.index];
      calls[d.index].Absorb(d);
      state := Table(state.slots, state.cells[c := Merge(state.cells[c], d)]);
    }

    method Relocate(index: Index)
      requires Valid() && index in calls
      modifies this`calls, this`state
      ensures Valid()
      ensures state
        == Table(old(state).slots[At(UnusedIndex(old(state).slots.Keys)) := old(state).slots[index]], old(state).cells)
    {
      var next := FindUnusedIndex(calls.Keys);
      calls, state := calls[At(next) := calls[index]], Table(state.slots[At(next) := state.slots[index]], state.cells);
    }

    method Open(d: ToolCallDelta)
      requires Valid()
      modifies this
      ensures Valid() && |cells| == |old(cells)| + 1 && cells[..|old(cells)|] == old(cells)
      ensures fresh(cells[|old(cells)|])
      ensures state
        == Table(old(state).slots[d.index := |old(state).cells|], old(state).cells + [Merge(ToolCall("", "", ""), d)])
    {
      var call := new Cell();
      call.Absorb(d);
      state := Table(state.slots[d.index := |state.cells|], state.cells + [Merge(ToolCall("", "", ""), d)]);
      cells := cells + [call];
      calls := calls[d.index := call];
    }

    method Drain() returns (drained: seq<ToolCall>)
      requires Valid()
      modifies cells
      ensures drained == Drained(state)
    {
      drained := [];
      var seen := {};
      var keys := SortKeys(calls.Keys);
      DrainStarts(keys, state);
      for n := 0 to |keys|
        invariant Draining(keys, n, seen, drained)
      {
        seen, drained := DrainNext(keys, n, seen, drained);
      }
      DrainEnds(keys, state, seen, drained);
    }

    /** The first `n` keys are drained, and the records of the others are as they were. */
    ghost predicate Draining(keys: seq<Index>, n: nat, seen: set<string>, drained: seq<ToolCall>)
      reads this, cells
    {
      && n <= |keys| && Indexed() && Untouched(seen)
      && (forall k :: k in keys ==> k in state.slots) && DrainedUpTo(keys, n, state, seen, drained)
    }

    method DrainNext(keys: seq<Index>, n: nat, seen: set<string>, drained: seq<ToolCall>)
      returns (seen': set<string>, drained': seq<ToolCall>)
      requires n < |keys| && Draining(keys, n, seen, drained)
      modifies cells
      ensures Draining(keys, n + 1, seen', drained')
    {
      var key := keys[n];
      assert key in keys;
      DrainStep(keys, n, state, seen, drained);
      var call := DrainOne(key, seen);
      seen', drained' := seen, drained;
      if call.Some? {
        seen', drained' := seen + {call.value.id}, drained + [call.value];
      }
    }

    /** The record at one key, normalized in place, unless it has no id or was drained under another key. */
    method DrainOne(key: Index, seen: set<string>) returns (drained: Option<ToolCall>)
      requires Indexed() && Untouched(seen) && key in calls
      modifies cells
      ensures var call := state.cells[state.slots[key]];
        drained == if call.id == "" || call.id in seen then None else Some(Normalized(call))
      ensures Untouched(if drained.Some? then seen + {drained.value.id} else seen)
    {
      var call := calls[key];
      ghost var c := state.slots[key];
      assert call == cells[c] && call.id == state.cells[c].id;
      if call.id == "" || call.id in seen {
        return None;
      }
      assert call.Value() == state.cells[c];
      call.Normalize();
      drained := Some(call.Value());
    }

    /** Ids never change while draining; records not drained yet are as they were. */
    ghost predicate Untouched(seen: set<string>)
      reads this, cells
    {
      && |cells| == |state.cells|
      && (forall c :: 0 <= c < |cells| ==> cells[c].id == state.cells[c].id)
      && (forall c :: 0 <= c < |cells| && cells[c].id !in seen ==> cells[c].Value() == state.cells[c])
    }
  }
}

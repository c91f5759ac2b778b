/** Vocabulary for saying what a list consists of, without saying how it is computed. */
module Sequences {

  /** All parts, one behind the other. */
  ghost function Concat<T>(parts: seq<seq<T>>): seq<T> {
    if parts == [] then [] else parts[0] + Concat(parts[1..])
  }

  /** `pos` lists, in order, exactly the positions that `keep` marks. */
  ghost predicate Lists(pos: seq<nat>, keep: seq<bool>) {
    && (forall a, b :: 0 <= a < b < |pos| ==> pos[a] < pos[b])
    && (forall a :: 0 <= a < |pos| ==> pos[a] < |keep| && keep[pos[a]])
    && (forall i :: 0 <= i < |keep| && keep[i] ==> exists a :: 0 <= a < |pos| && pos[a] == i)
  }

  lemma {:induction false} ConcatSnoc<T>(parts: seq<seq<T>>, part: seq<T>)
    ensures Concat(parts + [part]) == Concat(parts) + part
    decreases |parts|
  {
    if parts == [] {
      assert (parts + [part])[1..] == [];
    } else {
      assert (parts + [part])[1..] == parts[1..] + [part];
      ConcatSnoc(parts[1..], part);
    }
  }

  /** The last part is the end. */
  lemma {:induction false} ConcatLast<T>(parts: seq<seq<T>>)
    requires parts != []
    ensures Concat(parts) == Concat(parts[..|parts| - 1]) + parts[|parts| - 1]
  {
    ConcatSnoc(parts[..|parts| - 1], parts[|parts| - 1]);
    assert parts[..|parts| - 1] + [parts[|parts| - 1]] == parts;
  }

  lemma {:induction false} ListsNothing()
    ensures Lists([], [])
  {}

  lemma {:induction false} ListsSnoc(pos: seq<nat>, keep: seq<bool>, last: bool)
    requires Lists(pos, keep)
    ensures Lists(if last then pos + [|keep|] else pos, keep + [last])
  {
    var more: seq<nat> := if last then pos + [|keep|] else pos;
    forall i | 0 <= i < |keep + [last]| && (keep + [last])[i] ensures exists a :: 0 <= a < |more| && more[a] == i {
      if i < |keep| {
        var a :| 0 <= a < |pos| && pos[a] == i;
        assert more[a] == i;
      } else {
        assert more[|pos|] == i;
      }
    }
  }

  /** The positions of a second list, behind those of a first of length `n`. */
  function Behind(n: nat, pos: seq<nat>): (r: seq<nat>)
    ensures |r| == |pos| && forall a :: 0 <= a < |pos| ==> r[a] == n + pos[a]
  {
    seq(|pos|, a requires 0 <= a < |pos| => n + pos[a])
  }

  lemma {:induction false} ListsConcat(pos: seq<nat>, keep: seq<bool>, pos': seq<nat>, keep': seq<bool>)
    requires Lists(pos, keep) && Lists(pos', keep')
    ensures Lists(pos + Behind(|keep|, pos'), keep + keep')
  {
    var all, marks := pos + Behind(|keep|, pos'), keep + keep';
    forall i | 0 <= i < |marks| && marks[i] ensures exists a :: 0 <= a < |all| && all[a] == i {
      if i < |keep| {
        var a :| 0 <= a < |pos| && pos[a] == i;
        assert all[a] == i;
      } else {
        assert keep'[i - |keep|];
        var a :| 0 <= a < |pos'| && pos'[a] == i - |keep|;
        assert all[|pos| + a] == i;
      }
    }
  }

  /** A listed position that is not among the first `k` comes at `k` or later. */
  lemma {:induction false} ListsBehind(pos: seq<nat>, keep: seq<bool>, k: nat, i: nat)
    requires Lists(pos, keep) && k <= |pos| && i < |keep| && keep[i] && forall a :: 0 <= a < k ==> pos[a] < i
    ensures k < |pos| && pos[k] <= i
  {
    var a :| 0 <= a < |pos| && pos[a] == i;
    assert a >= k;
  }

  /** What is marked determines the list. */
  lemma {:induction false} ListsUnique(pos: seq<nat>, pos': seq<nat>, keep: seq<bool>)
    requires Lists(pos, keep) && Lists(pos', keep)
    ensures pos == pos'
  {
    for k := 0 to |pos|
      invariant k <= |pos'| && forall a :: 0 <= a < k ==> pos[a] == pos'[a]
    {
      ListsBehind(pos', keep, k, pos[k]);
      ListsBehind(pos, keep, k, pos'[k]);
    }
  }

  // ----- selections -----

  /** `out` is what `keep` marks in `s`, in order. */
  ghost predicate Selects<T>(out: seq<T>, s: seq<T>, keep: seq<bool>) {
    |keep| == |s| && exists pos {:trigger Lists(pos, keep)} :: Lists(pos, keep) && Picks(out, s, pos)
  }

  ghost predicate Picks<T>(out: seq<T>, s: seq<T>, pos: seq<nat>) {
    |out| == |pos| && forall a :: 0 <= a < |pos| ==> pos[a] < |s| && out[a] == s[pos[a]]
  }

  lemma {:induction false} SelectsBy<T>(pos: seq<nat>, out: seq<T>, s: seq<T>, keep: seq<bool>)
    requires |keep| == |s| && Lists(pos, keep) && Picks(out, s, pos)
    ensures Selects(out, s, keep)
  {}

  lemma {:induction false} Selection<T>(out: seq<T>, s: seq<T>, keep: seq<bool>) returns (pos: seq<nat>)
    requires Selects(out, s, keep)
    ensures |keep| == |s| && Lists(pos, keep) && Picks(out, s, pos)
  {
    pos :| Lists(pos, keep) && Picks(out, s, pos);
  }

  lemma {:induction false} SelectsNothing<T>()
    ensures Selects<T>([], [], [])
  {
    ListsNothing();
    SelectsBy<T>([], [], [], []);
  }

  lemma {:induction false} PicksConcat<T>(out: seq<T>, s: seq<T>, pos: seq<nat>, out': seq<T>, s': seq<T>,
                                          pos': seq<nat>)
    requires Picks(out, s, pos) && Picks(out', s', pos')
    ensures Picks(out + out', s + s', pos + Behind(|s|, pos'))
  {}

  lemma {:induction false} SelectsConcat<T>(out: seq<T>, s: seq<T>, keep: seq<bool>, out': seq<T>, s': seq<T>,
                                            keep': seq<bool>)
    requires Selects(out, s, keep) && Selects(out', s', keep')
    ensures Selects(out + out', s + s', keep + keep')
  {
    var pos := Selection(out, s, keep);
    var pos' := Selection(out', s', keep');
    ListsConcat(pos, keep, pos', keep');
    PicksConcat(out, s, pos, out', s', pos');
    SelectsBy(pos + Behind(|s|, pos'), out + out', s + s', keep + keep');
  }

  lemma {:induction false} ListsOne(keep: bool)
    ensures Lists(if keep then [0] else [], [keep])
  {
    ListsNothing();
    ListsSnoc([], [], keep);
    assert [] + [keep] == [keep] && [] + [0] == [0];
  }

  lemma {:induction false} SelectsOne<T>(x: T, keep: bool)
    ensures Selects(if keep then [x] else [], [x], [keep])
  {
    ListsOne(keep);
    SelectsBy(if keep then [0] else [], if keep then [x] else [], [x], [keep]);
  }

  lemma {:induction false} SelectsCons<T>(x: T, first: bool, out: seq<T>, s: seq<T>, keep: seq<bool>)
    requires Selects(out, s, keep)
    ensures Selects(if first then [x] + out else out, [x] + s, [first] + keep)
  {
    SelectsOne(x, first);
    SelectsConcat(if first then [x] else [], [x], [first], out, s, keep);
    assert [] + out == out;
  }

  lemma {:induction false} SelectsSnoc<T>(out: seq<T>, s: seq<T>, keep: seq<bool>, x: T, last: bool)
    requires Selects(out, s, keep)
    ensures Selects(if last then out + [x] else out, s + [x], keep + [last])
  {
    SelectsOne(x, last);
    SelectsConcat(out, s, keep, if last then [x] else [], [x], [last]);
    assert out + [] == out;
  }

  /** What is marked determines the selection. */
  lemma {:induction false} SelectsUnique<T>(out: seq<T>, out': seq<T>, s: seq<T>, keep: seq<bool>)
    requires Selects(out, s, keep) && Selects(out', s, keep)
    ensures out == out'
  {
    var pos := Selection(out, s, keep);
    var pos' := Selection(out', s, keep);
    ListsUnique(pos, pos', keep);
  }

  // ----- first occurrences -----

  /** The name at `i` is wanted, not seen before, and stands nowhere in front of `i`. */
  ghost predicate IsFirst(names: seq<string>, want: string -> bool, seen: set<string>, i: nat)
    requires i < |names|
  {
    want(names[i]) && names[i] !in seen && forall j :: 0 <= j < i ==> names[j] != names[i]
  }

  ghost function Firsts(names: seq<string>, want: string -> bool, seen: set<string>): (keep: seq<bool>)
    ensures |keep| == |names| && forall i :: 0 <= i < |names| ==> keep[i] == IsFirst(names, want, seen, i)
  {
    seq(|names|, i requires 0 <= i < |names| => IsFirst(names, want, seen, i))
  }

  /** Having looked at the first name, the rest is judged with one more name seen. */
  lemma {:induction false} FirstsCons(names: seq<string>, want: string -> bool, seen: set<string>)
    requires names != []
    ensures var first := want(names[0]) && names[0] !in seen;
      Firsts(names, want, seen) == [first] + Firsts(names[1..], want, if first then seen + {names[0]} else seen)
  {
    var first, tail := want(names[0]) && names[0] !in seen, names[1..];
    var more := if first then seen + {names[0]} else seen;
    forall i | 0 <= i < |tail| ensures IsFirst(tail, want, more, i) <==> IsFirst(names, want, seen, i + 1) {
      assert tail[i] == names[i + 1] && forall j :: 0 <= j < i ==> tail[j] == names[j + 1];
      if IsFirst(tail, want, more, i) {
        forall j | 0 <= j < i + 1 ensures names[j] != names[i + 1] {
          if j > 0 { assert tail[j - 1] != tail[i]; }
        }
      }
    }
  }
}

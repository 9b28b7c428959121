/** What a Python comprehension `[value(x) for x in source if keep(x)]` is, without saying how it is computed. */
module Picking {

  /** Positions below `n`, in order and each once. */
  ghost predicate Picks(at: seq<nat>, n: nat) {
    && (forall k :: 0 <= k < |at| ==> at[k] < n)
    && (forall k, l :: 0 <= k < l < |at| ==> at[k] < at[l])
  }

  /** `out` has the values found at the positions `at`, which are exactly those to keep. */
  ghost predicate PickedAt<A, B>(source: seq<A>, out: seq<B>, keep: A -> bool, value: A -> B, at: seq<nat>) {
    && Picks(at, |source|) && |at| == |out|
    && (forall k :: 0 <= k < |out| ==> out[k] == value(source[at[k]]))
    && (forall i :: 0 <= i < |source| ==> (keep(source[i]) <==> i in at))
  }

  /** `out` has one value for each element to keep, in their order, and nothing else. */
  ghost predicate Picked<A, B>(source: seq<A>, out: seq<B>, keep: A -> bool, value: A -> B) {
    exists at :: PickedAt(source, out, keep, value, at)
  }

  function Itself<A>(x: A): A { x }

  function Shifted(at: seq<nat>): (r: seq<nat>)
    ensures |r| == |at| && forall k :: 0 <= k < |at| ==> r[k] == at[k] + 1
  {
    seq(|at|, k requires 0 <= k < |at| => at[k] + 1)
  }

  lemma ShiftedHas(at: seq<nat>, i: nat)
    ensures i in Shifted(at) <==> i > 0 && i - 1 in at
  {
    if i > 0 && i - 1 in at {
      var k :| 0 <= k < |at| && at[k] == i - 1;
      assert Shifted(at)[k] == i;
    }
  }

  lemma PickedNothing<A, B>(keep: A -> bool, value: A -> B)
    ensures Picked([], [], keep, value)
  {
    assert PickedAt([], [], keep, value, []);
  }

  lemma PicksShifted(at: seq<nat>, n: nat)
    requires Picks(at, n)
    ensures Picks(Shifted(at), n + 1) && Picks([0] + Shifted(at), n + 1)
  {
  }

  lemma FrontHas(at: seq<nat>, i: nat)
    ensures i in [0] + Shifted(at) <==> i == 0 || i in Shifted(at)
  {
  }

  lemma DropFront<A, B>(source: seq<A>, out: seq<B>, keep: A -> bool, value: A -> B, at: seq<nat>)
    requires source != [] && !keep(source[0]) && PickedAt(source[1..], out, keep, value, at)
    ensures PickedAt(source, out, keep, value, Shifted(at))
  {
    var rest, all := source[1..], Shifted(at);
    PicksShifted(at, |rest|);
    forall k | 0 <= k < |out| ensures out[k] == value(source[all[k]]) {
      assert source[all[k]] == rest[at[k]];
    }
    forall i | 0 <= i < |source| ensures keep(source[i]) <==> i in all {
      ShiftedHas(at, i);
      assert i > 0 ==> source[i] == rest[i - 1];
    }
  }

  lemma KeepFront<A, B>(source: seq<A>, out: seq<B>, keep: A -> bool, value: A -> B, at: seq<nat>)
    requires source != [] && keep(source[0]) && out != [] && out[0] == value(source[0])
    requires PickedAt(source[1..], out[1..], keep, value, at)
    ensures PickedAt(source, out, keep, value, [0] + Shifted(at))
  {
    var rest, all := source[1..], [0] + Shifted(at);
    PicksShifted(at, |rest|);
    forall k | 0 <= k < |out| ensures out[k] == value(source[all[k]]) {
      if k > 0 {
        assert out[k] == out[1..][k - 1] && all[k] == at[k - 1] + 1;
        assert source[all[k]] == rest[at[k - 1]];
      }
    }
    forall i | 0 <= i < |source| ensures keep(source[i]) <==> i in all {
      FrontHas(at, i);
      ShiftedHas(at, i);
      assert i > 0 ==> source[i] == rest[i - 1];
    }
  }

  /** One more element in front. */
  lemma PickedCons<A, B>(source: seq<A>, out: seq<B>, keep: A -> bool, value: A -> B)
    requires source != [] && (keep(source[0]) ==> out != [] && out[0] == value(source[0]))
    requires Picked(source[1..], if keep(source[0]) then out[1..] else out, keep, value)
    ensures Picked(source, out, keep, value)
  {
    if keep(source[0]) {
      var at :| PickedAt(source[1..], out[1..], keep, value, at);
      KeepFront(source, out, keep, value, at);
    } else {
      var at :| PickedAt(source[1..], out, keep, value, at);
      DropFront(source, out, keep, value, at);
    }
  }

  /** What is picked, as a set. */
  lemma PickedHas<A, B>(source: seq<A>, out: seq<B>, keep: A -> bool, value: A -> B, x: B)
    requires Picked(source, out, keep, value)
    ensures x in out <==> exists i :: 0 <= i < |source| && keep(source[i]) && value(source[i]) == x
  {
    var at :| PickedAt(source, out, keep, value, at);
    if x in out {
      var k :| 0 <= k < |out| && out[k] == x;
      assert at[k] in at && keep(source[at[k]]);
    }
    forall i | 0 <= i < |source| && keep(source[i]) && value(source[i]) == x ensures x in out {
      var k :| 0 <= k < |at| && at[k] == i;
      assert out[k] == x;
    }
  }

  /** The values of what is picked are picked. */
  lemma PickedValues<A, B>(source: seq<A>, kept: seq<A>, out: seq<B>, keep: A -> bool, value: A -> B)
    requires Picked(source, kept, keep, Itself) && |out| == |kept|
    requires forall k :: 0 <= k < |out| ==> out[k] == value(kept[k])
    ensures Picked(source, out, keep, value)
  {
    var at :| PickedAt(source, kept, keep, Itself, at);
    forall k | 0 <= k < |out| ensures out[k] == value(source[at[k]]) {
      assert kept[k] == source[at[k]];
    }
    assert PickedAt(source, out, keep, value, at);
  }

  /** Something is picked if and only if something is to be kept. */
  lemma PickedSome<A, B>(source: seq<A>, out: seq<B>, keep: A -> bool, value: A -> B)
    requires Picked(source, out, keep, value)
    ensures out != [] <==> exists i :: 0 <= i < |source| && keep(source[i])
  {
    forall i | 0 <= i < |source| && keep(source[i]) ensures out != [] {
      PickedHas(source, out, keep, value, value(source[i]));
    }
    if out != [] {
      PickedHas(source, out, keep, value, out[0]);
    }
  }

  lemma TailHas(a: seq<nat>, n: nat, i: nat)
    requires Picks(a, n) && a != []
    ensures i in a[1..] <==> i in a && i != a[0]
  {
    assert a == [a[0]] + a[1..];
    if i in a[1..] {
      var k :| 0 <= k < |a| - 1 && a[1..][k] == i;
      assert a[k + 1] == i;
    }
  }

  /** Positions are determined by their set. */
  lemma {:induction false} PicksUnique(a: seq<nat>, b: seq<nat>, n: nat)
    requires Picks(a, n) && Picks(b, n) && forall i: nat :: i in a <==> i in b
    ensures a == b
    decreases |a|
  {
    assert b != [] ==> b[0] in b;
    if a != [] {
      assert a[0] in b && b != [];
      assert b[0] in a;
      assert a[0] == b[0];
      forall i: nat ensures i in a[1..] <==> i in b[1..] {
        TailHas(a, n, i);
        TailHas(b, n, i);
      }
      PicksUnique(a[1..], b[1..], n);
    }
  }

  /** So at most one list is picked from a source: being picked says everything about it. */
  lemma PickedUnique<A, B>(source: seq<A>, out: seq<B>, other: seq<B>, keep: A -> bool, value: A -> B)
    requires Picked(source, out, keep, value) && Picked(source, other, keep, value)
    ensures out == other
  {
    var a :| PickedAt(source, out, keep, value, a);
    var b :| PickedAt(source, other, keep, value, b);
    forall i: nat ensures i in a <==> i in b {
      assert i in a ==> i < |source|;
      assert i in b ==> i < |source|;
    }
    PicksUnique(a, b, |source|);
  }

  /** One more element at the end. */
  lemma PickedOneMore<A, B>(source: seq<A>, out: seq<B>, n: nat, before: seq<B>, keep: A -> bool, value: A -> B)
    requires n < |source| && Picked(source[..n], before, keep, value)
    requires out == if keep(source[n]) then before + [value(source[n])] else before
    ensures Picked(source[..n + 1], out, keep, value)
  {
    var at: seq<nat> :| PickedAt(source[..n], before, keep, value, at);
    if keep(source[n]) {
      KeepLast(source, out, n, before, keep, value, at);
    } else {
      DropLast(source, n, out, keep, value, at);
    }
  }

  lemma KeepLast<A, B>(source: seq<A>, out: seq<B>, n: nat, before: seq<B>, keep: A -> bool, value: A -> B, at: seq<nat>)
    requires n < |source| && PickedAt(source[..n], before, keep, value, at)
    requires keep(source[n]) && out == before + [value(source[n])]
    ensures PickedAt(source[..n + 1], out, keep, value, at + [n])
  {
    var all, front := source[..n + 1], source[..n];
    forall i | 0 <= i < n + 1 ensures keep(all[i]) <==> i in at + [n] {
      assert i in at + [n] <==> i in at || i == n;
      assert i < n ==> all[i] == front[i];
    }
    forall k | 0 <= k < |before| ensures out[k] == value(all[at[k]]) {
      assert all[at[k]] == front[at[k]];
    }
  }

  lemma DropLast<A, B>(source: seq<A>, n: nat, out: seq<B>, keep: A -> bool, value: A -> B, at: seq<nat>)
    requires n < |source| && PickedAt(source[..n], out, keep, value, at) && !keep(source[n])
    ensures PickedAt(source[..n + 1], out, keep, value, at)
  {
    var all, front := source[..n + 1], source[..n];
    forall i | 0 <= i < n + 1 ensures keep(all[i]) <==> i in at {
      assert n !in at;
      assert i < n ==> all[i] == front[i];
    }
    forall k | 0 <= k < |out| ensures out[k] == value(all[at[k]]) {
      assert all[at[k]] == front[at[k]];
    }
  }

  function Composed(at: seq<nat>, next: seq<nat>): (r: seq<nat>)
    requires forall k :: 0 <= k < |next| ==> next[k] < |at|
    ensures |r| == |next| && forall k :: 0 <= k < |next| ==> r[k] == at[next[k]]
  {
    seq(|next|, k requires 0 <= k < |next| => at[next[k]])
  }

  lemma ComposedHas(at: seq<nat>, next: seq<nat>, n: nat, j: nat)
    requires Picks(at, n) && Picks(next, |at|) && j < |at|
    ensures at[j] in Composed(at, next) <==> j in next
  {
    if j in next {
      var k :| 0 <= k < |next| && next[k] == j;
      assert Composed(at, next)[k] == at[j];
    }
    if at[j] in Composed(at, next) {
      var k :| 0 <= k < |next| && at[next[k]] == at[j];
      assert next[k] == j;
    }
  }

  lemma ComposedPicks(at: seq<nat>, next: seq<nat>, n: nat)
    requires Picks(at, n) && Picks(next, |at|)
    ensures Picks(Composed(at, next), n)
  {
  }

  lemma ComposedKeeps<A>(
    source: seq<A>, kept: seq<A>, first: A -> bool, second: A -> bool, at: seq<nat>, next: seq<nat>, i: nat)
    requires PickedAt(source, kept, first, Itself, at) && Picks(next, |kept|) && i < |source|
    requires forall j :: 0 <= j < |kept| ==> (second(kept[j]) <==> j in next)
    ensures first(source[i]) && second(source[i]) <==> i in Composed(at, next)
  {
    if i in at {
      var j :| 0 <= j < |at| && at[j] == i;
      assert kept[j] == source[i];
      ComposedHas(at, next, |source|, j);
    }
  }

  /** Picking from what was picked. */
  lemma PickedTwice<A, B>(source: seq<A>, kept: seq<A>, out: seq<B>, first: A -> bool, second: A -> bool, both: A -> bool, value: A -> B)
    requires Picked(source, kept, first, Itself) && Picked(kept, out, second, value)
    requires forall i :: 0 <= i < |source| ==> (both(source[i]) <==> first(source[i]) && second(source[i]))
    ensures Picked(source, out, both, value)
  {
    var at :| PickedAt(source, kept, first, Itself, at);
    var next :| PickedAt(kept, out, second, value, next);
    PickedTwiceAt(source, kept, out, first, second, both, value, at, next);
  }

  lemma PickedTwiceAt<A, B>(
    source: seq<A>, kept: seq<A>, out: seq<B>, first: A -> bool, second: A -> bool, both: A -> bool, value: A -> B,
    at: seq<nat>, next: seq<nat>)
    requires PickedAt(source, kept, first, Itself, at) && PickedAt(kept, out, second, value, next)
    requires forall i :: 0 <= i < |source| ==> (both(source[i]) <==> first(source[i]) && second(source[i]))
    ensures PickedAt(source, out, both, value, Composed(at, next))
  {
    ComposedPicks(at, next, |source|);
    forall i | 0 <= i < |source| ensures both(source[i]) <==> i in Composed(at, next) {
      ComposedKeeps(source, kept, first, second, at, next, i);
    }
    forall k | 0 <= k < |out| ensures out[k] == value(source[Composed(at, next)[k]]) {
      assert kept[next[k]] == source[at[next[k]]];
    }
  }
}

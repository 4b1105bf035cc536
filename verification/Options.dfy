/** Values shared by the other modules: an optional result, the concatenation of a list of lists, and
    facts about sequences. */
module Options {

  datatype Option<+T> = None | Some(value: T)

  function Flatten<T>(parts: seq<seq<T>>): seq<T> {
    if parts == [] then [] else parts[0] + Flatten(parts[1..])
  }

  lemma {:induction false} FlattenAppend<T>(a: seq<seq<T>>, b: seq<seq<T>>)
    ensures Flatten(a + b) == Flatten(a) + Flatten(b)
  {
    if a == [] {
      assert a + b == b;
    } else {
      assert (a + b)[0] == a[0] && (a + b)[1..] == a[1..] + b;
      FlattenAppend(a[1..], b);
    }
  }

  lemma FlattenSnoc<T>(a: seq<seq<T>>, x: seq<T>)
    ensures Flatten(a + [x]) == Flatten(a) + x
  {
    FlattenAppend(a, [x]);
    assert Flatten([x]) == x + Flatten([x][1..]);
  }

  lemma Associates<T>(a: seq<T>, b: seq<T>, c: seq<T>)
    ensures a + (b + c) == a + b + c
  {
  }

  lemma Rejoins<T>(s: seq<T>, n: nat)
    requires n <= |s|
    ensures s[..n] + s[n..] == s
  {
  }

  lemma EmptySum<T>(a: seq<T>)
    ensures [] + a == a == a + []
  {
  }

  lemma NextOf<T>(s: seq<T>, i: nat)
    requires i < |s|
    ensures s[i..][0] == s[i] && s[i..][1..] == s[i + 1..] && s[..i] + [s[i]] == s[..i + 1]
  {
  }

  /** part is what stands at the positions at of whole, in order: those where keep holds of position and element. */
  predicate Selects<T(==)>(at: seq<nat>, whole: seq<T>, part: seq<T>, keep: (nat, T) -> bool) {
    && |at| == |part|
    && (forall k :: 0 <= k < |at| ==> at[k] < |whole| && part[k] == whole[at[k]])
    && (forall k, l :: 0 <= k < l < |at| ==> at[k] < at[l])
    && (forall i :: 0 <= i < |whole| ==> (keep(i, whole[i]) <==> i in at))
  }

  lemma SelectsNothing<T>(keep: (nat, T) -> bool)
    ensures Selects([], [], [], keep)
  {
  }

  lemma SelectsSame<T>(at: seq<nat>, whole: seq<T>, part: seq<T>, keep: (nat, T) -> bool, keep': (nat, T) -> bool)
    requires Selects(at, whole, part, keep)
    requires forall i :: 0 <= i < |whole| ==> keep(i, whole[i]) == keep'(i, whole[i])
    ensures Selects(at, whole, part, keep')
  {
  }

  lemma SelectsMore<T>(at: seq<nat>, whole: seq<T>, part: seq<T>, keep: (nat, T) -> bool, x: T) returns (more: seq<nat>)
    requires Selects(at, whole, part, keep)
    ensures Selects(more, whole + [x], part + if keep(|whole|, x) then [x] else [], keep)
  {
    var n, longer := |whole|, whole + [x];
    assert n !in at;
    more := at + if keep(n, x) then [n] else [];
    forall i | 0 <= i < |longer| ensures keep(i, longer[i]) <==> i in more {
      if i < n {
        assert longer[i] == whole[i];
      }
    }
  }

  lemma {:induction false} SelectsInPlace<T>(at: seq<nat>, whole: seq<T>, part: seq<T>, keep: (nat, T) -> bool, k: nat)
    requires Selects(at, whole, part, keep) && k < |whole|
    requires forall i :: 0 <= i < |whole| ==> keep(i, whole[i])
    ensures k < |at| && at[k] == k
    decreases k
  {
    assert keep(k, whole[k]);
    var m :| 0 <= m < |at| && at[m] == k;
    if k > 0 {
      SelectsInPlace(at, whole, part, keep, k - 1);
      if m < k {
        SelectsInPlace(at, whole, part, keep, m);
      }
    }
  }

  lemma SelectsAll<T>(at: seq<nat>, whole: seq<T>, part: seq<T>, keep: (nat, T) -> bool)
    requires Selects(at, whole, part, keep) && forall i :: 0 <= i < |whole| ==> keep(i, whole[i])
    ensures part == whole
  {
    forall k | 0 <= k < |at| ensures at[k] == k {
      SelectsInPlace(at, whole, part, keep, at[k]);
    }
    if whole != [] {
      SelectsInPlace(at, whole, part, keep, |whole| - 1);
    }
    if at != [] {
      assert at[|at| - 1] == |at| - 1;
    }
  }
}

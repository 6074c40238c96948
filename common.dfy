/** Shared vocabulary: optional values (JavaScript's `undefined`), JavaScript
    truthiness for the typed values the handlers test, and the two array
    operations every reducer uses, `find`/`findIndex` and `filter`. */
module Common {

  /** `None` stands for a field that is `undefined` (absent from a request body
      or a document). */
  datatype Option<T> = None | Some(value: T)

  /** `!!s` for an optional string: absent and the empty string are falsy. */
  predicate TruthyStr(o: Option<string>)
  {
    o.Some? && o.value != ""
  }

  /** `!!n` for an optional number: absent and 0 are falsy (NaN is not modelled). */
  predicate TruthyNum(o: Option<int>)
  {
    o.Some? && o.value != 0
  }

  /** `Array.prototype.findIndex`: the first position whose element satisfies `p`. */
  function FirstIndex<T>(s: seq<T>, p: T -> bool): (r: Option<nat>)
    ensures r.None? <==> forall k :: 0 <= k < |s| ==> !p(s[k])
    ensures r.Some? ==> r.value < |s| && p(s[r.value])
    ensures r.Some? ==> forall k :: 0 <= k < r.value ==> !p(s[k])
  {
    if |s| == 0 then None
    else if p(s[0]) then Some(0)
    else match FirstIndex(s[1..], p)
      case None => None
      case Some(i) => Some(i + 1)
  }

  /** `Array.prototype.filter`: the elements that satisfy `keep`, in their order. */
  function Filter<T>(s: seq<T>, keep: T -> bool): (r: seq<T>)
    ensures |r| <= |s|
    ensures forall k :: 0 <= k < |r| ==> r[k] in s && keep(r[k])
    ensures forall k :: 0 <= k < |s| && keep(s[k]) ==> s[k] in r
  {
    if |s| == 0 then []
    else (if keep(s[0]) then [s[0]] else []) + Filter(s[1..], keep)
  }

  /** Filtering distributes over concatenation: the kept elements keep their order. */
  lemma {:induction false} FilterAppend<T>(a: seq<T>, b: seq<T>, keep: T -> bool)
    ensures Filter(a + b, keep) == Filter(a, keep) + Filter(b, keep)
  {
    if |a| == 0 {
      assert a + b == b;
    } else {
      assert (a + b)[1..] == a[1..] + b;
      FilterAppend(a[1..], b, keep);
    }
  }

  /** Filtering drops nothing when every element is kept, and only then. */
  lemma {:induction false} FilterKeepsAll<T>(s: seq<T>, keep: T -> bool)
    ensures Filter(s, keep) == s <==> forall k :: 0 <= k < |s| ==> keep(s[k])
  {
    if |s| > 0 {
      FilterKeepsAll(s[1..], keep);
      if !keep(s[0]) {
        assert |Filter(s, keep)| < |s| by { FilterShorter(s, keep); }
      } else {
        assert forall k :: 1 <= k < |s| ==> s[k] == s[1..][k - 1];
      }
    }
  }

  /** A dropped element makes the filtered list strictly shorter. */
  lemma {:induction false} FilterShorter<T>(s: seq<T>, keep: T -> bool)
    requires |s| > 0 && !keep(s[0])
    ensures |Filter(s, keep)| < |s|
  {
    assert Filter(s, keep) == Filter(s[1..], keep);
  }

  /** Two tests that agree on every element keep the same elements. */
  lemma {:induction false} FilterSame<T>(s: seq<T>, keep: T -> bool, keep': T -> bool)
    requires forall k :: 0 <= k < |s| ==> keep(s[k]) == keep'(s[k])
    ensures Filter(s, keep) == Filter(s, keep')
  {
    if |s| > 0 {
      assert forall k :: 0 <= k < |s[1..]| ==> s[1..][k] == s[k + 1];
      FilterSame(s[1..], keep, keep');
    }
  }

  /** `filter(x => x !== v)`: every occurrence of `v` removed, the other
      elements kept in their order. */
  function Without<T(==)>(s: seq<T>, v: T): (r: seq<T>)
    ensures v !in r
    ensures |r| <= |s|
    ensures forall k :: 0 <= k < |r| ==> r[k] in s
    ensures forall k :: 0 <= k < |s| && s[k] != v ==> s[k] in r
    ensures v !in s ==> r == s
    decreases |s|
  {
    if |s| == 0 then []
    else (if s[0] == v then [] else [s[0]]) + Without(s[1..], v)
  }

  /** `Without` keeps the other elements in their order and with their
      multiplicity: it works on each part of a list separately, and a lone
      occurrence of the value goes. */
  lemma {:induction false} WithoutAppend<T>(a: seq<T>, b: seq<T>, v: T)
    ensures Without(a + b, v) == Without(a, v) + Without(b, v)
    ensures Without([v], v) == []
    decreases |a|
  {
    if |a| == 0 {
      assert a + b == b;
    } else {
      assert (a + b)[1..] == a[1..] + b;
      WithoutAppend(a[1..], b, v);
    }
  }

  /** Removing a value that was appended to a list without it gives the list back. */
  lemma {:induction false} WithoutAppended<T>(s: seq<T>, v: T)
    requires v !in s
    ensures Without(s + [v], v) == s
    decreases |s|
  {
    if |s| == 0 {
      assert Without([v], v) == [] + Without([v][1..], v);
    } else {
      assert (s + [v])[1..] == s[1..] + [v];
      WithoutAppended(s[1..], v);
      assert s == [s[0]] + s[1..];
    }
  }

  /** A fresh head in front of a duplicate-free list. */
  lemma ConsNoDuplicates<T>(x: T, t: seq<T>)
    requires x !in t && NoDuplicates(t)
    ensures NoDuplicates([x] + t)
  {
    var r := [x] + t;
    forall i, j | 0 <= i < j < |r| ensures r[i] != r[j] {
      assert r[j] == t[j - 1];
      if i > 0 {
        assert r[i] == t[i - 1];
      }
    }
  }

  /** Removing a value keeps a list free of duplicates. */
  lemma {:induction false} WithoutNoDuplicates<T>(s: seq<T>, v: T)
    requires NoDuplicates(s)
    ensures NoDuplicates(Without(s, v))
    decreases |s|
  {
    if |s| > 0 {
      assert NoDuplicates(s[1..]) by {
        forall i, j | 0 <= i < j < |s[1..]| ensures s[1..][i] != s[1..][j] {
          assert s[1..][i] == s[i + 1] && s[1..][j] == s[j + 1];
        }
      }
      WithoutNoDuplicates(s[1..], v);
      var rest := Without(s[1..], v);
      if s[0] != v {
        assert s[0] !in rest by {
          assert s[0] !in s[1..];
        }
        ConsNoDuplicates(s[0], rest);
      }
    }
  }

  /** No element occurs twice. */
  predicate NoDuplicates<T(==)>(s: seq<T>)
  {
    forall i, j :: 0 <= i < j < |s| ==> s[i] != s[j]
  }

  /** `String.prototype.split(sep)`: the pieces between separators, so
      there is always at least one piece (`"".split(",")` is `[""]`). */
  function Split(s: string, sep: char): (r: seq<string>)
    ensures |r| >= 1
    ensures forall k :: 0 <= k < |r| ==> sep !in r[k]
    decreases |s|
  {
    if |s| == 0 then [""]
    else if s[0] == sep then [""] + Split(s[1..], sep)
    else
      var rest := Split(s[1..], sep);
      [[s[0]] + rest[0]] + rest[1..]
  }

  /** `Array.prototype.join(sep)` of a non-empty list. */
  function Join(xs: seq<string>, sep: char): (r: string)
    requires |xs| >= 1
    ensures |r| >= |xs[0]|
    decreases |xs|
  {
    if |xs| == 1 then xs[0] else xs[0] + [sep] + Join(xs[1..], sep)
  }

  /** Text without the separator in front of a string joins its first piece. */
  lemma {:induction false} SplitPrefix(a: string, t: string, sep: char)
    requires sep !in a
    ensures Split(a + t, sep) == [a + Split(t, sep)[0]] + Split(t, sep)[1..]
    decreases |a|
  {
    if |a| > 0 {
      assert (a + t)[1..] == a[1..] + t;
      SplitPrefix(a[1..], t, sep);
      assert [a[0]] + (a[1..] + Split(t, sep)[0]) == a + Split(t, sep)[0];
    } else {
      assert a + t == t;
      assert "" + Split(t, sep)[0] == Split(t, sep)[0];
      assert Split(t, sep) == [Split(t, sep)[0]] + Split(t, sep)[1..];
    }
  }

  /** Splitting a join gives back the list, when no piece holds the separator. */
  lemma {:induction false} SplitJoin(xs: seq<string>, sep: char)
    requires |xs| >= 1
    requires forall k :: 0 <= k < |xs| ==> sep !in xs[k]
    ensures Split(Join(xs, sep), sep) == xs
    decreases |xs|
  {
    if |xs| == 1 {
      SplitPrefix(xs[0], "", sep);
      assert xs[0] + "" == xs[0];
    } else {
      var j := Join(xs[1..], sep);
      SplitJoin(xs[1..], sep);
      assert xs[0] + [sep] + j == xs[0] + ([sep] + j);
      SplitPrefix(xs[0], [sep] + j, sep);
      assert ([sep] + j)[1..] == j;
      assert Split([sep] + j, sep) == [""] + xs[1..];
      assert xs[0] + "" == xs[0];
    }
  }

  // ---------------------------------------------------------------------------
  // Runs of a reducer

  /** The state a reducer reaches from `s` by handling `actions` in order. */
  function RunAll<S, A>(step: (S, A) -> S, s: S, actions: seq<A>): S
    decreases |actions|
  {
    if |actions| == 0 then s else RunAll(step, step(s, actions[0]), actions[1..])
  }

  /** A run followed by one more action is that action applied to the run. */
  lemma {:induction false} RunAllSnoc<S, A>(step: (S, A) -> S, s: S, actions: seq<A>, a: A)
    ensures RunAll(step, s, actions + [a]) == step(RunAll(step, s, actions), a)
    decreases |actions|
  {
    if |actions| == 0 {
      assert RunAll(step, step(s, a), []) == step(s, a);
      assert ([] + [a])[1..] == [];
    } else {
      assert (actions + [a])[1..] == actions[1..] + [a];
      RunAllSnoc(step, step(s, actions[0]), actions[1..], a);
    }
  }

  /** When every step decides an observation by its action alone, the
      observation after a run is decided by the last action. */
  lemma LastActionDecides<S, A>(step: (S, A) -> S, s: S, actions: seq<A>, seen: S -> bool, decides: A -> bool)
    requires |actions| > 0
    requires forall t: S, a: A :: seen(step(t, a)) == decides(a)
    ensures seen(RunAll(step, s, actions)) == decides(actions[|actions| - 1])
  {
    assert actions == actions[..|actions| - 1] + [actions[|actions| - 1]];
    RunAllSnoc(step, s, actions[..|actions| - 1], actions[|actions| - 1]);
  }
}

/** Generic sequence notions shared by the models: subsequences, flattening, duplicates. */
module Sequences {

  /** `r` can be obtained from `s` by deleting elements, keeping the order of the rest. */
  predicate IsSubsequence<T(==)>(r: seq<T>, s: seq<T>)
    decreases |s|
  {
    if r == [] then true
    else if s == [] then false
    else if r[0] == s[0] then IsSubsequence(r[1..], s[1..])
    else IsSubsequence(r, s[1..])
  }

  /** The concatenation of a sequence of sequences, in order. */
  function Flatten<T>(ss: seq<seq<T>>): seq<T>
    decreases |ss|
  {
    if ss == [] then [] else ss[0] + Flatten(ss[1..])
  }

  /** No element occurs twice. */
  predicate Distinct<T(==)>(s: seq<T>) {
    forall i, j :: 0 <= i < j < |s| ==> s[i] != s[j]
  }

  /**
   * `drop_duplicates()` with its default `keep="first"`: every element of `s`
   * that is not in `seen`, once, at the place of its first occurrence.
   */
  function DropDuplicates<T(==,!new)>(s: seq<T>, seen: set<T>): (r: seq<T>)
    ensures forall x :: x in r <==> x in s && x !in seen
    ensures Distinct(r)
    ensures IsSubsequence(r, s)
    decreases |s|
  {
    if s == [] then []
    else if s[0] in seen then DropDuplicates(s[1..], seen)
    else [s[0]] + DropDuplicates(s[1..], seen + {s[0]})
  }

  /**
   * The first-occurrence order of `keep="first"`: appending an element to the
   * input appends it to the output exactly when neither `seen` nor the earlier
   * elements hold it. Together with `DropDuplicates([], seen) == []` this fixes
   * the result as the in-order filter of first occurrences.
   */
  lemma {:induction false} DropDuplicatesSnoc<T(!new)>(s: seq<T>, x: T, seen: set<T>)
    ensures DropDuplicates(s + [x], seen) == DropDuplicates(s, seen) + (if x in seen || x in s then [] else [x])
    decreases |s|
  {
    if s == [] {
      assert [] + [x] == [x];
    } else {
      assert (s + [x])[0] == s[0] && (s + [x])[1..] == s[1..] + [x];
      if s[0] in seen {
        DropDuplicatesSnoc(s[1..], x, seen);
        assert x in s <==> x == s[0] || x in s[1..];
      } else {
        DropDuplicatesSnoc(s[1..], x, seen + {s[0]});
        assert x in s <==> x == s[0] || x in s[1..];
      }
    }
  }

  /** A later repeat is the one dropped: `[a, b, a]` keeps `[a, b]`, not `[b, a]`. */
  lemma KeepsFirstOccurrence<T(!new)>(a: T, b: T)
    requires a != b
    ensures DropDuplicates([a, b, a], {}) == [a, b]
  {
    DropDuplicatesSnoc([a, b], a, {});
    DropDuplicatesSnoc([a], b, {});
    DropDuplicatesSnoc([], a, {});
    assert [a, b, a] == [a, b] + [a] && [a, b] == [a] + [b] && [a] == [] + [a];
  }

  /** A sequence without repeats, none of them seen, comes through unchanged. */
  lemma {:induction false} DropDuplicatesOfDistinct<T(!new)>(s: seq<T>, seen: set<T>)
    requires Distinct(s) && forall i :: 0 <= i < |s| ==> s[i] !in seen
    ensures DropDuplicates(s, seen) == s
    decreases |s|
  {
    if s != [] {
      assert forall i :: 0 <= i < |s[1..]| ==> s[1..][i] == s[i + 1] && s[i + 1] != s[0];
      DropDuplicatesOfDistinct(s[1..], seen + {s[0]});
    }
  }
}

/** The ordering the store applies for `.order(column)`: a result is a
    permutation of the selected rows, sorted by the column. The store's own sort
    algorithm is not part of the repository; insertion sort stands for it, and
    only its contract (sorted, a permutation) is relied on. */
module Ordering {

  /** `le` relates every pair one way or the other (a total preorder needs no more here). */
  ghost predicate Total<T(!new)>(le: (T, T) -> bool) {
    forall a, b :: le(a, b) || le(b, a)
  }

  ghost predicate Transitive<T(!new)>(le: (T, T) -> bool) {
    forall a, b, c :: le(a, b) && le(b, c) ==> le(a, c)
  }

  /** Neighbours are in order. */
  predicate SortedBy<T>(le: (T, T) -> bool, s: seq<T>) {
    forall i :: 0 < i < |s| ==> le(s[i - 1], s[i])
  }

  function Insert<T(!new)>(le: (T, T) -> bool, x: T, s: seq<T>): (r: seq<T>)
    requires Total(le) && SortedBy(le, s)
    ensures SortedBy(le, r)
    ensures multiset(r) == multiset(s) + multiset{x}
    ensures |r| == |s| + 1
    ensures r[0] == x || (s != [] && r[0] == s[0])
  {
    if s == [] || le(x, s[0]) then
      [x] + s
    else
      var rest := Insert(le, x, s[1..]);
      assert s == [s[0]] + s[1..];
      [s[0]] + rest
  }

  /** `.order(...)`: the rows sorted by `le`, none lost, none added. */
  function SortBy<T(!new)>(le: (T, T) -> bool, s: seq<T>): (r: seq<T>)
    requires Total(le)
    ensures SortedBy(le, r)
    ensures multiset(r) == multiset(s)
    ensures |r| == |s|
  {
    if s == [] then []
    else
      assert s == [s[0]] + s[1..];
      Insert(le, s[0], SortBy(le, s[1..]))
  }

  /** Under a transitive order, neighbours in order means every pair in order. */
  lemma {:induction false} SortedPairwise<T(!new)>(le: (T, T) -> bool, s: seq<T>, i: nat, j: nat)
    requires Transitive(le) && SortedBy(le, s)
    requires i < j < |s|
    ensures le(s[i], s[j])
    decreases j - i
  {
    if i + 1 < j {
      SortedPairwise(le, s, i, j - 1);
    }
  }

  /** Code-point lexicographic order on strings, standing for `.order('name')`;
      the database's collation is not modelled. */
  predicate LexLe(a: string, b: string)
    decreases |a|
  {
    a == [] || (b != [] && (a[0] < b[0] || (a[0] == b[0] && LexLe(a[1..], b[1..]))))
  }

  lemma {:induction false} LexLeTotal(a: string, b: string)
    ensures LexLe(a, b) || LexLe(b, a)
    decreases |a|
  {
    if a != [] && b != [] && a[0] == b[0] {
      LexLeTotal(a[1..], b[1..]);
    }
  }

  lemma {:induction false} LexLeTransitive(a: string, b: string, c: string)
    requires LexLe(a, b) && LexLe(b, c)
    ensures LexLe(a, c)
    decreases |a|
  {
    if a != [] && b != [] && c != [] && a[0] == b[0] && b[0] == c[0] {
      LexLeTransitive(a[1..], b[1..], c[1..]);
    }
  }
}

/** Vocabulary shared by the whole model: optional values, the untyped
    JavaScript values that cross the query boundary, JavaScript whitespace,
    order-preserving filtering, and substring search (the mock database and the
    query builders work on query text). */
module Basics {

  datatype Option<+T> = None | Some(value: T)

  /** A value passed in a query's `params` array or read back from a query
      result. JavaScript compares these with `===`, which is Dafny's `==` here. */
  datatype Value = Undefined | Int(i: int) | Text(s: string)

  /** Array destructuring (`const [a, b] = params`): a missing element is `undefined`. */
  function Param(params: seq<Value>, k: nat): (v: Value)
    ensures k < |params| ==> v == params[k]
    ensures k >= |params| ==> v == Undefined
  {
    if k < |params| then params[k] else Undefined
  }

  /** A `number | undefined` argument; `parseInt` can also produce `NaN`.
      Integers stand for the numbers the model meets (ids); fractions and
      negative zero are not distinguished. */
  datatype JsNumber = Missing | Number(n: int) | NaN

  /** JavaScript truthiness of a `number | undefined`: `undefined`, `0` and
      `NaN` are falsy. */
  predicate Truthy(x: JsNumber) {
    x.Number? && x.n != 0
  }

  /** ECMAScript WhiteSpace and LineTerminator code points, the set that
      `String.prototype.trim` and `parseInt` skip. */
  predicate IsJsWhitespace(c: char) {
    var k := c as int;
    k == 0x09 || k == 0x0A || k == 0x0B || k == 0x0C || k == 0x0D || k == 0x20
    || k == 0xA0 || k == 0x1680 || (0x2000 <= k <= 0x200A) || k == 0x2028
    || k == 0x2029 || k == 0x202F || k == 0x205F || k == 0x3000 || k == 0xFEFF
  }

  /** `s.trim() === ''`: every character is whitespace. */
  predicate IsBlank(s: string) {
    forall i :: 0 <= i < |s| ==> IsJsWhitespace(s[i])
  }

  /** The string with its leading whitespace removed. */
  function TrimStart(s: string): (r: string)
    ensures |r| <= |s| && r == s[|s| - |r|..]
    ensures r == [] || !IsJsWhitespace(r[0])
    ensures IsBlank(s[..|s| - |r|])
  {
    if s != [] && IsJsWhitespace(s[0]) then
      var r := TrimStart(s[1..]);
      assert s[..|s| - |r|] == [s[0]] + s[1..][..|s| - 1 - |r|];
      r
    else s
  }

  /** A string is blank exactly when trimming its start leaves nothing. */
  lemma BlankIffTrimmedEmpty(s: string)
    ensures IsBlank(s) <==> TrimStart(s) == []
  {
    var r := TrimStart(s);
    if r != [] {
      assert s[|s| - |r|] == r[0];
    } else {
      assert s[..|s| - |r|] == s;
    }
  }

  /** `Array.prototype.filter`: the elements that satisfy `p`, in their order. */
  function Filter<T(!new)>(p: T -> bool, s: seq<T>): (r: seq<T>)
    ensures |r| <= |s|
    ensures forall x :: x in r <==> x in s && p(x)
    ensures multiset(r) <= multiset(s)
  {
    if s == [] then []
    else
      assert s == [s[0]] + s[1..];
      (if p(s[0]) then [s[0]] else []) + Filter(p, s[1..])
  }

  /** `r` is `s` with some elements left out, the rest kept in order. */
  predicate Subsequence<T(==)>(r: seq<T>, s: seq<T>)
    decreases |s|
  {
    if r == [] then true
    else if s == [] then false
    else (r[0] == s[0] && Subsequence(r[1..], s[1..])) || Subsequence(r, s[1..])
  }

  /** Filtering keeps the surviving elements in their original order. */
  lemma {:induction false} FilterSubsequence<T(!new)>(p: T -> bool, s: seq<T>)
    ensures Subsequence(Filter(p, s), s)
    decreases |s|
  {
    if s != [] {
      FilterSubsequence(p, s[1..]);
      var r := Filter(p, s);
      if p(s[0]) {
        assert r[0] == s[0] && r[1..] == Filter(p, s[1..]);
      } else {
        assert r == Filter(p, s[1..]);
      }
    }
  }

  lemma {:induction false} FilterAppend<T(!new)>(p: T -> bool, a: seq<T>, b: seq<T>)
    ensures Filter(p, a + b) == Filter(p, a) + Filter(p, b)
    decreases |a|
  {
    if a != [] {
      assert (a + b)[0] == a[0] && (a + b)[1..] == a[1..] + b;
      FilterAppend(p, a[1..], b);
      var h := if p(a[0]) then [a[0]] else [];
      calc {
        Filter(p, a + b);
        h + Filter(p, a[1..] + b);
        h + (Filter(p, a[1..]) + Filter(p, b));
        (h + Filter(p, a[1..])) + Filter(p, b);
        Filter(p, a) + Filter(p, b);
      }
    } else {
      assert a + b == b;
    }
  }

  /** Filtering keeps everything when every element passes. */
  lemma {:induction false} FilterAll<T(!new)>(p: T -> bool, s: seq<T>)
    requires forall i :: 0 <= i < |s| ==> p(s[i])
    ensures Filter(p, s) == s
    decreases |s|
  {
    if s != [] {
      FilterAll(p, s[1..]);
    }
  }

  /** Filtering keeps nothing when no element passes. */
  lemma {:induction false} FilterNone<T(!new)>(p: T -> bool, s: seq<T>)
    requires forall i :: 0 <= i < |s| ==> !p(s[i])
    ensures Filter(p, s) == []
    decreases |s|
  {
    if s != [] {
      FilterNone(p, s[1..]);
    }
  }

  /** Filtering by a stronger condition sees through a weaker filter. */
  lemma {:induction false} FilterOfFilter<T(!new)>(p: T -> bool, q: T -> bool, s: seq<T>)
    requires forall x :: p(x) ==> q(x)
    ensures Filter(p, Filter(q, s)) == Filter(p, s)
    decreases |s|
  {
    if s != [] {
      FilterOfFilter(p, q, s[1..]);
      var h := if q(s[0]) then [s[0]] else [];
      FilterAppend(p, h, Filter(q, s[1..]));
    }
  }

  /** `String.prototype.includes`: `t` occurs in `s` as a contiguous block. */
  predicate Contains(s: string, t: string)
    decreases |s|
  {
    |t| <= |s| && (s[..|t|] == t || Contains(s[1..], t))
  }

  /** An occurrence at a known position is an occurrence. */
  lemma {:induction false} ContainsAt(s: string, t: string, i: nat)
    requires i + |t| <= |s| && s[i..i + |t|] == t
    ensures Contains(s, t)
    decreases i
  {
    if i > 0 {
      assert s[1..][i - 1..i - 1 + |t|] == s[i..i + |t|];
      ContainsAt(s[1..], t, i - 1);
    }
  }

  /** An occurrence in a part is an occurrence in the whole. */
  lemma {:induction false} ContainsInLeft(a: string, b: string, t: string)
    requires Contains(a, t)
    ensures Contains(a + b, t)
    decreases |a|
  {
    if a[..|t|] == t {
      assert (a + b)[..|t|] == t;
    } else {
      assert (a + b)[1..] == a[1..] + b;
      ContainsInLeft(a[1..], b, t);
    }
  }

  lemma {:induction false} ContainsInRight(a: string, b: string, t: string)
    requires Contains(b, t)
    ensures Contains(a + b, t)
    decreases |a|
  {
    if a != [] {
      assert (a + b)[1..] == a[1..] + b;
      ContainsInRight(a[1..], b, t);
      assert Contains((a + b)[1..], t);
    } else {
      assert a + b == b;
    }
  }

  /** A pattern cannot occur in a text that lacks one of its characters. */
  lemma {:induction false} MissingChar(s: string, t: string, k: nat)
    requires k < |t| && t[k] !in s
    ensures !Contains(s, t)
    decreases |s|
  {
    if Contains(s, t) {
      if s[..|t|] != t {
        MissingChar(s[1..], t, k);
      }
    }
  }

  /** A pattern that does not contain the separator `c` occurs in
      `a + [c] + b` only if it occurs in `a` or in `b`. */
  lemma {:induction false} SplitAtSeparator(a: string, c: char, b: string, t: string)
    requires c !in t && !Contains(a, t) && !Contains(b, t)
    ensures !Contains(a + [c] + b, t)
    decreases |a|
  {
    var s := a + [c] + b;
    if |t| <= |s| {
      if |t| <= |a| {
        assert s[..|t|] == a[..|t|];
      } else {
        assert s[..|t|][|a|] == c;
      }
      if a == [] {
        assert s[1..] == b;
      } else {
        assert s[1..] == a[1..] + [c] + b;
        SplitAtSeparator(a[1..], c, b, t);
      }
    }
  }
}

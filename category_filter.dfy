/** The category tabs above the course grid. Each category's tab carries the
    value `String(id)`, the extra tab carries `'all'`, and choosing a tab
    reports `undefined` for `'all'` and `parseInt(value)` otherwise. */
module CategoryFilter {
  import opened Basics
  import opened Records

  // ---- integers as decimal text (`String(n)`) -----------------------------

  predicate IsDecimalDigit(c: char) {
    '0' <= c <= '9'
  }

  /** The decimal digits of `n`, most significant first, without leading zeros. */
  function Digits(n: nat): (s: string)
    ensures |s| >= 1
    ensures forall i :: 0 <= i < |s| ==> IsDecimalDigit(s[i])
    ensures s[0] == '0' ==> n == 0
    decreases n
  {
    if n < 10 then [('0' as int + n) as char]
    else Digits(n / 10) + [('0' as int + n % 10) as char]
  }

  /** `String(n)` for an integer `n`. */
  function IntToString(n: int): (s: string)
    ensures s != [] && (s[0] == '-' <==> n < 0)
    ensures forall i :: 0 < i < |s| ==> IsDecimalDigit(s[i])
  {
    if n < 0 then "-" + Digits(-n) else Digits(n)
  }

  // ---- `parseInt(value)` with no radix ------------------------------------

  /** The value of `c` as a digit in base `radix` (10 or 16), if it is one. */
  function DigitValue(c: char, radix: nat): (d: Option<nat>)
    requires radix == 10 || radix == 16
    ensures d.Some? ==> d.value < radix
    ensures IsDecimalDigit(c) ==> d == Some(c as int - '0' as int)
  {
    if '0' <= c <= '9' then Some(c as int - '0' as int)
    else if radix == 16 && 'a' <= c <= 'f' then Some(c as int - 'a' as int + 10)
    else if radix == 16 && 'A' <= c <= 'F' then Some(c as int - 'A' as int + 10)
    else None
  }

  /** The length of the longest prefix of `s` made of base-`radix` digits. */
  function DigitRun(s: string, radix: nat): (k: nat)
    requires radix == 10 || radix == 16
    ensures k <= |s|
    ensures forall i :: 0 <= i < k ==> DigitValue(s[i], radix).Some?
    ensures k == |s| || DigitValue(s[k], radix).None?
  {
    if s == [] || DigitValue(s[0], radix).None? then 0
    else 1 + DigitRun(s[1..], radix)
  }

  /** The number a run of base-`radix` digits denotes. */
  function RunValue(s: string, radix: nat): (v: nat)
    requires radix == 10 || radix == 16
    requires forall i :: 0 <= i < |s| ==> DigitValue(s[i], radix).Some?
    decreases |s|
  {
    if s == [] then 0
    else RunValue(s[..|s| - 1], radix) * radix + DigitValue(s[|s| - 1], radix).value
  }

  /** The text after an optional `-` or `+`. */
  function Unsigned(t: string): (u: string)
    ensures u == t || (t != [] && (t[0] == '-' || t[0] == '+') && u == t[1..])
  {
    if t != [] && (t[0] == '-' || t[0] == '+') then t[1..] else t
  }

  predicate HasHexPrefix(u: string) {
    |u| >= 2 && u[0] == '0' && (u[1] == 'x' || u[1] == 'X')
  }

  /** The magnitude `parseInt` reads from unsigned text: after a `0x`/`0X`
      prefix the longest run of hex digits, otherwise the longest run of decimal
      digits; `None` when that run is empty. */
  function Magnitude(u: string): (v: Option<nat>)
    ensures !HasHexPrefix(u) ==> (v.None? <==> u == [] || !IsDecimalDigit(u[0]))
  {
    var radix := if HasHexPrefix(u) then 16 else 10;
    var body := if HasHexPrefix(u) then u[2..] else u;
    var k := DigitRun(body, radix);
    if k == 0 then None else Some(RunValue(body[..k], radix))
  }

  /** `parseInt(s)`: skip leading whitespace, read an optional sign, then the
      magnitude; no digit gives `NaN`. The rest of the text is ignored. */
  function ParseInt(s: string): (r: JsNumber)
    ensures r != Missing
    ensures IsBlank(s) ==> r == NaN
  {
    var t := TrimStart(s);
    BlankIffTrimmedEmpty(s);
    match Magnitude(Unsigned(t))
    case None => NaN
    case Some(v) =>
      var n: int := v;
      Number(if t != [] && t[0] == '-' then -n else n)
  }

  /** `value === 'all' ? undefined : parseInt(value)`. */
  function CategoryOfTab(value: string): (r: JsNumber)
    ensures r == Missing <==> value == "all"
    ensures value != "all" ==> r == ParseInt(value)
  {
    if value == "all" then Missing else ParseInt(value)
  }

  // ---- round trip ---------------------------------------------------------

  /** The digits of `n` read back in base 10 give `n`. */
  lemma {:induction false} RunValueOfDigits(n: nat)
    ensures RunValue(Digits(n), 10) == n
    decreases n
  {
    var s := Digits(n);
    if n >= 10 {
      RunValueOfDigits(n / 10);
      assert s[..|s| - 1] == Digits(n / 10);
    }
  }

  /** A run made only of decimal digits is read in full. */
  lemma {:induction false} DigitRunOfDecimal(s: string)
    requires forall i :: 0 <= i < |s| ==> IsDecimalDigit(s[i])
    ensures DigitRun(s, 10) == |s|
    decreases |s|
  {
    if s != [] {
      DigitRunOfDecimal(s[1..]);
    }
  }

  /** The digits of `n` have no hex prefix and denote `n`. */
  lemma MagnitudeOfDigits(n: nat)
    ensures Magnitude(Digits(n)) == Some(n)
  {
    var d := Digits(n);
    if |d| >= 2 {
      assert IsDecimalDigit(d[1]);
    }
    DigitRunOfDecimal(d);
    assert d[..|d|] == d;
    RunValueOfDigits(n);
  }

  /** `parseInt(String(n)) === n`. */
  lemma ParseIntOfString(n: int)
    ensures ParseInt(IntToString(n)) == Number(n)
  {
    var s := IntToString(n);
    assert !IsJsWhitespace(s[0]);
    assert TrimStart(s) == s;
    var m: nat := if n < 0 then -n else n;
    assert Unsigned(s) == Digits(m);
    MagnitudeOfDigits(m);
  }

  /** A category's tab value `String(id)` reports `id` back. */
  lemma TabRoundTrip(id: int)
    ensures CategoryOfTab(IntToString(id)) == Number(id)
  {
    ParseIntOfString(id);
  }

  // ---- component state ----------------------------------------------------

  /** The tab value of each category, in list order. */
  function TabValues(categories: seq<Category>): (vs: seq<string>)
    ensures |vs| == |categories|
    ensures forall i :: 0 <= i < |vs| ==> CategoryOfTab(vs[i]) == Number(categories[i].id)
  {
    if categories == [] then []
    else
      TabRoundTrip(categories[0].id);
      [IntToString(categories[0].id)] + TabValues(categories[1..])
  }

  class CategoryFilterState {
    var categories: seq<Category>
    var selectedCategory: string

    /** Before any choice the `'all'` tab is selected and no category is loaded. */
    constructor ()
      ensures selectedCategory == "all" && categories == []
    {
      categories := [];
      selectedCategory := "all";
    }

    /** The category-list effect: the rows of `SELECT * FROM Categories`, or
        no change when the query throws (`None`). */
    method LoadCategories(response: Option<seq<Category>>)
      modifies this
      ensures categories == (if response.Some? then response.value else old(categories))
      ensures selectedCategory == old(selectedCategory)
    {
      if response.Some? {
        categories := response.value;
      }
    }

    /** `handleCategoryChange(value)`: selects exactly `value` and returns what
        `onCategoryChange` receives. */
    method HandleCategoryChange(value: string) returns (categoryId: JsNumber)
      modifies this
      ensures selectedCategory == value
      ensures categories == old(categories)
      ensures categoryId == CategoryOfTab(value)
    {
      selectedCategory := value;
      if value == "all" {
        categoryId := Missing;
      } else {
        categoryId := ParseInt(value);
      }
    }
  }
}

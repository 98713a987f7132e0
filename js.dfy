/** The few JavaScript built-ins the storefront's logic relies on, stated over
    Dafny sequences: `Array.prototype.filter`, `findIndex`, `find`, `slice`,
    `String.prototype.toLowerCase` (ASCII letters only), `includes`,
    `String(n)` for an integer `n`, and `Math.ceil` of an integer quotient. */
module Js {
  import opened Wrappers

  // ---------------------------------------------------------------------------
  // Arrays

  /** `r` is obtained from `s` by deleting some elements, keeping the order. */
  ghost predicate IsSubsequence<T>(r: seq<T>, s: seq<T>)
    decreases |s|
  {
    r == [] || (s != [] && ((r[0] == s[0] && IsSubsequence(r[1..], s[1..])) || IsSubsequence(r, s[1..])))
  }

  lemma {:induction false} SubsequenceReflexive<T>(s: seq<T>)
    ensures IsSubsequence(s, s)
  {
    if s != [] {
      SubsequenceReflexive(s[1..]);
    }
  }

  /** `s.filter(f)`: the elements satisfying `f`, in their original order. */
  function Filter<T>(f: T -> bool, s: seq<T>): (r: seq<T>)
    ensures |r| <= |s|
    ensures forall i :: 0 <= i < |r| ==> r[i] in s && f(r[i])
    ensures forall i :: 0 <= i < |s| && f(s[i]) ==> s[i] in r
  {
    if s == [] then []
    else
      var rest := Filter(f, s[1..]);
      assert s == [s[0]] + s[1..];
      if f(s[0]) then [s[0]] + rest else rest
  }

  /** The filtered elements keep their relative order. */
  lemma {:induction false} FilterIsSubsequence<T>(f: T -> bool, s: seq<T>)
    ensures IsSubsequence(Filter(f, s), s)
  {
    if s != [] {
      FilterIsSubsequence(f, s[1..]);
    }
  }

  /** A predicate that holds everywhere filters nothing. */
  lemma {:induction false} FilterAll<T>(f: T -> bool, s: seq<T>)
    requires forall i :: 0 <= i < |s| ==> f(s[i])
    ensures Filter(f, s) == s
  {
    if s != [] {
      FilterAll(f, s[1..]);
    }
  }

  /** Filtering by predicates that agree on every element gives the same result. */
  lemma {:induction false} FilterAgree<T>(f: T -> bool, g: T -> bool, s: seq<T>)
    requires forall i :: 0 <= i < |s| ==> f(s[i]) == g(s[i])
    ensures Filter(f, s) == Filter(g, s)
  {
    if s != [] {
      FilterAgree(f, g, s[1..]);
    }
  }

  /** Filtering twice is filtering once by the conjunction. */
  lemma {:induction false} FilterTwice<T>(f: T -> bool, g: T -> bool, h: T -> bool, s: seq<T>)
    requires forall i :: 0 <= i < |s| ==> h(s[i]) == (f(s[i]) && g(s[i]))
    ensures Filter(g, Filter(f, s)) == Filter(h, s)
  {
    if s != [] {
      FilterTwice(f, g, h, s[1..]);
      assert Filter(f, s) == (if f(s[0]) then [s[0]] else []) + Filter(f, s[1..]);
      if f(s[0]) {
        assert Filter(f, s)[1..] == Filter(f, s[1..]);
      }
    }
  }

  /** Filtering the concatenation filters each part. */
  lemma {:induction false} FilterAppend<T>(f: T -> bool, a: seq<T>, b: seq<T>)
    ensures Filter(f, a + b) == Filter(f, a) + Filter(f, b)
  {
    if a == [] {
      assert a + b == b;
    } else {
      assert (a + b)[1..] == a[1..] + b;
      FilterAppend(f, a[1..], b);
    }
  }

  /** `s.findIndex(f)`: the index of the first element satisfying `f`, or -1. */
  function FindIndex<T>(f: T -> bool, s: seq<T>): (r: int)
    ensures -1 <= r < |s|
    ensures r == -1 <==> forall i :: 0 <= i < |s| ==> !f(s[i])
    ensures r != -1 ==> f(s[r]) && forall j :: 0 <= j < r ==> !f(s[j])
  {
    if s == [] then -1
    else if f(s[0]) then 0
    else
      var k := FindIndex(f, s[1..]);
      assert forall i :: 1 <= i < |s| ==> s[i] == s[1..][i - 1];
      if k == -1 then -1 else k + 1
  }

  /** An element appended behind every match cannot change the first match;
      appended behind no match, it is the first match exactly when it satisfies `f`. */
  lemma {:induction false} FindIndexAppend<T>(f: T -> bool, s: seq<T>, x: T)
    ensures FindIndex(f, s + [x]) == if FindIndex(f, s) != -1 then FindIndex(f, s)
                                     else if f(x) then |s| else -1
  {
    if s != [] {
      assert (s + [x])[1..] == s[1..] + [x];
      FindIndexAppend(f, s[1..], x);
    }
  }

  /** `s.find(f)`: the first element satisfying `f`, or `undefined`. */
  function Find<T>(f: T -> bool, s: seq<T>): (r: Option<T>)
    ensures r.None? <==> forall i :: 0 <= i < |s| ==> !f(s[i])
    ensures r.Some? ==> r.value in s && f(r.value)
    ensures r.Some? ==> r.value == s[FindIndex(f, s)]
  {
    var i := FindIndex(f, s);
    if i == -1 then None else Some(s[i])
  }

  /** How `slice` resolves one index: negative counts from the end, and the
      result is clamped to `0 .. n`. */
  function ClampIndex(i: int, n: nat): (k: nat)
    ensures k <= n
    ensures 0 <= i ==> k == if i < n then i else n
    ensures i < 0 ==> k == if n + i < 0 then 0 else n + i
  {
    if i < 0 then (if n + i < 0 then 0 else n + i)
    else if i < n then i else n
  }

  /** `s.slice(start, end)`. */
  function Slice<T>(s: seq<T>, start: int, end: int): (r: seq<T>)
    ensures 0 <= start && 0 <= end ==> |r| <= if end <= start then 0 else end - start
    ensures 0 <= start <= end ==> r == s[ClampIndex(start, |s|)..ClampIndex(end, |s|)]
    ensures 0 <= end <= start ==> r == []
  {
    var lo, hi := ClampIndex(start, |s|), ClampIndex(end, |s|);
    if lo < hi then s[lo..hi] else []
  }

  // ---------------------------------------------------------------------------
  // Strings

  function LowerChar(c: char): (d: char)
    ensures 'A' <= c <= 'Z' ==> d as int == c as int + 32
    ensures !('A' <= c <= 'Z') ==> d == c
  {
    if 'A' <= c <= 'Z' then (c as int + 32) as char else c
  }

  /** `s.toLowerCase()`, restricted to the ASCII letters. */
  function Lower(s: string): (r: string)
    ensures |r| == |s|
    ensures forall i :: 0 <= i < |s| ==> r[i] == LowerChar(s[i])
  {
    if s == [] then [] else [LowerChar(s[0])] + Lower(s[1..])
  }

  /** Lower-casing twice is lower-casing once. */
  lemma LowerIdempotent(s: string)
    ensures Lower(Lower(s)) == Lower(s)
  {
    assert forall i :: 0 <= i < |s| ==> Lower(Lower(s))[i] == Lower(s)[i];
  }

  ghost predicate OccursAt(hay: string, needle: string, i: int)
  {
    0 <= i && i + |needle| <= |hay| && hay[i..i + |needle|] == needle
  }

  /** `hay.includes(needle)`. */
  function Includes(hay: string, needle: string): (r: bool)
    ensures r <==> exists i :: OccursAt(hay, needle, i)
    decreases |hay|
  {
    if |needle| > |hay| then false
    else if hay[..|needle|] == needle then
      assert OccursAt(hay, needle, 0);
      true
    else
      var rest := Includes(hay[1..], needle);
      assert forall i :: OccursAt(hay[1..], needle, i) ==> OccursAt(hay, needle, i + 1) by {
        forall i | OccursAt(hay[1..], needle, i) ensures OccursAt(hay, needle, i + 1) {
          assert hay[i + 1..i + 1 + |needle|] == hay[1..][i..i + |needle|];
        }
      }
      assert forall i :: OccursAt(hay, needle, i) ==> i == 0 || OccursAt(hay[1..], needle, i - 1) by {
        forall i | OccursAt(hay, needle, i) && i != 0 ensures OccursAt(hay[1..], needle, i - 1) {
          assert hay[1..][i - 1..i - 1 + |needle|] == hay[i..i + |needle|];
        }
      }
      rest
  }

  // ---------------------------------------------------------------------------
  // Numbers

  function DigitChar(d: nat): (c: char)
    requires d < 10
    ensures '0' <= c <= '9' && c as int - '0' as int == d
  {
    ('0' as int + d) as char
  }

  /** The decimal digits of `n`, most significant first, without leading zeros. */
  function NatToString(n: nat): (s: string)
    ensures |s| > 0
    ensures forall i :: 0 <= i < |s| ==> '0' <= s[i] <= '9'
    ensures |s| > 1 ==> s[0] != '0'
    decreases n
  {
    if n < 10 then [DigitChar(n)] else NatToString(n / 10) + [DigitChar(n % 10)]
  }

  /** `String(n)` for an integer-valued number `n`. */
  function IntToString(n: int): (s: string)
    ensures |s| > 0
    ensures n < 0 <==> s[0] == '-'
  {
    if n < 0 then "-" + NatToString(-n) else NatToString(n)
  }

  /** The value of a string of decimal digits. */
  function DigitsValue(s: string): nat
    requires forall i :: 0 <= i < |s| ==> '0' <= s[i] <= '9'
  {
    if s == [] then 0 else DigitsValue(s[..|s| - 1]) * 10 + (s[|s| - 1] as int - '0' as int)
  }

  /** Reading the digits back gives the number. */
  lemma {:induction false} NatToStringRoundTrip(n: nat)
    ensures DigitsValue(NatToString(n)) == n
    decreases n
  {
    if n >= 10 {
      var s := NatToString(n);
      assert s[..|s| - 1] == NatToString(n / 10);
      NatToStringRoundTrip(n / 10);
    }
  }

  /** The digits of a negative number follow its minus sign. */
  lemma NegativeDigits(n: int)
    requires n < 0
    ensures IntToString(n) == "-" + NatToString(-n)
    ensures IntToString(n)[1..] == NatToString(-n)
  {
    var d := NatToString(-n);
    assert ("-" + d)[1..] == d;
  }

  /** `String` is injective on integers. */
  lemma IntToStringInjective(m: int, n: int)
    requires IntToString(m) == IntToString(n)
    ensures m == n
  {
    var s := IntToString(m);
    if m < 0 {
      assert n < 0;
      NegativeDigits(m);
      NegativeDigits(n);
      var a := NatToString(-m);
      assert a == NatToString(-n) by {
        assert a == s[1..];
      }
      NatToStringRoundTrip(-m);
      NatToStringRoundTrip(-n);
    } else {
      assert n >= 0;
      assert NatToString(m) == NatToString(n);
      NatToStringRoundTrip(m);
      NatToStringRoundTrip(n);
    }
  }

  /** `Math.ceil(n / d)` for a count `n` and a non-zero integer `d`: for
      `d > 0` the number of runs of `d` needed to cover `n`, for `d < 0`
      minus the number of whole runs of `-d` in `n`. */
  function CeilDiv(n: nat, d: int): int
    requires d != 0
    decreases n
  {
    if d > 0 then (if n == 0 then 0 else 1 + CeilDiv(if n < d then 0 else n - d, d))
    else (if n < -d then 0 else CeilDiv(n + d, d) - 1)
  }

  /** `CeilDiv(n, d)` is the integer `r` with `r - 1 < n / d <= r`. */
  lemma {:induction false} CeilDivBounds(n: nat, d: int)
    requires d != 0
    ensures d > 0 ==> (CeilDiv(n, d) - 1) * d < n <= CeilDiv(n, d) * d
    ensures d < 0 ==> CeilDiv(n, d) * d <= n < (CeilDiv(n, d) - 1) * d
    decreases n
  {
    if d > 0 && n > 0 {
      var rest := if n < d then 0 else n - d;
      CeilDivBounds(rest, d);
      var r := CeilDiv(rest, d);
      assert CeilDiv(n, d) * d == r * d + d;
    } else if d < 0 && n >= -d {
      CeilDivBounds(n + d, d);
      var r := CeilDiv(n + d, d);
      assert (r - 1) * d == r * d - d;
      assert (r - 2) * d == r * d - 2 * d;
    }
  }

  // ---------------------------------------------------------------------------
  // Values

  /** A JavaScript value of one of the two primitive types the storefront
      compares ids with. */
  datatype Value = Str(s: string) | Num(n: int)

  /** Truthiness: the empty string and zero are falsy. */
  predicate Truthy(v: Value)
  {
    match v
    case Str(s) => s != ""
    case Num(n) => n != 0
  }

  /** Truthiness of an optional string (`undefined` or `null` when absent):
      present and non-empty. */
  predicate TruthyString(s: Option<string>)
  {
    s.Some? && Truthy(Str(s.value))
  }

  /** `a === b`: values of different types are never strictly equal. */
  predicate StrictEquals(a: Value, b: Value)
  {
    match (a, b)
    case (Str(x), Str(y)) => x == y
    case (Num(x), Num(y)) => x == y
    case _ => false
  }

  /** Strict equality of a string with a number never holds. */
  lemma StringNeverEqualsNumber(s: string, n: int)
    ensures !StrictEquals(Str(s), Num(n))
  {
  }
}

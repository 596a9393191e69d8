/** Shared vocabulary: optional values, JavaScript truthiness of optional fields,
    the string operations the storefront uses (toLowerCase, includes, split,
    template-literal number formatting) and Array.prototype.filter. */
module Common {

  datatype Option<+T> = None | Some(value: T)

  // ---------------------------------------------------------------------------
  // JavaScript truthiness of optional record fields (`if (x)`, `x || y`).
  // `undefined`/`null` are None; NaN is not modelled.
  // ---------------------------------------------------------------------------

  predicate StrTruthy(o: Option<string>) { o.Some? && o.value != "" }

  predicate NumTruthy(o: Option<int>) { o.Some? && o.value != 0 }

  predicate BoolTruthy(o: Option<bool>) { o == Some(true) }

  /** `x || undefined` on an optional string: the empty string becomes undefined. */
  function StrOrUndefined(o: Option<string>): (r: Option<string>)
    ensures r.Some? <==> StrTruthy(o)
    ensures r.Some? ==> r == o
  {
    if StrTruthy(o) then o else None
  }

  /** `x || undefined` on an optional number: 0 becomes undefined. */
  function NumOrUndefined(o: Option<int>): (r: Option<int>)
    ensures r.Some? <==> NumTruthy(o)
    ensures r.Some? ==> r == o
  {
    if NumTruthy(o) then o else None
  }

  // ---------------------------------------------------------------------------
  // Strings
  // ---------------------------------------------------------------------------

  /** `toLowerCase`, restricted to the ASCII letters. */
  function LowerChar(c: char): char {
    if 'A' <= c <= 'Z' then (c as int + 32) as char else c
  }

  function Lower(s: string): (r: string)
    ensures |r| == |s|
    ensures forall i :: 0 <= i < |s| ==> r[i] == LowerChar(s[i])
  {
    seq(|s|, i requires 0 <= i < |s| => LowerChar(s[i]))
  }

  predicate OccursAt(s: string, t: string, i: int) {
    0 <= i && i + |t| <= |s| && s[i..i + |t|] == t
  }

  /** `s.includes(t)`. */
  predicate Contains(s: string, t: string) {
    exists i :: 0 <= i <= |s| - |t| && OccursAt(s, t, i)
  }

  /** Every string includes the empty string. */
  lemma ContainsEmpty(s: string)
    ensures Contains(s, "")
  {
    assert OccursAt(s, "", 0);
  }

  function DigitChar(d: int): (c: char)
    requires 0 <= d < 10
    ensures '0' <= c <= '9'
  {
    ('0' as int + d) as char
  }

  /** Decimal rendering of a natural number, as `${n}` writes it. */
  function NatToString(n: nat): (r: string)
    ensures 1 <= |r|
    ensures n < 10 <==> |r| == 1
    ensures forall i :: 0 <= i < |r| ==> '0' <= r[i] <= '9'
  {
    if n < 10 then [DigitChar(n)] else NatToString(n / 10) + [DigitChar(n % 10)]
  }

  /** Decimal rendering of an integer, as `${n}` writes it. */
  function IntToString(n: int): (r: string)
    ensures n < 0 <==> (|r| > 0 && r[0] == '-')
  {
    if n < 0 then "-" + NatToString(-n) else NatToString(n)
  }

  /** Distinct numbers have distinct decimal renderings. */
  lemma {:induction false} NatToStringInjective(a: nat, b: nat)
    requires NatToString(a) == NatToString(b)
    ensures a == b
  {
    var s := NatToString(a);
    if a >= 10 && b >= 10 {
      assert s[|s| - 1] == DigitChar(a % 10) && s[|s| - 1] == DigitChar(b % 10);
      assert NatToString(a / 10) == s[..|s| - 1] == NatToString(b / 10);
      NatToStringInjective(a / 10, b / 10);
    } else if a < 10 && b < 10 {
      assert s[0] == DigitChar(a) && s[0] == DigitChar(b);
    }
  }

  lemma IntToStringInjective(a: int, b: int)
    requires IntToString(a) == IntToString(b)
    ensures a == b
  {
    if a < 0 && b < 0 {
      assert NatToString(-a) == IntToString(a)[1..] == NatToString(-b);
      NatToStringInjective(-a, -b);
    } else if a >= 0 && b >= 0 {
      NatToStringInjective(a, b);
    }
  }

  /** The characters of `s` before the first `sep` (all of `s` if there is none). */
  function TakeRun(s: string, sep: char): (r: string)
    ensures sep !in r
    ensures r <= s
    ensures |r| < |s| ==> s[|r|] == sep
  {
    if |s| == 0 || s[0] == sep then "" else [s[0]] + TakeRun(s[1..], sep)
  }

  /** The run before the separator that ends it. */
  lemma {:induction false} TakeRunUpTo(s: string, t: string, sep: char)
    requires sep !in s
    ensures TakeRun(s, sep) == s
    ensures TakeRun(s + [sep] + t, sep) == s
  {
    if |s| > 0 {
      TakeRunUpTo(s[1..], t, sep);
      assert (s + [sep] + t)[1..] == s[1..] + [sep] + t;
    }
  }

  /** `parts.join(sep)`. */
  function Join(parts: seq<string>, sep: char): string {
    if |parts| == 0 then ""
    else if |parts| == 1 then parts[0]
    else parts[0] + [sep] + Join(parts[1..], sep)
  }

  /** `s.split(sep)` for a one-character separator: never empty, no part holds
      the separator, and joining the parts back gives `s`. */
  function Split(s: string, sep: char): (parts: seq<string>)
    ensures |parts| >= 1
    ensures forall i :: 0 <= i < |parts| ==> sep !in parts[i]
    ensures Join(parts, sep) == s
    decreases |s|
  {
    if |s| == 0 then [""]
    else
      var rest := Split(s[1..], sep);
      if s[0] == sep then
        assert Join([""] + rest, sep) == "" + [sep] + Join(rest, sep);
        [""] + rest
      else
        var parts := [[s[0]] + rest[0]] + rest[1..];
        assert |rest| == 1 ==> Join(parts, sep) == [s[0]] + rest[0];
        assert |rest| > 1 ==> Join(rest, sep) == rest[0] + [sep] + Join(rest[1..], sep);
        assert |rest| > 1 ==> Join(parts, sep) == [s[0]] + rest[0] + [sep] + Join(rest[1..], sep);
        assert [s[0]] + s[1..] == s;
        parts
  }

  /** The first part of a split is the text before the first separator; the
      remaining parts are the split of what follows that separator. */
  lemma {:induction false} SplitFirst(s: string, sep: char)
    ensures Split(s, sep)[0] == TakeRun(s, sep)
    ensures sep !in s ==> Split(s, sep) == [s]
    ensures sep in s ==>
              |TakeRun(s, sep)| < |s| &&
              Split(s, sep) == [TakeRun(s, sep)] + Split(s[|TakeRun(s, sep)| + 1..], sep)
    decreases |s|
  {
    if |s| > 0 {
      SplitFirst(s[1..], sep);
      if s[0] != sep {
        if sep in s {
          assert sep in s[1..];
          assert s[1..][|TakeRun(s[1..], sep)| + 1..] == s[|TakeRun(s, sep)| + 1..];
        } else {
          assert s == [s[0]] + s[1..];
        }
      }
    }
  }

  /** Splitting at a first separator: the text before it, then the split of the rest. */
  lemma SplitAtFirst(a: string, b: string, sep: char)
    requires sep !in a
    ensures Split(a + [sep] + b, sep) == [a] + Split(b, sep)
  {
    var s := a + [sep] + b;
    TakeRunUpTo(a, b, sep);
    SplitFirst(s, sep);
    assert s[|a|] == sep;
    assert s[|a| + 1..] == b;
  }

  // ---------------------------------------------------------------------------
  // Array.prototype.filter and Array.prototype.find
  // ---------------------------------------------------------------------------

  /** `r` is `s` with some elements dropped and the rest kept in order. */
  ghost predicate SubsequenceOf<T>(r: seq<T>, s: seq<T>)
    decreases |s|
  {
    if |r| == 0 then true
    else if |s| == 0 then false
    else (r[0] == s[0] && SubsequenceOf(r[1..], s[1..])) || SubsequenceOf(r, s[1..])
  }

  /** `s.filter(f)`. */
  function Filter<T(!new)>(f: T -> bool, s: seq<T>): (r: seq<T>)
    ensures |r| <= |s|
    ensures forall x :: x in r <==> x in s && f(x)
    ensures forall x :: f(x) ==> multiset(r)[x] == multiset(s)[x]
    ensures forall x :: !f(x) ==> multiset(r)[x] == 0
  {
    if |s| == 0 then []
    else
      assert s == [s[0]] + s[1..];
      if f(s[0]) then [s[0]] + Filter(f, s[1..]) else Filter(f, s[1..])
  }

  lemma {:induction false} FilterIsSubsequence<T(!new)>(f: T -> bool, s: seq<T>)
    ensures SubsequenceOf(Filter(f, s), s)
  {
    if |s| > 0 {
      FilterIsSubsequence(f, s[1..]);
      if !f(s[0]) {
        var r := Filter(f, s);
        assert r == Filter(f, s[1..]);
        if |r| > 0 {
          assert SubsequenceOf(r, s[1..]);
        }
      }
    }
  }

  /** A filter whose predicate holds everywhere keeps the whole sequence. */
  lemma {:induction false} FilterAll<T(!new)>(f: T -> bool, s: seq<T>)
    requires forall x :: x in s ==> f(x)
    ensures Filter(f, s) == s
  {
    if |s| > 0 {
      FilterAll(f, s[1..]);
      assert s == [s[0]] + s[1..];
    }
  }

  /** Filters with predicates that agree on the sequence give the same result. */
  lemma {:induction false} FilterCongruent<T(!new)>(f: T -> bool, g: T -> bool, s: seq<T>)
    requires forall x :: x in s ==> f(x) == g(x)
    ensures Filter(f, s) == Filter(g, s)
  {
    if |s| > 0 {
      FilterCongruent(f, g, s[1..]);
    }
  }
}

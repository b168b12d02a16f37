/**
 * Python string helpers used by the recommender: `str.strip`, `str.lstrip(chars)`,
 * slicing `s[:n]`, the truthiness of optional strings (`a or b`) and the
 * code-point order that `sorted` uses on strings.
 */
module Text {
  import opened Wrappers

  /** The characters for which Python's `str.isspace()` is true. */
  const WhiteSpace: set<char> := {
    '\U{9}', '\U{A}', '\U{B}', '\U{C}', '\U{D}', '\U{1C}', '\U{1D}', '\U{1E}',
    '\U{1F}', '\U{20}', '\U{85}', '\U{A0}', '\U{1680}', '\U{2000}', '\U{2001}', '\U{2002}',
    '\U{2003}', '\U{2004}', '\U{2005}', '\U{2006}', '\U{2007}', '\U{2008}', '\U{2009}', '\U{200A}',
    '\U{2028}', '\U{2029}', '\U{202F}', '\U{205F}', '\U{3000}'
  }

  ghost predicate AllIn(s: string, cs: set<char>) {
    forall k :: 0 <= k < |s| ==> s[k] in cs
  }

  /** The number of leading characters of `s` that are in `cs`. */
  function LeadCount(s: string, cs: set<char>): (n: nat)
    ensures n <= |s|
    ensures forall k :: 0 <= k < n ==> s[k] in cs
    ensures n == |s| || s[n] !in cs
  {
    if s != [] && s[0] in cs then 1 + LeadCount(s[1..], cs) else 0
  }

  /** The number of trailing characters of `s` that are in `cs`. */
  function TrailCount(s: string, cs: set<char>): (n: nat)
    ensures n <= |s|
    ensures forall k :: |s| - n <= k < |s| ==> s[k] in cs
    ensures n == |s| || s[|s| - n - 1] !in cs
  {
    if s != [] && s[|s| - 1] in cs then 1 + TrailCount(s[..|s| - 1], cs) else 0
  }

  /** `s.lstrip(chars)`: drops the longest prefix made only of characters in `cs`. */
  function TrimStart(s: string, cs: set<char>): (r: string)
    ensures |r| <= |s|
    ensures r == [] || r[0] !in cs
  {
    s[LeadCount(s, cs)..]
  }

  /** `lstrip` keeps a suffix, removes only characters of `cs`, and leaves none at the front. */
  lemma TrimStartDrops(s: string, cs: set<char>)
    ensures var r := TrimStart(s, cs);
            && |r| <= |s| && r == s[|s| - |r|..]
            && AllIn(s[..|s| - |r|], cs)
            && (r == [] || r[0] !in cs)
  {
    var n := LeadCount(s, cs);
    assert forall k :: 0 <= k < n ==> s[..n][k] == s[k];
  }

  /** Where `s.strip()` starts: after the leading white space. */
  function StripStart(s: string): nat {
    LeadCount(s, WhiteSpace)
  }

  /** Where `s.strip()` ends: before the trailing white space, and never before it starts. */
  function StripEnd(s: string): (j: nat)
    ensures StripStart(s) <= j <= |s|
    ensures StripStart(s) < |s| ==> StripStart(s) < j
  {
    var i := StripStart(s);
    if i == |s| then |s|
    else
      var n := TrailCount(s, WhiteSpace);
      assert !(|s| - n <= i);
      |s| - n
  }

  /** `s.strip()`: drops leading and trailing white space. */
  function Strip(s: string): (r: string)
    ensures |r| <= |s|
    ensures r == [] <==> StripStart(s) == |s|
  {
    s[StripStart(s)..StripEnd(s)]
  }

  /**
   * `s.strip()` keeps a contiguous slice of `s` and removes only white space
   * around it.
   */
  lemma StripSlice(s: string)
    ensures exists i, j :: (0 <= i <= j <= |s| && Strip(s) == s[i..j]
                             && AllIn(s[..i], WhiteSpace) && AllIn(s[j..], WhiteSpace))
  {
    var i, j := StripStart(s), StripEnd(s);
    assert AllIn(s[..i], WhiteSpace) by {
      forall k | 0 <= k < i ensures s[..i][k] in WhiteSpace {
        assert s[..i][k] == s[k];
      }
    }
    assert AllIn(s[j..], WhiteSpace) by {
      forall k | 0 <= k < |s| - j ensures s[j..][k] in WhiteSpace {
        assert s[j..][k] == s[j + k];
      }
    }
  }

  /** `s.strip()` leaves no white space at either end. */
  lemma StripTrimmed(s: string)
    ensures var r := Strip(s);
            r == [] || (r[0] !in WhiteSpace && r[|r| - 1] !in WhiteSpace)
  {
    var i, j := StripStart(s), StripEnd(s);
    if i < j {
      assert Strip(s)[0] == s[i];
      assert Strip(s)[j - i - 1] == s[j - 1];
    }
  }

  /** A string strips to "" exactly when it is made only of white space. */
  lemma StripEmptyIffBlank(s: string)
    ensures Strip(s) == [] <==> AllIn(s, WhiteSpace)
  {
  }

  /** Python slicing `s[:n]`. */
  function Take<T>(s: seq<T>, n: nat): (r: seq<T>)
    ensures |r| == if |s| <= n then |s| else n
    ensures forall k :: 0 <= k < |r| ==> r[k] == s[k]
  {
    if |s| <= n then s else s[..n]
  }

  /** `str(n)` for a non-negative integer: its decimal digits. */
  function DecimalString(n: nat): (r: string)
    ensures r != []
    ensures forall k :: 0 <= k < |r| ==> '0' <= r[k] <= '9'
    ensures n < 10 ==> r == ["0123456789"[n]]
  {
    var digit := "0123456789"[n % 10];
    if n < 10 then [digit] else DecimalString(n / 10) + [digit]
  }

  /** `int(s)` for a string of decimal digits. */
  function DecimalValue(s: string): nat
    requires forall k :: 0 <= k < |s| ==> '0' <= s[k] <= '9'
  {
    if s == [] then 0
    else 10 * DecimalValue(s[..|s| - 1]) + ((s[|s| - 1] as int) - ('0' as int))
  }

  /** `int(str(n)) == n`: the digits of `str(n)` denote `n`. */
  lemma {:induction false} DecimalRoundTrip(n: nat)
    ensures DecimalValue(DecimalString(n)) == n
  {
    var r := DecimalString(n);
    var digit := "0123456789"[n % 10];
    assert (digit as int) - ('0' as int) == n % 10;
    if n >= 10 {
      DecimalRoundTrip(n / 10);
      assert r[..|r| - 1] == DecimalString(n / 10);
    }
  }

  /** Distinct numbers have distinct decimal strings. */
  lemma DecimalStringInjective(a: nat, b: nat)
    requires DecimalString(a) == DecimalString(b)
    ensures a == b
  {
    DecimalRoundTrip(a);
    DecimalRoundTrip(b);
  }

  /** Python truthiness of an optional string: `None` and `""` are false. */
  predicate Truthy(o: Option<string>) {
    o.Some? && o.value != []
  }

  /** `o or fallback` on an optional string. */
  function OrElse(o: Option<string>, fallback: string): (r: string)
    ensures Truthy(o) ==> r == o.value
    ensures !Truthy(o) ==> r == fallback
  {
    if Truthy(o) then o.value else fallback
  }

  /** Python's `<` on strings: lexicographic by code point. */
  predicate Less(a: string, b: string) {
    if a == [] then b != []
    else if b == [] then false
    else if a[0] != b[0] then a[0] < b[0]
    else Less(a[1..], b[1..])
  }

  lemma {:induction false} LessIrreflexive(a: string)
    ensures !Less(a, a)
  {
    if a != [] {
      LessIrreflexive(a[1..]);
    }
  }

  lemma {:induction false} LessTransitive(a: string, b: string, c: string)
    requires Less(a, b) && Less(b, c)
    ensures Less(a, c)
  {
    if a != [] && b != [] && c != [] && a[0] == b[0] && b[0] == c[0] {
      LessTransitive(a[1..], b[1..], c[1..]);
    }
  }

  lemma {:induction false} LessTotal(a: string, b: string)
    requires a != b
    ensures Less(a, b) || Less(b, a)
  {
    if a != [] && b != [] && a[0] == b[0] {
      assert a == [a[0]] + a[1..] && b == [b[0]] + b[1..];
      LessTotal(a[1..], b[1..]);
    }
  }

  lemma {:induction false} LessAsymmetric(a: string, b: string)
    requires Less(a, b)
    ensures !Less(b, a)
  {
    if a != [] && b != [] && a[0] == b[0] {
      LessAsymmetric(a[1..], b[1..]);
    }
  }
}

/** The few Kotlin standard-library string and number functions the app's logic relies on:
  * `takeIf { it.isNotEmpty() }`, `?: ""`, `isNullOrEmpty`, `trim`, `contains(ignoreCase = true)`,
  * the decimal rendering of a `Long` in a string template, `String.toLong` and `Long.toInt`. */
module KotlinStdlib {
  import opened Wrappers

  // ---------------------------------------------------------------------------------------------
  // Nullable strings

  /** `s.takeIf { it.isNotEmpty() }`: a blank form field becomes null. */
  function TakeIfNotEmpty(s: string): Option<string> {
    if s == "" then None else Some(s)
  }

  /** `o ?: ""`: a null column is shown as the empty string. */
  function OrEmpty(o: Option<string>): string {
    o.GetOr("")
  }

  /** `isNullOrEmpty()`. */
  predicate IsNullOrEmpty(o: Option<string>) {
    o.None? || o.value == ""
  }

  /** Showing a value and reading it back is the identity on every string. */
  lemma OrEmptyUndoesTakeIfNotEmpty(s: string)
    ensures OrEmpty(TakeIfNotEmpty(s)) == s
  {
  }

  /** Reading back a shown value loses only the difference between null and "". */
  lemma TakeIfNotEmptyUndoesOrEmpty(o: Option<string>)
    ensures TakeIfNotEmpty(OrEmpty(o)) == if IsNullOrEmpty(o) then None else o
  {
  }

  // ---------------------------------------------------------------------------------------------
  // trim()

  /** `Char.isWhitespace()` on the JVM: the control characters 9-13 and 0x1C-0x1F, and every
    * character of the Unicode categories Zs, Zl and Zp. */
  predicate IsWhitespace(c: char) {
    var n := c as int;
    || 9 <= n <= 13
    || 0x1C <= n <= 0x20
    || n == 0xA0 || n == 0x1680
    || 0x2000 <= n <= 0x200A
    || n == 0x2028 || n == 0x2029 || n == 0x202F || n == 0x205F || n == 0x3000
  }

  predicate AllWhitespace(s: string) {
    forall k :: 0 <= k < |s| ==> IsWhitespace(s[k])
  }

  /** A string with no whitespace at either end. */
  predicate Unpadded(s: string) {
    s == [] || (!IsWhitespace(s[0]) && !IsWhitespace(s[|s| - 1]))
  }

  /** Drops the leading whitespace: the result is a suffix of `s` that does not start with
    * whitespace, and everything dropped is whitespace. */
  function TrimStart(s: string): (r: string)
    ensures |r| <= |s| && r == s[|s| - |r|..]
    ensures AllWhitespace(s[..|s| - |r|])
    ensures r == [] || !IsWhitespace(r[0])
  {
    if s != [] && IsWhitespace(s[0]) then TrimStart(s[1..]) else s
  }

  /** Drops the trailing whitespace: the result is a prefix of `s` that does not end with
    * whitespace, and everything dropped is whitespace. */
  function TrimEnd(s: string): (r: string)
    ensures |r| <= |s| && r == s[..|r|]
    ensures AllWhitespace(s[|r|..])
    ensures r == [] || !IsWhitespace(r[|r| - 1])
  {
    if s != [] && IsWhitespace(s[|s| - 1]) then TrimEnd(s[..|s| - 1]) else s
  }

  /** `s.trim()`. */
  function Trim(s: string): (r: string)
    ensures |r| <= |s| && Unpadded(r)
  {
    TrimEnd(TrimStart(s))
  }

  lemma {:induction false} TrimStartSkipsWhitespace(w: string, u: string)
    requires AllWhitespace(w)
    ensures TrimStart(w + u) == TrimStart(u)
  {
    if w != [] {
      assert (w + u)[0] == w[0];
      assert (w + u)[1..] == w[1..] + u;
      assert AllWhitespace(w[1..]) by {
        forall k | 0 <= k < |w| - 1 ensures IsWhitespace(w[1..][k]) {
          assert w[1..][k] == w[k + 1];
        }
      }
      TrimStartSkipsWhitespace(w[1..], u);
    } else {
      assert w + u == u;
    }
  }

  lemma {:induction false} TrimEndSkipsWhitespace(u: string, w: string)
    requires AllWhitespace(w)
    ensures TrimEnd(u + w) == TrimEnd(u)
  {
    if w != [] {
      assert (u + w)[|u + w| - 1] == w[|w| - 1];
      assert (u + w)[..|u + w| - 1] == u + w[..|w| - 1];
      var front := w[..|w| - 1];
      assert AllWhitespace(front) by {
        forall k | 0 <= k < |front| ensures IsWhitespace(front[k]) {
          assert front[k] == w[k];
        }
      }
      TrimEndSkipsWhitespace(u, front);
    } else {
      assert u + w == u;
    }
  }

  /** A string of whitespace trims to nothing from the front. */
  lemma TrimStartOfWhitespace(w: string)
    requires AllWhitespace(w)
    ensures TrimStart(w) == []
  {
    assert w + [] == w;
    TrimStartSkipsWhitespace(w, []);
  }

  /** Trimming removes exactly the whitespace padding around an unpadded string. */
  lemma TrimStripsPadding(w1: string, s: string, w2: string)
    requires AllWhitespace(w1) && AllWhitespace(w2) && Unpadded(s)
    ensures Trim(w1 + s + w2) == s
  {
    assert w1 + s + w2 == w1 + (s + w2);
    TrimStartSkipsWhitespace(w1, s + w2);
    if s == [] {
      assert s + w2 == w2;
      TrimStartOfWhitespace(w2);
    } else {
      assert (s + w2)[0] == s[0];
      assert TrimStart(s + w2) == s + w2;
      TrimEndSkipsWhitespace(s, w2);
      assert TrimEnd(s) == s;
    }
  }

  /** Trimming an unpadded string changes nothing, so trimming twice is trimming once. */
  lemma TrimIdempotent(s: string)
    ensures Trim(Trim(s)) == Trim(s)
  {
    var t := Trim(s);
    assert t == [] + t + [];
    TrimStripsPadding([], t, []);
  }

  // ---------------------------------------------------------------------------------------------
  // contains(other, ignoreCase = true)

  /** Case folding, restricted to the ASCII letters. */
  function Fold(c: char): char {
    if 'A' <= c <= 'Z' then (c as int + 32) as char else c
  }

  /** `q` occurs in `s` at index `i`, up to case. */
  predicate MatchesAt(s: string, q: string, i: int) {
    0 <= i && i + |q| <= |s| && forall j :: 0 <= j < |q| ==> Fold(s[i + j]) == Fold(q[j])
  }

  /** `s.contains(q, ignoreCase = true)`: tries every start index from the left. */
  predicate ContainsIgnoreCase(s: string, q: string)
    decreases |s|
  {
    MatchesAt(s, q, 0) || (|q| < |s| && ContainsIgnoreCase(s[1..], q))
  }

  /** The left-to-right search finds `q` iff `q` occurs somewhere in `s`, up to case. */
  lemma {:induction false} ContainsIgnoreCaseIff(s: string, q: string)
    ensures ContainsIgnoreCase(s, q) <==> exists i :: MatchesAt(s, q, i)
    decreases |s|
  {
    if |q| < |s| {
      ContainsIgnoreCaseIff(s[1..], q);
      if ContainsIgnoreCase(s[1..], q) {
        var i :| MatchesAt(s[1..], q, i);
        assert MatchesAt(s, q, i + 1);
      }
      if i :| MatchesAt(s, q, i) {
        if i > 0 {
          assert MatchesAt(s[1..], q, i - 1);
        }
      }
    } else {
      if i :| MatchesAt(s, q, i) {
        assert i == 0;
      }
    }
  }

  /** Every string contains the empty string. */
  lemma ContainsEmpty(s: string)
    ensures ContainsIgnoreCase(s, "")
  {
  }

  // ---------------------------------------------------------------------------------------------
  // Long.toString(), String.toLong(), Long.toInt()

  predicate IsDigit(c: char) {
    '0' <= c <= '9'
  }

  predicate AllDigits(s: string) {
    forall k :: 0 <= k < |s| ==> IsDigit(s[k])
  }

  function DigitChar(d: int): char
    requires 0 <= d < 10
  {
    ('0' as int + d) as char
  }

  /** Decimal rendering of a non-negative number, without leading zeros. */
  function NatToString(n: nat): (r: string)
    ensures r != [] && AllDigits(r)
    ensures |r| > 1 ==> r[0] != '0'
  {
    if n < 10 then [DigitChar(n)] else NatToString(n / 10) + [DigitChar(n % 10)]
  }

  /** What a string template prints for a `Long` (or an `Int`). */
  function LongToString(n: int): (r: string)
    ensures r != [] && forall k :: 0 <= k < |r| ==> IsDigit(r[k]) || r[k] == '-'
  {
    if n < 0 then "-" + NatToString(-n) else NatToString(n)
  }

  /** The value of a string of decimal digits, most significant first. */
  function DigitsValue(s: string): nat
    requires AllDigits(s)
  {
    if s == [] then 0 else DigitsValue(s[..|s| - 1]) * 10 + (s[|s| - 1] as int - '0' as int)
  }

  /** The range of a Kotlin `Long`. */
  predicate IsLong(n: int) {
    -0x8000_0000_0000_0000 <= n < 0x8000_0000_0000_0000
  }

  /** `String.toLong()`: an optional sign followed by at least one digit, denoting a value in
    * the `Long` range; null where Kotlin throws `NumberFormatException`. */
  function ParseLong(s: string): (r: Option<int>)
    ensures r.Some? ==> IsLong(r.value)
  {
    var value :=
      if s == [] then None
      else if s[0] == '-' || s[0] == '+' then
        if |s| > 1 && AllDigits(s[1..]) then
          var magnitude: int := DigitsValue(s[1..]);
          Some(if s[0] == '-' then -magnitude else magnitude)
        else None
      else if AllDigits(s) then Some(DigitsValue(s))
      else None;
    if value.Some? && IsLong(value.value) then value else None
  }

  /** The message of the `NumberFormatException` that `toLong()` throws on `s`. */
  function NumberFormatMessage(s: string): string {
    "For input string: \"" + s + "\""
  }

  lemma {:induction false} NatToStringRoundTrip(n: nat)
    ensures DigitsValue(NatToString(n)) == n
  {
    var s := NatToString(n);
    if n < 10 {
      assert s[..|s| - 1] == [];
    } else {
      assert s[..|s| - 1] == NatToString(n / 10);
      NatToStringRoundTrip(n / 10);
    }
  }

  /** Parsing what a string template printed for a `Long` gives back the number. */
  lemma LongToStringRoundTrip(n: int)
    requires IsLong(n)
    ensures ParseLong(LongToString(n)) == Some(n)
  {
    var s := LongToString(n);
    if n < 0 {
      assert s[1..] == NatToString(-n);
      NatToStringRoundTrip(-n);
    } else {
      NatToStringRoundTrip(n);
    }
  }

  /** `Long.toInt()`: keeps the low 32 bits, read as a two's-complement `Int`. */
  function LongToInt(n: int): (r: int)
    ensures -0x8000_0000 <= r < 0x8000_0000
    ensures (n - r) % 0x1_0000_0000 == 0
  {
    var low := n % 0x1_0000_0000;
    if low < 0x8000_0000 then low else low - 0x1_0000_0000
  }

  /** A number already in the `Int` range survives `toInt()` unchanged. */
  lemma LongToIntInRange(n: int)
    requires -0x8000_0000 <= n < 0x8000_0000
    ensures LongToInt(n) == n
  {
  }

  // ---------------------------------------------------------------------------------------------
  // indexOf

  /** The index of the first `c` in `s`, or `|s|` when there is none. */
  function IndexOf(s: string, c: char): (i: nat)
    ensures i <= |s|
    ensures i < |s| ==> s[i] == c
    ensures forall k :: 0 <= k < i ==> s[k] != c
  {
    if s == [] || s[0] == c then 0 else 1 + IndexOf(s[1..], c)
  }

  // ---------------------------------------------------------------------------------------------
  // filter

  /** `s.filter(p)`: the elements satisfying `p`, in their order in `s`. */
  function Filter<T>(s: seq<T>, p: T -> bool): (r: seq<T>)
    ensures |r| <= |s|
    ensures forall i :: 0 <= i < |r| ==> p(r[i])
    decreases |s|
  {
    if s == [] then []
    else Filter(s[..|s| - 1], p) + (if p(s[|s| - 1]) then [s[|s| - 1]] else [])
  }

  /** An element is kept iff it occurs in `s` and satisfies `p`. */
  lemma {:induction false} FilterMembership<T>(s: seq<T>, p: T -> bool, x: T)
    ensures x in Filter(s, p) <==> x in s && p(x)
    decreases |s|
  {
    if s != [] {
      var front := s[..|s| - 1];
      FilterMembership(front, p, x);
      assert s == front + [s[|s| - 1]];
    }
  }

  /** Filtering keeps the order: filtering a concatenation concatenates the filtered parts. */
  lemma {:induction false} FilterDistributes<T>(s: seq<T>, t: seq<T>, p: T -> bool)
    ensures Filter(s + t, p) == Filter(s, p) + Filter(t, p)
    decreases |t|
  {
    if t == [] {
      assert s + t == s;
    } else {
      var front := t[..|t| - 1];
      assert (s + t)[..|s + t| - 1] == s + front;
      FilterDistributes(s, front, p);
    }
  }

  /** A condition every element satisfies keeps the whole list. */
  lemma {:induction false} FilterKeepsAll<T>(s: seq<T>, p: T -> bool)
    requires forall i :: 0 <= i < |s| ==> p(s[i])
    ensures Filter(s, p) == s
    decreases |s|
  {
    if s != [] {
      FilterKeepsAll(s[..|s| - 1], p);
    }
  }
}

/** Character and string operations of Python that the configuration tool relies on. */
module Strings {

  /** `c.lower()` for ASCII letters. */
  function LowerChar(c: char): char {
    if 'A' <= c <= 'Z' then (c as int + 32) as char else c
  }

  /** `s.lower()`: every upper-case ASCII letter replaced by its lower-case form. */
  function Lower(s: string): string {
    seq(|s|, i requires 0 <= i < |s| => LowerChar(s[i]))
  }

  /** Lower-casing twice changes nothing more, so a lowered type string dispatches like the original. */
  lemma LowerIdempotent(s: string)
    ensures Lower(Lower(s)) == Lower(s)
  {
  }

  /** `marker in text` for strings: `marker` occurs at some position of `text`. */
  predicate Contains(text: string, marker: string) {
    marker <= text || (|text| > 0 && Contains(text[1..], marker))
  }

  /** `marker` occurs in `text` starting at position `i`. */
  predicate OccursAt(text: string, marker: string, i: int) {
    0 <= i && i + |marker| <= |text| && text[i..i + |marker|] == marker
  }

  /** `Contains` is exactly "some slice of `text` equals `marker`". */
  lemma {:induction false} ContainsAt(text: string, marker: string)
    ensures Contains(text, marker) <==> exists i :: OccursAt(text, marker, i)
  {
    if marker <= text {
      assert OccursAt(text, marker, 0);
    } else if |text| > 0 {
      ContainsAt(text[1..], marker);
      if exists i :: OccursAt(text, marker, i) {
        var i :| OccursAt(text, marker, i);
        assert i != 0;
        assert OccursAt(text[1..], marker, i - 1);
      }
      if Contains(text[1..], marker) {
        var i :| OccursAt(text[1..], marker, i);
        assert OccursAt(text, marker, i + 1);
      }
    }
  }

  predicate IsDigit(c: char) {
    '0' <= c <= '9'
  }

  function DigitChar(d: nat): (c: char)
    requires d < 10
    ensures IsDigit(c)
    ensures c == '0' <==> d == 0
  {
    (d + '0' as int) as char
  }

  function DigitValue(c: char): (d: nat)
    requires IsDigit(c)
    ensures d < 10 && DigitChar(d) == c
  {
    c as int - '0' as int
  }

  /**
   * `str(n)` for a non-negative integer: its decimal digits, most significant first,
   * in canonical form (a single digit below ten, and no leading zero).
   */
  function NatToString(n: nat): (s: string)
    ensures |s| >= 1
    ensures forall i :: 0 <= i < |s| ==> IsDigit(s[i])
    ensures (|s| == 1) == (n < 10)
    ensures s[0] == '0' ==> n == 0
  {
    if n < 10 then [DigitChar(n)] else NatToString(n / 10) + [DigitChar(n % 10)]
  }

  /** `int(s)` for a string of decimal digits: the inverse of `NatToString`. */
  function ParseDecimal(s: string): nat
    requires forall i :: 0 <= i < |s| ==> IsDigit(s[i])
  {
    if |s| == 0 then 0 else 10 * ParseDecimal(s[..|s| - 1]) + DigitValue(s[|s| - 1])
  }

  /** Round trip: reading back the decimal text of `n` gives `n`. */
  lemma {:induction false} ParseNatToString(n: nat)
    ensures ParseDecimal(NatToString(n)) == n
  {
    var s := NatToString(n);
    if n >= 10 {
      assert s[..|s| - 1] == NatToString(n / 10);
      ParseNatToString(n / 10);
    }
  }

  /** Distinct numbers have distinct decimal texts. */
  lemma NatToStringInjective(m: nat, n: nat)
    ensures NatToString(m) == NatToString(n) ==> m == n
  {
    ParseNatToString(m);
    ParseNatToString(n);
  }

  /** Two strings with the same prefix are equal exactly when their remainders are. */
  lemma PrefixCancel(p: string, a: string, b: string)
    ensures p + a == p + b ==> a == b
  {
    if p + a == p + b {
      assert a == (p + a)[|p|..];
      assert b == (p + b)[|p|..];
    }
  }

  /** Membership in `'0123456789abcdefghijklmnopqrstuvwxyzABCDEFGHIJKLMNOPQRSTUVWXYZ'`. */
  predicate IsAlnum(c: char) {
    '0' <= c <= '9' || 'a' <= c <= 'z' || 'A' <= c <= 'Z'
  }

  /** `''.join(filter(is_alnum, s))`: the alphanumeric characters of `s`, in order. */
  function FilterAlnum(s: string): (r: string)
    ensures |r| <= |s|
    ensures forall i :: 0 <= i < |r| ==> IsAlnum(r[i])
  {
    if |s| == 0 then [] else (if IsAlnum(s[0]) then [s[0]] else []) + FilterAlnum(s[1..])
  }

  /** `a` is obtained from `b` by deleting elements, without reordering. */
  predicate IsSubsequence<T(==)>(a: seq<T>, b: seq<T>)
    decreases |b|
  {
    if |a| == 0 then true
    else if |b| == 0 then false
    else if a[0] == b[0] then IsSubsequence(a[1..], b[1..])
    else IsSubsequence(a, b[1..])
  }

  /**
   * The filter keeps the order of `s` and drops only non-alphanumeric characters:
   * it is a subsequence of `s`, and every alphanumeric character occurs in it
   * exactly as often as in `s`.
   */
  lemma {:induction false} FilterAlnumSpec(s: string)
    ensures IsSubsequence(FilterAlnum(s), s)
    ensures forall c :: IsAlnum(c) ==> multiset(FilterAlnum(s))[c] == multiset(s)[c]
  {
    if |s| > 0 {
      FilterAlnumSpec(s[1..]);
      assert s == [s[0]] + s[1..];
      var rest := FilterAlnum(s[1..]);
      if IsAlnum(s[0]) {
        assert FilterAlnum(s) == [s[0]] + rest;
        assert FilterAlnum(s)[1..] == rest;
      } else {
        assert FilterAlnum(s) == rest;
        SubsequenceOfTail(rest, s);
      }
    }
  }

  /** A subsequence of the tail of `b` is a subsequence of `b`. */
  lemma {:induction false} SubsequenceOfTail<T>(a: seq<T>, b: seq<T>)
    requires |b| > 0 && IsSubsequence(a, b[1..])
    ensures IsSubsequence(a, b)
    decreases |b|, 0
  {
    if |a| > 0 && a[0] == b[0] {
      DropFirst(a, b[1..]);
    }
  }

  /** Dropping the first character of a subsequence leaves a subsequence. */
  lemma {:induction false} DropFirst<T>(a: seq<T>, c: seq<T>)
    requires |a| > 0 && IsSubsequence(a, c)
    ensures IsSubsequence(a[1..], c)
    decreases |c|, 1
  {
    if a[0] == c[0] {
      SubsequenceOfTail(a[1..], c);
    } else {
      DropFirst(a, c[1..]);
      SubsequenceOfTail(a[1..], c);
    }
  }

  /** A string that is already alphanumeric passes the filter unchanged. */
  lemma {:induction false} FilterAlnumFixed(s: string)
    requires forall i :: 0 <= i < |s| ==> IsAlnum(s[i])
    ensures FilterAlnum(s) == s
  {
    if |s| > 0 {
      FilterAlnumFixed(s[1..]);
    }
  }
}

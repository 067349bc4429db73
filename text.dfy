/** The few string operations the validators use, in Python's meaning. */
module Text {

  /** `s.startswith(p)` */
  predicate IsPrefix(p: string, s: string) {
    |p| <= |s| && s[..|p|] == p
  }

  /** `w` occurs in `s` starting at index `i`. */
  ghost predicate OccursAt(s: string, w: string, i: nat) {
    i + |w| <= |s| && s[i..i + |w|] == w
  }

  /** `w in s` for strings: a substring test, scanning the start positions left to right. */
  predicate Contains(s: string, w: string)
    decreases |s|
  {
    IsPrefix(w, s) || (|s| > 0 && Contains(s[1..], w))
  }

  /** The scan finds `w` exactly when `w` occurs somewhere in `s`. */
  lemma {:induction false} ContainsIff(s: string, w: string)
    ensures Contains(s, w) <==> exists i: nat :: OccursAt(s, w, i)
    decreases |s|
  {
    assert OccursAt(s, w, 0) <==> IsPrefix(w, s);
    if |s| > 0 {
      ContainsIff(s[1..], w);
      forall i: nat
        ensures OccursAt(s[1..], w, i) <==> OccursAt(s, w, i + 1)
      {
        if i + |w| <= |s[1..]| {
          assert s[1..][i..i + |w|] == s[i + 1..i + 1 + |w|];
        }
      }
      if Contains(s, w) {
        if !IsPrefix(w, s) {
          var i: nat :| OccursAt(s[1..], w, i);
          assert OccursAt(s, w, i + 1);
        }
      } else {
        forall i: nat
          ensures !OccursAt(s, w, i)
        {
          if i > 0 {
            assert !OccursAt(s[1..], w, i - 1);
          }
        }
      }
    } else {
      forall i: nat
        ensures OccursAt(s, w, i) ==> i == 0
      {
      }
    }
  }

  /** Appending four pieces one by one appends their concatenation. */
  lemma AppendFour<T>(s: seq<T>, a: seq<T>, b: seq<T>, c: seq<T>, d: seq<T>)
    ensures s + a + b + c + d == s + (a + b + c + d)
  {
  }

  /** An ASCII decimal digit. */
  predicate IsDigit(c: char) {
    '0' <= c <= '9'
  }

  predicate AllDigits(s: string) {
    forall k :: 0 <= k < |s| ==> IsDigit(s[k])
  }

  function DigitValue(c: char): nat {
    if IsDigit(c) then (c as int - '0' as int) else 0
  }

  function DigitChar(d: nat): char
    requires d < 10
  {
    ('0' as int + d) as char
  }

  /** The number a string of decimal digits denotes (`int(s)` on digit strings). */
  function DecimalValue(s: string): nat {
    if s == [] then 0 else DecimalValue(s[..|s| - 1]) * 10 + DigitValue(s[|s| - 1])
  }

  /** `str(n)` for a non-negative integer. */
  function DecimalString(n: nat): (r: string)
    ensures |r| > 0 && AllDigits(r)
  {
    if n < 10 then [DigitChar(n)] else DecimalString(n / 10) + [DigitChar(n % 10)]
  }

  /** `int(str(n)) == n` */
  lemma {:induction false} DecimalRoundTrip(n: nat)
    ensures DecimalValue(DecimalString(n)) == n
  {
    var s := DecimalString(n);
    assert s[..|s| - 1] == if n < 10 then [] else DecimalString(n / 10);
    if n >= 10 {
      DecimalRoundTrip(n / 10);
    }
  }

  /** The years of the calendar (1000 to 9999) are written with exactly four digits. */
  lemma FourDigitYear(n: nat)
    requires 1000 <= n <= 9999
    ensures |DecimalString(n)| == 4
  {
    var m1, m2, m3 := n / 10, n / 10 / 10, n / 10 / 10 / 10;
    assert 100 <= m1 <= 999 && 10 <= m2 <= 99 && 1 <= m3 <= 9;
    assert |DecimalString(m3)| == 1;
    assert |DecimalString(m2)| == 2;
    assert |DecimalString(m1)| == 3;
  }
}

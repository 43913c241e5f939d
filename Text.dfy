/** String helpers standing in for the few library string operations the
    source relies on: lower-casing, substring search, decimal rendering of a
    number and left padding. */
module Text {

  /** Lower-cases one character; only ASCII letters change. */
  function LowerChar(c: char): char {
    if 'A' <= c <= 'Z' then (c as int + 32) as char else c
  }

  /** `s.lower()` in Python, `s.toLowerCase()` in JavaScript (ASCII letters only). */
  function Lower(s: string): (r: string)
    ensures |r| == |s|
    ensures forall i :: 0 <= i < |s| ==> r[i] == LowerChar(s[i])
  {
    seq(|s|, i requires 0 <= i < |s| => LowerChar(s[i]))
  }

  lemma LowerConcat(a: string, b: string)
    ensures Lower(a + b) == Lower(a) + Lower(b)
  {
    assert forall i :: 0 <= i < |a + b| ==> Lower(a + b)[i] == (Lower(a) + Lower(b))[i];
  }

  /** `p` occurs in `s` starting at index `i`. */
  predicate OccursAt(s: string, p: string, i: int) {
    0 <= i && i + |p| <= |s| && s[i..i + |p|] == p
  }

  /** `p in s` in Python, `s.includes(p)` in JavaScript. */
  predicate Contains(s: string, p: string) {
    exists i :: 0 <= i <= |s| - |p| && OccursAt(s, p, i)
  }

  lemma ContainsEmpty(s: string)
    ensures Contains(s, "")
  {
    assert OccursAt(s, "", 0);
  }

  lemma ContainsItself(s: string)
    ensures Contains(s, s)
  {
    assert OccursAt(s, s, 0);
  }

  /** An occurrence inside a part is an occurrence inside the whole. */
  lemma ContainsInConcat(a: string, b: string, p: string)
    ensures Contains(a, p) ==> Contains(a + b, p)
    ensures Contains(b, p) ==> Contains(a + b, p)
  {
    if Contains(a, p) {
      var i :| 0 <= i <= |a| - |p| && OccursAt(a, p, i);
      assert (a + b)[i..i + |p|] == a[i..i + |p|];
      assert OccursAt(a + b, p, i);
    }
    if Contains(b, p) {
      var i :| 0 <= i <= |b| - |p| && OccursAt(b, p, i);
      assert (a + b)[|a| + i..|a| + i + |p|] == b[i..i + |p|];
      assert OccursAt(a + b, p, |a| + i);
    }
  }

  /** An occurrence in `a + [c] + b` lies inside `a`, inside `b`, or covers
      `c`; so a pattern without the character `c` cannot straddle it. */
  lemma {:induction false} ContainsAcross(a: string, c: char, b: string, p: string)
    ensures Contains(a + [c] + b, p) ==> Contains(a, p) || Contains(b, p) || c in p
    ensures Contains(a, p) || Contains(b, p) ==> Contains(a + [c] + b, p)
  {
    var s := a + [c] + b;
    if Contains(s, p) {
      var i :| 0 <= i <= |s| - |p| && OccursAt(s, p, i);
      if i + |p| <= |a| {
        assert a[i..i + |p|] == s[i..i + |p|];
        assert OccursAt(a, p, i);
      } else if i > |a| {
        var j := i - |a| - 1;
        assert b[j..j + |p|] == s[i..i + |p|];
        assert OccursAt(b, p, j);
      } else {
        assert p[|a| - i] == s[i..i + |p|][|a| - i] == c;
      }
    }
    ContainsInConcat(a + [c], b, p);
    ContainsInConcat(a, [c] + b, p);
    assert a + [c] + b == a + ([c] + b);
  }

  /** The decimal digit character for `d`. */
  function DigitChar(d: nat): (c: char)
    requires d < 10
    ensures '0' <= c <= '9'
  {
    ('0' as int + d) as char
  }

  /** `str(n)` in Python, `String(n)` in JavaScript, for a natural number. */
  function NatToString(n: nat): (r: string)
    ensures |r| >= 1
    ensures forall i :: 0 <= i < |r| ==> '0' <= r[i] <= '9'
  {
    if n < 10 then [DigitChar(n)] else NatToString(n / 10) + [DigitChar(n % 10)]
  }

  /** A positive number is rendered without a leading zero. */
  lemma {:induction false} NoLeadingZero(n: nat)
    requires n >= 1
    ensures NatToString(n)[0] != '0'
  {
    if n >= 10 {
      NoLeadingZero(n / 10);
    }
  }

  /** Numbers from 10^(k-1) upward take at least k digits (for k up to 3). */
  lemma {:induction false} DigitCount(n: nat)
    ensures n >= 10 ==> |NatToString(n)| >= 2
    ensures n >= 100 ==> |NatToString(n)| >= 3
  {
    if n >= 10 {
      DigitCount(n / 10);
    }
  }

  /** Different numbers have different decimal renderings. */
  lemma {:induction false} NatToStringInjective(n: nat, m: nat)
    requires NatToString(n) == NatToString(m)
    ensures n == m
  {
    DigitCount(n);
    DigitCount(m);
    if n >= 10 && m >= 10 {
      var sn, sm := NatToString(n), NatToString(m);
      assert sn[..|sn| - 1] == NatToString(n / 10);
      assert sm[..|sm| - 1] == NatToString(m / 10);
      NatToStringInjective(n / 10, m / 10);
      assert sn[|sn| - 1] == DigitChar(n % 10);
      assert sm[|sm| - 1] == DigitChar(m % 10);
    }
  }

  /** `s.padStart(width, pad)` in JavaScript with a one-character pad. */
  function PadStart(s: string, width: nat, pad: char): (r: string)
    ensures |s| >= width ==> r == s
    ensures |s| < width ==> |r| == width && r[width - |s|..] == s
  {
    if |s| >= width then s else seq(width - |s|, _ => pad) + s
  }
}

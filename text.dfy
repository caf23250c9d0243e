/** Strings as the store sees them: decimal rendering of numbers inside keys,
    and the bytewise key order of the ordered key-value store. Keys are
    sequences of characters compared character by character, which for UTF-8
    text is the same order as comparing the encoded bytes. */
module Text {

  function Digit(d: nat): (c: char)
    requires d < 10
    ensures '0' <= c <= '9'
  {
    "0123456789"[d]
  }

  /** The decimal text of a number, as Rust's `Display` for unsigned integers writes it. */
  function Decimal(n: nat): (s: string)
    ensures |s| > 0
    ensures n < 10 <==> |s| == 1
  {
    if n < 10 then [Digit(n)] else Decimal(n / 10) + [Digit(n % 10)]
  }

  lemma {:induction false} DigitInjective(a: nat, b: nat)
    requires a < 10 && b < 10 && Digit(a) == Digit(b)
    ensures a == b
  {
  }

  /** Different numbers have different decimal texts. */
  lemma {:induction false} DecimalInjective(m: nat, n: nat)
    requires Decimal(m) == Decimal(n)
    ensures m == n
  {
    if m < 10 || n < 10 {
      assert m < 10 && n < 10;
      DigitInjective(m, n);
    } else {
      var s, t := Decimal(m), Decimal(n);
      assert s[|s| - 1] == Digit(m % 10) && t[|t| - 1] == Digit(n % 10);
      DigitInjective(m % 10, n % 10);
      assert s[..|s| - 1] == Decimal(m / 10) && t[..|t| - 1] == Decimal(n / 10);
      DecimalInjective(m / 10, n / 10);
    }
  }

  /** Equal texts with a common head have equal tails. */
  lemma CancelHead(h: string, a: string, b: string)
    requires h + a == h + b
    ensures a == b
  {
    assert a == (h + a)[|h|..];
    assert b == (h + b)[|h|..];
  }

  predicate StartsWith(s: string, p: string) {
    |p| <= |s| && s[..|p|] == p
  }

  /** Strict lexicographic order: `a` sorts before `b`. */
  predicate Below(a: string, b: string)
    decreases |a|
  {
    |b| > 0 && (|a| == 0 || a[0] < b[0] || (a[0] == b[0] && Below(a[1..], b[1..])))
  }

  lemma {:induction false} BelowIrreflexive(a: string)
    ensures !Below(a, a)
    decreases |a|
  {
    if |a| > 0 {
      BelowIrreflexive(a[1..]);
    }
  }

  lemma {:induction false} BelowTransitive(a: string, b: string, c: string)
    requires Below(a, b) && Below(b, c)
    ensures Below(a, c)
    decreases |a|
  {
    if |a| > 0 && a[0] == b[0] && b[0] == c[0] {
      BelowTransitive(a[1..], b[1..], c[1..]);
    }
  }

  lemma {:induction false} BelowTotal(a: string, b: string)
    ensures a == b || Below(a, b) || Below(b, a)
    decreases |a|
  {
    if |a| > 0 && |b| > 0 && a[0] == b[0] {
      BelowTotal(a[1..], b[1..]);
      if a[1..] == b[1..] {
        assert a == [a[0]] + a[1..] && b == [b[0]] + b[1..];
      }
    }
  }

  /** A key that starts with a prefix does not sort before it. */
  lemma {:induction false} PrefixedNotBelow(k: string, p: string)
    requires StartsWith(k, p)
    ensures !Below(k, p)
    decreases |p|
  {
    if |p| > 0 {
      assert k[0] == p[0];
      assert StartsWith(k[1..], p[1..]) by {
        assert k[1..][..|p| - 1] == k[..|p|][1..];
      }
      PrefixedNotBelow(k[1..], p[1..]);
    }
  }

  lemma StartsWithStep(s: string, p: string)
    requires |s| > 0 && |p| > 0 && s[0] == p[0]
    ensures StartsWith(s, p) <==> StartsWith(s[1..], p[1..])
  {
    if |p| <= |s| {
      assert s[..|p|] == [s[0]] + s[1..][..|p| - 1];
      assert p == [p[0]] + p[1..];
    }
  }

  /** Once a key at or after the prefix does not start with it, no later key
      does: the keys starting with a prefix form one contiguous run. */
  lemma {:induction false} LeavingPrefix(p: string, a: string, b: string)
    requires !Below(a, p) && !StartsWith(a, p) && Below(a, b)
    ensures !StartsWith(b, p)
    decreases |p|
  {
    if |p| > 0 && a[0] == p[0] && b[0] == a[0] {
      StartsWithStep(a, p);
      StartsWithStep(b, p);
      LeavingPrefix(p[1..], a[1..], b[1..]);
    }
  }

  /** `m` is the least string of `s`. */
  predicate IsLeast(m: string, s: set<string>) {
    m in s && forall x :: x in s && x != m ==> Below(m, x)
  }

  /** Adding `y` to a set whose least string is `m` gives the smaller of the two as least. */
  lemma LeastOfMore(m: string, rest: set<string>, y: string)
    requires IsLeast(m, rest) && y !in rest
    ensures IsLeast(if Below(m, y) then m else y, rest + {y})
  {
    BelowTotal(m, y);
    if !Below(m, y) {
      forall x | x in rest + {y} && x != y
        ensures Below(y, x)
      {
        if x != m {
          BelowTransitive(y, m, x);
        }
      }
    }
  }

  /** Every non-empty finite set of keys has a least element. */
  lemma {:induction false} LeastExists(s: set<string>)
    requires s != {}
    ensures exists m :: IsLeast(m, s)
    decreases |s|
  {
    var y :| y in s;
    if s == {y} {
      assert IsLeast(y, s);
    } else {
      var rest := s - {y};
      LeastExists(rest);
      var m :| IsLeast(m, rest);
      LeastOfMore(m, rest, y);
      assert rest + {y} == s;
    }
  }
}

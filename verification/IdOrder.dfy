/** Task ids as the queue sorts them: as text. */
module IdOrder {
  import opened QueueTypes

  // The decimal digits of n, with zeros in front up to the width.
  function Padded(n: nat, width: nat): (d: seq<nat>)
    ensures |d| >= width
    decreases width, n
  {
    if n == 0 && width == 0 then [] else Padded(n / 10, if width == 0 then 0 else width - 1) + [n % 10]
  }

  // An id's number is written with three digits, or more where it needs them.
  function Digits(n: nat): seq<nat> {
    Padded(n, 3)
  }

  // Text order: the first difference decides, and a prefix comes first.
  predicate Less(s: seq<nat>, t: seq<nat>) {
    t != [] && (s == [] || s[0] < t[0] || (s[0] == t[0] && Less(s[1..], t[1..])))
  }

  lemma {:induction false} LessTransitive(s: seq<nat>, t: seq<nat>, u: seq<nat>)
    requires Less(s, t) && Less(t, u)
    ensures Less(s, u)
  {
    if s != [] && s[0] == t[0] == u[0] {
      LessTransitive(s[1..], t[1..], u[1..]);
    }
  }

  lemma {:induction false} LessIrreflexive(s: seq<nat>)
    ensures !Less(s, s)
  {
    if s != [] {
      LessIrreflexive(s[1..]);
    }
  }

  lemma {:induction false} LessTotal(s: seq<nat>, t: seq<nat>)
    ensures s == t || Less(s, t) || Less(t, s)
  {
    if s != [] && t != [] && s[0] == t[0] {
      LessTotal(s[1..], t[1..]);
      assert s == [s[0]] + s[1..] && t == [t[0]] + t[1..];
    }
  }

  lemma {:induction false} PaddedInjective(a: nat, b: nat, width: nat)
    requires Padded(a, width) == Padded(b, width)
    ensures a == b
    decreases width, a
  {
    if a != 0 || width != 0 {
      var d := Padded(a, width);
      var w := if width == 0 then 0 else width - 1;
      assert Padded(a / 10, w) == d[..|d| - 1] && a % 10 == d[|d| - 1];
      assert Padded(b / 10, w) == d[..|d| - 1] && b % 10 == d[|d| - 1];
      PaddedInjective(a / 10, b / 10, w);
    }
  }

  predicate Earlier(a: TaskId, b: TaskId) {
    Less(Digits(a.n), Digits(b.n))
  }

  // A strict total order on ids.
  lemma EarlierIsTotal(a: TaskId, b: TaskId)
    ensures !Earlier(a, a)
    ensures a == b || Earlier(a, b) || Earlier(b, a)
    ensures !(Earlier(a, b) && Earlier(b, a))
  {
    LessIrreflexive(Digits(a.n));
    LessTotal(Digits(a.n), Digits(b.n));
    if Digits(a.n) == Digits(b.n) {
      PaddedInjective(a.n, b.n, 3);
    }
    if Earlier(a, b) && Earlier(b, a) {
      LessTransitive(Digits(a.n), Digits(b.n), Digits(a.n));
    }
  }

  lemma EarlierTransitive(a: TaskId, b: TaskId, c: TaskId)
    requires Earlier(a, b) && Earlier(b, c)
    ensures Earlier(a, c)
  {
    LessTransitive(Digits(a.n), Digits(b.n), Digits(c.n));
  }

  // ------------------------------------------------- text order and age

  // The number that digits write.
  function Value(d: seq<nat>): nat {
    if d == [] then 0 else 10 * Value(d[..|d| - 1]) + d[|d| - 1]
  }

  predicate AreDigits(d: seq<nat>) {
    forall i :: 0 <= i < |d| ==> d[i] < 10
  }

  function Pow10(k: nat): (p: nat)
    ensures p > 0
  {
    if k == 0 then 1 else 10 * Pow10(k - 1)
  }

  lemma ValueAppend(d: seq<nat>, x: nat)
    ensures Value(d + [x]) == 10 * Value(d) + x
  {
    assert (d + [x])[..|d|] == d;
  }

  // Digits of q, then x.
  lemma DigitsAppend(d: seq<nat>, q: nat, x: nat)
    requires AreDigits(d) && Value(d) == q && x < 10
    ensures AreDigits(d + [x]) && Value(d + [x]) == 10 * q + x
  {
    ValueAppend(d, x);
  }

  lemma {:induction false} PaddedIs(n: nat, width: nat)
    ensures AreDigits(Padded(n, width)) && Value(Padded(n, width)) == n
    decreases width, n
  {
    if n != 0 || width != 0 {
      var w := if width == 0 then 0 else width - 1;
      PaddedIs(n / 10, w);
      DigitsAppend(Padded(n / 10, w), n / 10, n % 10);
    }
  }

  lemma {:induction false} LessAppend(s: seq<nat>, t: seq<nat>, x: nat, y: nat)
    requires |s| == |t|
    ensures Less(s + [x], t + [y]) <==> Less(s, t) || (s == t && x < y)
  {
    if s == [] {
      assert [x][1..] == [] && [y][1..] == [];
    } else {
      assert (s + [x])[1..] == s[1..] + [x] && (t + [y])[1..] == t[1..] + [y];
      LessAppend(s[1..], t[1..], x, y);
      assert s == [s[0]] + s[1..] && t == [t[0]] + t[1..];
    }
  }

  // Digits of one width are in text order as their numbers are.
  lemma {:induction false} SameWidth(s: seq<nat>, t: seq<nat>)
    requires |s| == |t| && AreDigits(s) && AreDigits(t)
    ensures Less(s, t) <==> Value(s) < Value(t)
    ensures s == t <==> Value(s) == Value(t)
  {
    if s != [] {
      var s', t' := s[..|s| - 1], t[..|t| - 1];
      SameWidth(s', t');
      LessAppend(s', t', s[|s| - 1], t[|t| - 1]);
      assert s == s' + [s[|s| - 1]] && t == t' + [t[|t| - 1]];
    }
  }

  // A shorter text comes before a longer one exactly when it does not come after its beginning.
  lemma {:induction false} LessPrefix(s: seq<nat>, t: seq<nat>)
    requires |s| <= |t|
    ensures Less(s, t) <==> Less(s, t[..|s|]) || (s == t[..|s|] && |s| < |t|)
  {
    if s != [] {
      LessPrefix(s[1..], t[1..]);
      assert t[..|s|][1..] == t[1..][..|s| - 1] && t[..|s|][0] == t[0];
      assert s == [s[0]] + s[1..] && t[..|s|] == [t[0]] + t[1..][..|s| - 1];
    } else {
      assert t[..0] == [];
    }
  }

  lemma DivideTwice(n: nat, p: nat)
    requires p > 0
    ensures n / (10 * p) == (n / 10) / p
  {
    var q, r := n / 10, n % 10;
    var q2, r2 := q / p, q % p;
    assert n == 10 * (p * q2 + r2) + r;
    assert n == (10 * p) * q2 + (10 * r2 + r);
    assert 10 * r2 + r < 10 * p;
    QuotientIs(n, 10 * p, q2, 10 * r2 + r);
  }

  lemma QuotientIs(n: nat, d: nat, q: nat, r: nat)
    requires n == d * q + r && r < d
    ensures n / d == q
  {
    UniqueQuotient(d, q, r, n / d, n % d);
  }

  lemma UniqueQuotient(d: nat, q: nat, r: nat, q': nat, r': nat)
    requires d * q + r == d * q' + r' && r < d && r' < d
    ensures q == q'
  {
    if q < q' {
      Multiples(d, q + 1, q');
    } else if q' < q {
      Multiples(d, q' + 1, q);
    }
  }

  lemma Multiples(d: nat, a: nat, b: nat)
    requires a <= b
    ensures d * a <= d * b
  {
  }

  // Cutting digits off the end divides.
  lemma {:induction false} CutDivides(d: seq<nat>, k: nat)
    requires k <= |d| && AreDigits(d)
    ensures Value(d[..|d| - k]) == Value(d) / Pow10(k)
    decreases k
  {
    if k == 0 {
      assert d[..|d|] == d;
    } else {
      var d' := d[..|d| - 1];
      CutDivides(d', k - 1);
      assert d'[..|d'| - (k - 1)] == d[..|d| - k];
      assert Value(d) / 10 == Value(d');
      DivideTwice(Value(d), Pow10(k - 1));
    }
  }

  // Exactly when an id comes before another that is not shorter.
  lemma EarlierIff(a: TaskId, b: TaskId)
    requires |Digits(a.n)| <= |Digits(b.n)|
    ensures var cut := b.n / Pow10(|Digits(b.n)| - |Digits(a.n)|);
            Earlier(a, b) <==> a.n < cut || (a.n == cut && |Digits(a.n)| < |Digits(b.n)|)
  {
    var s, t := Digits(a.n), Digits(b.n);
    PaddedIs(a.n, 3);
    PaddedIs(b.n, 3);
    CutDivides(t, |t| - |s|);
    LessPrefix(s, t);
    SameWidth(s, t[..|s|]);
  }

  lemma {:induction false} WidthGrows(a: nat, b: nat, width: nat)
    requires a <= b
    ensures |Padded(a, width)| <= |Padded(b, width)|
    decreases width, b
  {
    if a != 0 || width != 0 {
      WidthGrows(a / 10, b / 10, if width == 0 then 0 else width - 1);
    }
  }

  // a's number does not exceed b's cut to the same width.
  predicate FitsBelow(a: TaskId, b: TaskId) {
    |Digits(a.n)| <= |Digits(b.n)| && a.n <= b.n / Pow10(|Digits(b.n)| - |Digits(a.n)|)
  }

  // Of two tasks the older one, with the smaller number, comes first if and only if its number
  // does not exceed the newer one's cut to the same width. So it always does among numbers of
  // one width, and H-100 comes before H-1000 but H-999 does not.
  lemma OlderFirst(a: TaskId, b: TaskId)
    requires a.n < b.n
    ensures |Digits(a.n)| <= |Digits(b.n)|
    ensures Earlier(a, b) <==> a.n <= b.n / Pow10(|Digits(b.n)| - |Digits(a.n)|)
  {
    WidthGrows(a.n, b.n, 3);
    EarlierIff(a, b);
  }
}

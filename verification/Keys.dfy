/** Composite map keys: two strings joined by a NUL, as the custody reservations and the
    export's edge check build them. */
module Keys {

  const NUL: char := '\0'

  function Join(a: string, b: string): string {
    a + [NUL] + b
  }

  lemma {:induction false} ShorterHeadMeansNul(a: string, b: string, c: string, d: string)
    requires Join(a, b) == Join(c, d) && |c| < |a|
    ensures NUL in a && NUL in d
  {
    var k := Join(a, b);
    assert a[|c|] == k[|c|];
    assert d[|a| - |c| - 1] == k[|a|];
  }

  lemma {:induction false} JoinSplits(a: string, b: string, c: string, d: string)
    requires NUL !in a && NUL !in c && Join(a, b) == Join(c, d)
    ensures a == c && b == d
  {
    var k := Join(a, b);
    if |a| < |c| {
      ShorterHeadMeansNul(c, d, a, b);
    } else if |c| < |a| {
      ShorterHeadMeansNul(a, b, c, d);
    }
    assert a == k[..|a|] && c == k[..|c|];
    assert b == k[|a| + 1..] && d == k[|c| + 1..];
  }

  /** A pair shares its joined key with some other pair exactly when one of its two parts
      contains a NUL. */
  lemma {:induction false} JoinCollidesIff(a: string, b: string)
    ensures (exists c, d :: (c, d) != (a, b) && Join(c, d) == Join(a, b)) <==> NUL in a || NUL in b
  {
    if NUL in a {
      var i :| 0 <= i < |a| && a[i] == NUL;
      var c, d := a[..i], a[i + 1..] + [NUL] + b;
      assert Join(c, d) == Join(a, b);
      assert |c| < |a|;
    } else if NUL in b {
      var i :| 0 <= i < |b| && b[i] == NUL;
      var c, d := a + [NUL] + b[..i], b[i + 1..];
      assert Join(c, d) == Join(a, b);
      assert |d| < |b|;
    } else {
      forall c, d | Join(c, d) == Join(a, b)
        ensures c == a && d == b
      {
        var k := Join(a, b);
        if |c| < |a| {
          ShorterHeadMeansNul(a, b, c, d);
        } else if |a| < |c| {
          ShorterHeadMeansNul(c, d, a, b);
        }
        assert c == k[..|c|] && d == k[|c| + 1..];
      }
    }
  }

  // ------------------------------------------------------------ numbered keys

  function Decimal(n: nat): string {
    (if n < 10 then "" else Decimal(n / 10)) + ["0123456789"[n % 10]]
  }

  lemma {:induction false} DecimalIsDigits(n: nat)
    ensures '#' !in Decimal(n)
  {
    if n >= 10 {
      DecimalIsDigits(n / 10);
    }
  }

  lemma {:induction false} DecimalIsInjective(m: nat, n: nat)
    requires Decimal(m) == Decimal(n)
    ensures m == n
  {
    var a, b := Decimal(m), Decimal(n);
    assert "0123456789"[m % 10] == a[|a| - 1] == b[|b| - 1] == "0123456789"[n % 10];
    assert a[..|a| - 1] == if m < 10 then "" else Decimal(m / 10);
    assert b[..|b| - 1] == if n < 10 then "" else Decimal(n / 10);
    if m >= 10 && n >= 10 {
      DecimalIsInjective(m / 10, n / 10);
    }
  }

  function Numbered(a: string, n: nat): string {
    a + "#" + Decimal(n)
  }

  lemma {:induction false} LaterHash(a: string, m: nat, b: string, n: nat)
    requires Numbered(a, m) == Numbered(b, n) && |a| < |b|
    ensures '#' in Decimal(m)
  {
    assert Numbered(a, m)[|b|] == Decimal(m)[|b| - |a| - 1];
  }

  // The last hash sign splits a numbered key, whatever the name holds.
  lemma {:induction false} NumberedIsInjective(a: string, m: nat, b: string, n: nat)
    requires Numbered(a, m) == Numbered(b, n)
    ensures a == b && m == n
  {
    DecimalIsDigits(m);
    DecimalIsDigits(n);
    var k := Numbered(a, m);
    if |a| < |b| {
      LaterHash(a, m, b, n);
    } else if |b| < |a| {
      LaterHash(b, n, a, m);
    }
    assert a == k[..|a|] && b == k[..|b|];
    assert Decimal(m) == k[|a| + 1..] && Decimal(n) == k[|b| + 1..];
    DecimalIsInjective(m, n);
  }
}

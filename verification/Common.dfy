/** Small shared vocabulary. */
module Common {

  datatype Option<+T> = None | Some(value: T)

  function Min(a: int, b: int): int {
    if a <= b then a else b
  }

  function Max(a: int, b: int): int {
    if a >= b then a else b
  }

  lemma MulMonotonic(a: nat, b: nat, d: nat)
    requires a <= b
    ensures a * d <= b * d
  {
    assert b * d == a * d + (b - a) * d;
  }

  lemma MulSuccessor(a: int, d: int)
    ensures (a + 1) * d == a * d + d
  {
  }

  lemma {:induction false} QuotientUnique(m: nat, d: int, q: nat)
    requires d >= 1 && q * d <= m < q * d + d
    ensures m / d == q
  {
    var p := m / d;
    assert p * d + m % d == m;
    MulSuccessor(p, d);
    MulSuccessor(q, d);
    if p > q {
      MulMonotonic(q + 1, p, d);
    } else if q > p {
      MulMonotonic(p + 1, q, d);
    }
  }

  // ----- names joined by a colon -----------------------------------------------------------------------------------

  function Join(a: string, b: string): string {
    a + ":" + b
  }

  /** Two first parts that some second parts make one: one of them, with a colon, begins the other. */
  predicate Clash(a: string, c: string) {
    a + ":" <= c || c + ":" <= a
  }

  lemma JoinSplits(a: string, b: string, c: string, d: string)
    requires Join(a, b) == Join(c, d) && |a| <= |c|
    ensures if |a| == |c| then a == c && b == d else a + ":" <= c
  {
    var s := Join(a, b);
    assert a == s[..|a|] && c == s[..|c|];
    assert b == s[|a| + 1..] && d == s[|c| + 1..];
    assert |a| < |c| ==> c[..|a| + 1] == s[..|a| + 1] == a + ":";
  }

  lemma JoinInjective(a: string, b: string, c: string, d: string)
    requires Join(a, b) == Join(c, d) && !Clash(a, c)
    ensures a == c && b == d
  {
    if |a| <= |c| {
      JoinSplits(a, b, c, d);
    } else {
      JoinSplits(c, d, a, b);
    }
  }

  lemma ClashingJoin(a: string, c: string, tail: string) returns (b: string, d: string)
    requires Clash(a, c)
    ensures Join(a, b) == Join(c, d) && |b| >= |tail| && |d| >= |tail|
  {
    if a + ":" <= c {
      b, d := Join(c[|a| + 1..], tail), tail;
      assert c == a + ":" + c[|a| + 1..];
    } else {
      b, d := tail, Join(a[|c| + 1..], tail);
      assert a == c + ":" + a[|c| + 1..];
    }
  }

  /** Exactly then can different first parts be told apart no longer, however long the second parts have to be. */
  lemma JoinSharedIff(a: string, c: string, least: nat)
    requires a != c
    ensures (exists b, d :: |b| >= least && |d| >= least && Join(a, b) == Join(c, d)) <==> Clash(a, c)
  {
    if Clash(a, c) {
      var b, d := ClashingJoin(a, c, seq(least, _ => 'k'));
    } else {
      forall b, d ensures Join(a, b) != Join(c, d) {
        if Join(a, b) == Join(c, d) {
          JoinInjective(a, b, c, d);
        }
      }
    }
  }
}

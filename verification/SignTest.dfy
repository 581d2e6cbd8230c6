/**
 The one-sided sign test behind the release gate.

 For `wins` and `losses` the program returns the probability that a fair coin shows at least
 `wins` heads in `wins + losses` throws, and no value when nothing was informative. Python sums
 exact integers and divides once; the quotient is kept here as a real number.
*/
module SignTest {

  import opened Options

  // ---------- Binomial coefficients ----------

  function Pow2(n: nat): (p: nat)
    ensures p >= 1
  {
    if n == 0 then 1 else 2 * Pow2(n - 1)
  }

  function Factorial(n: nat): (f: nat)
    ensures f >= 1
  {
    if n == 0 then 1 else n * Factorial(n - 1)
  }

  /** Binomial coefficients by Pascal's rule; CombIsFactorialQuotient ties them to `math.comb`. */
  function Comb(n: nat, k: nat): nat
  {
    if k == 0 then 1 else if n == 0 then 0 else Comb(n - 1, k - 1) + Comb(n - 1, k)
  }

  lemma {:induction false} CombBeyond(n: nat, k: nat)
    requires k > n
    ensures Comb(n, k) == 0
  {
    if n > 0 {
      CombBeyond(n - 1, k - 1);
      CombBeyond(n - 1, k);
    }
  }

  lemma {:induction false} CombPositive(n: nat, k: nat)
    requires k <= n
    ensures Comb(n, k) >= 1
  {
    if k > 0 { CombPositive(n - 1, k - 1); }
  }

  lemma {:induction false} CombFull(n: nat)
    ensures Comb(n, n) == 1
  {
    if n > 0 { CombFull(n - 1); CombBeyond(n - 1, n); }
  }

  /** `math.comb(n, k)` is n! / (k! (n-k)!): the coefficients here are those numbers. */
  lemma {:induction false} CombIsFactorialQuotient(n: nat, k: nat)
    requires k <= n
    ensures Comb(n, k) * (Factorial(k) * Factorial(n - k)) == Factorial(n)
  {
    if k == 0 {
    } else if k == n {
      CombFull(n);
    } else {
      CombIsFactorialQuotient(n - 1, k - 1);
      CombIsFactorialQuotient(n - 1, k);
      assert n - 1 - (k - 1) == n - k;
      PascalScaled(Comb(n - 1, k - 1), Comb(n - 1, k), Factorial(k - 1), Factorial(n - 1 - k), k, n - k,
                   Factorial(n - 1));
    }
  }

  /** The arithmetic of one step of CombIsFactorialQuotient. */
  lemma PascalScaled(a: nat, b: nat, f: nat, g: nat, k: nat, m: nat, total: nat)
    requires a * (f * (m * g)) == total
    requires b * ((k * f) * g) == total
    ensures (a + b) * ((k * f) * (m * g)) == (k + m) * total
  {
    var x := (k * f) * (m * g);
    assert x == k * (f * (m * g)) by { assert (k * f) * (m * g) == k * (f * (m * g)); }
    assert x == m * ((k * f) * g);
    assert a * x == k * total by { Swap(a, k, f * (m * g)); }
    assert b * x == m * total by { Swap(b, m, (k * f) * g); }
  }

  lemma Swap(a: nat, b: nat, c: nat)
    ensures a * (b * c) == b * (a * c)
  {
  }

  lemma {:induction false} CombSymmetric(n: nat, k: nat)
    requires k <= n
    ensures Comb(n, k) == Comb(n, n - k)
  {
    if k == 0 || k == n {
      CombFull(n);
    } else {
      CombSymmetric(n - 1, k - 1);
      CombSymmetric(n - 1, k);
    }
  }

  // ---------- The tail and the p-value ----------

  /** Sum of Comb(n, v) for v from `w` to `n`. */
  function Tail(n: nat, w: nat): nat
    decreases n + 1 - w
  {
    if w > n then 0 else Comb(n, w) + Tail(n, w + 1)
  }

  function PValue(wins: nat, losses: nat): real
    requires wins + losses > 0
  {
    Tail(wins + losses, wins) as real / Pow2(wins + losses) as real
  }

  method OneSidedSignTest(wins: nat, losses: nat) returns (p: Option<real>)
    ensures p == if wins + losses == 0 then None else Some(PValue(wins, losses))
  {
    var n := wins + losses;
    if n == 0 { return None; }
    var total := 0;
    for value := wins to n + 1
      invariant total + Tail(n, value) == Tail(n, wins)
    {
      total := total + Comb(n, value);
    }
    p := Some(total as real / Pow2(n) as real);
  }

  /** Pascal's recurrence, carried from the coefficients to the tails. */
  lemma {:induction false} TailPascal(n: nat, w: nat)
    ensures Tail(n + 1, w + 1) == Tail(n, w + 1) + Tail(n, w)
    decreases n + 1 - w
  {
    if w <= n {
      TailPascal(n, w + 1);
      CombBeyond(n, n + 1);
    }
  }

  lemma {:induction false} TailAll(n: nat)
    ensures Tail(n, 0) == Pow2(n)
  {
    if n == 0 {
      assert Tail(0, 0) == Comb(0, 0) + Tail(0, 1);
    } else {
      TailAll(n - 1);
      TailPascal(n - 1, 0);
      assert Tail(n, 0) == Comb(n, 0) + Tail(n, 1);
      assert Tail(n - 1, 0) == Comb(n - 1, 0) + Tail(n - 1, 1);
    }
  }

  lemma {:induction false} TailShrinks(n: nat, w: nat, v: nat)
    requires w <= v
    ensures Tail(n, v) <= Tail(n, w)
    decreases v - w
  {
    if w < v { TailShrinks(n, w + 1, v); }
  }

  /** The two tails that meet between w-1 and w make up all 2^n outcomes. */
  lemma {:induction false} TailComplement(n: nat, w: nat)
    requires w <= n + 1
    ensures Tail(n, w) + Tail(n, n + 1 - w) == Pow2(n)
  {
    if w == 0 {
      TailAll(n);
    } else {
      TailComplement(n, w - 1);
      CombSymmetric(n, w - 1);
      assert Tail(n, w - 1) == Comb(n, w - 1) + Tail(n, w);
      assert Tail(n, n + 1 - w) == Comb(n, n + 1 - w) + Tail(n, n + 2 - w);
    }
  }

  /** Comparing a quotient with one over twice the denominator. */
  lemma HalvedQuotient(a: nat, c: nat, m: nat)
    requires m > 0
    ensures a as real / (2 * m) as real < c as real / m as real <==> a < 2 * c
    ensures c as real / m as real < a as real / (2 * m) as real <==> 2 * c < a
  {
    var x, y, r := a as real / (2 * m) as real, c as real / m as real, m as real;
    assert x * (2.0 * r) == a as real;
    assert y * r == c as real;
    RealScale(x, y, r);
    RealScale(y, x, r);
  }

  lemma RealScale(x: real, y: real, r: real)
    requires r > 0.0
    ensures x < y <==> x * r < y * r
  {
    if x < y {
      assert (y - x) * r > 0.0;
    } else {
      assert (x - y) * r >= 0.0;
    }
  }

  /** Comparing a quotient with a constant. */
  lemma QuotientAgainst(a: nat, m: nat, c: real)
    requires m > 0
    ensures a as real / m as real <= c <==> a as real <= c * m as real
  {
    var x, r := a as real / m as real, m as real;
    assert x * r == a as real;
    RealScale(c, x, r);
  }

  /** One more win lowers the p-value. */
  lemma WinLowers(wins: nat, losses: nat)
    requires wins + losses > 0
    ensures PValue(wins + 1, losses) < PValue(wins, losses)
  {
    var n := wins + losses;
    TailPascal(n, wins);
    CombPositive(n, wins);
    assert Tail(n, wins) == Comb(n, wins) + Tail(n, wins + 1);
    HalvedQuotient(Tail(n + 1, wins + 1), Tail(n, wins), Pow2(n));
  }

  /** One more loss raises the p-value, strictly as soon as there is one win. */
  lemma LossRaises(wins: nat, losses: nat)
    requires wins + losses > 0
    ensures wins > 0 ==> PValue(wins, losses) < PValue(wins, losses + 1)
    ensures wins == 0 ==> PValue(wins, losses) == 1.0
  {
    var n := wins + losses;
    if wins == 0 {
      TailAll(n);
      AddQuotients(Tail(n, 0), 0, Pow2(n));
    } else {
      TailPascal(n, wins - 1);
      CombPositive(n, wins - 1);
      assert Tail(n, wins - 1) == Comb(n, wins - 1) + Tail(n, wins);
      HalvedQuotient(Tail(n + 1, wins), Tail(n, wins), Pow2(n));
    }
  }

  /** Exchanging the roles of the arms, shifted by one case, gives the complementary probability. */
  lemma PValueComplement(wins: nat, losses: nat)
    requires wins >= 1
    ensures PValue(wins, losses) + PValue(losses + 1, wins - 1) == 1.0
  {
    var n := wins + losses;
    TailComplement(n, wins);
    AddQuotients(Tail(n, wins), Tail(n, losses + 1), Pow2(n));
  }

  lemma AddQuotients(a: nat, b: nat, m: nat)
    requires m > 0 && a + b == m
    ensures a as real / m as real + b as real / m as real == 1.0
  {
    var x, y, r := a as real / m as real, b as real / m as real, m as real;
    assert x * r == a as real && y * r == b as real;
    assert x * r + y * r == (x + y) * r;
    assert a as real + b as real == (a + b) as real;
    RealScale(x + y, 1.0, r);
    RealScale(1.0, x + y, r);
  }

  /** The p-value is at most one half exactly when the treatment won more cases than it lost. */
  lemma HalfIffMoreWins(wins: nat, losses: nat)
    requires wins + losses > 0
    ensures PValue(wins, losses) <= 0.5 <==> wins > losses
  {
    var n := wins + losses;
    TailComplement(n, wins);
    QuotientAgainst(Tail(n, wins), Pow2(n), 0.5);
    if wins > losses {
      TailShrinks(n, losses + 1, wins);
    } else {
      TailShrinks(n, wins, losses);
      assert Tail(n, losses) == Comb(n, losses) + Tail(n, losses + 1);
      CombPositive(n, losses);
    }
  }

  /** No outcome is less likely than one in 2^n, so a p-value of at most 1/20 needs five cases. */
  lemma PValueFloor(wins: nat, losses: nat)
    requires wins + losses > 0
    ensures PValue(wins, losses) >= 1.0 / Pow2(wins + losses) as real
    ensures PValue(wins, losses) <= 0.05 ==> wins + losses >= 5
  {
    var n := wins + losses;
    TailShrinks(n, wins, n);
    CombFull(n);
    assert Tail(n, n) == Comb(n, n) + Tail(n, n + 1);
    QuotientFloor(Tail(n, wins), Pow2(n));
    if n < 5 {
      assert Pow2(n) <= 16 by { Pow2Monotone(n, 4); assert Pow2(4) == 2 * Pow2(3) == 16; }
      QuotientAgainst(Tail(n, wins), Pow2(n), 0.05);
    }
  }

  lemma QuotientFloor(a: nat, m: nat)
    requires m > 0 && a >= 1
    ensures a as real / m as real >= 1.0 / m as real
  {
    var x, y, r := a as real / m as real, 1.0 / m as real, m as real;
    assert x * r == a as real && y * r == 1.0;
    RealScale(x, y, r);
  }

  lemma {:induction false} Pow2Monotone(m: nat, n: nat)
    requires m <= n
    ensures Pow2(m) <= Pow2(n)
    decreases n - m
  {
    if m < n { Pow2Monotone(m, n - 1); }
  }

  /** Five informative cases pass the threshold exactly when the treatment won all of them. */
  lemma FiveCasesPassOnlyUnanimously(wins: nat, losses: nat)
    requires wins + losses == 5
    ensures PValue(wins, losses) <= 0.05 <==> losses == 0
  {
    var n := wins + losses;
    LastTails(n);
    assert Pow2(n) == 32 by { assert Pow2(n) == 4 * Pow2(n - 2) && Pow2(n - 2) == 4 * Pow2(n - 4); }
    if losses > 0 { TailShrinks(n, wins, n - 1); }
    QuotientAgainst(Tail(n, wins), Pow2(n), 0.05);
  }

  lemma {:induction false} SmallCombs(n: nat)
    ensures Comb(n, 1) == n && 2 * Comb(n, 2) == n * (n - 1)
  {
    if n > 0 { SmallCombs(n - 1); }
  }

  /** The last three tails of any n. */
  lemma LastTails(n: nat)
    requires n >= 2
    ensures Tail(n, n) == 1 && Tail(n, n - 1) == n + 1 && 2 * Tail(n, n - 2) == n * (n - 1) + 2 * n + 2
  {
    CombFull(n);
    SmallCombs(n);
    CombSymmetric(n, 1);
    CombSymmetric(n, 2);
    assert Tail(n, n + 1) == 0;
    assert Tail(n, n) == Comb(n, n) + Tail(n, n + 1);
    assert Tail(n, n - 1) == Comb(n, n - 1) + Tail(n, n);
    assert Tail(n, n - 2) == Comb(n, n - 2) + Tail(n, n - 1);
  }

  /** With eight informative cases or more, passing the test takes at least seven wins. */
  lemma {:induction false} EightCasesNeedSevenWins(wins: nat, losses: nat)
    requires wins + losses >= 8
    ensures PValue(wins, losses) <= 0.05 ==> wins >= 7
    decreases 6 - wins, losses
  {
    if wins < 6 {
      WinLowers(wins, losses);
      EightCasesNeedSevenWins(wins + 1, losses);
    } else if wins == 6 && losses > 2 {
      LossRaises(wins, losses - 1);
      EightCasesNeedSevenWins(wins, losses - 1);
    } else if wins == 6 {
      SixOfEight(wins, losses);
    }
  }

  lemma SixOfEight(wins: nat, losses: nat)
    requires wins == 6 && losses == 2
    ensures PValue(wins, losses) > 0.05
  {
    LastTails(wins + losses);
    EightDoublings(wins + losses);
    Above(Tail(wins + losses, wins), Pow2(wins + losses));
  }

  lemma EightDoublings(n: nat)
    requires n == 8
    ensures Pow2(n) == 256
  {
    assert Pow2(n) == 4 * Pow2(n - 2) && Pow2(n - 2) == 4 * Pow2(n - 4) && Pow2(n - 4) == 4 * Pow2(n - 6);
    assert Pow2(n - 6) == 4 * Pow2(n - 8);
  }

  lemma Above(tail: nat, outcomes: nat)
    requires tail == 37 && outcomes == 256
    ensures tail as real / outcomes as real > 0.05
  {
    QuotientAgainst(tail, outcomes, 0.05);
  }
}

/** The fee split computed when a task is created.

    Amounts are whole cents. A product such as `budget * 0.05` is a double, so it is
    modelled as the exact product plus an arbitrary error of less than 1/20 of a cent;
    `toFixed(2)` rounds it to the nearest cent and takes the larger cent on a tie
    (section 21.1.3.3 of ECMA-262). */
module Fees {

  datatype Split = Split(budget: int, posterFee: int, doerFee: int, reserve: int, netPayout: int)

  /** The smallest budget a request may carry: 500.00. */
  const MIN_BUDGET: int := 50000

  predicate SmallError(e: real) {
    -0.05 < e < 0.05
  }

  /** `+x.toFixed(2)` for an amount of `x` cents. */
  function ToFixedCents(x: real): int {
    (x + 0.5).Floor
  }

  function Distance(n: int, x: real): real {
    if n as real >= x then n as real - x else x - n as real
  }

  /** `n` is at least as near to `x` as `m`, and wins a tie only when it is the larger. */
  predicate Beats(n: int, m: int, x: real) {
    Distance(n, x) < Distance(m, x) || (Distance(n, x) == Distance(m, x) && m <= n)
  }

  /** The rounding picks exactly the integer that the language standard describes. */
  lemma ToFixedIsNearest(x: real, n: int)
    ensures n == ToFixedCents(x) <==> forall m: int :: Beats(n, m, x)
  {
    var k := ToFixedCents(x);
    assert forall m: int :: Beats(k, m, x);
    if forall m: int :: Beats(n, m, x) {
      assert Beats(n, k, x) && Beats(k, n, x);
    }
  }

  /** Both 5% columns come from the same product, so they share its error. */
  function SplitOf(budget: int, error5: real, error15: real, error85: real): Split {
    var five := ToFixedCents(budget as real * 0.05 + error5);
    Split(budget, five, ToFixedCents(budget as real * 0.15 + error15), five,
          ToFixedCents(budget as real * 0.85 + error85))
  }

  ghost predicate IsSplit(s: Split) {
    s.budget >= MIN_BUDGET &&
    exists e5: real, e15: real, e85: real :: SmallError(e5) && SmallError(e15) && SmallError(e85) &&
      s == SplitOf(s.budget, e5, e15, e85)
  }

  /** What the poster pays at checkout. */
  function Charge(s: Split): int {
    s.budget + s.posterFee
  }

  /** A product whose exact value is `n/20` cents rounds to its nearest cent whatever
      the error is, unless it lies exactly between two cents. */
  lemma RoundTwentieths(n: int, e: real)
    requires SmallError(e)
    ensures IsNear(ToFixedCents(n as real * 0.05 + e), n)
  {
    var q, r := n / 20, n % 20;
    assert n as real * 0.05 + e == q as real + r as real * 0.05 + e;
  }

  /** `cents` is a cent nearest to `n/20`. */
  predicate IsNear(cents: int, n: int) {
    if n % 20 == 10 then cents == n / 20 || cents == n / 20 + 1 else cents == (n + 10) / 20
  }

  /** Each amount of a split is its own share of the budget: 5% for the poster's fee and, to
      the same cent, the reserve; 15% for the doer's fee; 85% for the doer. */
  lemma SplitShares(s: Split)
    requires IsSplit(s)
    ensures s.reserve == s.posterFee && IsNear(s.posterFee, s.budget)
    ensures IsNear(s.doerFee, 3 * s.budget) && IsNear(s.netPayout, 17 * s.budget)
  {
    var e5: real, e15: real, e85: real :| SmallError(e5) && SmallError(e15) && SmallError(e85) &&
      s == SplitOf(s.budget, e5, e15, e85);
    var b := s.budget;
    assert (3 * b) as real * 0.05 == b as real * 0.15;
    assert (17 * b) as real * 0.05 == b as real * 0.85;
    RoundTwentieths(b, e5);
    RoundTwentieths(3 * b, e15);
    RoundTwentieths(17 * b, e85);
  }

  /** Nearest-cent rounding of 3b/20 and 17b/20, in whole numbers only. */
  lemma SharesAddUp(b: int, fee: int, net: int)
    requires IsNear(fee, 3 * b) && IsNear(net, 17 * b)
    ensures b % 20 != 10 ==> fee + net == b
    ensures b - 1 <= fee + net <= b + 1
  {
    var q, r := b / 20, b % 20;
    assert b == 20 * q + r;
    var f, n := 3 * r / 20, 17 * r / 20;
    assert 3 * b == 20 * (3 * q + f) + (3 * r - 20 * f);
    assert 17 * b == 20 * (17 * q + n) + (17 * r - 20 * n);
    assert fee - 3 * q == if (3 * r) % 20 == 10 then fee - 3 * q else (3 * r + 10) / 20;
    assert net - 17 * q == if (17 * r) % 20 == 10 then net - 17 * q else (17 * r + 10) / 20;
  }

  /** The doer's fee and payout share out the budget to the cent, except when the 15% lies
      exactly between two cents, when they may miss it by one cent; the platform keeps the
      doer's fee, within the same bound, out of the charge once payout and reserve are taken. */
  lemma SplitBound(s: Split)
    requires IsSplit(s)
    ensures s.budget % 20 != 10 ==> s.doerFee + s.netPayout == s.budget
    ensures s.budget - 1 <= s.doerFee + s.netPayout <= s.budget + 1
    ensures s.budget % 20 != 10 ==> Charge(s) - s.netPayout - s.reserve == s.doerFee
    ensures s.doerFee - 1 <= Charge(s) - s.netPayout - s.reserve <= s.doerFee + 1
    ensures 0 <= s.netPayout <= s.budget <= Charge(s)
  {
    SplitShares(s);
    SharesAddUp(s.budget, s.doerFee, s.netPayout);
  }

  /** A split of budget `b` that the arithmetic may produce. */
  function ExactSplit(b: int): Split {
    SplitOf(b, 0.0, 0.0, 0.0)
  }

  lemma ExactIsSplit(b: int)
    requires b >= MIN_BUDGET
    ensures IsSplit(ExactSplit(b)) && ExactSplit(b).budget == b
  {
    assert SmallError(0.0);
  }

  /** Without any error, both halves of such a budget lie between two cents and round up. */
  lemma ExactMisses(b: int)
    requires b % 20 == 10
    ensures ExactSplit(b).doerFee + ExactSplit(b).netPayout == b + 1
  {
    var q := b / 20;
    assert b == 20 * q + 10;
    var r := q as real;
    assert b as real == 20.0 * r + 10.0;
    HalfRoundsUp(3 * q + 1, b as real * 0.15);
    HalfRoundsUp(17 * q + 8, b as real * 0.85);
  }

  lemma HalfRoundsUp(k: int, x: real)
    requires x == k as real + 0.5
    ensures ToFixedCents(x + 0.0) == k + 1
  {
  }

  ghost predicate AlwaysAddsUp(b: int) {
    forall s :: IsSplit(s) && s.budget == b ==> s.doerFee + s.netPayout == b
  }

  /** Whether every possible split of a budget adds up to it is told by the budget alone. */
  lemma AddsUpExactly(b: int)
    requires b >= MIN_BUDGET
    ensures AlwaysAddsUp(b) <==> b % 20 != 10
  {
    if b % 20 == 10 {
      ExactIsSplit(b);
      ExactMisses(b);
    } else {
      forall s | IsSplit(s) && s.budget == b ensures s.doerFee + s.netPayout == b {
        SplitBound(s);
      }
    }
  }

  /** The one-cent deviation does occur: 15% of 500.10 is 75.015, and both halves round up. */
  lemma SplitCanMissByOne()
    ensures IsSplit(Split(50010, 2501, 7502, 2501, 42509))
  {
    assert SmallError(0.0);
    assert Split(50010, 2501, 7502, 2501, 42509) == SplitOf(50010, 0.0, 0.0, 0.0);
  }
}

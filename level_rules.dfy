/** The arithmetic the level states use for bonuses and for the Tawaf circle counter. */
module LevelRules {

  /** C#'s integer division, which truncates toward zero (Dafny's `/` on int is Euclidean);
      the divisors in the level states are positive constants. */
  function TruncDiv(a: int, b: int): (q: int)
    requires b > 0
    ensures a >= 0 ==> q * b <= a < q * b + b
    ensures a < 0 ==> q * b - b < a <= q * b
    ensures (a >= 0 ==> q >= 0) && (a <= 0 ==> q <= 0)
  {
    if a >= 0 then a / b else -((-a) / b)
  }

  /** Truncation and floor agree on non-negative numbers but not on negative ones. */
  lemma TruncDivOfNegative()
    ensures TruncDiv(-3, 2) == -1 && -3 / 2 == -2
  {
  }

  /** The Tawaf circle that question `questionNumber` falls in: seven questions per circle. */
  function CircleOf(questionNumber: int): (circle: int)
    ensures questionNumber >= 1 ==> circle >= 1 && 7 * (circle - 1) < questionNumber <= 7 * circle
  {
    TruncDiv(questionNumber - 1, 7) + 1
  }

  /** Questions 1 to 7 form the first circle and question 8 opens the second. */
  lemma FirstCircles()
    ensures CircleOf(1) == 1 && CircleOf(7) == 1 && CircleOf(8) == 2 && CircleOf(14) == 2
  {
  }

  /** The gem awards a Tawaf correct answer triggers at streak length `streak`: twice the
      streak from the third answer in a row on, and 20 more on the seventh. */
  function StreakAwards(streak: int): (awards: seq<int>)
    ensures streak < 3 ==> awards == []
    ensures forall i :: 0 <= i < |awards| ==> awards[i] > 0
    ensures streak == 7 ==> awards == [14, 20]
  {
    (if streak >= 3 then [streak * 2] else []) + (if streak == 7 then [20] else [])
  }

  function SumInts(s: seq<int>): int {
    if s == [] then 0 else s[0] + SumInts(s[1..])
  }

  /** What one correct Tawaf answer at streak length `streak` adds to the gems in total. */
  lemma StreakAwardsSum(streak: int)
    ensures SumInts(StreakAwards(streak)) ==
      (if streak >= 3 then 2 * streak else 0) + (if streak == 7 then 20 else 0)
  {
    var awards := StreakAwards(streak);
    if streak == 7 {
      assert awards == [14, 20];
      assert awards[1..] == [20];
      assert awards[1..][1..] == [];
      assert SumInts(awards[1..]) == 20;
    } else if streak >= 3 {
      assert awards == [2 * streak];
      assert awards[1..] == [];
    } else {
      assert awards == [];
    }
  }

  /** The gems a run of `n` correct Tawaf answers in a row earns in streak bonuses. */
  function StreakRunGems(n: nat): int {
    if n == 0 then 0 else StreakRunGems(n - 1) + SumInts(StreakAwards(n))
  }

  /** Closed form: a run of n earns 2*3 + 2*4 + ... + 2*n, plus 20 once it reaches seven. */
  lemma {:induction false} StreakRunGemsClosedForm(n: nat)
    ensures StreakRunGems(n) == (if n >= 3 then n * (n + 1) - 6 else 0) + (if n >= 7 then 20 else 0)
  {
    if n > 0 {
      StreakRunGemsClosedForm(n - 1);
      StreakAwardsSum(n);
      if n >= 4 {
        assert n * (n + 1) == (n - 1) * n + 2 * n;
      }
    }
  }

  /** A perfect seven-question circle earns 2*(3+4+5+6+7) + 20 = 70 gems of streak bonus. */
  lemma PerfectCircleGems()
    ensures StreakRunGems(7) == 70
  {
    StreakRunGemsClosedForm(7);
  }
}

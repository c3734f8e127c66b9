/**
 * The grade evaluator of the calculator page: from points earned and points
 * possible to a percentage, a letter grade and a motivational message.
 * Everything here is pure.
 */
module Evaluator {

  /** One graded test, as the page shows it and stores it. */
  datatype TestEntry = TestEntry(
    id: string,
    earned: real,
    total: real,
    percentage: real,
    letterGrade: string,
    message: string,
    date: string)

  // ---------------------------------------------------------------------------
  // Percentage
  // ---------------------------------------------------------------------------

  /**
   * `parseFloat(x.toFixed(2))` on reals: rounds to the nearest hundredth,
   * halves upwards. The result has at most two decimals and is within half a
   * hundredth of `x`.
   */
  function Round2(x: real): (r: real)
    ensures x - 0.005 < r <= x + 0.005
    ensures (r * 100.0).Floor as real == r * 100.0
  {
    ((x * 100.0 + 0.5).Floor as real) / 100.0
  }

  /** Rounding never reverses the order of two numbers. */
  lemma Round2Monotone(x: real, y: real)
    requires x <= y
    ensures Round2(x) <= Round2(y)
  {
    assert (x * 100.0 + 0.5).Floor <= (y * 100.0 + 0.5).Floor;
  }

  /** A whole number is already rounded. */
  lemma Round2Whole(n: int)
    ensures Round2(n as real) == n as real
  {
    assert (n as real * 100.0 + 0.5).Floor == n * 100;
  }

  /** The ratio the page computes before rounding: earned / total * 100. */
  function RawPercentage(earned: real, total: real): (x: real)
    requires total != 0.0
    ensures 0.0 <= earned <= total ==> 0.0 <= x <= 100.0
  {
    var q := earned / total;
    assert 0.0 <= earned <= total ==> 0.0 <= q <= 1.0 by {
      if 0.0 <= earned <= total {
        assert total > 0.0;
        assert q * total == earned;
      }
    }
    q * 100.0
  }

  /** The percentage stored in an entry, rounded to two decimals. */
  function Percentage(earned: real, total: real): (p: real)
    requires total != 0.0
    ensures 0.0 <= earned <= total ==> 0.0 <= p <= 100.0
  {
    var x := RawPercentage(earned, total);
    assert 0.0 <= x <= 100.0 ==> 0.0 <= Round2(x) <= 100.0 by {
      if 0.0 <= x <= 100.0 {
        Round2Monotone(0.0, x);
        Round2Monotone(x, 100.0);
        Round2Whole(0);
        Round2Whole(100);
      }
    }
    Round2(x)
  }

  /**
   * A perfect score is reached exactly when the unrounded ratio is at least
   * 99.995: rounding lifts a score just under full marks to 100.
   */
  lemma PerfectPercentage(earned: real, total: real)
    requires 0.0 <= earned <= total && total > 0.0
    ensures Percentage(earned, total) == 100.0 <==> RawPercentage(earned, total) >= 99.995
    ensures earned == total ==> Percentage(earned, total) == 100.0
  {
    var x := RawPercentage(earned, total);
    if earned == total {
      assert earned / total == 1.0;
      Round2Whole(100);
    }
    if x >= 99.995 {
      assert (x * 100.0 + 0.5).Floor == 10000;
    }
  }

  /**
   * The failing-score alert threshold on the rounded percentage: at most 50
   * exactly when the unrounded ratio is below 50.005.
   */
  lemma FailingPercentage(earned: real, total: real)
    requires 0.0 <= earned <= total && total > 0.0
    ensures Percentage(earned, total) <= 50.0 <==> RawPercentage(earned, total) < 50.005
  {
  }

  // ---------------------------------------------------------------------------
  // Letter grade
  // ---------------------------------------------------------------------------

  /** The letter grades from lowest to highest. */
  const Letters: seq<string> :=
    ["F", "D-", "D", "D+", "C-", "C", "C+", "B-", "B", "B+", "A-", "A", "A+"]

  /** `Floors[i]` is the lowest percentage that earns `Letters[i + 1]`. */
  const Floors: seq<real> :=
    [60.0, 63.0, 67.0, 70.0, 73.0, 77.0, 80.0, 83.0, 87.0, 90.0, 93.0, 97.0]

  /** The descending threshold table: the first floor the percentage reaches wins. */
  function LetterGrade(percentage: real): (g: string)
    ensures g in Letters
  {
    if percentage >= 97.0 then "A+"
    else if percentage >= 93.0 then "A"
    else if percentage >= 90.0 then "A-"
    else if percentage >= 87.0 then "B+"
    else if percentage >= 83.0 then "B"
    else if percentage >= 80.0 then "B-"
    else if percentage >= 77.0 then "C+"
    else if percentage >= 73.0 then "C"
    else if percentage >= 70.0 then "C-"
    else if percentage >= 67.0 then "D+"
    else if percentage >= 63.0 then "D"
    else if percentage >= 60.0 then "D-"
    else "F"
  }

  /** How many of the thresholds in `s` the value `p` reaches. */
  function Reached(s: seq<real>, p: real): (n: nat)
    ensures n <= |s|
  {
    if s == [] then 0 else (if s[0] <= p then 1 else 0) + Reached(s[1..], p)
  }

  /** Reference definition of the band: the number of floors reached. */
  function Band(percentage: real): (k: nat)
    ensures k < |Letters|
  {
    Reached(Floors, percentage)
  }

  ghost predicate Ascending(s: seq<real>) {
    forall i, j :: 0 <= i < j < |s| ==> s[i] < s[j]
  }

  lemma FloorsAscending()
    ensures Ascending(Floors)
  {
  }

  /** In an ascending table, `p` reaches exactly `k` floors when it lies between the k-th and the next. */
  lemma {:induction false} ReachedBetween(s: seq<real>, p: real, k: nat)
    requires Ascending(s) && k <= |s|
    ensures Reached(s, p) == k <==> (k == 0 || s[k - 1] <= p) && (k == |s| || p < s[k])
  {
    if s != [] {
      var t := s[1..];
      assert Ascending(t);
      if s[0] <= p {
        if k > 0 {
          ReachedBetween(t, p, k - 1);
        } else {
          ReachedBetween(t, p, 0);
        }
      } else {
        ReachedBetween(t, p, 0);
        if k > 0 {
          ReachedBetween(t, p, k - 1);
          assert s[0] <= s[k - 1];
        } else if t != [] {
          assert s[0] < t[0];
        }
      }
    }
  }

  /** Reaching more never hurts: `Reached` grows with `p`. */
  lemma {:induction false} ReachedMonotone(s: seq<real>, p: real, q: real)
    requires p <= q
    ensures Reached(s, p) <= Reached(s, q)
  {
    if s != [] {
      ReachedMonotone(s[1..], p, q);
    }
  }

  /** The threshold table agrees with the reference definition by counting floors. */
  lemma LetterGradeIsBand(p: real)
    ensures LetterGrade(p) == Letters[Band(p)]
  {
    FloorsAscending();
    var k :=
      if p >= 97.0 then 12 else if p >= 93.0 then 11 else if p >= 90.0 then 10
      else if p >= 87.0 then 9 else if p >= 83.0 then 8 else if p >= 80.0 then 7
      else if p >= 77.0 then 6 else if p >= 73.0 then 5 else if p >= 70.0 then 4
      else if p >= 67.0 then 3 else if p >= 63.0 then 2 else if p >= 60.0 then 1
      else 0;
    ReachedBetween(Floors, p, k);
  }

  /** Every band in the table: `Letters[k]` is given exactly from the k-th floor to the next. */
  lemma LetterGradeBands(p: real, k: nat)
    requires k < |Letters|
    ensures LetterGrade(p) == Letters[k] <==>
      (k == 0 || Floors[k - 1] <= p) && (k == |Floors| || p < Floors[k])
  {
  }

  /** The boundaries named in the table. */
  lemma LetterGradeBoundaries(p: real)
    ensures LetterGrade(p) == "A+" <==> p >= 97.0
    ensures LetterGrade(p) == "F" <==> p < 60.0
    ensures LetterGrade(60.0) == "D-" && LetterGrade(100.0) == "A+"
    ensures LetterGrade(96.99) == "A" && LetterGrade(59.99) == "F"
    ensures forall i :: 0 <= i < |Floors| ==> LetterGrade(Floors[i]) == Letters[i + 1]
  {
  }

  lemma LettersDistinct()
    ensures forall i, j :: 0 <= i < j < |Letters| ==> Letters[i] != Letters[j]
  {
  }

  /** Position of `g` among the letters, -1 when it is not a letter grade. */
  function Rank(g: string): (r: int)
    ensures -1 <= r < |Letters|
    ensures r == -1 <==> g !in Letters
    ensures r >= 0 ==> Letters[r] == g
  {
    IndexOf(Letters, g)
  }

  function IndexOf(s: seq<string>, g: string): (r: int)
    ensures -1 <= r < |s|
    ensures r == -1 <==> g !in s
    ensures r >= 0 ==> s[r] == g
  {
    if s == [] then -1
    else if s[0] == g then 0
    else var r := IndexOf(s[1..], g); if r == -1 then -1 else r + 1
  }

  /** A higher percentage never earns a lower letter in the order F < D- < … < A+. */
  lemma LetterGradeMonotone(p: real, q: real)
    requires p <= q
    ensures Rank(LetterGrade(p)) <= Rank(LetterGrade(q))
  {
    LetterGradeIsBand(p);
    LetterGradeIsBand(q);
    ReachedMonotone(Floors, p, q);
    LettersDistinct();
    assert Rank(LetterGrade(p)) == Band(p);
    assert Rank(LetterGrade(q)) == Band(q);
  }

  // ---------------------------------------------------------------------------
  // Message
  // ---------------------------------------------------------------------------

  const GreatJob := "Great job! \U{1F389}"
  const Stellar := "Stellar! \U{2B50}"
  const TryHarder := "Try a little harder next time \U{1F4AA}"
  const Study := "Make sure you are studying \U{1F4DA}"

  predicate StartsWith(s: string, c: char) {
    |s| > 0 && s[0] == c
  }

  /** The message for a letter grade, chosen by the grade's first character. */
  function Message(letterGrade: string): (m: string)
    ensures m in {GreatJob, Stellar, TryHarder, Study}
  {
    if letterGrade == "A+" then GreatJob
    else if StartsWith(letterGrade, 'A') || StartsWith(letterGrade, 'B') then Stellar
    else if StartsWith(letterGrade, 'C') then TryHarder
    else Study
  }

  /**
   * On the letter grades: only A+ gets "Great job", the other A and B grades
   * "Stellar", the C grades "Try a little harder", the D grades and F "studying".
   */
  lemma MessageOfLetter(k: nat)
    requires k < |Letters|
    ensures Message(Letters[k]) ==
      if k == 12 then GreatJob else if k >= 7 then Stellar else if k >= 4 then TryHarder else Study
  {
  }

  /** The message as a function of the percentage itself. */
  lemma MessageOfPercentage(p: real)
    ensures Message(LetterGrade(p)) ==
      if p >= 97.0 then GreatJob
      else if p >= 80.0 then Stellar
      else if p >= 70.0 then TryHarder
      else Study
  {
  }

  // ---------------------------------------------------------------------------
  // Entry
  // ---------------------------------------------------------------------------

  /** An entry whose derived fields agree with its points. */
  ghost predicate WellFormed(e: TestEntry) {
    0.0 <= e.earned <= e.total && e.total > 0.0 &&
    e.percentage == Percentage(e.earned, e.total) &&
    e.letterGrade == LetterGrade(e.percentage) &&
    e.message == Message(e.letterGrade)
  }

  /**
   * Builds the entry for one calculation; the identifier and the date, drawn
   * from the clock and a random number in the page, are parameters here.
   */
  function CalculateGrade(earned: real, total: real, id: string, date: string): (e: TestEntry)
    requires total != 0.0
    ensures e.id == id && e.date == date && e.earned == earned && e.total == total
    ensures e.letterGrade == LetterGrade(e.percentage) && e.message == Message(e.letterGrade)
    ensures RawPercentage(earned, total) - 0.005 < e.percentage <= RawPercentage(earned, total) + 0.005
    ensures 0.0 <= earned <= total ==> WellFormed(e) && 0.0 <= e.percentage <= 100.0
  {
    var percentage := Percentage(earned, total);
    TestEntry(id, earned, total, percentage, LetterGrade(percentage), Message(LetterGrade(percentage)), date)
  }
}

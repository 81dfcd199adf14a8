/** The reputation a user gets from the ratings they have received: the mean
    of all their scores, rounded to two decimals and kept in hundredths. */
module Reputation {
  import opened Common
  import opened Ratings

  /** What one row adds to `u`'s total. */
  function Contribution(r: Rating, u: UserId): int {
    if r.ratedUserId == u then r.score else 0
  }

  /** The sum of the scores `u` received (the `reduce` over their ratings). */
  function ScoreSum(rs: seq<Rating>, u: UserId): int {
    if rs == [] then 0 else Contribution(rs[0], u) + ScoreSum(rs[1..], u)
  }

  /** How many ratings `u` received. */
  function ScoreCount(rs: seq<Rating>, u: UserId): nat {
    if rs == [] then 0
    else (if rs[0].ratedUserId == u then 1 else 0) + ScoreCount(rs[1..], u)
  }

  /** `Math.round(sum / count * 100)`: the hundredths value nearest to the
      mean, halves rounded up. The ensures says that `h / 100` lies within
      half a hundredth of `sum / count`, on the upper side inclusive. */
  function RoundedMean(sum: int, count: int): (h: int)
    requires count > 0
    ensures -count < 2 * count * h - 200 * sum <= count
  {
    var a, d := 200 * sum + count, 2 * count;
    var h := a / d;
    assert a == d * h + a % d && 0 <= a % d < d;
    assert 2 * count * h == d * h;
    h
  }

  /** The reputation `updateUserReputation` writes for `u`. */
  function ReputationOf(rs: seq<Rating>, u: UserId): int
    requires ScoreCount(rs, u) > 0
  {
    RoundedMean(ScoreSum(rs, u), ScoreCount(rs, u))
  }

  ghost predicate ScoresInRange(rs: seq<Rating>) {
    forall i :: 0 <= i < |rs| ==> 1 <= rs[i].score <= 5
  }

  /** Appending a row changes only the rated user's totals, by that row. */
  lemma {:induction false} AppendRating(rs: seq<Rating>, r: Rating, u: UserId)
    ensures ScoreSum(rs + [r], u) == ScoreSum(rs, u) + Contribution(r, u)
    ensures ScoreCount(rs + [r], u) == ScoreCount(rs, u) + (if r.ratedUserId == u then 1 else 0)
  {
    if rs != [] {
      assert (rs + [r])[1..] == rs[1..] + [r];
      AppendRating(rs[1..], r, u);
    }
  }

  /** Replacing row `i` changes `u`'s totals by the difference of the two rows. */
  lemma {:induction false} ReplaceRating(rs: seq<Rating>, i: int, r: Rating, u: UserId)
    requires 0 <= i < |rs|
    ensures ScoreSum(rs[i := r], u) == ScoreSum(rs, u) - Contribution(rs[i], u) + Contribution(r, u)
    ensures ScoreCount(rs[i := r], u) == ScoreCount(rs, u)
      - (if rs[i].ratedUserId == u then 1 else 0) + (if r.ratedUserId == u then 1 else 0)
  {
    if i > 0 {
      assert rs[i := r][1..] == rs[1..][i - 1 := r];
      ReplaceRating(rs[1..], i - 1, r, u);
    } else {
      assert rs[i := r][1..] == rs[1..];
    }
  }

  /** A user who received row `i` has at least one rating. */
  lemma {:induction false} RatedUserCounted(rs: seq<Rating>, i: int)
    requires 0 <= i < |rs|
    ensures ScoreCount(rs, rs[i].ratedUserId) > 0
  {
    if i > 0 {
      assert rs[1..][i - 1] == rs[i];
      RatedUserCounted(rs[1..], i - 1);
    }
  }

  /** With every score in 1..5, the total lies between the count and five times it. */
  lemma {:induction false} ScoreSumBounds(rs: seq<Rating>, u: UserId)
    requires ScoresInRange(rs)
    ensures ScoreCount(rs, u) <= ScoreSum(rs, u) <= 5 * ScoreCount(rs, u)
  {
    if rs != [] {
      assert ScoresInRange(rs[1..]) by {
        forall i | 0 <= i < |rs[1..]| ensures 1 <= rs[1..][i].score <= 5 {
          assert rs[1..][i] == rs[i + 1];
        }
      }
      ScoreSumBounds(rs[1..], u);
    }
  }

  /** Rounding keeps a mean that lies between two whole scores between them. */
  lemma RoundedMeanBetween(s: int, c: int, lo: int, hi: int)
    requires c > 0 && lo * c <= s <= hi * c
    ensures 100 * lo <= RoundedMean(s, c) <= 100 * hi
  {
    var h := RoundedMean(s, c);
    assert -c < 2 * c * h - 200 * s <= c;
    if h < 100 * lo {
      MulMonotone(c, 2 * h, 200 * lo - 2);
      assert false;
    }
    if h > 100 * hi {
      MulMonotone(c, 200 * hi + 2, 2 * h);
      assert false;
    }
  }

  /** A reputation computed from scores in 1..5 lies in 1.00..5.00, the range
      the users table declares for the column. */
  lemma ReputationInRange(rs: seq<Rating>, u: UserId)
    requires ScoresInRange(rs) && ScoreCount(rs, u) > 0
    ensures 100 <= ReputationOf(rs, u) <= 500
  {
    ScoreSumBounds(rs, u);
    RoundedMeanBetween(ScoreSum(rs, u), ScoreCount(rs, u), 1, 5);
  }

  /** When every score `u` received is the same, the reputation is exactly that score. */
  lemma UniformScores(rs: seq<Rating>, u: UserId, k: int)
    requires ScoreCount(rs, u) > 0
    requires forall i :: 0 <= i < |rs| && rs[i].ratedUserId == u ==> rs[i].score == k
    ensures ReputationOf(rs, u) == 100 * k
  {
    UniformSum(rs, u, k);
    RoundedMeanBetween(ScoreSum(rs, u), ScoreCount(rs, u), k, k);
  }

  lemma {:induction false} UniformSum(rs: seq<Rating>, u: UserId, k: int)
    requires forall i :: 0 <= i < |rs| && rs[i].ratedUserId == u ==> rs[i].score == k
    ensures ScoreSum(rs, u) == k * ScoreCount(rs, u)
  {
    if rs != [] {
      forall i | 0 <= i < |rs[1..]| && rs[1..][i].ratedUserId == u
        ensures rs[1..][i].score == k
      {
        assert rs[1..][i] == rs[i + 1];
      }
      UniformSum(rs[1..], u, k);
    }
  }

  lemma MulMonotone(c: int, x: int, y: int)
    requires c > 0 && x <= y
    ensures c * x <= c * y
  {
  }
}

/**
 Weights of top-list signals (backend/internal/services/toplists/toplists.go), from
 the rank to the row that Append logs. Append reads weight 0 as "unset", so rank 50
 is logged with the kind's default of 2.0.
 */
module TopLists {
  import opened Basics
  import Signals

  datatype Range = Short | Medium | Long

  function Mult(range: Range): real {
    match range
    case Short => 1.5
    case Medium => 1.0
    case Long => 0.7
  }

  function TopRankWeight(rank: int, mult: real): real {
    var r := if rank < 1 then 1 else rank;
    2.0 * (1.0 - r as real / 50.0) * mult
  }

  function RankEvent(user: string, subject: Signals.SubjectType, id: string, rank: int, range: Range,
                     at: Time): Signals.Event {
    Signals.Event(user, Signals.TopRank, subject, id, TopRankWeight(rank, Mult(range)), Some(at))
  }

  /** The weight that reaches the log. */
  function LoggedWeight(rank: int, range: Range): real {
    Signals.Logged(RankEvent("u", Signals.Artist, "m", rank, range, 0), 0).weight
  }

  /** Append keeps the computed weight exactly at ranks other than 50. */
  lemma LoggedAsComputedIff(user: string, subject: Signals.SubjectType, id: string, rank: int, range: Range, at: Time,
                            now: Time)
    ensures var s := Signals.Logged(RankEvent(user, subject, id, rank, range, at), now);
      && s.weight == LoggedWeight(rank, range) && s.ts == at
      && (s.weight == TopRankWeight(rank, Mult(range)) <==> rank != 50)
      && (rank == 50 ==> s.weight == 2.0)
  {
  }

  lemma UnrankedIsFirst(rank: int, range: Range)
    requires rank < 1
    ensures LoggedWeight(rank, range) == LoggedWeight(1, range)
  {
  }

  /** The logged weights in numbers: they fall by a fixed step per rank, and rank 50 is 2.0. */
  lemma RankWeights(rank: int)
    requires rank >= 1
    ensures LoggedWeight(rank, Short) == if rank == 50 then 2.0 else 3.0 - 0.06 * rank as real
    ensures LoggedWeight(rank, Medium) == if rank == 50 then 2.0 else 2.0 - 0.04 * rank as real
    ensures LoggedWeight(rank, Long) == if rank == 50 then 2.0 else 1.4 - 0.028 * rank as real
  {
  }

  /** A better rank is logged with more weight, except against rank 50, which only the
      first 16 ranks of the short range outweigh. */
  lemma BetterRankWeighsMoreIff(r: int, q: int, range: Range)
    requires 1 <= r < q
    ensures LoggedWeight(r, range) > LoggedWeight(q, range) <==> q != 50 || (range == Short && r <= 16)
  {
    assert (r as real) < (q as real);
    if q == 50 && range == Short {
      assert LoggedWeight(r, range) > 2.0 <==> (r as real) * 3.0 < 50.0;
      assert (r as real) * 3.0 == (r * 3) as real;
    }
  }

  /** Recent listening weighs more at equal rank, exactly for ranks below 50. */
  lemma RecentRangeWeighsMoreIff(rank: int)
    ensures LoggedWeight(rank, Short) > LoggedWeight(rank, Medium) > LoggedWeight(rank, Long) <==> rank < 50
  {
  }

  /** Total weight of ranks 1 to n. */
  function TotalWeight(n: nat, range: Range): real {
    if n == 0 then 0.0 else TotalWeight(n - 1, range) + LoggedWeight(n, range)
  }

  /** 49 + 48 + … over n ranks. */
  function RankSum(n: nat): int {
    if n == 0 then 0 else RankSum(n - 1) + 50 - n
  }

  lemma {:induction false} RankSumClosed(n: nat)
    ensures 2 * RankSum(n) == n * (99 - n)
  {
    if n > 0 {
      RankSumClosed(n - 1);
    }
  }

  lemma WeightStep(x: int, n: nat, range: Range)
    requires n > 0
    ensures Mult(range) * ((x + 50 - n) as real / 25.0)
         == Mult(range) * (x as real / 25.0) + TopRankWeight(n, Mult(range))
  {
    assert (x + 50 - n) as real == x as real + 50.0 - n as real;
    match range
    case Short =>
    case Medium =>
    case Long =>
  }

  lemma {:induction false} TotalByRankSum(n: nat, range: Range)
    ensures TotalWeight(n, range) == Mult(range) * (RankSum(n) as real / 25.0) + (if n >= 50 then 2.0 else 0.0)
  {
    if n > 0 {
      TotalByRankSum(n - 1, range);
      WeightStep(RankSum(n - 1), n, range);
    }
  }

  /** Ranks 1 to 49 of the three ranges together carry 73.5, 49 and 34.3. */
  lemma ListTotals(n: nat)
    requires n == 49
    ensures TotalWeight(n, Short) == 73.5 && TotalWeight(n, Medium) == 49.0 && TotalWeight(n, Long) == 34.3
  {
    TotalClosedForm(n, Short);
    TotalClosedForm(n, Medium);
    TotalClosedForm(n, Long);
  }

  /** Ranks 1 to 49 carry 49 times the multiplier; a full list of 50 carries 2.0 more. */
  lemma TotalClosedForm(n: nat, range: Range)
    ensures TotalWeight(n, range) == Mult(range) * ((n * (99 - n)) as real / 50.0) + (if n >= 50 then 2.0 else 0.0)
  {
    TotalByRankSum(n, range);
    RankSumClosed(n);
    assert (2 * RankSum(n)) as real / 50.0 == RankSum(n) as real / 25.0;
  }
}

/** Arena settlement: every participant stakes ARENA_STAKE into a pool, the
    participants scoring 3 or more share the pool in proportion to their scores
    (each share rounded down), and the treasury keeps what the shares leave. */
module Settlement {
  import opened Wrappers
  import opened Pricing
  import opened Evaluation

  /** One `[name, evaluation]` pair of `Object.entries(evaluations)`, in entry order. */
  datatype Entry = Entry(name: string, evaluation: Evaluation)

  /** A participant after defaulting: `score || 0` and `level || 'unknown'`. */
  datatype Ranked = Ranked(name: string, score: int, level: string)

  /** One participant's settlement. */
  datatype Settlement = Settlement(agent: string, score: int, level: string, staked: int, earned: int, net: int)

  /** The result of `calculateArenaSettlement`. */
  datatype ArenaSettlement = ArenaSettlement(
    totalPool: int,
    settlements: seq<Settlement>,
    treasuryRemainder: int,
    winners: nat,
    losers: nat)

  /** The lowest score that wins a share of the pool. */
  const WINNING_SCORE: int := 3

  /** `score || 0`: a missing score counts as 0. */
  function ScoreOrZero(score: Option<int>): (r: int)
    ensures score.Some? ==> r == score.value
    ensures score.None? ==> r == 0
  {
    score.GetOr(0)
  }

  function ToRanked(e: Entry): Ranked {
    Ranked(e.name, ScoreOrZero(e.evaluation.score), if e.evaluation.level == "" then "unknown" else e.evaluation.level)
  }

  function RankAll(es: seq<Entry>): (rs: seq<Ranked>)
    ensures |rs| == |es|
    ensures forall i :: 0 <= i < |es| ==> rs[i] == ToRanked(es[i])
  {
    if es == [] then [] else [ToRanked(es[0])] + RankAll(es[1..])
  }

  predicate Descending(rs: seq<Ranked>) {
    forall i, j :: 0 <= i < j < |rs| ==> rs[i].score >= rs[j].score
  }

  /** Inserts `x` before the first element whose score is not above its own, so
      that among equal scores the earlier input stays first (the sort is stable). */
  function InsertByScore(x: Ranked, rs: seq<Ranked>): (r: seq<Ranked>)
    requires Descending(rs)
    ensures Descending(r)
    ensures |r| == |rs| + 1
    ensures multiset(r) == multiset(rs) + multiset{x}
    ensures forall y :: y in r ==> y == x || y in rs
  {
    if rs == [] || x.score >= rs[0].score then [x] + rs
    else
      var rest := InsertByScore(x, rs[1..]);
      assert rs == [rs[0]] + rs[1..];
      forall k | 0 <= k < |rest| ensures rest[k].score <= rs[0].score {
        assert rest[k] in rest;
      }
      [rs[0]] + rest
  }

  /** `.sort((a, b) => b.score - a.score)`: by score, highest first, stable. */
  function SortByScore(rs: seq<Ranked>): (r: seq<Ranked>)
    ensures Descending(r)
    ensures |r| == |rs|
    ensures multiset(r) == multiset(rs)
  {
    if rs == [] then []
    else
      assert rs == [rs[0]] + rs[1..];
      InsertByScore(rs[0], SortByScore(rs[1..]))
  }

  /** Sum of the scores of the participants that reach WINNING_SCORE. */
  function WinnerScore(rs: seq<Ranked>): (w: int)
    ensures w >= 0
    ensures w == 0 <==> forall i :: 0 <= i < |rs| ==> rs[i].score < WINNING_SCORE
  {
    if rs == [] then 0
    else (if rs[0].score >= WINNING_SCORE then rs[0].score else 0) + WinnerScore(rs[1..])
  }

  /** One participant's settlement against a pool and the winners' score sum. A
      winner earns floor(pool * score / winnerScore) (the source computes
      `Math.floor(pool * (score / winnerScore))` in floating point); everyone
      else forfeits the stake. */
  function Settle(r: Ranked, pool: nat, winnerScore: int): (s: Settlement)
    ensures s.agent == r.name && s.score == r.score && s.level == r.level
    ensures s.staked == ARENA_STAKE && s.net == s.earned - s.staked
    ensures s.earned >= 0
    ensures r.score < WINNING_SCORE ==> s.earned == 0 && s.net == -(ARENA_STAKE as int)
  {
    if r.score >= WINNING_SCORE && winnerScore > 0 then
      var share := (pool * r.score) / winnerScore;
      Settlement(r.name, r.score, r.level, ARENA_STAKE, share, share - ARENA_STAKE)
    else
      Settlement(r.name, r.score, r.level, ARENA_STAKE, 0, -(ARENA_STAKE as int))
  }

  function SettleAll(rs: seq<Ranked>, pool: nat, winnerScore: int): (ss: seq<Settlement>)
    ensures |ss| == |rs|
    ensures forall i :: 0 <= i < |rs| ==> ss[i] == Settle(rs[i], pool, winnerScore)
  {
    if rs == [] then [] else [Settle(rs[0], pool, winnerScore)] + SettleAll(rs[1..], pool, winnerScore)
  }

  function SumEarned(ss: seq<Settlement>): int {
    if ss == [] then 0 else ss[0].earned + SumEarned(ss[1..])
  }

  /** The settlements with a gain. */
  function Winners(ss: seq<Settlement>): (n: nat)
    ensures n <= |ss|
  {
    if ss == [] then 0 else (if ss[0].net > 0 then 1 else 0) + Winners(ss[1..])
  }

  /** The settlements with a loss. */
  function Losers(ss: seq<Settlement>): (n: nat)
    ensures n <= |ss|
  {
    if ss == [] then 0 else (if ss[0].net < 0 then 1 else 0) + Losers(ss[1..])
  }

  /** Nobody wins exactly when no settlement gains, and nobody loses exactly
      when no settlement loses. */
  lemma {:induction false} NobodyCounted(ss: seq<Settlement>)
    ensures Winners(ss) == 0 <==> forall k :: 0 <= k < |ss| ==> ss[k].net <= 0
    ensures Losers(ss) == 0 <==> forall k :: 0 <= k < |ss| ==> ss[k].net >= 0
  {
    if ss != [] {
      NobodyCounted(ss[1..]);
      assert forall k :: 1 <= k < |ss| ==> ss[k] == ss[1..][k - 1];
    }
  }

  /** The participant data settlements carry, in order. */
  function Ranks(ss: seq<Settlement>): seq<Ranked> {
    if ss == [] then [] else [Ranked(ss[0].agent, ss[0].score, ss[0].level)] + Ranks(ss[1..])
  }

  /** `calculateArenaSettlement(evaluations)`. */
  function CalculateArenaSettlement(evaluations: seq<Entry>): (a: ArenaSettlement)
    ensures a.totalPool == |evaluations| * ARENA_STAKE
    ensures SumEarned(a.settlements) + a.treasuryRemainder == a.totalPool
    ensures 0 <= a.treasuryRemainder <= a.totalPool
    ensures |a.settlements| == |evaluations|
    ensures a.winners == Winners(a.settlements) && a.losers == Losers(a.settlements)
  {
    var ranked := SortByScore(RankAll(evaluations));
    var pool := |ranked| * ARENA_STAKE;
    var winnerScore := WinnerScore(ranked);
    var settlements := SettleAll(ranked, pool, winnerScore);
    var distributed := SumEarned(settlements);
    DistributedWithinPool(ranked, pool);
    ArenaSettlement(pool, settlements, pool - distributed, Winners(settlements), Losers(settlements))
  }

  /** The settlement of a field whose ranking is known. */
  lemma ArenaOfRanking(evaluations: seq<Entry>, ranked: seq<Ranked>)
    requires SortByScore(RankAll(evaluations)) == ranked
    ensures var pool := |ranked| * ARENA_STAKE;
      var ss := SettleAll(ranked, pool, WinnerScore(ranked));
      CalculateArenaSettlement(evaluations) == ArenaSettlement(pool, ss, pool - SumEarned(ss), Winners(ss), Losers(ss))
  {
  }

  /** With nobody at WINNING_SCORE or above, the treasury keeps the whole pool. */
  lemma NoWinnerKeepsPool(evaluations: seq<Entry>)
    requires forall i :: 0 <= i < |evaluations| ==> ScoreOrZero(evaluations[i].evaluation.score) < WINNING_SCORE
    ensures CalculateArenaSettlement(evaluations).treasuryRemainder == |evaluations| * ARENA_STAKE
  {
    var ranked := SortByScore(RankAll(evaluations));
    UnconvertedEverywhere(evaluations, ranked);
    DistributedWithinPool(ranked, |ranked| * ARENA_STAKE);
  }

  /** The settlements are the participants, ranked by score from highest to
      lowest; each has staked ARENA_STAKE, its net is what it earned minus its
      stake, and a participant below WINNING_SCORE earned nothing. */
  lemma ArenaSettlementShape(evaluations: seq<Entry>)
    ensures var ss := CalculateArenaSettlement(evaluations).settlements;
      && multiset(Ranks(ss)) == multiset(RankAll(evaluations))
      && (forall i, j :: 0 <= i < j < |ss| ==> ss[i].score >= ss[j].score)
      && (forall s :: s in ss ==>
           s.staked == ARENA_STAKE && s.net == s.earned - s.staked && s.earned >= 0 &&
           (s.score < WINNING_SCORE ==> s.earned == 0 && s.net == -(ARENA_STAKE as int)))
  {
    var ranked := SortByScore(RankAll(evaluations));
    var pool := |ranked| * ARENA_STAKE;
    SettledRanks(ranked, pool, WinnerScore(ranked));
  }

  /** What the winners earn together lies between 0 and the pool, and is 0 when
      nobody reaches WINNING_SCORE. */
  lemma DistributedWithinPool(rs: seq<Ranked>, pool: nat)
    ensures 0 <= SumEarned(SettleAll(rs, pool, WinnerScore(rs))) <= pool
    ensures WinnerScore(rs) == 0 ==> SumEarned(SettleAll(rs, pool, WinnerScore(rs))) == 0
  {
    var w := WinnerScore(rs);
    var distributed := SumEarned(SettleAll(rs, pool, w));
    EarnedNonNegative(SettleAll(rs, pool, w));
    if w == 0 {
      NoWinnersNoShares(rs, pool);
    } else {
      SharesWithinPool(rs, pool, w);
      ScaleDown(distributed, pool, w);
    }
  }

  lemma {:induction false} EarnedNonNegative(ss: seq<Settlement>)
    requires forall s :: s in ss ==> s.earned >= 0
    ensures SumEarned(ss) >= 0
  {
    if ss != [] {
      assert ss[0] in ss;
      EarnedNonNegative(ss[1..]);
    }
  }

  lemma {:induction false} SettledRanks(rs: seq<Ranked>, pool: nat, winnerScore: int)
    ensures Ranks(SettleAll(rs, pool, winnerScore)) == rs
  {
    if rs != [] {
      SettledRanks(rs[1..], pool, winnerScore);
    }
  }

  lemma ScaleDown(a: int, b: int, w: int)
    requires w > 0 && a * w <= b * w
    ensures a <= b
  {
    assert (a - b) * w <= 0;
  }

  lemma AddBounds(a: int, b: int, c: int, d: int, w: int, p: int)
    requires a * w <= p * c && b * w <= p * d
    ensures (a + b) * w <= p * (c + d)
  {
    assert (a + b) * w == a * w + b * w;
    assert p * (c + d) == p * c + p * d;
  }

  /** The sum of the rounded-down shares, times the winners' score sum, never
      exceeds the pool times the winners' score sum. */
  lemma {:induction false} SharesWithinPool(rs: seq<Ranked>, pool: nat, winnerScore: int)
    requires winnerScore >= 0
    ensures SumEarned(SettleAll(rs, pool, winnerScore)) * winnerScore <= pool * WinnerScore(rs)
  {
    if rs != [] {
      var head := Settle(rs[0], pool, winnerScore);
      var restSum := SumEarned(SettleAll(rs[1..], pool, winnerScore));
      var own := if rs[0].score >= WINNING_SCORE then rs[0].score else 0;
      SharesWithinPool(rs[1..], pool, winnerScore);
      OwnShareBound(rs[0], pool, winnerScore);
      assert SumEarned(SettleAll(rs, pool, winnerScore)) == head.earned + restSum;
      assert WinnerScore(rs) == own + WinnerScore(rs[1..]);
      AddBounds(head.earned, restSum, own, WinnerScore(rs[1..]), winnerScore, pool);
    }
  }

  /** A winner's share is the pool's score-weighted fraction rounded down. */
  lemma ShareIsFloor(r: Ranked, pool: nat, winnerScore: int)
    requires r.score >= WINNING_SCORE && winnerScore > 0
    ensures var e := Settle(r, pool, winnerScore).earned;
      e * winnerScore <= pool * r.score < (e + 1) * winnerScore
  {
    var q := (pool * r.score) / winnerScore;
    assert pool * r.score == q * winnerScore + (pool * r.score) % winnerScore;
  }

  lemma OwnShareBound(r: Ranked, pool: nat, winnerScore: int)
    requires winnerScore >= 0
    ensures Settle(r, pool, winnerScore).earned * winnerScore
      <= pool * (if r.score >= WINNING_SCORE then r.score else 0)
  {
    if r.score >= WINNING_SCORE && winnerScore > 0 {
      ShareIsFloor(r, pool, winnerScore);
    }
  }

  lemma {:induction false} NoWinnersNoShares(rs: seq<Ranked>, pool: nat)
    requires WinnerScore(rs) == 0
    ensures SumEarned(SettleAll(rs, pool, 0)) == 0
  {
    if rs != [] {
      assert SettleAll(rs, pool, 0) == [Settle(rs[0], pool, 0)] + SettleAll(rs[1..], pool, 0);
      assert rs[0].score < WINNING_SCORE;
      NoWinnersNoShares(rs[1..], pool);
    }
  }

  lemma UnconvertedEverywhere(evaluations: seq<Entry>, ranked: seq<Ranked>)
    requires multiset(ranked) == multiset(RankAll(evaluations))
    ensures (forall i :: 0 <= i < |evaluations| ==> ScoreOrZero(evaluations[i].evaluation.score) < WINNING_SCORE)
      ==> WinnerScore(ranked) == 0
  {
    if forall i :: 0 <= i < |evaluations| ==> ScoreOrZero(evaluations[i].evaluation.score) < WINNING_SCORE {
      forall i | 0 <= i < |ranked| ensures ranked[i].score < WINNING_SCORE {
        assert ranked[i] in multiset(RankAll(evaluations));
        var j :| 0 <= j < |evaluations| && RankAll(evaluations)[j] == ranked[i];
      }
    }
  }

  /** How many settlements belong to participants below WINNING_SCORE. */
  function Unconverted(ss: seq<Settlement>): nat {
    if ss == [] then 0 else (if ss[0].score < WINNING_SCORE then 1 else 0) + Unconverted(ss[1..])
  }

  /** Every participant below WINNING_SCORE is counted among the losers, and no
      participant is both a winner and a loser. */
  lemma {:induction false} LosersIncludeUnconverted(ss: seq<Settlement>)
    requires forall s :: s in ss ==>
      s.net == s.earned - s.staked && s.staked == ARENA_STAKE && (s.score < WINNING_SCORE ==> s.earned == 0)
    ensures Losers(ss) >= Unconverted(ss)
    ensures Winners(ss) + Losers(ss) <= |ss|
  {
    if ss != [] {
      assert ss[0] in ss;
      assert forall s :: s in ss[1..] ==> s in ss;
      LosersIncludeUnconverted(ss[1..]);
    }
  }

  function DemoEvaluations(troll: string, bitcoiner: string, professor: string, sage: string): seq<Entry> {
    [ Entry(troll, Evaluation(Some(1), "Acknowledged", [], "")),
      Entry(bitcoiner, Evaluation(Some(3), "Soft conversion", [], "")),
      Entry(professor, Evaluation(Some(4), "Strong conversion", [], "")),
      Entry(sage, Evaluation(Some(5), "Full conversion", [], "")) ]
  }

  function DemoRanked(troll: string, bitcoiner: string, professor: string, sage: string): seq<Ranked> {
    [ Ranked(sage, 5, "Full conversion"),
      Ranked(professor, 4, "Strong conversion"),
      Ranked(bitcoiner, 3, "Soft conversion"),
      Ranked(troll, 1, "Acknowledged") ]
  }

  /** The demo's evaluations, listed troll (1), bitcoiner (3), professor (4),
      sage (5), rank sage first and troll last. */
  lemma DemoRanking(troll: string, bitcoiner: string, professor: string, sage: string)
    ensures SortByScore(RankAll(DemoEvaluations(troll, bitcoiner, professor, sage)))
      == DemoRanked(troll, bitcoiner, professor, sage)
  {
    var e := DemoEvaluations(troll, bitcoiner, professor, sage);
    var r := DemoRanked(troll, bitcoiner, professor, sage);
    var ranked := RankAll(e);
    assert ranked == [r[3], r[2], r[1], r[0]] by {
      assert e[1..] == [e[1], e[2], e[3]] && e[2..] == [e[2], e[3]] && e[3..] == [e[3]];
    }
    AscendingSortsToReverse(ranked);
    ReversedFour(r[3], r[2], r[1], r[0]);
    assert r == [r[0], r[1], r[2], r[3]];
  }

  /** The four-participant arena of the demo: troll (1), bitcoiner (3),
      professor (4) and sage (5) share a pool of 2000 as 833 (sage), 666
      (professor), 500 (bitcoiner) and 0 (troll), highest score first; the
      treasury keeps 1; the score-3 participant breaks even and so is neither
      a winner nor a loser. */
  lemma DemoArena(troll: string, bitcoiner: string, professor: string, sage: string)
    ensures
      var a := CalculateArenaSettlement(DemoEvaluations(troll, bitcoiner, professor, sage));
      a.totalPool == 2000 &&
      [a.settlements[0].earned, a.settlements[1].earned, a.settlements[2].earned, a.settlements[3].earned]
        == [833, 666, 500, 0] &&
      a.settlements[0].agent == sage && a.settlements[3].agent == troll &&
      a.treasuryRemainder == 1 && a.winners == 2 && a.losers == 1
  {
    var e := DemoEvaluations(troll, bitcoiner, professor, sage);
    var r := DemoRanked(troll, bitcoiner, professor, sage);
    DemoRanking(troll, bitcoiner, professor, sage);
    DemoWinnerScore(r);
    DemoShares(SettleAll(r, 2000, 12), r);
    ArenaOfRanking(e, r);
  }


  lemma DemoWinnerScore(r: seq<Ranked>)
    requires |r| == 4 && r[0].score == 5 && r[1].score == 4 && r[2].score == 3 && r[3].score == 1
    ensures WinnerScore(r) == 12
  {
    assert r[1..][1..] == r[2..] && r[2..][1..] == r[3..] && r[3..][1..] == [];
    assert WinnerScore(r[3..]) == 0;
    assert WinnerScore(r[2..]) == 3;
    assert WinnerScore(r[1..]) == 7;
  }

  function Reversed(rs: seq<Ranked>): seq<Ranked> {
    if rs == [] then [] else Reversed(rs[1..]) + [rs[0]]
  }

  lemma ReversedFour(a: Ranked, b: Ranked, c: Ranked, d: Ranked)
    ensures Reversed([a, b, c, d]) == [d, c, b, a]
  {
    assert [a, b, c, d][1..] == [b, c, d] && [b, c, d][1..] == [c, d] && [c, d][1..] == [d];
    assert Reversed([d]) == [d] by { assert [d][1..] == []; }
    assert Reversed([c, d]) == [d, c];
    assert Reversed([b, c, d]) == [d, c, b];
  }

  /** Participants listed in strictly increasing score come out of the sort in
      reverse order. */
  lemma {:induction false} AscendingSortsToReverse(rs: seq<Ranked>)
    requires forall i, j :: 0 <= i < j < |rs| ==> rs[i].score < rs[j].score
    ensures SortByScore(rs) == Reversed(rs)
  {
    if rs != [] {
      var rest := SortByScore(rs[1..]);
      AscendingSortsToReverse(rs[1..]);
      forall k | 0 <= k < |rest| ensures rest[k].score > rs[0].score {
        assert rest[k] in multiset(rs[1..]);
      }
      InsertLowest(rs[0], rest);
    }
  }

  /** A participant scoring below everyone already ranked goes to the end. */
  lemma {:induction false} InsertLowest(x: Ranked, rs: seq<Ranked>)
    requires Descending(rs)
    requires forall k :: 0 <= k < |rs| ==> rs[k].score > x.score
    ensures InsertByScore(x, rs) == rs + [x]
  {
    if rs != [] {
      InsertLowest(x, rs[1..]);
      assert rs == [rs[0]] + rs[1..];
    }
  }

  lemma DemoShares(ss: seq<Settlement>, r: seq<Ranked>)
    requires |r| == 4 && r[0].score == 5 && r[1].score == 4 && r[2].score == 3 && r[3].score == 1
    requires ss == SettleAll(r, 2000, 12)
    ensures [ss[0].earned, ss[1].earned, ss[2].earned, ss[3].earned] == [833, 666, 500, 0]
    ensures ss[0].agent == r[0].name && ss[3].agent == r[3].name
    ensures SumEarned(ss) == 1999 && Winners(ss) == 2 && Losers(ss) == 1
  {
    assert ss[0].earned == 833 && ss[1].earned == 666 && ss[2].earned == 500 && ss[3].earned == 0;
    assert ss[0].net == 333 && ss[1].net == 166 && ss[2].net == 0 && ss[3].net == -500;
    assert ss[1..][1..] == ss[2..] && ss[2..][1..] == ss[3..] && ss[3..][1..] == [];
    assert SumEarned(ss[3..]) == 0 && Winners(ss[3..]) == 0 && Losers(ss[3..]) == 1;
    assert SumEarned(ss[2..]) == 500 && Winners(ss[2..]) == 0 && Losers(ss[2..]) == 1;
    assert SumEarned(ss[1..]) == 1166 && Winners(ss[1..]) == 1 && Losers(ss[1..]) == 1;
  }
}

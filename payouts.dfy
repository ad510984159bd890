/** The treasury's payments: a single conversion reward, the arena winners'
    shares, and the missionary bonuses. Each payment is one `makePayment` call
    whose outcome (a transaction id, or a thrown error) is a parameter; calls are
    numbered from 0 in the order they are made, and `pay(n)` is the outcome of
    call n. Every operation also returns the calls it made, so that "no payment
    was attempted" is observable. */
module Payouts {
  import opened Wrappers
  import opened Pricing
  import opened Evaluation
  import opened Transfers
  import opened Settlement
  import opened MissionaryDetection

  /** The result object of `processConversionReward`. */
  datatype RewardRecord =
    | NotRewarded(agent: string, score: Option<int>, level: string, reason: string)
    | Rewarded(agent: string, score: Option<int>, level: string, amount: nat, currency: string, txId: string, evidence: seq<string>)
    | RewardFailed(agent: string, score: Option<int>, level: string, error: string)

  const SCORE_TOO_LOW: string := "Score too low for reward"
  const ARENA_WALLET_MISSING: string := "Wallet not found in registry"
  const BONUS_WALLET_MISSING: string := "Wallet not found"

  /** `processConversionReward(evaluation, villainWallet, treasuryClient)`: looks
      the score up in the reward table (falling back to the score-0 entry); a
      zero reward makes no payment; otherwise one payment of the reward to the
      villain's address, whose failure is caught and reported. */
  function ProcessConversionReward(evaluation: Evaluation, villain: string, address: string, outcome: PayOutcome)
    : (r: (RewardRecord, seq<PaymentCall>))
    ensures r.0.agent == villain && r.0.score == evaluation.score
    ensures r.0.level == RewardFor(evaluation.score).levelLabel
    ensures r.1 == [] <==> RewardFor(evaluation.score).reward == 0
    ensures r.1 != [] ==> r.1 == [PaymentCall(address, RewardFor(evaluation.score).reward)]
    ensures r.0.Rewarded? <==> r.1 != [] && outcome.Paid?
    ensures r.0.Rewarded? ==> r.0.amount == RewardFor(evaluation.score).reward && r.0.txId == outcome.txId
  {
    var tier := RewardFor(evaluation.score);
    if tier.reward == 0 then
      (NotRewarded(villain, evaluation.score, tier.levelLabel, SCORE_TOO_LOW), [])
    else
      var call := [PaymentCall(address, tier.reward)];
      match outcome
      case Paid(txId) =>
        (Rewarded(villain, evaluation.score, tier.levelLabel, tier.reward, "STX", txId, evaluation.evidence), call)
      case Threw(message) =>
        (RewardFailed(villain, evaluation.score, tier.levelLabel, message), call)
  }

  /** Only a score from 2 to 5 is ever paid, and never more than 1000. */
  lemma RewardOnlyForConversion(evaluation: Evaluation, villain: string, address: string, outcome: PayOutcome)
    ensures var r := ProcessConversionReward(evaluation, villain, address, outcome);
      (r.1 != [] ==> evaluation.score.Some? && 2 <= evaluation.score.value <= 5 && 0 < r.1[0].amount <= 1000)
      && (r.0.Rewarded? <==> outcome.Paid? && evaluation.score.Some? && 2 <= evaluation.score.value <= 5)
  {
  }

  function SumCalls(calls: seq<PaymentCall>): int {
    if calls == [] then 0 else calls[0].amount + SumCalls(calls[1..])
  }

  // ---------------------------------------------------------------- arena

  /** One entry of `transactions` in `executeArenaSettlement`. */
  datatype ArenaTx = ArenaPaid(agent: string, earned: int, net: int, txId: string) | ArenaTxFailed(agent: string, error: string)

  /** The record of one attempted payment of a settlement's share. */
  function ArenaTxFor(s: Settlement, outcome: PayOutcome): (tx: ArenaTx)
    ensures tx.agent == s.agent
    ensures tx.ArenaPaid? <==> outcome.Paid?
  {
    match outcome
    case Paid(txId) => ArenaPaid(s.agent, s.earned, s.net, txId)
    case Threw(message) => ArenaTxFailed(s.agent, message)
  }

  /** The transactions and payment calls for settlements `ss`, the first payment
      being call number `made`. */
  function ArenaPayouts(ss: seq<Settlement>, wallets: map<string, Wallet>, pay: nat -> PayOutcome, made: nat)
    : (r: (seq<ArenaTx>, seq<PaymentCall>))
    ensures |r.1| <= |r.0| <= |ss|
  {
    if ss == [] then ([], [])
    else
      var s := ss[0];
      if s.earned <= 0 then ArenaPayouts(ss[1..], wallets, pay, made)
      else if s.agent !in wallets then
        var rest := ArenaPayouts(ss[1..], wallets, pay, made);
        ([ArenaTxFailed(s.agent, ARENA_WALLET_MISSING)] + rest.0, rest.1)
      else
        var tx := ArenaTxFor(s, pay(made));
        var rest := ArenaPayouts(ss[1..], wallets, pay, made + 1);
        ([tx] + rest.0, [PaymentCall(wallets[s.agent].address, s.earned)] + rest.1)
  }

  /** The loop state of `executeArenaSettlement` after `i` settlements: what is
      recorded so far, followed by what the remaining settlements yield, is the
      whole result. */
  ghost predicate ArenaProgress(ss: seq<Settlement>, i: nat, wallets: map<string, Wallet>, pay: nat -> PayOutcome,
                                txs: seq<ArenaTx>, calls: seq<PaymentCall>)
  {
    i <= |ss| &&
    var rest := ArenaPayouts(ss[i..], wallets, pay, |calls|);
    var total := ArenaPayouts(ss, wallets, pay, 0);
    txs + rest.0 == total.0 && calls + rest.1 == total.1
  }

  lemma ArenaBounds(ss: seq<Settlement>, wallets: map<string, Wallet>, pay: nat -> PayOutcome,
                    txs: seq<ArenaTx>, calls: seq<PaymentCall>)
    ensures ArenaProgress(ss, 0, wallets, pay, [], [])
    ensures ArenaProgress(ss, |ss|, wallets, pay, txs, calls) ==>
      txs == ArenaPayouts(ss, wallets, pay, 0).0 && calls == ArenaPayouts(ss, wallets, pay, 0).1
  {
    assert ss[0..] == ss;
    assert ss[|ss|..] == [];
  }

  lemma ArenaSkips(ss: seq<Settlement>, i: nat, wallets: map<string, Wallet>, pay: nat -> PayOutcome,
                   txs: seq<ArenaTx>, calls: seq<PaymentCall>)
    requires i < |ss| && ss[i].earned <= 0 && ArenaProgress(ss, i, wallets, pay, txs, calls)
    ensures ArenaProgress(ss, i + 1, wallets, pay, txs, calls)
  {
    assert ss[i..][0] == ss[i] && ss[i..][1..] == ss[i + 1..];
  }

  lemma ArenaLacksWallet(ss: seq<Settlement>, i: nat, wallets: map<string, Wallet>, pay: nat -> PayOutcome,
                         txs: seq<ArenaTx>, calls: seq<PaymentCall>)
    requires i < |ss| && ss[i].earned > 0 && ss[i].agent !in wallets
    requires ArenaProgress(ss, i, wallets, pay, txs, calls)
    ensures ArenaProgress(ss, i + 1, wallets, pay, txs + [ArenaTxFailed(ss[i].agent, ARENA_WALLET_MISSING)], calls)
  {
    assert ss[i..][0] == ss[i] && ss[i..][1..] == ss[i + 1..];
    var after := ArenaPayouts(ss[i + 1..], wallets, pay, |calls|);
    var x := ArenaTxFailed(ss[i].agent, ARENA_WALLET_MISSING);
    assert (txs + [x]) + after.0 == txs + ([x] + after.0);
  }

  lemma ArenaPays(ss: seq<Settlement>, i: nat, wallets: map<string, Wallet>, pay: nat -> PayOutcome,
                  txs: seq<ArenaTx>, calls: seq<PaymentCall>)
    requires i < |ss| && ss[i].earned > 0 && ss[i].agent in wallets
    requires ArenaProgress(ss, i, wallets, pay, txs, calls)
    ensures ArenaProgress(ss, i + 1, wallets, pay, txs + [ArenaTxFor(ss[i], pay(|calls|))],
                          calls + [PaymentCall(wallets[ss[i].agent].address, ss[i].earned)])
  {
    assert ss[i..][0] == ss[i] && ss[i..][1..] == ss[i + 1..];
    var c := PaymentCall(wallets[ss[i].agent].address, ss[i].earned);
    var after := ArenaPayouts(ss[i + 1..], wallets, pay, |calls| + 1);
    var x := ArenaTxFor(ss[i], pay(|calls|));
    assert (txs + [x]) + after.0 == txs + ([x] + after.0);
    assert (calls + [c]) + after.1 == calls + ([c] + after.1);
  }

  /** `executeArenaSettlement(settlement, walletRegistry, treasuryClient)`: pays
      every settlement that earned something, in order, recording an error for a
      missing wallet or a failed payment and carrying on with the next. */
  method ExecuteArenaSettlement(settlement: ArenaSettlement, wallets: map<string, Wallet>, pay: nat -> PayOutcome)
    returns (txs: seq<ArenaTx>, calls: seq<PaymentCall>)
    ensures txs == ArenaPayouts(settlement.settlements, wallets, pay, 0).0
    ensures calls == ArenaPayouts(settlement.settlements, wallets, pay, 0).1
  {
    var ss := settlement.settlements;
    txs, calls := [], [];
    var i := 0;
    ArenaBounds(ss, wallets, pay, txs, calls);
    while i < |ss|
      invariant ArenaProgress(ss, i, wallets, pay, txs, calls)
    {
      var s := ss[i];
      if s.earned <= 0 {
        ArenaSkips(ss, i, wallets, pay, txs, calls);
      } else if s.agent !in wallets {
        ArenaLacksWallet(ss, i, wallets, pay, txs, calls);
        txs := txs + [ArenaTxFailed(s.agent, ARENA_WALLET_MISSING)];
      } else {
        ArenaPays(ss, i, wallets, pay, txs, calls);
        var tx := ArenaTxFor(s, pay(|calls|));
        calls := calls + [PaymentCall(wallets[s.agent].address, s.earned)];
        txs := txs + [tx];
      }
      i := i + 1;
    }
    ArenaBounds(ss, wallets, pay, txs, calls);
  }

  function EarningAgents(ss: seq<Settlement>): seq<string> {
    if ss == [] then [] else (if ss[0].earned > 0 then [ss[0].agent] else []) + EarningAgents(ss[1..])
  }

  function ArenaTxAgents(txs: seq<ArenaTx>): seq<string> {
    if txs == [] then [] else [txs[0].agent] + ArenaTxAgents(txs[1..])
  }

  /** Exactly the settlements that earned something get one transaction each, in
      settlement order; every payment is positive and the payments together never
      exceed what the settlements earned. */
  lemma {:induction false} ArenaPayoutsShape(ss: seq<Settlement>, wallets: map<string, Wallet>, pay: nat -> PayOutcome, made: nat)
    ensures var r := ArenaPayouts(ss, wallets, pay, made);
      ArenaTxAgents(r.0) == EarningAgents(ss)
      && (forall k :: 0 <= k < |r.1| ==> r.1[k].amount > 0)
      && SumCalls(r.1) <= SumPositive(ss)
  {
    if ss != [] {
      var s := ss[0];
      if s.earned <= 0 || s.agent !in wallets {
        ArenaPayoutsShape(ss[1..], wallets, pay, made);
      } else {
        ArenaPayoutsShape(ss[1..], wallets, pay, made + 1);
        var rest := ArenaPayouts(ss[1..], wallets, pay, made + 1);
        var r := ArenaPayouts(ss, wallets, pay, made);
        assert r.1[1..] == rest.1;
        assert r.0[1..] == rest.0;
      }
      var r := ArenaPayouts(ss, wallets, pay, made);
      if s.earned > 0 && s.agent !in wallets {
        assert r.0[1..] == ArenaPayouts(ss[1..], wallets, pay, made).0;
      }
    }
  }

  /** What the settlements with something earned earned together. */
  function SumPositive(ss: seq<Settlement>): int {
    if ss == [] then 0 else (if ss[0].earned > 0 then ss[0].earned else 0) + SumPositive(ss[1..])
  }

  lemma {:induction false} SumPositiveOfNonNegative(ss: seq<Settlement>)
    requires forall s :: s in ss ==> s.earned >= 0
    ensures SumPositive(ss) == SumEarned(ss)
  {
    if ss != [] {
      assert ss[0] in ss;
      assert forall s :: s in ss[1..] ==> s in ss;
      SumPositiveOfNonNegative(ss[1..]);
    }
  }

  /** When every earning agent has a wallet and every payment goes through, the
      treasury pays out exactly what the settlements earned. */
  lemma {:induction false} ArenaPaysEveryShare(ss: seq<Settlement>, wallets: map<string, Wallet>, pay: nat -> PayOutcome, made: nat)
    requires forall s :: s in ss && s.earned > 0 ==> s.agent in wallets
    requires forall n :: pay(n).Paid?
    ensures var r := ArenaPayouts(ss, wallets, pay, made);
      SumCalls(r.1) == SumPositive(ss) && |r.1| == |r.0|
      && forall k :: 0 <= k < |r.0| ==> r.0[k].ArenaPaid?
  {
    if ss != [] {
      assert ss[0] in ss;
      assert forall s :: s in ss[1..] ==> s in ss;
      var s := ss[0];
      if s.earned <= 0 {
        ArenaPaysEveryShare(ss[1..], wallets, pay, made);
      } else {
        ArenaPaysEveryShare(ss[1..], wallets, pay, made + 1);
        var r := ArenaPayouts(ss, wallets, pay, made);
        var rest := ArenaPayouts(ss[1..], wallets, pay, made + 1);
        assert r.1[1..] == rest.1;
        assert r.0[1..] == rest.0;
      }
    }
  }

  /** Executing a computed arena settlement never pays out more than the pool
      minus what the treasury keeps. */
  lemma ArenaPayoutWithinPool(evaluations: seq<Entry>, wallets: map<string, Wallet>, pay: nat -> PayOutcome)
    ensures var a := CalculateArenaSettlement(evaluations);
      SumCalls(ArenaPayouts(a.settlements, wallets, pay, 0).1) + a.treasuryRemainder <= a.totalPool
  {
    var a := CalculateArenaSettlement(evaluations);
    ArenaSettlementShape(evaluations);
    ArenaPayoutsShape(a.settlements, wallets, pay, 0);
    SumPositiveOfNonNegative(a.settlements);
  }

  // ---------------------------------------------------------------- bonuses

  /** One entry of the result of `payMissionaryBonuses`. */
  datatype BonusTx = BonusPaid(agent: string, bonus: nat, txId: string, message: string) | BonusFailed(agent: string, error: string)

  /** The record of one attempted bonus payment. */
  function BonusTxFor(m: Missionary, outcome: PayOutcome): (tx: BonusTx)
    ensures tx.agent == m.agent
    ensures tx.BonusPaid? <==> outcome.Paid?
  {
    match outcome
    case Paid(txId) => BonusPaid(m.agent, m.bonus, txId, m.message)
    case Threw(message) => BonusFailed(m.agent, message)
  }

  /** The results and payment calls for missionaries `ms`, the first payment
      being call number `made`. */
  function BonusPayouts(ms: seq<Missionary>, wallets: map<string, Wallet>, pay: nat -> PayOutcome, made: nat)
    : (r: (seq<BonusTx>, seq<PaymentCall>))
    ensures |r.0| == |ms| && |r.1| <= |ms|
  {
    if ms == [] then ([], [])
    else
      var m := ms[0];
      if m.agent !in wallets then
        var rest := BonusPayouts(ms[1..], wallets, pay, made);
        ([BonusFailed(m.agent, BONUS_WALLET_MISSING)] + rest.0, rest.1)
      else
        var tx := BonusTxFor(m, pay(made));
        var rest := BonusPayouts(ms[1..], wallets, pay, made + 1);
        ([tx] + rest.0, [PaymentCall(wallets[m.agent].address, m.bonus)] + rest.1)
  }

  /** The loop state of `payMissionaryBonuses` after `i` missionaries. */
  ghost predicate BonusProgress(ms: seq<Missionary>, i: nat, wallets: map<string, Wallet>, pay: nat -> PayOutcome,
                                txs: seq<BonusTx>, calls: seq<PaymentCall>)
  {
    i <= |ms| &&
    var rest := BonusPayouts(ms[i..], wallets, pay, |calls|);
    var total := BonusPayouts(ms, wallets, pay, 0);
    txs + rest.0 == total.0 && calls + rest.1 == total.1
  }

  lemma BonusBounds(ms: seq<Missionary>, wallets: map<string, Wallet>, pay: nat -> PayOutcome,
                    txs: seq<BonusTx>, calls: seq<PaymentCall>)
    ensures BonusProgress(ms, 0, wallets, pay, [], [])
    ensures BonusProgress(ms, |ms|, wallets, pay, txs, calls) ==>
      txs == BonusPayouts(ms, wallets, pay, 0).0 && calls == BonusPayouts(ms, wallets, pay, 0).1
  {
    assert ms[0..] == ms;
    assert ms[|ms|..] == [];
  }

  lemma BonusLacksWallet(ms: seq<Missionary>, i: nat, wallets: map<string, Wallet>, pay: nat -> PayOutcome,
                         txs: seq<BonusTx>, calls: seq<PaymentCall>)
    requires i < |ms| && ms[i].agent !in wallets
    requires BonusProgress(ms, i, wallets, pay, txs, calls)
    ensures BonusProgress(ms, i + 1, wallets, pay, txs + [BonusFailed(ms[i].agent, BONUS_WALLET_MISSING)], calls)
  {
    assert ms[i..][0] == ms[i] && ms[i..][1..] == ms[i + 1..];
    var after := BonusPayouts(ms[i + 1..], wallets, pay, |calls|);
    var x := BonusFailed(ms[i].agent, BONUS_WALLET_MISSING);
    assert (txs + [x]) + after.0 == txs + ([x] + after.0);
  }

  lemma BonusPays(ms: seq<Missionary>, i: nat, wallets: map<string, Wallet>, pay: nat -> PayOutcome,
                  txs: seq<BonusTx>, calls: seq<PaymentCall>)
    requires i < |ms| && ms[i].agent in wallets
    requires BonusProgress(ms, i, wallets, pay, txs, calls)
    ensures BonusProgress(ms, i + 1, wallets, pay, txs + [BonusTxFor(ms[i], pay(|calls|))],
                          calls + [PaymentCall(wallets[ms[i].agent].address, ms[i].bonus)])
  {
    assert ms[i..][0] == ms[i] && ms[i..][1..] == ms[i + 1..];
    var c := PaymentCall(wallets[ms[i].agent].address, ms[i].bonus);
    var after := BonusPayouts(ms[i + 1..], wallets, pay, |calls| + 1);
    var x := BonusTxFor(ms[i], pay(|calls|));
    assert (txs + [x]) + after.0 == txs + ([x] + after.0);
    assert (calls + [c]) + after.1 == calls + ([c] + after.1);
  }

  /** `payMissionaryBonuses(missionaries, walletRegistry, treasuryClient)`: one
      result per missionary, in order; a missionary without a wallet gets an
      error and no payment, the others one payment of their bonus each. */
  method PayMissionaryBonuses(ms: seq<Missionary>, wallets: map<string, Wallet>, pay: nat -> PayOutcome)
    returns (txs: seq<BonusTx>, calls: seq<PaymentCall>)
    ensures txs == BonusPayouts(ms, wallets, pay, 0).0
    ensures calls == BonusPayouts(ms, wallets, pay, 0).1
  {
    txs, calls := [], [];
    var i := 0;
    BonusBounds(ms, wallets, pay, txs, calls);
    while i < |ms|
      invariant BonusProgress(ms, i, wallets, pay, txs, calls)
    {
      var m := ms[i];
      if m.agent !in wallets {
        BonusLacksWallet(ms, i, wallets, pay, txs, calls);
        txs := txs + [BonusFailed(m.agent, BONUS_WALLET_MISSING)];
      } else {
        BonusPays(ms, i, wallets, pay, txs, calls);
        var tx := BonusTxFor(m, pay(|calls|));
        calls := calls + [PaymentCall(wallets[m.agent].address, m.bonus)];
        txs := txs + [tx];
      }
      i := i + 1;
    }
    BonusBounds(ms, wallets, pay, txs, calls);
  }

  /** Every missionary gets one result, in order, and one payment of its bonus
      exactly when it has a wallet. */
  lemma {:induction false} BonusPayoutsShape(ms: seq<Missionary>, wallets: map<string, Wallet>, pay: nat -> PayOutcome, made: nat)
    ensures var r := BonusPayouts(ms, wallets, pay, made);
      (forall k :: 0 <= k < |ms| ==> r.0[k].agent == ms[k].agent)
      && |r.1| == WalletCount(ms, wallets)
      && SumCalls(r.1) == SumBonuses(ms, wallets)
  {
    if ms != [] {
      var m := ms[0];
      var r := BonusPayouts(ms, wallets, pay, made);
      var next := if m.agent in wallets then made + 1 else made;
      BonusPayoutsShape(ms[1..], wallets, pay, next);
      var rest := BonusPayouts(ms[1..], wallets, pay, next);
      assert r.0[1..] == rest.0;
      if m.agent in wallets {
        assert r.1[1..] == rest.1;
      }
      forall k | 0 <= k < |ms| ensures r.0[k].agent == ms[k].agent {
        if k > 0 {
          assert r.0[k] == rest.0[k - 1];
        }
      }
    }
  }

  function WalletCount(ms: seq<Missionary>, wallets: map<string, Wallet>): nat {
    if ms == [] then 0 else (if ms[0].agent in wallets then 1 else 0) + WalletCount(ms[1..], wallets)
  }

  function SumBonuses(ms: seq<Missionary>, wallets: map<string, Wallet>): int {
    if ms == [] then 0 else (if ms[0].agent in wallets then ms[0].bonus else 0) + SumBonuses(ms[1..], wallets)
  }

  /** Paying the detected missionaries costs the treasury MISSIONARY_BONUS for
      each one that has a wallet. */
  lemma {:induction false} DetectedBonusesCost(entries: seq<Entry>, transcript: seq<Message>, patterns: seq<string -> bool>,
                                               wallets: map<string, Wallet>, pay: nat -> PayOutcome)
    ensures var ms := Missionaries(entries, transcript, patterns);
      SumCalls(BonusPayouts(ms, wallets, pay, 0).1) == WalletCount(ms, wallets) * MISSIONARY_BONUS
  {
    var ms := Missionaries(entries, transcript, patterns);
    MissionaryRecords(entries, transcript, patterns);
    BonusPayoutsShape(ms, wallets, pay, 0);
    FixedBonuses(ms, wallets);
  }

  lemma {:induction false} FixedBonuses(ms: seq<Missionary>, wallets: map<string, Wallet>)
    requires forall m :: m in ms ==> m.bonus == MISSIONARY_BONUS
    ensures SumBonuses(ms, wallets) == WalletCount(ms, wallets) * MISSIONARY_BONUS
  {
    if ms != [] {
      assert ms[0] in ms;
      assert forall m :: m in ms[1..] ==> m in ms;
      FixedBonuses(ms[1..], wallets);
    }
  }
}

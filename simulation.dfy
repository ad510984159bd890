/** The batch simulation (`npm run simulate`): each selected villain pays the
    treasury for its rounds, debates Syndi, is evaluated and, when converted,
    rewarded; then the missionaries among them earn a bonus, and the economic
    ledger of all these transfers is summed up. Transfers, chat completions and
    the evaluator are oracles, keyed by what the transfer is for and whom it
    concerns. */
module Simulation {
  import opened Wrappers
  import opened Pricing
  import opened Evaluation
  import opened Channels
  import opened Opponents
  import opened Transfers
  import opened Conversation
  import opened Settlement
  import opened MissionaryDetection

  /** The `type` of a ledger entry. */
  datatype Kind = ChatPayment | ConversionReward | MissionaryBonus

  /** One entry of `economicLedger`. `txId` is null when the transfer failed;
      `error` is recorded for failed chat payments and rewards only, and `score`
      for rewards only. */
  datatype LedgerEntry = LedgerEntry(kind: Kind, from: string, to: string, amount: int,
                                     txId: Option<string>, error: Option<string>, score: Option<int>)

  /** The outside world of one run: dry-run mode, the clock reading (base 36)
      and the network's answer for each transfer, the two chat models per
      villain, the evaluator, and the pattern predicates. */
  datatype World = World(
    dryRun: bool,
    clock: (Kind, string) -> string,
    network: (Kind, string) -> Broadcast,
    syndi: string -> ((seq<Message>, string) -> Reply),
    opponent: string -> (seq<Message> -> Reply),
    evaluator: seq<Message> -> EvalReply,
    channelPatterns: ChannelPatterns,
    missionaryPatterns: seq<string -> bool>)

  /** `sendSTX` for the transfer of kind `kind` concerning `name`. */
  function Send(w: World, kind: Kind, name: string, recipient: string, amount: int, memo: string)
    : (SendResult, Option<Transfer>)
  {
    SendStx(w.dryRun, w.clock(kind, name), recipient, amount, memo, w.network(kind, name))
  }

  function TxIdOf(r: SendResult): Option<string> {
    if r.Sent? then Some(r.txId) else None
  }

  function ErrorOf(r: SendResult): Option<string> {
    if r.Sent? then None else Some(r.error)
  }

  /** The error the run dies with when it reads a wallet the registry lacks. */
  function MissingWallet(field: string): string {
    "Cannot read properties of undefined (reading '" + field + "')"
  }

  /** What one villain leaves behind. */
  datatype Visit = Visit(entries: seq<LedgerEntry>, transcript: seq<Message>, evaluation: Evaluation)

  /** The chat-payment entry: recorded whatever became of the transfer. */
  function PaymentEntry(v: Opponent, totalCost: int, sent: SendResult): LedgerEntry {
    LedgerEntry(ChatPayment, v.name, TREASURY, totalCost, TxIdOf(sent), ErrorOf(sent), None)
  }

  /** The chat payment of `rounds` rounds with `v`, sent to the treasury. */
  function ChatEntry(w: World, wallets: map<string, Wallet>, v: Opponent, rounds: nat): (r: LedgerEntry)
    requires TREASURY in wallets
    ensures r.kind == ChatPayment && r.from == v.name && r.to == TREASURY
    ensures r.amount == ChatPrice(v.caliber) * rounds && r.score == None
  {
    var totalCost := ChatPrice(v.caliber) * rounds;
    PaymentEntry(v, totalCost, Send(w, ChatPayment, v.name, wallets[TREASURY].address, totalCost,
                                    "x402:chat:" + Prefix(v.name, 20)).0)
  }

  /** The reward entries for one evaluation: one for a positive reward, none
      otherwise. */
  function RewardEntries(w: World, wallets: map<string, Wallet>, v: Opponent, e: Evaluation): (r: seq<LedgerEntry>)
    requires v.name in wallets
    ensures |r| <= 1
    ensures r != [] <==> RewardFor(e.score).reward > 0
    ensures r != [] ==> r[0].kind == ConversionReward && r[0].amount == RewardFor(e.score).reward
                        && r[0].to == v.name && r[0].score == e.score
  {
    var amount := RewardFor(e.score).reward;
    if amount > 0 then
      var sent := Send(w, ConversionReward, v.name, wallets[v.name].address, amount,
                       "x402:reward:score" + ScoreText(e.score)).0;
      [LedgerEntry(ConversionReward, TREASURY, v.name, amount, TxIdOf(sent), ErrorOf(sent), e.score)]
    else []
  }

  /** Whether an error is thrown in the conversation with `v`. */
  predicate Faults(w: World, v: Opponent, rounds: nat) {
    Converse(v, rounds, w.syndi(v.name), w.opponent(v.name)).fault.Some?
  }

  /** Whether the iteration for `v` throws: its wallet or the treasury's is not
      in the registry, or its conversation hits an error. */
  predicate Aborts(w: World, wallets: map<string, Wallet>, v: Opponent, rounds: nat) {
    v.name !in wallets || TREASURY !in wallets || Faults(w, v, rounds)
  }

  /** One iteration of the villain loop: the villain's key is derived from its
      wallet, the payment for all rounds is sent to the treasury, the
      conversation runs, then the evaluation and the reward. A missing wallet or
      an error in the conversation throws, which aborts the whole run. */
  function VisitVillain(w: World, wallets: map<string, Wallet>, v: Opponent, rounds: nat): (r: Result<Visit, string>)
    ensures r.Failure? <==> Aborts(w, wallets, v, rounds)
  {
    if v.name !in wallets then Failure(MissingWallet("index"))
    else if TREASURY !in wallets then Failure(MissingWallet("address"))
    else
      var d := Converse(v, rounds, w.syndi(v.name), w.opponent(v.name));
      if d.fault.Some? then Failure(d.fault.value)
      else
        var e := EvaluateConversion(d.transcript, w.evaluator);
        Success(Visit([ChatEntry(w, wallets, v, rounds)] + RewardEntries(w, wallets, v, e), d.transcript, e))
  }

  /** The state the villain loop builds: the ledger, each villain's transcript
      and each villain's evaluation, in selection order. */
  datatype Progress = Progress(ledger: seq<LedgerEntry>, transcripts: seq<seq<Message>>, evaluations: seq<Entry>)

  /** What each iteration yields, in order, for an iteration `visit`. */
  function Visits(visit: Opponent -> Result<Visit, string>, villains: seq<Opponent>): (r: seq<Result<Visit, string>>)
    ensures |r| == |villains|
  {
    if villains == [] then [] else Visits(visit, villains[..|villains| - 1]) + [visit(villains[|villains| - 1])]
  }

  /** The loop over the iterations' outcomes; the first failure aborts it. */
  function Fold(villains: seq<Opponent>, visits: seq<Result<Visit, string>>): Result<Progress, string>
    requires |visits| == |villains|
  {
    if villains == [] then Success(Progress([], [], []))
    else
      var n := |villains| - 1;
      match Fold(villains[..n], visits[..n])
      case Failure(m) => Failure(m)
      case Success(p) =>
        match visits[n]
        case Failure(m) => Failure(m)
        case Success(visit) =>
          Success(Progress(p.ledger + visit.entries, p.transcripts + [visit.transcript],
                           p.evaluations + [Entry(villains[n].name, visit.evaluation)]))
  }

  /** A loop that runs to the end has one transcript and one evaluation per
      villain, the evaluations under the villains' names in selection order. */
  lemma {:induction false} FoldShape(villains: seq<Opponent>, visits: seq<Result<Visit, string>>)
    requires |visits| == |villains|
    ensures var r := Fold(villains, visits);
      r.Success? ==>
        |r.value.transcripts| == |r.value.evaluations| == |villains|
        && forall k :: 0 <= k < |villains| ==> r.value.evaluations[k].name == villains[k].name
  {
    if villains != [] {
      var n := |villains| - 1;
      FoldShape(villains[..n], visits[..n]);
    }
  }

  /** The villain loop of `main` over `villains`. */
  function VillainLoop(w: World, wallets: map<string, Wallet>, villains: seq<Opponent>, rounds: nat)
    : (r: Result<Progress, string>)
    ensures r.Success? ==>
      |r.value.transcripts| == |r.value.evaluations| == |villains|
      && forall k :: 0 <= k < |villains| ==> r.value.evaluations[k].name == villains[k].name
  {
    var visits := Visits(v => VisitVillain(w, wallets, v, rounds), villains);
    FoldShape(villains, visits);
    Fold(villains, visits)
  }

  /** All transcripts one after another, in selection order. */
  function Combined(transcripts: seq<seq<Message>>): seq<Message> {
    if transcripts == [] then [] else Combined(transcripts[..|transcripts| - 1]) + transcripts[|transcripts| - 1]
  }

  /** The bonus entries: one per missionary that has a wallet in the registry. */
  function BonusEntries(w: World, wallets: map<string, Wallet>, ms: seq<Missionary>): seq<LedgerEntry> {
    if ms == [] then []
    else
      var m := ms[|ms| - 1];
      BonusEntries(w, wallets, ms[..|ms| - 1])
      + if m.agent in wallets then
          var sent := Send(w, MissionaryBonus, m.agent, wallets[m.agent].address, m.bonus,
                           "x402:missionary:" + Prefix(m.agent, 18)).0;
          [LedgerEntry(MissionaryBonus, TREASURY, m.agent, m.bonus, TxIdOf(sent), None, None)]
        else []
  }

  /** What a finished run has produced. */
  datatype Outcome = Outcome(ledger: seq<LedgerEntry>, evaluations: seq<Entry>, missionaries: seq<Missionary>)

  /** Steps 4 and 5 after the villain loop: the missionaries found in the
      combined transcript are paid their bonuses, appended to the ledger. */
  function Finish(w: World, wallets: map<string, Wallet>, loop: Result<Progress, string>): Result<Outcome, string>
  {
    match loop
    case Failure(m) => Failure(m)
    case Success(p) =>
      var ms := Missionaries(p.evaluations, Combined(p.transcripts), w.missionaryPatterns);
      Success(Outcome(p.ledger + BonusEntries(w, wallets, ms), p.evaluations, ms))
  }

  /** Steps 3 and 4 of `main`: the villain loop, then missionary detection over
      the combined transcript and the bonus payments. */
  function Simulate(w: World, wallets: map<string, Wallet>, villains: seq<Opponent>, rounds: nat): (r: Result<Outcome, string>)
    ensures r.Failure? <==> VillainLoop(w, wallets, villains, rounds).Failure?
    ensures r.Success? ==>
      |r.value.evaluations| == |villains| && |r.value.missionaries| <= |villains|
      && (forall k :: 0 <= k < |villains| ==> r.value.evaluations[k].name == villains[k].name)
      && VillainLoop(w, wallets, villains, rounds).value.ledger <= r.value.ledger
  {
    Finish(w, wallets, VillainLoop(w, wallets, villains, rounds))
  }

  // ------------------------------------------------------------ the summary

  /** The amounts of the entries of one kind, added up. */
  function Total(ledger: seq<LedgerEntry>, kind: Kind): int {
    if ledger == [] then 0
    else Total(ledger[..|ledger| - 1], kind) + if ledger[|ledger| - 1].kind == kind then ledger[|ledger| - 1].amount else 0
  }

  /** How many entries are of one kind. */
  function Count(ledger: seq<LedgerEntry>, kind: Kind): nat {
    if ledger == [] then 0
    else Count(ledger[..|ledger| - 1], kind) + if ledger[|ledger| - 1].kind == kind then 1 else 0
  }

  /** Step 6: inflow, outflow and net treasury revenue, with the entry counts. */
  datatype Summary = Summary(totalInflow: int, totalRewards: int, totalBonuses: int, totalOutflow: int,
                             netRevenue: int, payments: nat, rewards: nat, bonuses: nat)

  /** Every entry is of one of the three kinds. */
  lemma {:induction false} CountKinds(ledger: seq<LedgerEntry>)
    ensures Count(ledger, ChatPayment) + Count(ledger, ConversionReward) + Count(ledger, MissionaryBonus) == |ledger|
  {
    if ledger != [] {
      CountKinds(ledger[..|ledger| - 1]);
    }
  }

  /** The summary of a ledger: outflow is rewards plus bonuses, net revenue
      is inflow less outflow, and the three entry counts cover the ledger. */
  function Summarize(ledger: seq<LedgerEntry>): (s: Summary)
    ensures s.totalInflow == Total(ledger, ChatPayment) && s.totalRewards == Total(ledger, ConversionReward)
            && s.totalBonuses == Total(ledger, MissionaryBonus)
    ensures s.totalOutflow == s.totalRewards + s.totalBonuses && s.netRevenue == s.totalInflow - s.totalOutflow
    ensures s.payments + s.rewards + s.bonuses == |ledger|
  {
    CountKinds(ledger);
    var inflow, rewards, bonuses := Total(ledger, ChatPayment), Total(ledger, ConversionReward), Total(ledger, MissionaryBonus);
    Summary(inflow, rewards, bonuses, rewards + bonuses, inflow - (rewards + bonuses),
            Count(ledger, ChatPayment), Count(ledger, ConversionReward), Count(ledger, MissionaryBonus))
  }

  /** The caliber the per-villain summary prices at (`caliber || 'low'`). */
  function SummaryCaliber(v: Opponent): string {
    if v.caliber == "" then "low" else v.caliber
  }

  /** A villain's profit in the conversion summary: what it was rewarded minus
      what it paid, the latter priced straight from the table. */
  function Profit(v: Opponent, e: Evaluation, rounds: nat): (p: int)
    requires SummaryCaliber(v) in CHAT_PRICE
    ensures -1000 * rounds <= p <= 1000 - 100 * rounds
  {
    RewardFor(e.score).reward - CHAT_PRICE[SummaryCaliber(v)] * rounds
  }

  /** For a caliber the table lists, the summary's price is the one charged. */
  lemma ProfitIsRewardLessPayment(v: Opponent, e: Evaluation, rounds: nat)
    requires SummaryCaliber(v) in CHAT_PRICE
    ensures Profit(v, e, rounds) == RewardFor(e.score).reward - ChatPrice(v.caliber) * rounds
    ensures Profit(v, e, rounds) >= -1000 * rounds
  {
    assert CHAT_PRICE[SummaryCaliber(v)] == ChatPrice(v.caliber);
  }

  /** What the selected villains are charged, whatever became of the transfers. */
  function Charged(villains: seq<Opponent>, rounds: nat): int {
    if villains == [] then 0 else Charged(villains[..|villains| - 1], rounds) + ChatPrice(villains[|villains| - 1].caliber) * rounds
  }

  /** The rewards the evaluations earn, zero rewards included. */
  function Earned(evaluations: seq<Entry>): int {
    if evaluations == [] then 0
    else Earned(evaluations[..|evaluations| - 1]) + RewardFor(evaluations[|evaluations| - 1].evaluation.score).reward
  }

  /** The per-villain profits added up. */
  function TotalProfit(villains: seq<Opponent>, evaluations: seq<Entry>, rounds: nat): int
    requires |evaluations| == |villains|
    requires forall k :: 0 <= k < |villains| ==> SummaryCaliber(villains[k]) in CHAT_PRICE
  {
    if villains == [] then 0
    else TotalProfit(villains[..|villains| - 1], evaluations[..|evaluations| - 1], rounds)
         + Profit(villains[|villains| - 1], evaluations[|evaluations| - 1].evaluation, rounds)
  }

  lemma {:induction false} TotalAppend(a: seq<LedgerEntry>, b: seq<LedgerEntry>, kind: Kind)
    ensures Total(a + b, kind) == Total(a, kind) + Total(b, kind)
    ensures Count(a + b, kind) == Count(a, kind) + Count(b, kind)
  {
    if b == [] {
      assert a + b == a;
    } else {
      assert (a + b)[..|a + b| - 1] == a + b[..|b| - 1];
      assert (a + b)[|a + b| - 1] == b[|b| - 1];
      TotalAppend(a, b[..|b| - 1], kind);
    }
  }

  /** What one visit's entries add up to: a payment of the charge, and a reward
      of what the evaluation earns (nothing when that is zero). */
  predicate Balanced(v: Opponent, visit: Visit, rounds: nat) {
    Total(visit.entries, ChatPayment) == ChatPrice(v.caliber) * rounds
    && Count(visit.entries, ChatPayment) == 1
    && Total(visit.entries, ConversionReward) == RewardFor(visit.evaluation.score).reward
    && Total(visit.entries, MissionaryBonus) == 0
    && Count(visit.entries, MissionaryBonus) == 0
  }

  lemma VisitBalanced(w: World, wallets: map<string, Wallet>, v: Opponent, rounds: nat)
    requires VisitVillain(w, wallets, v, rounds).Success?
    ensures Balanced(v, VisitVillain(w, wallets, v, rounds).value, rounds)
  {
    var visit := VisitVillain(w, wallets, v, rounds).value;
    var rewards := RewardEntries(w, wallets, v, visit.evaluation);
    assert visit.entries == [visit.entries[0]] + rewards;
    TotalAppend([visit.entries[0]], rewards, ChatPayment);
    TotalAppend([visit.entries[0]], rewards, ConversionReward);
    TotalAppend([visit.entries[0]], rewards, MissionaryBonus);
    if rewards != [] {
      assert rewards == [rewards[0]];
    }
  }

  /** The k-th iteration is the one for the k-th villain. */
  lemma {:induction false} VisitsAt(visit: Opponent -> Result<Visit, string>, villains: seq<Opponent>, k: nat)
    requires k < |villains|
    ensures Visits(visit, villains)[k] == visit(villains[k])
  {
    var n := |villains| - 1;
    if k < n {
      VisitsAt(visit, villains[..n], k);
    }
  }

  /** The iterations for a prefix of the villains are a prefix of the iterations. */
  lemma {:induction false} VisitsPrefix(visit: Opponent -> Result<Visit, string>, villains: seq<Opponent>, i: nat)
    requires i <= |villains|
    ensures Visits(visit, villains)[..i] == Visits(visit, villains[..i])
  {
    if i < |villains| {
      var n := |villains| - 1;
      VisitsPrefix(visit, villains[..n], i);
      assert villains[..n][..i] == villains[..i];
    } else {
      assert villains[..i] == villains;
    }
  }

  /** Over balanced visits, the loop's ledger charges every villain, failed
      payments included; its rewards add up to what the evaluations earn; there
      is one evaluation per villain, in order. */
  lemma {:induction false} FoldTotals(villains: seq<Opponent>, visits: seq<Result<Visit, string>>, rounds: nat)
    requires |visits| == |villains|
    requires forall k :: 0 <= k < |visits| && visits[k].Success? ==> Balanced(villains[k], visits[k].value, rounds)
    requires Fold(villains, visits).Success?
    ensures var p := Fold(villains, visits).value;
      Total(p.ledger, ChatPayment) == Charged(villains, rounds)
      && Count(p.ledger, ChatPayment) == |villains|
      && Total(p.ledger, ConversionReward) == Earned(p.evaluations)
      && Total(p.ledger, MissionaryBonus) == 0 && Count(p.ledger, MissionaryBonus) == 0
      && |p.evaluations| == |villains| == |p.transcripts|
      && forall k :: 0 <= k < |villains| ==> p.evaluations[k].name == villains[k].name
  {
    if villains != [] {
      var n := |villains| - 1;
      FoldTotals(villains[..n], visits[..n], rounds);
      var p := Fold(villains[..n], visits[..n]).value;
      var visit := visits[n].value;
      assert Balanced(villains[n], visit, rounds);
      TotalAppend(p.ledger, visit.entries, ChatPayment);
      TotalAppend(p.ledger, visit.entries, ConversionReward);
      TotalAppend(p.ledger, visit.entries, MissionaryBonus);
      var evaluations := p.evaluations + [Entry(villains[n].name, visit.evaluation)];
      assert evaluations[..n] == p.evaluations;
    }
  }

  lemma LoopTotals(w: World, wallets: map<string, Wallet>, villains: seq<Opponent>, rounds: nat)
    requires VillainLoop(w, wallets, villains, rounds).Success?
    ensures var p := VillainLoop(w, wallets, villains, rounds).value;
      Total(p.ledger, ChatPayment) == Charged(villains, rounds)
      && Count(p.ledger, ChatPayment) == |villains|
      && Total(p.ledger, ConversionReward) == Earned(p.evaluations)
      && Total(p.ledger, MissionaryBonus) == 0 && Count(p.ledger, MissionaryBonus) == 0
      && |p.evaluations| == |villains| == |p.transcripts|
      && forall k :: 0 <= k < |villains| ==> p.evaluations[k].name == villains[k].name
  {
    var visit := v => VisitVillain(w, wallets, v, rounds);
    var visits := Visits(visit, villains);
    forall k | 0 <= k < |visits| && visits[k].Success?
      ensures Balanced(villains[k], visits[k].value, rounds)
    {
      VisitsAt(visit, villains, k);
      VisitBalanced(w, wallets, villains[k], rounds);
    }
    FoldTotals(villains, visits, rounds);
  }

  /** The loop is aborted exactly when one of its iterations fails. */
  lemma {:induction false} FoldAborts(villains: seq<Opponent>, visits: seq<Result<Visit, string>>)
    requires |visits| == |villains|
    ensures Fold(villains, visits).Failure? <==> exists k :: 0 <= k < |visits| && visits[k].Failure?
  {
    if villains != [] {
      var n := |villains| - 1;
      FoldAborts(villains[..n], visits[..n]);
      assert forall k :: 0 <= k < n ==> visits[..n][k] == visits[k];
    }
  }

  /** The run is aborted exactly when some villain's iteration throws: a wallet
      is missing or its conversation hits an error. */
  lemma AbortsExactly(w: World, wallets: map<string, Wallet>, villains: seq<Opponent>, rounds: nat)
    ensures Simulate(w, wallets, villains, rounds).Failure? <==>
      exists k :: 0 <= k < |villains| && Aborts(w, wallets, villains[k], rounds)
  {
    var visit := v => VisitVillain(w, wallets, v, rounds);
    var visits := Visits(visit, villains);
    FoldAborts(villains, visits);
    forall k | 0 <= k < |villains|
      ensures visits[k].Failure? <==> Aborts(w, wallets, villains[k], rounds)
    {
      VisitsAt(visit, villains, k);
    }
  }

  /** How many missionaries have a wallet in the registry. */
  function WithWallet(ms: seq<Missionary>, wallets: map<string, Wallet>): nat {
    if ms == [] then 0 else WithWallet(ms[..|ms| - 1], wallets) + if ms[|ms| - 1].agent in wallets then 1 else 0
  }

  /** Each missionary with a wallet gets one bonus entry of MISSIONARY_BONUS;
      a missionary without one gets nothing. */
  lemma {:induction false} BonusTotals(w: World, wallets: map<string, Wallet>, ms: seq<Missionary>)
    requires forall k :: 0 <= k < |ms| ==> ms[k].bonus == MISSIONARY_BONUS
    ensures var entries := BonusEntries(w, wallets, ms);
      Total(entries, MissionaryBonus) == MISSIONARY_BONUS * WithWallet(ms, wallets)
      && Count(entries, MissionaryBonus) == WithWallet(ms, wallets) == |entries|
      && Total(entries, ChatPayment) == 0 && Count(entries, ChatPayment) == 0 && Total(entries, ConversionReward) == 0
  {
    if ms != [] {
      var init := ms[..|ms| - 1];
      BonusTotals(w, wallets, init);
      var head := BonusEntries(w, wallets, init);
      var tail := BonusEntries(w, wallets, ms)[|head|..];
      assert BonusEntries(w, wallets, ms) == head + tail;
      TotalAppend(head, tail, MissionaryBonus);
      TotalAppend(head, tail, ChatPayment);
      TotalAppend(head, tail, ConversionReward);
    }
  }

  /** The villains' profits add up to what the run earned them less what it
      charged them. */
  lemma {:induction false} ProfitsAddUp(villains: seq<Opponent>, evaluations: seq<Entry>, rounds: nat)
    requires |evaluations| == |villains|
    requires forall k :: 0 <= k < |villains| ==> SummaryCaliber(villains[k]) in CHAT_PRICE
    ensures TotalProfit(villains, evaluations, rounds) == Earned(evaluations) - Charged(villains, rounds)
  {
    if villains != [] {
      var n := |villains| - 1;
      ProfitsAddUp(villains[..n], evaluations[..n], rounds);
      ProfitIsRewardLessPayment(villains[n], evaluations[n].evaluation, rounds);
    }
  }

  /** `Simulate` carries on from the villain loop's result. */
  lemma SimulateAfterLoop(w: World, wallets: map<string, Wallet>, villains: seq<Opponent>, rounds: nat)
    requires VillainLoop(w, wallets, villains, rounds).Success?
    ensures var p := VillainLoop(w, wallets, villains, rounds).value;
      var ms := Missionaries(p.evaluations, Combined(p.transcripts), w.missionaryPatterns);
      Simulate(w, wallets, villains, rounds) == Success(Outcome(p.ledger + BonusEntries(w, wallets, ms), p.evaluations, ms))
  {
  }

  /** The summary of a loop ledger followed by bonus entries. */
  lemma {:induction false} SummaryOf(villains: seq<Opponent>, p: Progress, bonus: seq<LedgerEntry>, bonused: nat, rounds: nat)
    requires Total(p.ledger, ChatPayment) == Charged(villains, rounds)
    requires Count(p.ledger, ChatPayment) == |villains|
    requires Total(p.ledger, ConversionReward) == Earned(p.evaluations)
    requires Total(p.ledger, MissionaryBonus) == 0 && Count(p.ledger, MissionaryBonus) == 0
    requires |p.evaluations| == |villains|
    requires Total(bonus, MissionaryBonus) == MISSIONARY_BONUS * bonused && Count(bonus, MissionaryBonus) == bonused
    requires Total(bonus, ChatPayment) == 0 && Count(bonus, ChatPayment) == 0 && Total(bonus, ConversionReward) == 0
    requires forall k :: 0 <= k < |villains| ==> SummaryCaliber(villains[k]) in CHAT_PRICE
    ensures var s := Summarize(p.ledger + bonus);
      s.totalInflow == Charged(villains, rounds) && s.payments == |villains|
      && s.totalRewards == Earned(p.evaluations)
      && s.totalBonuses == MISSIONARY_BONUS * bonused && s.bonuses == bonused
      && s.netRevenue == -TotalProfit(villains, p.evaluations, rounds) - s.totalBonuses
  {
    TotalAppend(p.ledger, bonus, ChatPayment);
    TotalAppend(p.ledger, bonus, ConversionReward);
    TotalAppend(p.ledger, bonus, MissionaryBonus);
    ProfitsAddUp(villains, p.evaluations, rounds);
  }

  /** Step 6 on a finished run (whose ledger `SimulateAfterLoop` describes). The inflow
      is everything the villains were charged, whether or not their payments
      went through; the rewards are what the evaluations earn; the bonuses are
      MISSIONARY_BONUS per missionary with a wallet; and the net revenue is the
      villains' total loss less the bonuses. */
  lemma RunSummary(w: World, wallets: map<string, Wallet>, villains: seq<Opponent>, rounds: nat)
    requires VillainLoop(w, wallets, villains, rounds).Success?
    requires forall k :: 0 <= k < |villains| ==> SummaryCaliber(villains[k]) in CHAT_PRICE
    ensures var p := VillainLoop(w, wallets, villains, rounds).value;
      var ms := Missionaries(p.evaluations, Combined(p.transcripts), w.missionaryPatterns);
      var s := Summarize(p.ledger + BonusEntries(w, wallets, ms));
      s.totalInflow == Charged(villains, rounds) && s.payments == |villains|
      && s.totalRewards == Earned(p.evaluations)
      && s.totalBonuses == MISSIONARY_BONUS * WithWallet(ms, wallets)
      && s.bonuses == WithWallet(ms, wallets)
      && |p.evaluations| == |villains|
      && s.netRevenue == -TotalProfit(villains, p.evaluations, rounds) - s.totalBonuses
  {
    var p := VillainLoop(w, wallets, villains, rounds).value;
    var ms := Missionaries(p.evaluations, Combined(p.transcripts), w.missionaryPatterns);
    LoopTotals(w, wallets, villains, rounds);
    MissionaryRecords(p.evaluations, Combined(p.transcripts), w.missionaryPatterns);
    assert forall k :: 0 <= k < |ms| ==> ms[k] in ms;
    BonusTotals(w, wallets, ms);
    SummaryOf(villains, p, BonusEntries(w, wallets, ms), WithWallet(ms, wallets), rounds);
  }

  // ------------------------------------------------------------ the run

  /** The transfers handed to the network match the ledger entry by entry: the
      amount recorded, paid to the wallet of the entry's payee (the treasury for
      a chat payment, the villain or missionary otherwise). */
  predicate Handed(transfers: seq<Transfer>, entries: seq<LedgerEntry>, wallets: map<string, Wallet>) {
    |transfers| == |entries|
    && forall k :: 0 <= k < |entries| ==>
         transfers[k].amount == entries[k].amount
         && entries[k].to in wallets && transfers[k].recipient == wallets[entries[k].to].address
  }

  /** A failed iteration after a successful prefix aborts the loop with its error. */
  lemma {:induction false} FoldFailsAt(villains: seq<Opponent>, visits: seq<Result<Visit, string>>, i: nat)
    requires |visits| == |villains| && i < |villains|
    requires Fold(villains[..i], visits[..i]).Success? && visits[i].Failure?
    ensures Fold(villains, visits) == Failure(visits[i].error)
  {
    var n := |villains| - 1;
    if i < n {
      assert villains[..n][..i] == villains[..i] && visits[..n][..i] == visits[..i];
      FoldFailsAt(villains[..n], visits[..n], i);
    }
  }

  /** A successful iteration extends the loop's state. */
  lemma FoldStep(visit: Opponent -> Result<Visit, string>, villains: seq<Opponent>, i: nat, p: Progress, x: Visit)
    requires i < |villains|
    requires Fold(villains[..i], Visits(visit, villains[..i])) == Success(p)
    requires visit(villains[i]) == Success(x)
    ensures Fold(villains[..i + 1], Visits(visit, villains[..i + 1]))
            == Success(Progress(p.ledger + x.entries, p.transcripts + [x.transcript],
                                p.evaluations + [Entry(villains[i].name, x.evaluation)]))
  {
    var prefix := villains[..i + 1];
    assert prefix[..i] == villains[..i];
    assert Visits(visit, prefix)[..i] == Visits(visit, villains[..i]);
  }

  /** A failed iteration after a successful prefix is the loop's outcome. */
  lemma FoldFailStep(visit: Opponent -> Result<Visit, string>, villains: seq<Opponent>, i: nat, e: string)
    requires i < |villains|
    requires Fold(villains[..i], Visits(visit, villains[..i])).Success?
    requires visit(villains[i]) == Failure(e)
    ensures Fold(villains, Visits(visit, villains)) == Failure(e)
  {
    VisitsPrefix(visit, villains, i);
    VisitsAt(visit, villains, i);
    FoldFailsAt(villains, Visits(visit, villains), i);
  }

  /** Joining two hand-overs joins what they match. */
  lemma HandedAppend(t1: seq<Transfer>, e1: seq<LedgerEntry>, t2: seq<Transfer>, e2: seq<LedgerEntry>,
                     wallets: map<string, Wallet>)
    requires Handed(t1, e1, wallets) && Handed(t2, e2, wallets)
    ensures Handed(t1 + t2, e1 + e2, wallets)
  {
  }

  /** The chat payment of one iteration: one transfer to the treasury unless the
      run is dry. */
  method PayForChat(w: World, wallets: map<string, Wallet>, villain: Opponent, rounds: nat)
    returns (entry: LedgerEntry, transfers: seq<Transfer>)
    requires TREASURY in wallets
    ensures entry == ChatEntry(w, wallets, villain, rounds)
    ensures w.dryRun ==> transfers == []
    ensures !w.dryRun ==> Handed(transfers, [entry], wallets)
  {
    var price := ChatPrice(villain.caliber);
    var totalCost := price * rounds;
    var payment := Send(w, ChatPayment, villain.name, wallets[TREASURY].address, totalCost,
                        "x402:chat:" + Prefix(villain.name, 20));
    transfers := OptionToSeq(payment.1);
    entry := PaymentEntry(villain, totalCost, payment.0);
  }

  /** The conversion reward of one iteration: paid, and recorded, only when the
      evaluation earns a positive reward. */
  method PayReward(w: World, wallets: map<string, Wallet>, villain: Opponent, evaluation: Evaluation)
    returns (entries: seq<LedgerEntry>, transfers: seq<Transfer>)
    requires villain.name in wallets
    ensures entries == RewardEntries(w, wallets, villain, evaluation)
    ensures w.dryRun ==> transfers == []
    ensures !w.dryRun ==> Handed(transfers, entries, wallets)
  {
    entries, transfers := [], [];
    var reward := RewardFor(evaluation.score);
    if reward.reward > 0 {
      var sent := Send(w, ConversionReward, villain.name, wallets[villain.name].address, reward.reward,
                       "x402:reward:score" + ScoreText(evaluation.score));
      entries := [LedgerEntry(ConversionReward, TREASURY, villain.name, reward.reward,
                              TxIdOf(sent.0), ErrorOf(sent.0), evaluation.score)];
      transfers := OptionToSeq(sent.1);
    }
  }

  /** One iteration of the villain loop of `main`: the chat payment, the
      conversation, and, unless the conversation threw, the evaluation and the
      reward. */
  method VisitOne(w: World, wallets: map<string, Wallet>, villain: Opponent, rounds: nat)
    returns (r: Result<Visit, string>, transfers: seq<Transfer>)
    ensures r == VisitVillain(w, wallets, villain, rounds)
    ensures w.dryRun ==> transfers == []
    ensures !w.dryRun && r.Success? ==> Handed(transfers, r.value.entries, wallets)
  {
    transfers := [];
    if villain.name !in wallets {
      return Failure(MissingWallet("index")), transfers;
    }
    if TREASURY !in wallets {
      return Failure(MissingWallet("address")), transfers;
    }
    var payment, paid := PayForChat(w, wallets, villain, rounds);
    var transcript, fault := RunConversation(villain, rounds, w.syndi(villain.name), w.opponent(villain.name),
                                             w.channelPatterns);
    if fault.Some? {
      return Failure(fault.value), paid;
    }
    var evaluation := EvaluateConversion(transcript, w.evaluator);
    var rewards, sent := PayReward(w, wallets, villain, evaluation);
    if !w.dryRun {
      HandedAppend(paid, [payment], sent, rewards, wallets);
    }
    transfers := paid + sent;
    r := Success(Visit([payment] + rewards, transcript, evaluation));
  }

  /** `visit` is the iteration of the villain loop for `w`, `wallets` and `rounds`. */
  ghost predicate IsIteration(visit: Opponent -> Result<Visit, string>, w: World, wallets: map<string, Wallet>, rounds: nat) {
    forall v {:trigger VisitVillain(w, wallets, v, rounds)} :: visit(v) == VisitVillain(w, wallets, v, rounds)
  }

  /** `VisitOne` seen through an abstract iteration function, which keeps the
      loop below from reasoning about the iteration's internals. */
  method Iterate(ghost visit: Opponent -> Result<Visit, string>, w: World, wallets: map<string, Wallet>,
                 villain: Opponent, rounds: nat)
    returns (r: Result<Visit, string>, transfers: seq<Transfer>)
    requires IsIteration(visit, w, wallets, rounds)
    ensures r == visit(villain)
    ensures w.dryRun ==> transfers == []
    ensures !w.dryRun && r.Success? ==> Handed(transfers, r.value.entries, wallets)
  {
    r, transfers := VisitOne(w, wallets, villain, rounds);
  }

  /** The villain loop over any iteration function that is `VisitVillain`. */
  method Loop(ghost visit: Opponent -> Result<Visit, string>, w: World, wallets: map<string, Wallet>,
              villains: seq<Opponent>, rounds: nat)
    returns (r: Result<Progress, string>, transfers: seq<Transfer>)
    requires IsIteration(visit, w, wallets, rounds)
    ensures r == Fold(villains, Visits(visit, villains))
    ensures w.dryRun ==> transfers == []
    ensures !w.dryRun && r.Success? ==> Handed(transfers, r.value.ledger, wallets)
  {
    var ledger: seq<LedgerEntry> := [];
    var transcripts: seq<seq<Message>> := [];
    var evaluations: seq<Entry> := [];
    transfers := [];
    var i := 0;
    while i < |villains|
      invariant 0 <= i <= |villains|
      invariant Fold(villains[..i], Visits(visit, villains[..i])) == Success(Progress(ledger, transcripts, evaluations))
      invariant w.dryRun ==> transfers == []
      invariant !w.dryRun ==> Handed(transfers, ledger, wallets)
    {
      var villain := villains[i];
      var outcome, handed := Iterate(visit, w, wallets, villain, rounds);
      if outcome.Failure? {
        FoldFailStep(visit, villains, i, outcome.error);
        return Failure(outcome.error), transfers + handed;
      }
      FoldStep(visit, villains, i, Progress(ledger, transcripts, evaluations), outcome.value);
      ledger := ledger + outcome.value.entries;
      transcripts := transcripts + [outcome.value.transcript];
      evaluations := evaluations + [Entry(villain.name, outcome.value.evaluation)];
      transfers := transfers + handed;
      i := i + 1;
    }
    assert villains[..i] == villains;
    r := Success(Progress(ledger, transcripts, evaluations));
  }

  /** The villain loop of `main`: each selected villain visited in turn, the
      ledger, transcripts and evaluations accumulated, the first thrown error
      ending the run. */
  method RunVillains(w: World, wallets: map<string, Wallet>, villains: seq<Opponent>, rounds: nat)
    returns (r: Result<Progress, string>, transfers: seq<Transfer>)
    ensures r == VillainLoop(w, wallets, villains, rounds)
    ensures w.dryRun ==> transfers == []
    ensures !w.dryRun && r.Success? ==> Handed(transfers, r.value.ledger, wallets)
  {
    r, transfers := Loop(v => VisitVillain(w, wallets, v, rounds), w, wallets, villains, rounds);
  }

  /** `combinedTranscript`: every transcript pushed in turn. */
  method CombineTranscripts(transcripts: seq<seq<Message>>) returns (combined: seq<Message>)
    ensures combined == Combined(transcripts)
  {
    combined := [];
    var j := 0;
    while j < |transcripts|
      invariant 0 <= j <= |transcripts|
      invariant combined == Combined(transcripts[..j])
    {
      assert transcripts[..j + 1][..j] == transcripts[..j];
      combined := combined + transcripts[j];
      j := j + 1;
    }
    assert transcripts[..j] == transcripts;
  }

  /** The bonus loop of step 4: a transfer and an entry for each missionary
      with a wallet. */
  method PayBonuses(w: World, wallets: map<string, Wallet>, missionaries: seq<Missionary>)
    returns (entries: seq<LedgerEntry>, transfers: seq<Transfer>)
    ensures entries == BonusEntries(w, wallets, missionaries)
    ensures w.dryRun ==> transfers == []
    ensures !w.dryRun ==> Handed(transfers, entries, wallets)
  {
    entries, transfers := [], [];
    var j := 0;
    while j < |missionaries|
      invariant 0 <= j <= |missionaries|
      invariant entries == BonusEntries(w, wallets, missionaries[..j])
      invariant w.dryRun ==> transfers == []
      invariant !w.dryRun ==> Handed(transfers, entries, wallets)
    {
      var m := missionaries[j];
      assert missionaries[..j + 1][..j] == missionaries[..j];
      if m.agent in wallets {
        var sent := Send(w, MissionaryBonus, m.agent, wallets[m.agent].address, m.bonus,
                         "x402:missionary:" + Prefix(m.agent, 18));
        entries := entries + [LedgerEntry(MissionaryBonus, TREASURY, m.agent, m.bonus, TxIdOf(sent.0), None, None)];
        transfers := transfers + OptionToSeq(sent.1);
      }
      j := j + 1;
    }
    assert missionaries[..j] == missionaries;
  }

  /** Steps 4 and 5 of `main` on the loop's outcome. */
  method AfterLoop(w: World, wallets: map<string, Wallet>, loop: Result<Progress, string>)
    returns (r: Result<Outcome, string>, transfers: seq<Transfer>)
    ensures r == Finish(w, wallets, loop)
    ensures loop.Failure? || w.dryRun ==> transfers == []
    ensures r.Success? ==> |loop.value.ledger| <= |r.value.ledger| && r.value.ledger[..|loop.value.ledger|] == loop.value.ledger
    ensures !w.dryRun && r.Success? ==> Handed(transfers, r.value.ledger[|loop.value.ledger|..], wallets)
  {
    if loop.Failure? {
      return Failure(loop.error), [];
    }
    var p := loop.value;
    var combined := CombineTranscripts(p.transcripts);
    var missionaries := DetectMissionaries(p.evaluations, combined, w.missionaryPatterns);
    var bonuses;
    bonuses, transfers := PayBonuses(w, wallets, missionaries);
    r := Success(Outcome(p.ledger + bonuses, p.evaluations, missionaries));
    assert r.value.ledger[|p.ledger|..] == bonuses;
  }

  /** Steps 3 and 4 of `main`: the villain loop, the combined transcript,
      missionary detection and the bonus loop. A missing wallet or an error in a
      conversation aborts the run. `transfers` are the transfers handed to the
      network: none in dry-run mode, otherwise one per ledger entry, with its
      amount. */
  method RunSimulation(w: World, wallets: map<string, Wallet>, villains: seq<Opponent>, rounds: nat)
    returns (r: Result<Outcome, string>, transfers: seq<Transfer>)
    ensures r == Simulate(w, wallets, villains, rounds)
    ensures w.dryRun ==> transfers == []
    ensures !w.dryRun && r.Success? ==> Handed(transfers, r.value.ledger, wallets)
  {
    var progress, paid := RunVillains(w, wallets, villains, rounds);
    var bonusTransfers;
    r, bonusTransfers := AfterLoop(w, wallets, progress);
    transfers := paid + bonusTransfers;
    if !w.dryRun && r.Success? {
      HandedAppend(paid, progress.value.ledger, bonusTransfers, r.value.ledger[|progress.value.ledger|..], wallets);
      assert progress.value.ledger + r.value.ledger[|progress.value.ledger|..] == r.value.ledger;
    }
  }
}

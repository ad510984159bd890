/** The live debate server: the pre-flight check and the debate endpoint, the
    one-debate-at-a-time flag, and the stream of server-sent events a debate
    produces. Everything the session asks of the outside world is an oracle:
    the environment and wallet registry, the two Stacks transfers, the two chat
    models and the evaluator. */
module Server {
  import opened Wrappers
  import opened Decimal
  import opened Pricing
  import opened Evaluation
  import opened Channels
  import opened Opponents
  import opened Transfers
  import opened Conversation

  /** Rounds per debate. */
  const ROUNDS: nat := 3
  const EXPLORER_BASE: string := "https://explorer.hiro.so/txid"

  /** What the endpoints read from the process: whether the OpenAI key and the
      master mnemonic are set, and the wallet registry (absent when its file is). */
  datatype Environment = Environment(openAiKey: bool, mnemonic: bool, registry: Option<map<string, Wallet>>)

  /** A request turned away: its HTTP status and error text. */
  datatype Rejection = Rejection(status: int, error: string)

  /** A request that passed every check: the villain and the two wallets. */
  datatype Cleared = Cleared(villain: Opponent, villainWallet: Wallet, treasuryWallet: Wallet)

  /** The request names a known villain and no debate is running: it is past the
      400, 404 and 429 checks. */
  predicate Admitted(roster: seq<Opponent>, villainName: Option<string>, busy: bool) {
    villainName.Some? && villainName.value != "" && Find(roster, villainName.value).Some? && !busy
  }

  /** The validation both endpoints run against the villain roster, in their order: a missing name (400), an
      unknown villain (404), a debate in progress (429), then the missing OpenAI
      key, mnemonic, registry and wallets (500). The two endpoints word the
      missing-registry error differently. */
  function Preflight(roster: seq<Opponent>, villainName: Option<string>, busy: bool, env: Environment, isCheck: bool): (r: Result<Cleared, Rejection>)
    ensures r.Failure? && r.error.status == 400 <==> villainName.None? || villainName.value == ""
    ensures r.Failure? && r.error.status == 404 <==>
      villainName.Some? && villainName.value != "" && Find(roster, villainName.value).None?
    ensures r.Failure? && r.error.status == 429 <==>
      villainName.Some? && villainName.value != "" && Find(roster, villainName.value).Some? && busy
    ensures r.Failure? ==> r.error.status in {400, 404, 429, 500}
    ensures villainName.None? || villainName.value == "" ==> r == Failure(Rejection(400, "Missing villain parameter"))
    ensures villainName.Some? && villainName.value != "" && Find(roster, villainName.value).None? ==>
      r == Failure(Rejection(404, "Unknown villain: " + villainName.value))
    ensures villainName.Some? && villainName.value != "" && Find(roster, villainName.value).Some? && busy ==>
      r == Failure(Rejection(429, "A debate is already in progress. Please wait."))
    ensures Admitted(roster, villainName, busy) && !env.openAiKey ==>
      r == Failure(Rejection(500, "OPENAI_API_KEY not configured"))
    ensures Admitted(roster, villainName, busy) && env.openAiKey && !env.mnemonic ==>
      r == Failure(Rejection(500, "STACKS_MASTER_MNEMONIC not configured"))
    ensures Admitted(roster, villainName, busy) && env.openAiKey && env.mnemonic && env.registry.None? ==>
      r == Failure(Rejection(500, if isCheck then "Wallet registry not found. Run: npm run create-wallets"
                                  else "Wallet registry not found"))
    ensures Admitted(roster, villainName, busy) && env.openAiKey && env.mnemonic && env.registry.Some?
            && (Find(roster, villainName.value).value.name !in env.registry.value || TREASURY !in env.registry.value) ==>
      r == Failure(Rejection(500, "Wallet not found in registry"))
    ensures r.Success? <==>
      villainName.Some? && villainName.value != "" && Find(roster, villainName.value).Some? && !busy
      && env.openAiKey && env.mnemonic && env.registry.Some?
      && Find(roster, villainName.value).value.name in env.registry.value && TREASURY in env.registry.value
    ensures r.Success? ==>
      r.value == Cleared(Find(roster, villainName.value).value,
                         env.registry.value[Find(roster, villainName.value).value.name],
                         env.registry.value[TREASURY])
  {
    if villainName.None? || villainName.value == "" then Failure(Rejection(400, "Missing villain parameter"))
    else match Find(roster, villainName.value)
      case None => Failure(Rejection(404, "Unknown villain: " + villainName.value))
      case Some(villain) =>
        if busy then Failure(Rejection(429, "A debate is already in progress. Please wait."))
        else if !env.openAiKey then Failure(Rejection(500, "OPENAI_API_KEY not configured"))
        else if !env.mnemonic then Failure(Rejection(500, "STACKS_MASTER_MNEMONIC not configured"))
        else if env.registry.None? then
          Failure(Rejection(500, if isCheck then "Wallet registry not found. Run: npm run create-wallets"
                                 else "Wallet registry not found"))
        else if villain.name !in env.registry.value || TREASURY !in env.registry.value then
          Failure(Rejection(500, "Wallet not found in registry"))
        else Success(Cleared(villain, env.registry.value[villain.name], env.registry.value[TREASURY]))
  }

  /** `CHAT_PRICE[villain.caliber] || 100`, the debate's per-round price. */
  function PriceOf(villain: Opponent): nat {
    ChatPrice(villain.caliber)
  }

  /** What a debate costs the villain: price × rounds; 300, 1500 or 3000 for the
      sixteen villains. */
  lemma DebateCosts(k: nat)
    requires k < |OPPONENTS|
    ensures PriceOf(OPPONENTS[k]) * ROUNDS in {300, 1500, 3000}
    ensures PriceOf(OPPONENTS[k]) == CHAT_PRICE[OPPONENTS[k].caliber]
  {
    OpponentsTiered();
  }

  // ---------------------------------------------------------------- events

  /** One server-sent event; the comment gives its event name. */
  datatype Event =
    | Init(villain: string, caliber: string, model: string, price: int, rounds: nat, totalCost: int)  // phase:init
    | PaymentSending(amount: int, from: string, to: string)                                           // phase:payment
    | PaymentConfirmed(txId: string, explorerUrl: string, amount: int)                                 // payment
    | PaymentFailed(error: string, amount: int)                                                        // payment
    | DebatePhase(rounds: nat)                                                                         // phase:debate
    | MessageSent(speaker: string, text: string, round: nat)                                           // message
    | Evaluating                                                                                       // phase:evaluation
    | Evaluated(score: Option<int>, level: string, evidence: seq<string>, reasoning: string)           // evaluation
    | RewardSending(amount: int)                                                                       // phase:reward
    | NoRewardPhase(reason: string)                                                                    // phase:reward
    | RewardConfirmed(txId: string, explorerUrl: string, amount: int)                                  // reward
    | RewardFailed(error: string, amount: int)                                                         // reward
    | NoReward                                                                                         // reward
    | Complete(villain: string, caliber: string, model: string, rounds: nat, paid: int,
               score: Option<int>, level: string, reward: int, net: int,
               paymentTxId: Option<string>, rewardTxId: Option<string>, messageCount: nat)            // complete
    | Done                                                                                             // done
    | Error(message: string)                                                                           // error

  function EventName(e: Event): string {
    match e
    case Init(_, _, _, _, _, _) => "phase:init"
    case PaymentSending(_, _, _) => "phase:payment"
    case PaymentConfirmed(_, _, _) => "payment"
    case PaymentFailed(_, _) => "payment"
    case DebatePhase(_) => "phase:debate"
    case MessageSent(_, _, _) => "message"
    case Evaluating => "phase:evaluation"
    case Evaluated(_, _, _, _) => "evaluation"
    case RewardSending(_) => "phase:reward"
    case NoRewardPhase(_) => "phase:reward"
    case RewardConfirmed(_, _, _) => "reward"
    case RewardFailed(_, _) => "reward"
    case NoReward => "reward"
    case Complete(_, _, _, _, _, _, _, _, _, _, _, _) => "complete"
    case Done => "done"
    case Error(_) => "error"
  }

  function EventNames(events: seq<Event>): (names: seq<string>)
    ensures |names| == |events|
    ensures forall k :: 0 <= k < |events| ==> names[k] == EventName(events[k])
  {
    if events == [] then [] else [EventName(events[0])] + EventNames(events[1..])
  }

  function ExplorerUrl(txId: string): string {
    EXPLORER_BASE + "/" + txId + "?chain=testnet"
  }

  /** One `message` event per transcript entry: round 0 for the opener, then
      round r for the r-th pair of Syndi's and the villain's replies. */
  function MessageEvents(transcript: seq<Message>): (events: seq<Event>)
    ensures |events| == |transcript|
    ensures forall k :: 0 <= k < |transcript| ==>
      events[k] == MessageSent(transcript[k].speaker, transcript[k].text, (k + 1) / 2)
  {
    seq(|transcript|, k requires 0 <= k < |transcript| => MessageSent(transcript[k].speaker, transcript[k].text, (k + 1) / 2))
  }

  /** The outside world during one debate. */
  datatype Oracles = Oracles(
    paymentNetwork: Broadcast,
    syndi: (seq<Message>, string) -> Reply,
    opponent: seq<Message> -> Reply,
    evaluator: seq<Message> -> EvalReply,
    rewardNetwork: Broadcast)

  /** The villain's payment to the treasury. */
  function ChatPayment(c: Cleared, o: Oracles): (SendResult, Option<Transfer>) {
    SendStx(false, "", c.treasuryWallet.address, PriceOf(c.villain) * ROUNDS,
            "x402:chat:" + Prefix(c.villain.name, 20), o.paymentNetwork)
  }

  /** The treasury's reward to the villain, sent only when the reward is positive. */
  function RewardPayment(c: Cleared, o: Oracles, e: Evaluation): (SendResult, Option<Transfer>) {
    SendStx(false, "", c.villainWallet.address, RewardFor(e.score).reward,
            "x402:reward:score" + ScoreText(e.score), o.rewardNetwork)
  }

  /** The events up to the opening message: init, payment, debate phase. */
  function Prelude(c: Cleared, payment: SendResult): seq<Event> {
    var price := PriceOf(c.villain);
    var totalCost := price * ROUNDS;
    [Init(c.villain.name, c.villain.caliber, c.villain.model, price, ROUNDS, totalCost),
     PaymentSending(totalCost, c.villain.name, TREASURY),
     if payment.Sent? then PaymentConfirmed(payment.txId, ExplorerUrl(payment.txId), totalCost)
     else PaymentFailed(payment.error, totalCost),
     DebatePhase(ROUNDS)]
  }

  /** The reward phase: sending and then confirmed or failed for a positive
      reward, "none" twice otherwise. */
  function RewardEvents(e: Evaluation, amount: int, reward: Option<SendResult>): seq<Event> {
    if amount > 0 && reward.Some? then
      [RewardSending(amount),
       if reward.value.Sent? then RewardConfirmed(reward.value.txId, ExplorerUrl(reward.value.txId), amount)
       else RewardFailed(reward.value.error, amount)]
    else [NoRewardPhase("Score " + ScoreText(e.score) + " < 2"), NoReward]
  }

  /** What the `complete` event reports. */
  function CompleteEvent(c: Cleared, e: Evaluation, payment: SendResult, amount: int, reward: Option<SendResult>,
                         messageCount: nat): Event {
    var totalCost := PriceOf(c.villain) * ROUNDS;
    Complete(c.villain.name, c.villain.caliber, c.villain.model, ROUNDS, totalCost, e.score, e.level,
             amount, amount - totalCost,
             if payment.Sent? then Some(payment.txId) else None,
             if reward.Some? && reward.value.Sent? then Some(reward.value.txId) else None,
             messageCount)
  }

  /** The evaluation, the reward phase when there is one, the summary and `done`,
      after a conversation no error cut short. */
  function Closing(c: Cleared, payment: SendResult, e: Evaluation, amount: int, reward: Option<SendResult>,
                   messageCount: nat): seq<Event> {
    [Evaluating, Evaluated(e.score, e.level, e.evidence, e.reasoning)]
    + RewardEvents(e, amount, reward)
    + [CompleteEvent(c, e, payment, amount, reward, messageCount), Done]
  }

  /** The reward transfer's outcome, for a positive reward only. */
  function RewardOutcome(c: Cleared, o: Oracles, e: Evaluation): Option<SendResult> {
    if RewardFor(e.score).reward > 0 then Some(RewardPayment(c, o, e).0) else None
  }

  /** What follows the messages: one `error` event if a model call threw, the
      closing events otherwise. */
  function Ending(c: Cleared, o: Oracles, payment: SendResult, d: Dialogue): seq<Event> {
    if d.fault.Some? then [Error(d.fault.value)]
    else
      var e := EvaluateConversion(d.transcript, o.evaluator);
      Closing(c, payment, e, RewardFor(e.score).reward, RewardOutcome(c, o, e), |d.transcript|)
  }

  /** The whole stream of one accepted debate. */
  function SessionEvents(c: Cleared, o: Oracles): (events: seq<Event>)
    ensures |events| >= 6 && events[0].Init? && events[1].PaymentSending? && events[3] == DebatePhase(ROUNDS)
    ensures events[|events| - 1] == Done <==> Converse(c.villain, ROUNDS, o.syndi, o.opponent).fault.None?
    ensures events[|events| - 1] != Done ==> events[|events| - 1].Error?
  {
    var payment := ChatPayment(c, o).0;
    var d := Converse(c.villain, ROUNDS, o.syndi, o.opponent);
    Prelude(c, payment) + MessageEvents(d.transcript) + Ending(c, o, payment, d)
  }

  lemma {:induction false} EventNamesAppend(a: seq<Event>, b: seq<Event>)
    ensures EventNames(a + b) == EventNames(a) + EventNames(b)
  {
    if a != [] {
      assert (a + b)[1..] == a[1..] + b;
      EventNamesAppend(a[1..], b);
    }
  }

  /** The event names of a debate that runs to the end. */
  const COMPLETE_ORDER: seq<string> :=
    ["phase:init", "phase:payment", "payment", "phase:debate",
     "message", "message", "message", "message", "message", "message", "message",
     "phase:evaluation", "evaluation", "phase:reward", "reward", "complete", "done"]

  lemma PreludeNames(c: Cleared, payment: SendResult)
    ensures EventNames(Prelude(c, payment)) == ["phase:init", "phase:payment", "payment", "phase:debate"]
  {
    var names := EventNames(Prelude(c, payment));
    assert names[2] == "payment";
  }

  lemma MessageNames(transcript: seq<Message>)
    requires |transcript| == 7
    ensures EventNames(MessageEvents(transcript)) == ["message", "message", "message", "message", "message", "message", "message"]
  {
  }

  lemma RewardNames(e: Evaluation, amount: int, reward: Option<SendResult>)
    ensures EventNames(RewardEvents(e, amount, reward)) == ["phase:reward", "reward"]
  {
  }

  lemma ClosingNames(c: Cleared, payment: SendResult, e: Evaluation, amount: int, reward: Option<SendResult>,
                     messageCount: nat)
    ensures EventNames(Closing(c, payment, e, amount, reward, messageCount))
            == ["phase:evaluation", "evaluation", "phase:reward", "reward", "complete", "done"]
  {
    var r := RewardEvents(e, amount, reward);
    RewardNames(e, amount, reward);
    EventNamesAppend([Evaluating, Evaluated(e.score, e.level, e.evidence, e.reasoning)], r);
    EventNamesAppend([Evaluating, Evaluated(e.score, e.level, e.evidence, e.reasoning)] + r,
                     [CompleteEvent(c, e, payment, amount, reward, messageCount), Done]);
  }

  /** The stream of a finished debate, split where its parts meet. */
  lemma {:induction false} CompleteSplit(c: Cleared, o: Oracles)
    requires Converse(c.villain, ROUNDS, o.syndi, o.opponent).fault.None?
    ensures var payment := ChatPayment(c, o).0;
      var d := Converse(c.villain, ROUNDS, o.syndi, o.opponent);
      var e := EvaluateConversion(d.transcript, o.evaluator);
      |d.transcript| == 7
      && SessionEvents(c, o) == Prelude(c, payment) + MessageEvents(d.transcript)
                                + Closing(c, payment, e, RewardFor(e.score).reward, RewardOutcome(c, o, e), 7)
  {
    ConverseShape(c.villain, ROUNDS, o.syndi, o.opponent);
  }

  /** A debate that no model call interrupts emits the seventeen events in the
      fixed order, whether or not either payment went through. */
  lemma {:induction false} CompleteSession(c: Cleared, o: Oracles)
    requires Converse(c.villain, ROUNDS, o.syndi, o.opponent).fault.None?
    ensures EventNames(SessionEvents(c, o)) == COMPLETE_ORDER
  {
    var payment := ChatPayment(c, o).0;
    var d := Converse(c.villain, ROUNDS, o.syndi, o.opponent);
    var e := EvaluateConversion(d.transcript, o.evaluator);
    CompleteSplit(c, o);
    var pre, msgs := Prelude(c, payment), MessageEvents(d.transcript);
    var post := Closing(c, payment, e, RewardFor(e.score).reward, RewardOutcome(c, o, e), 7);
    PreludeNames(c, payment);
    MessageNames(d.transcript);
    ClosingNames(c, payment, e, RewardFor(e.score).reward, RewardOutcome(c, o, e), 7);
    EventNamesAppend(pre, msgs);
    EventNamesAppend(pre + msgs, post);
    CompleteOrderParts();
  }

  lemma CompleteOrderParts()
    ensures COMPLETE_ORDER == ["phase:init", "phase:payment", "payment", "phase:debate"]
      + ["message", "message", "message", "message", "message", "message", "message"]
      + ["phase:evaluation", "evaluation", "phase:reward", "reward", "complete", "done"]
  {
  }

  /** The `complete` event of a finished debate counts 1 + 2 × 3 messages,
      charges the price of every round and nets the reward against it. */
  lemma {:induction false} CompleteSummary(c: Cleared, o: Oracles)
    requires Converse(c.villain, ROUNDS, o.syndi, o.opponent).fault.None?
    ensures var events := SessionEvents(c, o);
      |events| == 17
      && events[16] == Done
      && events[15].Complete?
      && events[15].messageCount == 1 + 2 * ROUNDS
      && events[15].paid == PriceOf(c.villain) * ROUNDS
      && events[15].net == events[15].reward - events[15].paid
      && events[15].reward == RewardFor(events[15].score).reward
  {
    var payment := ChatPayment(c, o).0;
    var d := Converse(c.villain, ROUNDS, o.syndi, o.opponent);
    var e := EvaluateConversion(d.transcript, o.evaluator);
    CompleteSplit(c, o);
    var amount := RewardFor(e.score).reward;
    var post := Closing(c, payment, e, amount, RewardOutcome(c, o, e), 7);
    assert |RewardEvents(e, amount, RewardOutcome(c, o, e))| == 2;
    assert post[5] == Done && post[4] == CompleteEvent(c, e, payment, amount, RewardOutcome(c, o, e), 7);
  }

  /** A model call that throws ends the stream with one `error` event, after the
      messages exchanged so far, and without `complete` or `done`. */
  lemma InterruptedSession(c: Cleared, o: Oracles)
    requires Converse(c.villain, ROUNDS, o.syndi, o.opponent).fault.Some?
    ensures var events := SessionEvents(c, o);
      events[|events| - 1] == Error(Converse(c.villain, ROUNDS, o.syndi, o.opponent).fault.value)
      && (forall k :: 0 <= k < |events| ==> events[k] != Done && !events[k].Complete?)
      && (forall k :: 0 <= k < |events| - 1 ==> !events[k].Error?)
  {
  }

  /** A positive reward is sent and reported as confirmed exactly when the
      network accepts it; otherwise the reward phase says "none" and nothing is
      sent. An out-of-table score, such as the evaluator's -1, counts as 0. */
  lemma RewardPhase(e: Evaluation, reward: Option<SendResult>)
    requires reward.Some? <==> RewardFor(e.score).reward > 0
    ensures var events := RewardEvents(e, RewardFor(e.score).reward, reward);
      |events| == 2
      && (RewardFor(e.score).reward > 0 ==>
            events[0] == RewardSending(RewardFor(e.score).reward)
            && (events[1].RewardConfirmed? <==> reward.value.Sent?))
      && (RewardFor(e.score).reward == 0 ==> events == [NoRewardPhase("Score " + ScoreText(e.score) + " < 2"), NoReward])
  {
  }

  /** The server: its one piece of mutable state is `debateInProgress`. */
  class DebateServer {
    var debateInProgress: bool

    constructor()
      ensures !debateInProgress
    {
      debateInProgress := false;
    }

    /** `GET /api/debate/check`: the validation alone, with the caliber on success. */
    function Check(villainName: Option<string>, env: Environment): (r: Result<(string, string), Rejection>)
      reads this
      ensures r.Success? <==> Preflight(OPPONENTS, villainName, debateInProgress, env, true).Success?
      ensures r.Success? ==>
        var c := Preflight(OPPONENTS, villainName, debateInProgress, env, true).value;
        r.value == (c.villain.name, c.villain.caliber)
      ensures r.Failure? ==> r.error == Preflight(OPPONENTS, villainName, debateInProgress, env, true).error
    {
      match Preflight(OPPONENTS, villainName, debateInProgress, env, true)
      case Failure(rejection) => Failure(rejection)
      case Success(c) => Success((c.villain.name, c.villain.caliber))
    }

    /** The start of `GET /api/debate`: every check runs before the flag is set,
        so a rejected request leaves it as it was. */
    method Open(villainName: Option<string>, env: Environment) returns (r: Result<Cleared, Rejection>)
      modifies this
      ensures r == Preflight(OPPONENTS, villainName, old(debateInProgress), env, false)
      ensures r.Failure? ==> debateInProgress == old(debateInProgress)
      ensures r.Success? ==> !old(debateInProgress) && debateInProgress
    {
      r := Preflight(OPPONENTS, villainName, debateInProgress, env, false);
      if r.Success? {
        debateInProgress := true;
      }
    }

    /** The client went away: the `close` handler releases the flag at once. */
    method ClientClosed()
      modifies this
      ensures !debateInProgress
    {
      debateInProgress := false;
    }

    /** `GET /api/debate` from start to end: validation, then the session, then
        the `finally` that releases the flag on every path. */
    method Debate(villainName: Option<string>, env: Environment, o: Oracles, p: ChannelPatterns)
      returns (r: Result<seq<Event>, Rejection>, transfers: seq<Transfer>)
      modifies this
      ensures r.Failure? <==> Preflight(OPPONENTS, villainName, old(debateInProgress), env, false).Failure?
      ensures r.Failure? ==> r.error == Preflight(OPPONENTS, villainName, old(debateInProgress), env, false).error
                             && debateInProgress == old(debateInProgress) && transfers == []
      ensures r.Success? ==> r.value == SessionEvents(Preflight(OPPONENTS, villainName, old(debateInProgress), env, false).value, o)
                             && !debateInProgress
    {
      var cleared := Open(villainName, env);
      if cleared.Failure? {
        return Failure(cleared.error), [];
      }
      var events;
      events, transfers := RunSession(cleared.value, o, p);
      debateInProgress := false;
      r := Success(events);
    }
  }

  /** The start of the debate handler: the init and payment events and the
      villain's payment for all rounds, which is made whether or not it then
      goes through. */
  method PayForDebate(c: Cleared, o: Oracles) returns (events: seq<Event>, payment: SendResult, transfer: Transfer)
    ensures payment == ChatPayment(c, o).0
    ensures events == Prelude(c, payment)
    ensures transfer == Transfer(c.treasuryWallet.address, PriceOf(c.villain) * ROUNDS,
                                 TruncateMemo("x402:chat:" + Prefix(c.villain.name, 20)))
  {
    var price := PriceOf(c.villain);
    var totalCost := price * ROUNDS;
    events := [Init(c.villain.name, c.villain.caliber, c.villain.model, price, ROUNDS, totalCost)];
    events := events + [PaymentSending(totalCost, c.villain.name, TREASURY)];
    var sent := SendStx(false, "", c.treasuryWallet.address, totalCost, "x402:chat:" + Prefix(c.villain.name, 20),
                        o.paymentNetwork);
    payment, transfer := sent.0, sent.1.value;
    if payment.Sent? {
      events := events + [PaymentConfirmed(payment.txId, ExplorerUrl(payment.txId), totalCost)];
    } else {
      events := events + [PaymentFailed(payment.error, totalCost)];
    }
    events := events + [DebatePhase(ROUNDS)];
  }

  /** The reward phase of the debate handler: a positive reward is sent to the
      villain's wallet and its outcome reported; otherwise "none" is reported. */
  method SendReward(c: Cleared, o: Oracles, e: Evaluation)
    returns (phase: seq<Event>, reward: Option<SendResult>, transfers: seq<Transfer>)
    ensures reward == RewardOutcome(c, o, e)
    ensures phase == RewardEvents(e, RewardFor(e.score).reward, reward)
    ensures |transfers| <= 1
    ensures transfers != [] <==> RewardFor(e.score).reward > 0
    ensures transfers != [] ==>
      transfers[0].recipient == c.villainWallet.address && transfers[0].amount == RewardFor(e.score).reward
  {
    var amount := RewardFor(e.score).reward;
    if amount > 0 {
      var sent := SendStx(false, "", c.villainWallet.address, amount, "x402:reward:score" + ScoreText(e.score),
                          o.rewardNetwork);
      reward := Some(sent.0);
      transfers := [sent.1.value];
      if sent.0.Sent? {
        phase := [RewardSending(amount), RewardConfirmed(sent.0.txId, ExplorerUrl(sent.0.txId), amount)];
      } else {
        phase := [RewardSending(amount), RewardFailed(sent.0.error, amount)];
      }
    } else {
      reward, transfers := None, [];
      phase := [NoRewardPhase("Score " + ScoreText(e.score) + " < 2"), NoReward];
    }
  }

  /** The end of the debate handler after a finished conversation: evaluate it,
      send the reward when the score earns one, and report. */
  method Settle(c: Cleared, o: Oracles, payment: SendResult, transcript: seq<Message>)
    returns (events: seq<Event>, transfers: seq<Transfer>)
    ensures var e := EvaluateConversion(transcript, o.evaluator);
      events == Closing(c, payment, e, RewardFor(e.score).reward, RewardOutcome(c, o, e), |transcript|)
    ensures |transfers| <= 1
    ensures transfers != [] <==> RewardFor(EvaluateConversion(transcript, o.evaluator).score).reward > 0
    ensures transfers != [] ==>
      transfers[0].recipient == c.villainWallet.address
      && transfers[0].amount == RewardFor(EvaluateConversion(transcript, o.evaluator).score).reward
  {
    var evaluation := EvaluateConversion(transcript, o.evaluator);
    events, transfers := Close(c, o, payment, evaluation, |transcript|);
  }

  /** The closing events for a given evaluation. */
  method Close(c: Cleared, o: Oracles, payment: SendResult, evaluation: Evaluation, messageCount: nat)
    returns (events: seq<Event>, transfers: seq<Transfer>)
    ensures events == Closing(c, payment, evaluation, RewardFor(evaluation.score).reward,
                              RewardOutcome(c, o, evaluation), messageCount)
    ensures |transfers| <= 1
    ensures transfers != [] <==> RewardFor(evaluation.score).reward > 0
    ensures transfers != [] ==>
      transfers[0].recipient == c.villainWallet.address && transfers[0].amount == RewardFor(evaluation.score).reward
  {
    events := [Evaluating, Evaluated(evaluation.score, evaluation.level, evaluation.evidence, evaluation.reasoning)];
    var amount := RewardFor(evaluation.score).reward;
    var phase, reward;
    phase, reward, transfers := SendReward(c, o, evaluation);
    events := events + phase + [CompleteEvent(c, evaluation, payment, amount, reward, messageCount), Done];
  }

  /** The body of the debate handler: the payment (its failure does not stop
      the debate), the conversation with every message streamed, then the
      closing events; an error thrown by a model call ends the stream with an
      `error` event. `transfers` are the Stacks transfers handed to the network:
      the payment always, the reward when there is one. */
  method RunSession(c: Cleared, o: Oracles, p: ChannelPatterns) returns (events: seq<Event>, transfers: seq<Transfer>)
    ensures events == SessionEvents(c, o)
    ensures 1 <= |transfers| <= 2
    ensures transfers[0] == Transfer(c.treasuryWallet.address, PriceOf(c.villain) * ROUNDS,
                                     TruncateMemo("x402:chat:" + Prefix(c.villain.name, 20)))
    ensures |transfers| == 2 ==> transfers[1].recipient == c.villainWallet.address && transfers[1].amount > 0
  {
    var payment, transfer;
    events, payment, transfer := PayForDebate(c, o);
    transfers := [transfer];
    var transcript, fault := RunConversation(c.villain, ROUNDS, o.syndi, o.opponent, p);
    events := events + MessageEvents(transcript);
    if fault.Some? {
      events := events + [Error(fault.value)];
      return;
    }
    var closing, rewards := Settle(c, o, payment, transcript);
    events := events + closing;
    transfers := transfers + rewards;
  }
}

# Syndi x402 settlement and payment gating, in Dafny

This project models the settlement and payment-gating core of the Syndi x402
system. In that system, an AI persuader ("Syndi") debates villain agents on
the Stacks blockchain, and money moves around each debate:

- **Payment gate.** Paid HTTP endpoints sit behind an x402 gate. The gate
  answers `402 Payment Required` (RFC 9110, section 15.5.3) with a price, then
  lets a request through once a facilitator has verified the payment proof.
- **Paying client.** An agent's HTTP client pays such a 402 itself. A
  per-request ceiling and a cumulative budget guard each payment.
- **Live debate server.** The server charges the villain for a three-round
  debate, then streams the debate as server-sent events. It has the
  conversation evaluated and rewards a converted villain. Only one debate runs
  at a time.
- **Batch simulation.** The simulation does the same for several villains in
  a row. It then pays a bonus to every "missionary" and sums the economic
  ledger.
- **Arena settlement.** Staked participants share a pool in proportion to
  their conversion scores, each share rounded down. The treasury keeps the
  remainder.
- **Channel tracker and metrics.** The tracker counts Syndi's persuasion
  channels and hints at the neglected one. The quality metrics summarise a
  transcript.

Everything outside the program is a parameter of the model:

- the Stacks transfer outcome;
- the chat models' replies;
- the evaluator;
- the facilitator's answer;
- the clock reading used for dry-run ids;
- the regular expressions, which are predicates on the text.

## Structure

Each module below is in its own file.

| module | file | what it holds |
|---|---|---|
| `Wrappers` | `wrappers.dfy` | `Option` and `Result`. |
| `Decimal` | `decimal.dfy` | `String(n)` and `parseInt`, and the round trip between them. |
| `Pricing` | `pricing.dfy` | The pricing, reward, stake and bonus tables, and the server's per-caliber chat price. |
| `Opponents` | `opponents.dfy` | The sixteen villains, reduced to name, model, caliber and opener. |
| `Evaluation` | `evaluation.dfy` | The transcript tail the evaluator sees, and its error sentinel. |
| `Channels` | `tracker.dfy` | The `ChannelTracker` class and its hint rule. |
| `Metrics` | `metrics.dfy` | `computeMetrics` and its two collecting loops. |
| `Transfers` | `transfers.dfy` | `sendSTX`, memo truncation and the payment-outcome oracle. |
| `Conversation` | `conversation.dfy` | The round loop shared by the server and the simulation. |
| `Settlement` | `settlement.dfy` | `calculateArenaSettlement` and the demo arena. |
| `MissionaryDetection` | `missionaries.dfy` | `detectMissionaries`. |
| `Payouts` | `payouts.dfy` | `processConversionReward`, `executeArenaSettlement` and `payMissionaryBonuses`. |
| `Gate` | `gate.dfy` | `findPricing`, `calculatePrice`, `verifyPayment` and the `x402Gate` decision, plus the gate as a class with its payment log. |
| `Client` | `client.dfy` | The `AgentPaymentClient` class. |
| `Server` | `server.dfy` | The pre-flight check, the `debateInProgress` flag and the event stream of `/api/debate`. |
| `Simulation` | `simulation.dfy` | The villain loop, the missionary bonuses and the ledger summary of the batch simulation. |

Where the code changes state step by step, the model is imperative Dafny:

- `ChannelTracker.Record`, `AgentPaymentClient.Fetch` and `PaymentGate.Handle` update class fields;
- `DebateServer` holds the flag;
- the loops of `detectMissionaries`, `executeArenaSettlement`, `payMissionaryBonuses`, `computeMetrics`, `findPricing`, `runConversation`, the debate handler and the simulation's `main` are methods with loop invariants.

Each of these methods is proved equal to a specification function. The properties are then proved about that function.

## Model

| member | source | states |
|---|---|---|
| Pricing.RewardFor | config/x402-pricing.js:38-45 | A score earns a positive reward exactly when it is 2 to 5. No reward exceeds 1000. A score outside the table, or a missing one, falls back to the score-0 tier. |
| Pricing.ChatPrice | server.js:40 | The per-round price is 100, 500 or 1000. It is above 100 exactly for the medium and high calibers, and an unknown caliber pays 100. |
| Pricing.RewardTableDomain | config/x402-pricing.js:38-45 | The reward table is defined for exactly the scores 0 to 5. |
| Pricing.RewardMonotone | config/x402-pricing.js:38-45 | A higher score never earns a smaller reward. |
| Pricing.OutOfTableFallsBack | src/conversion-economics.js:26 | A missing score, and any score outside 0..5 (the error sentinel -1 included), gets the score-0 tier and no reward. |
| Pricing.ChatPriceIsTariff | config/x402-pricing.js:15-23 | For each caliber, the chat tariff's base times its multiplier equals the server's hard-coded chat price. |
| Pricing.PricingTableShape | config/x402-pricing.js:8-35 | The routes are distinct. The first three are free, with a null tariff. The last three are paid. |
| Decimal.IntToString | src/x402-middleware.js:56 | `String(i)` is non-empty and starts with '-' exactly for a negative number. |
| Decimal.NatToString | src/x402-middleware.js:56 | `String(n)` of a natural number is non-empty, all digits, and has no leading zero above 9. |
| Decimal.ParseInt | src/agent-payment-client.js:70 | `parseInt` gives a number exactly when the string starts with a digit, or with a sign and then a digit; otherwise NaN. A leading '-' gives a number that is not positive, and anything else one that is not negative. |
| Decimal.ParseIntRoundTrip | src/agent-payment-client.js:70 | `parseInt(String(i)) == i` for every integer. |
| Evaluation.EvalWindow | syndi-core/syndi-core.js:334 | The evaluator sees the last min(20, n) entries of the transcript, in order. |
| Evaluation.EvaluateConversion | syndi-core/syndi-core.js:333-365 | A failed call gives score -1, level 'error' and no evidence. A successful call gives the evaluator's own answer about the last 20 entries. |
| Evaluation.EvaluationSeesOnlyWindow | syndi-core/syndi-core.js:334 | Entries before the last 20 cannot change the evaluation. |
| Evaluation.ErrorEvaluationPaysNothing | syndi-core/syndi-core.js:361-364 | The error sentinel gets the score-0 tier and no reward. |
| Opponents.Find | server.js:112 | The lookup fails exactly when no villain has the name. Otherwise it returns the first villain with that name. |
| Opponents.OpponentsTiered | syndi-core/syndi-core.js:390-522 | There are 16 villains. Each caliber fixes the villain's model, and every caliber has a chat price in the table. |
| Channels.DetectChannel | syndi-core/syndi-core.js:280-289 | Humour wins over scripture, and scripture over logic. A message matching no pattern is logic. |
| Channels.LogicPatternIsRedundant | syndi-core/syndi-core.js:287-288 | The logic pattern never affects the classification. |
| Channels.Counts.Inc | syndi-core/syndi-core.js:293 | Exactly one counter goes up, by one. The total goes up by one. |
| Channels.Window | syndi-core/syndi-core.js:294-297 | The last channels are the last min(5, n) recorded, in order. |
| Channels.WindowSlides | syndi-core/syndi-core.js:294-297 | Pushing a channel and keeping the last five gives the window of the extended history. |
| Channels.TallyTotal | syndi-core/syndi-core.js:291-293 | The counters add up to the number of recorded messages. |
| Channels.LeastUsed | syndi-core/syndi-core.js:318 | The channel has the minimum count. Ties go to the earliest key (comedy, logic, scripture), as the stable sort gives. |
| Channels.Alternatives | syndi-core/syndi-core.js:313 | The two channels other than the stuck one, in key order. |
| Channels.HintFor | syndi-core/syndi-core.js:300-321 | No hint unless the index is a positive multiple of 10. A "stuck" hint exactly when the last three channels are equal; it names the other two channels in key order. Otherwise the least-used channel is named. |
| Channels.HintText | syndi-core/syndi-core.js:302-321 | The text is empty exactly when there is no hint. |
| Channels.ChannelTracker.constructor | syndi-core/syndi-core.js:275-278 | The counters start at zero and the window starts empty. |
| Channels.ChannelTracker.Record | syndi-core/syndi-core.js:291-298 | One channel is appended to the history. Its counter goes up by one. The window becomes the last five channels of the history. The invariant that counters and window follow the history is kept. |
| Channels.ChannelTracker.GetChannelCheck | syndi-core/syndi-core.js:300-322 | The check is empty exactly when no hint is due at that index. |
| Channels.ChannelTracker.GetMetrics | syndi-core/syndi-core.js:324-326 | The counters sum to the number of recorded messages. The window is the last at most five channels. Reading them changes nothing. |
| Metrics.Texts | syndi-core/syndi-core.js:529-530 | At most one text per message. |
| Metrics.TextsAppend | syndi-core/syndi-core.js:529-530 | The texts of two stretches of transcript are the texts of each stretch, in order. |
| Metrics.TextsOfOne | syndi-core/syndi-core.js:529-530 | A single message gives its text exactly when its speaker is the one asked for. |
| Metrics.TextsPartition | syndi-core/syndi-core.js:529-530 | Syndi's messages plus the opponent's messages are the whole transcript. |
| Metrics.CountMatching | syndi-core/syndi-core.js:535-536 | A pattern's count never exceeds the number of messages. |
| Metrics.AddTechniques | syndi-core/syndi-core.js:542-547 | One message adds exactly the techniques it shows. |
| Metrics.UsedInMeans | syndi-core/syndi-core.js:538-548 | A technique is collected exactly when some message of Syndi's shows it. |
| Metrics.NamesFollowRank | syndi-core/syndi-core.js:561 | The declaration order of the techniques is the string order of their names. |
| Metrics.SortedNames | syndi-core/syndi-core.js:561 | The names are strictly ascending in string order, one per collected technique, and no others. |
| Metrics.CollectTechniques | syndi-core/syndi-core.js:538-548 | The loop collects the techniques that Syndi's messages show. |
| Metrics.CollectSignals | syndi-core/syndi-core.js:550-555 | The loop gathers every conversion-pattern match of the opponent's messages, in order. |
| Metrics.ComputeMetrics | syndi-core/syndi-core.js:528-567 | The two message counts add up to the transcript length. Scripture is Tao plus Jesus quotes. The techniques are sorted, duplicate-free, at most 6, and exactly those shown. The signals are every match in order. |
| MissionaryDetection.Preview | src/conversion-economics.js:206 | At most 120 characters, a prefix of the message, and the whole message when it is short enough. |
| MissionaryDetection.MessagesBy | src/conversion-economics.js:193-195 | Only that speaker's messages, each taken from the transcript. |
| MissionaryDetection.FirstAdvocatingIndex | src/conversion-economics.js:197-210 | Reference definition: the earliest transcript position where the participant advocates. |
| MissionaryDetection.FilterThenFirst | src/conversion-economics.js:193-209 | Filtering by speaker and then stopping at the first advocating message finds that earliest position. |
| MissionaryDetection.MissionaryOf | src/conversion-economics.js:191-209 | A participant yields a record exactly when its score (missing counts as 0) is at least 3 and it advocates somewhere. The record is for the first such message, cut to 120 characters, with MISSIONARY_BONUS. |
| MissionaryDetection.Missionaries | src/conversion-economics.js:190-212 | At most one record per entry. |
| MissionaryDetection.DetectMissionaries | src/conversion-economics.js:178-215 | The nested loop with `break` computes the per-entry records, in entry order. |
| MissionaryDetection.MissionaryRecords | src/conversion-economics.js:203-208 | Every record is a converted participant's. It carries MISSIONARY_BONUS and at most 120 characters, and it comes from one entry. |
| MissionaryDetection.EveryAdvocateRecorded | src/conversion-economics.js:197-209 | Every converted participant who advocates is recorded. |
| MissionaryDetection.OneBonusPerAgent | src/conversion-economics.js:209 | With distinct participant names, no participant appears twice. |
| Settlement.RankAll | src/conversion-economics.js:78-83 | One ranked participant per entry, in entry order, with `score \|\| 0` and `level \|\| 'unknown'`. |
| Settlement.ScoreOrZero | src/conversion-economics.js:81 | A present score is kept; a missing one counts as 0. |
| Settlement.InsertByScore | src/conversion-economics.js:84 | Insertion keeps the order descending and adds exactly the new element. |
| Settlement.SortByScore | src/conversion-economics.js:84 | The result is descending by score and a permutation of the input. |
| Settlement.AscendingSortsToReverse | src/conversion-economics.js:84 | Input in strictly increasing score comes out reversed. |
| Settlement.WinnerScore | src/conversion-economics.js:87-89 | The winners' score sum is non-negative. It is zero exactly when nobody scores 3 or more. |
| Settlement.Winners | src/conversion-economics.js:124 | The count of settlements with a positive net, at most the number of settlements. |
| Settlement.Losers | src/conversion-economics.js:125 | The count of settlements with a negative net, at most the number of settlements. |
| Settlement.NobodyCounted | src/conversion-economics.js:124-125 | The winner count is 0 exactly when no settlement has a positive net. The loser count is 0 exactly when none has a negative net. |
| Settlement.Settle | src/conversion-economics.js:91-114 | Stake 500 and net = earned - stake, with a non-negative share. Below score 3, nothing is earned and the net is -500. |
| Settlement.SettleAll | src/conversion-economics.js:91-114 | One settlement per ranked participant, in order. |
| Settlement.CalculateArenaSettlement | src/conversion-economics.js:77-127 | The pool is 500 × the participant count. The earnings plus the remainder equal the pool exactly, and the remainder lies between 0 and the pool. There is one settlement per participant. Winners and losers are counted by the sign of net. |
| Settlement.NoWinnerKeepsPool | src/conversion-economics.js:87-118 | With nobody at score 3 or more, the treasury keeps the whole pool. |
| Settlement.ArenaSettlementShape | src/conversion-economics.js:84-114 | The settlements are the participants, in descending score order. Each stakes 500 and nets earned minus stake. Anyone below 3 earns 0 and nets -500. |
| Settlement.DistributedWithinPool | src/conversion-economics.js:91-118 | What the winners earn together lies between 0 and the pool. It is 0 when nobody wins. |
| Settlement.EarnedNonNegative | src/conversion-economics.js:117 | Earnings that are each non-negative have a non-negative sum. |
| Settlement.SettledRanks | src/conversion-economics.js:91-114 | Settling keeps each participant's name, score and level, in order. |
| Settlement.SharesWithinPool | src/conversion-economics.js:94 | The rounded-down shares times the winners' score sum never exceed the pool times that sum. |
| Settlement.ShareIsFloor | src/conversion-economics.js:94 | A winner's share is floor(pool × score / winners' score sum). |
| Settlement.NoWinnersNoShares | src/conversion-economics.js:92 | Without winners, nobody earns anything. |
| Settlement.UnconvertedEverywhere | src/conversion-economics.js:87-89 | If no entry scores 3 or more, the winners' score sum is 0. |
| Settlement.LosersIncludeUnconverted | src/conversion-economics.js:124-125 | Every participant below 3 is a loser. Nobody is both a winner and a loser. |
| Settlement.DemoRanking | src/demo.js:131-156 | The demo's four evaluations rank sage, professor, bitcoiner, troll. |
| Settlement.DemoArena | src/demo.js:131-156 | The demo's troll (1), bitcoiner (3), professor (4) and sage (5) share a pool of 2000 as 833, 666, 500 and 0, the sage first and the troll last. The treasury keeps 1. There are 2 winners and 1 loser; the score-3 participant breaks even. |
| Payouts.ProcessConversionReward | src/conversion-economics.js:24-63 | A zero reward makes no payment call. Otherwise there is exactly one call, of the table's reward, to the villain. The record says "rewarded" exactly when that call succeeded. A thrown payment is caught into an error record. |
| Payouts.RewardOnlyForConversion | src/conversion-economics.js:26-36 | Only scores 2 to 5 are ever paid, and never more than 1000. |
| Payouts.ArenaTxFor | src/conversion-economics.js:148-158 | A paid transaction exactly when the payment succeeded, for the settlement's agent. |
| Payouts.ArenaPayouts | src/conversion-economics.js:140-160 | No more calls than transactions, and no more transactions than settlements. |
| Payouts.ExecuteArenaSettlement | src/conversion-economics.js:137-166 | The loop computes exactly the transactions and payment calls that `Payouts.ArenaPayouts` specifies. |
| Payouts.ArenaPayoutsShape | src/conversion-economics.js:140-160 | Exactly the earning settlements get one transaction each, in order. Every payment is positive. The payments never exceed what was earned. |
| Payouts.SumPositiveOfNonNegative | src/conversion-economics.js:141 | When no share is negative, the earning settlements' total is the total earned. |
| Payouts.ArenaPaysEveryShare | src/conversion-economics.js:140-160 | With every wallet present and every payment succeeding, each earning settlement is paid and the treasury pays exactly what was earned. |
| Payouts.ArenaPayoutWithinPool | src/conversion-economics.js:117-118 | Executing a computed settlement pays at most the pool minus the treasury's remainder. |
| Payouts.BonusTxFor | src/conversion-economics.js:235-244 | A paid result exactly when the payment succeeded, for the missionary's agent. |
| Payouts.BonusPayouts | src/conversion-economics.js:228-246 | One result per missionary, and at most one call per missionary. |
| Payouts.PayMissionaryBonuses | src/conversion-economics.js:225-249 | The loop computes exactly the results and payment calls that `Payouts.BonusPayouts` specifies. |
| Payouts.BonusPayoutsShape | src/conversion-economics.js:228-246 | One result per missionary, in order. One call of its bonus exactly for each missionary with a wallet. |
| Payouts.DetectedBonusesCost | src/conversion-economics.js:225-249 | Paying the detected missionaries costs MISSIONARY_BONUS per missionary with a wallet. |
| Payouts.FixedBonuses | src/conversion-economics.js:207 | Equal bonuses add up to the bonus times the number paid. |
| Transfers.Prefix | server.js:198 | At most n characters, a prefix, and the whole string when it is short enough. |
| Transfers.TruncateMemo | src/autonomous-simulation.js:119 | The memo is at most 34 characters and a prefix of the original. It is unchanged when short enough and exactly 34 when longer. |
| Transfers.SendStx | src/autonomous-simulation.js:105-132 | A dry run succeeds with a `dry_run_` id and hands nothing to the network. Otherwise one transfer with the truncated memo is handed over. The result is a success exactly when the network accepts, with its id. It never throws. |
| Client.OrDefault | src/agent-payment-client.js:36-37 | A missing or zero option takes the default; any other value is kept. |
| Client.Guard | src/agent-payment-client.js:76-87 | A price passes exactly when it is within both the per-request limit and the remaining budget. The per-request limit is checked first. A NaN price passes both checks. |
| Client.GuardKeepsBudget | src/agent-payment-client.js:83-87 | A price let through keeps the spending within the budget. |
| Client.ClientReadsGatePrice | src/agent-payment-client.js:70-87 | On a 402 from the gate, the client parses a number, never NaN. It passes the client's guards exactly when the gate's price is within both the per-request limit and the remaining budget. |
| Client.AgentPaymentClient.constructor | src/agent-payment-client.js:29-40 | Defaults are 10000 per request and 1000000 in total, and 'testnet'. Nothing is spent yet. |
| Client.AgentPaymentClient.Fetch | src/agent-payment-client.js:49-118 | A non-402 is returned unchanged, with no payment. A missing requirement or a breached limit throws before paying. A paid request either returns the retry's response or throws the retry's error. Spending and history change exactly when a payment goes through, by exactly the price, plus one matching record, even when the retry then fails. The invariant that `spent` is the history's total is kept. |
| Client.AgentPaymentClient.GetSummary | src/agent-payment-client.js:151-160 | Spent is the history's total and the transaction count is its length. Remaining is limit minus spent, never negative for a non-negative limit. |
| Client.AgentPaymentClient.ResetBudget | src/agent-payment-client.js:165-168 | Spending and history are emptied. The limits are constants and stay as they were. |
| Gate.LiteralPatternMatchesItselfOnly | src/x402-middleware.js:129-132 | A pattern without parameters matches exactly itself. |
| Gate.ParameterMatchesOneSegment | src/x402-middleware.js:129-132 | `prefix:name` matches exactly the prefix followed by one non-empty segment without a slash. |
| Gate.KeyIndex | src/x402-middleware.js:122 | The position of the exact key, if present. |
| Gate.MatchIndex | src/x402-middleware.js:128-135 | The first pattern in insertion order that matches, if any. |
| Gate.Lookup | src/x402-middleware.js:120-138 | Any tariff found is that of an entry whose key is the route key or whose pattern matches it. |
| Gate.RouteKey | src/x402-middleware.js:36 | The route key is the HTTP method, one space, then the path. |
| Gate.LookupFromTable | src/x402-middleware.js:120-138 | Any tariff found is one of the table's. |
| Gate.ExactKeyWins | src/x402-middleware.js:122-124 | An exact key decides the lookup even when its tariff is null (free) and an earlier pattern also matches. |
| Gate.UnlistedRouteIsFree | src/x402-middleware.js:128-137 | A key that is no pattern and matches none gets no tariff. |
| Gate.PaidRoutesFindTheirTariffs | src/x402-middleware.js:120-138 | Chat, arena and evaluate find their own tariffs. |
| Gate.FirstCharacterMatters | src/x402-middleware.js:129-132 | A pattern not starting with ':' only matches keys with the same first character. |
| Gate.GetKeysFindNoTariff | src/x402-middleware.js:120-138 | When all paid patterns start with 'P', a GET key finds no tariff. |
| Gate.GetRoutesAreFree | src/x402-middleware.js:120-138 | Every GET request passes the gate free. |
| Gate.FindPricing | src/x402-middleware.js:120-138 | The loop with early return computes the lookup: exact key first, then the first matching pattern, else nothing. |
| Gate.CalculatePrice | src/x402-middleware.js:143-159 | Routes other than chat and arena pay the base price. |
| Gate.GateChatPriceIsChatPrice | src/x402-middleware.js:147-150 | The gate's chat price for a persona equals the server's per-caliber price, with ×1 for an unknown caliber. |
| Gate.ArenaPrice | src/x402-middleware.js:153-156 | The arena costs 2000 for up to two villains, plus 500 for each one beyond. |
| Gate.PricingIsSound | config/x402-pricing.js:8-35 | Every paid tariff has a positive base and no negative multiplier or per-villain charge. |
| Gate.PriceAtLeastBase | src/x402-middleware.js:143-159 | Under a sound tariff, the dynamic price is never below the base. |
| Gate.VerifyPayment | src/x402-middleware.js:164-183 | A non-OK status becomes an unsuccessful verdict, not an error, with the reason "Facilitator returned <status>: <statusText>". An OK status gives the parsed body. An unreachable facilitator throws its error. |
| Gate.Decide | src/x402-middleware.js:34-113 | No tariff means pass with no payment. No proof means 402 with the computed price and `payTo`. A thrown verification means 503. An unsuccessful verdict means 402 with the verdict's own reason and the same requirements. A verified payment passes with the price, the currency, and the verdict's transaction id and payer. |
| Gate.NoProofNoFacilitator | src/x402-middleware.js:48-66 | Without a proof, the facilitator's answer cannot matter. |
| Gate.VerifiedExactly | src/x402-middleware.js:69-112 | A request passes exactly when the facilitator answers OK with success. A non-OK status is a 402, never a 503. |
| Gate.AdvertisedPriceReadsBack | src/x402-middleware.js:56 | The advertised price string parses back to the price charged. |
| Gate.PaymentGate.constructor | src/x402-middleware.js:23-32 | The payment log starts empty. |
| Gate.PaymentGate.Handle | src/x402-middleware.js:34-113 | The outcome is the decision. Exactly one log entry is added, for a verified payment; otherwise the log is unchanged. Every logged amount is at least its route's base price. |
| Conversation.FaultSticks | src/autonomous-simulation.js:152-205 | Once a model call has thrown, further rounds change nothing. |
| Conversation.OddIndexNoHint | server.js:236 | Syndi is asked at transcript length 1 + 2r, where no channel check is ever due. |
| Conversation.Round | src/autonomous-simulation.js:152-205 | One round extends the transcript by at most two entries, Syndi's first. It completes without error exactly when both entries were added. |
| Conversation.Converse | src/autonomous-simulation.js:139-208 | The conversation starts with the villain's opener and has at most 1 + 2 × rounds entries. It has exactly that many when no call threw. |
| Conversation.ConverseShape | src/autonomous-simulation.js:139-208 | The opener comes first, then Syndi and the villain alternate: Syndi at every odd position, the villain at every even one. |
| Conversation.PlayRound | server.js:228-267 | One round records Syndi's reply with the tracker and yields the specified round, the tracker's check being empty. |
| Conversation.RunConversation | src/autonomous-simulation.js:139-208 | The loop produces the specified conversation, and its fault if a call threw. |
| Server.Preflight | server.js:109-121 | Every rejection, status and message, is fixed, in the endpoints' order: 400 for a missing name, 404 for an unknown villain, 429 when busy. Then come the 500s: the OpenAI key, then the mnemonic, then the registry (worded differently by the two endpoints), then the wallets. It succeeds exactly when every check passes, with the villain's and the treasury's wallets. |
| Server.DebateCosts | server.js:175-177 | A debate costs 300, 1500 or 3000: the caliber price times 3 rounds. |
| Server.MessageEvents | server.js:224-267 | One message event per entry: round 0 for the opener, then (k+1)/2. |
| Server.CompleteSession | server.js:181-332 | A debate with no thrown error emits the 17 events in the fixed order, whether or not either payment went through. |
| Server.CompleteSummary | server.js:315-330 | The `complete` event counts 7 messages. `paid` is price × 3, and `net` is reward minus paid. The reward is the table's for the score. |
| Server.InterruptedSession | server.js:333-338 | A thrown model call ends the stream with a single `error` event, with no `complete` and no `done`. |
| Server.SessionEvents | server.js:179-338 | A session's stream starts with `phase:init`, `phase:payment`, the payment outcome and `phase:debate`. It ends with `done` exactly when no model call threw, and with an `error` event otherwise. |
| Server.RewardPhase | server.js:282-313 | A positive reward emits `sending`, then `confirmed` exactly when the network accepted. Otherwise it emits "none" twice. An out-of-table score counts as 0. |
| Server.DebateServer.constructor | server.js:47 | No debate is in progress at start. |
| Server.DebateServer.Check | server.js:109-121 | The check succeeds exactly when the pre-flight does, with the villain's name and caliber; otherwise it gives the same rejection. |
| Server.DebateServer.Open | server.js:125-166 | The flag is set only after every check has passed. A rejected request leaves it unchanged. |
| Server.DebateServer.ClientClosed | server.js:169-172 | The close handler releases the flag. |
| Server.DebateServer.Debate | server.js:125-339 | A rejected request emits nothing, moves no money and keeps the flag. An accepted one emits the session's events and ends with the flag released. |
| Server.PayForDebate | server.js:174-217 | The opening events are emitted, and one transfer of price × 3 goes to the treasury, whether or not it succeeds. |
| Server.SendReward | server.js:282-313 | A transfer is made exactly when the reward is positive, of that reward, to the villain. The phase events match the outcome. |
| Server.Settle | server.js:270-332 | Evaluates the conversation, then emits the closing events and the reward transfer when there is one. |
| Server.Close | server.js:274-332 | The closing events for an evaluation: the evaluation, the reward phase, `complete` and `done`. |
| Server.RunSession | server.js:179-338 | The handler emits exactly the session's events. The payment transfer is always made; a second transfer, a positive reward to the villain, follows at most. |
| Simulation.ChatEntry | src/autonomous-simulation.js:321-351 | Each villain's chat-payment entry charges price × rounds to the treasury, whatever became of the transfer. |
| Simulation.RewardEntries | src/autonomous-simulation.js:369-397 | A reward entry exists exactly when the looked-up reward is positive, with that amount and the score. |
| Simulation.VillainLoop | src/autonomous-simulation.js:314-403 | A loop that runs to the end has one transcript and one evaluation per villain. The evaluations are filed under the villains' names, in selection order. |
| Simulation.Simulate | src/autonomous-simulation.js:307-448 | The run fails exactly when the villain loop fails. Otherwise there is one evaluation per villain, in order, and no more missionaries than villains. The loop's ledger is a prefix of the final ledger. |
| Simulation.VisitVillain | src/autonomous-simulation.js:314-403 | An iteration aborts the run exactly when a wallet is missing or a model call throws. |
| Simulation.VisitBalanced | src/autonomous-simulation.js:316-397 | One villain's entries hold one payment of its charge and rewards equal to what its evaluation earns. |
| Simulation.LoopTotals | src/autonomous-simulation.js:310-403 | The loop's ledger charges every villain, failed payments included. Its rewards equal what the evaluations earn. There is one evaluation per villain, in order. |
| Simulation.AbortsExactly | src/autonomous-simulation.js:314-403 | The run fails exactly when some villain's iteration throws. |
| Simulation.BonusTotals | src/autonomous-simulation.js:422-437 | Each missionary with a wallet gets one bonus entry of 300; the others get none. |
| Simulation.Summarize | src/autonomous-simulation.js:474-482 | Inflow, rewards and bonuses are the ledger's totals by kind. Outflow is rewards plus bonuses, and net revenue is inflow less outflow. The three entry counts add up to the ledger's length. |
| Simulation.Profit | src/autonomous-simulation.js:498-502 | A villain's profit lies between -1000 × rounds and 1000 - 100 × rounds. |
| Simulation.ProfitIsRewardLessPayment | src/autonomous-simulation.js:498-502 | A villain's profit is its reward minus price × rounds, at least -1000 × rounds. |
| Simulation.ProfitsAddUp | src/autonomous-simulation.js:498-502 | The profits add up to the total earned minus the total charged. |
| Simulation.RunSummary | src/autonomous-simulation.js:474-482 | Inflow is everything charged, failed payments included. Rewards are what the evaluations earn, and bonuses are 300 per missionary with a wallet. The net revenue is the villains' total loss less the bonuses. |
| Simulation.PayForChat | src/autonomous-simulation.js:321-351 | The entry is the chat entry. Outside dry-run mode, one transfer of its amount is made, to the treasury's wallet address. |
| Simulation.PayReward | src/autonomous-simulation.js:369-397 | The reward entries, with one matching transfer each outside dry-run mode: the reward amount, to the villain's wallet address. |
| Simulation.VisitOne | src/autonomous-simulation.js:314-403 | One iteration computes the specified visit, with transfers matching its entries. |
| Simulation.RunVillains | src/autonomous-simulation.js:314-403 | The villain loop computes the specified ledger, transcripts and evaluations, and stops at the first thrown error. |
| Simulation.CombineTranscripts | src/autonomous-simulation.js:409-412 | The combined transcript is every transcript in turn. |
| Simulation.PayBonuses | src/autonomous-simulation.js:415-444 | The bonus loop makes an entry, and a transfer of the bonus to the missionary's wallet address, for each missionary with a wallet. |
| Simulation.AfterLoop | src/autonomous-simulation.js:405-444 | The bonus entries extend the loop's ledger. |
| Simulation.RunSimulation | src/autonomous-simulation.js:307-448 | The run computes the specified outcome. A dry run hands nothing to the network. Otherwise one transfer per ledger entry is made, with its amount, to the wallet of the entry's payee (the treasury for chat payments, the villain or missionary for rewards and bonuses). |

## Left out

- Floating point: `Math.floor(totalPool * (score / totalWinnerScore))` (src/conversion-economics.js:94) is modelled as the exact integer floor(pool × score / sum). Double rounding can differ from it by one when the exact quotient lies within rounding error of an integer.
- Decimal.ParseInt: leading whitespace, a `0x` prefix, and digits beyond 2^53 are not modelled.
- Client.AgentPaymentClient.Fetch: the body of `makePayment` (building, signing and broadcasting, with the `x402:` memo) is the `PayOutcome` oracle. A non-JSON 402 body, which would make `response.json()` throw, is not modelled. Nor are the request options and headers.
- Gate.Decide: the route key uses the request path, not Express's `req.route.path`. Only the `:name` metacharacter of route patterns is modelled; other regular-expression characters in a pattern count as literals, which holds for the table's patterns. A lookup of a JavaScript prototype key such as `constructor` is not modelled.
- Concurrency: the session's awaits are sequential steps. The `close` handler is a separate step (`DebateServer.ClientClosed`) and does not interleave with a running session. A client disconnect does not stop the handler in the source either. The `close` handler clears `debateInProgress` as soon as the client goes away (server.js:169-172), so a second debate can start while the first handler is still running. The model does not interleave the two.
- Conversation.Round: the prompts (system prompt, persona, role mapping) are not modelled, and neither is `trim()`. The oracles receive the transcript and return the trimmed reply. The channel check passed to Syndi is proved to be always empty, so the specification function passes "".
- Channels.DetectChannel, Metrics.ComputeMetrics and MissionaryDetection.MissionaryOf: every regular expression is an uninterpreted predicate (or, for the global conversion pattern, the list of its matches). Only the priority and first-match structure is kept.
- Server.RunSession: key derivation (`generateWallet`, `getAgentPrivateKey`) is an external collaborator assumed to succeed. The source only checks that the mnemonic is non-empty, so an invalid mnemonic would throw after `phase:payment`, and the stream would then be init, payment-sending, error. The model, `Server.CompleteSession` included, does not capture that stream. Headers, `res.end()` and event payload serialisation are not modelled, and neither are the explorer URL's query parameters beyond the testnet chain.
- Simulation.RunSimulation: key derivation (`generateWallet`) is assumed to succeed. With an invalid mnemonic the source aborts before the first chat payment, in a case that `Simulation.VisitVillain` and `Simulation.AbortsExactly` do not list.
- Simulation.RunSimulation: villain selection (`Math.random`, `--villains`, `--villain`) is not modelled; the run takes the selected villains as a list with distinct names. The missing-prerequisite exits, balance checks, sleeps and the printed ledger table are not modelled. A missing wallet is modelled as the run's failure with the TypeError message it throws.
- Simulation.Profit: the per-villain summary reads `CHAT_PRICE[caliber]` with no fallback. The model requires a caliber that the table lists, which every villain has (`Opponents.OpponentsTiered`).
- Payouts.ExecuteArenaSettlement: returns the transactions and payment calls. The settlement it spreads into its result is its unchanged input.
- MissionaryDetection.Preview, Transfers.Prefix and Transfers.TruncateMemo: a string here is a sequence of Unicode characters. JavaScript's `slice(0, n)` counts UTF-16 code units (src/conversion-economics.js:206, src/autonomous-simulation.js:119, server.js:198). A text with a character outside the Basic Multilingual Plane, such as an emoji, before the cut is cut later in the model than in the source. The source can also split a surrogate pair, which the model cannot.
- Evaluation.EvaluateConversion and Pricing.RewardFor: the evaluator's `JSON.parse` result (syndi-core/syndi-core.js:360) is modelled with the score as an optional integer. Three cases of the source are therefore not modelled. A string score such as "3" still indexes the reward table and earns a reward (src/autonomous-simulation.js:370, server.js:282). A fractional score falls back to the score-0 tier. A `null` score and a missing one print differently in the no-reward reason (server.js:311). "Positive exactly for scores 2 to 5" holds over integer and missing scores only.
- Timestamps: the log and history timestamps and the `Date.now()` ids are not modelled; a dry-run id is built from a clock-reading parameter.
- The persona prompts, RAG search, streaming, prompt assembly, wallet creation, funding and balances, and the browser UI are not part of this model.

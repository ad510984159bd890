/** The constant tables of the payment configuration: endpoint prices, the
    score-to-reward table, the arena stake and the missionary bonus (all amounts
    in microSTX), and the per-caliber chat price the debate server charges. */
module Pricing {
  import opened Wrappers

  /** One paid endpoint's tariff. `caliberMultiplier` and `perVillain` are
      optional fields; a field that is absent is `None`. */
  datatype Pricing = Pricing(
    base: int,
    currency: string,
    caliberMultiplier: Option<map<string, int>>,
    perVillain: Option<int>)

  /** One entry of the pricing object, in insertion order. A `None` tariff is the
      JavaScript `null` that marks a free endpoint. */
  datatype Route = Route(pattern: string, tariff: Option<Pricing>)

  const CHAT_TARIFF: Pricing :=
    Pricing(100, "STX", Some(map["low" := 1, "medium" := 5, "high" := 10]), None)
  const ARENA_TARIFF: Pricing := Pricing(2000, "STX", None, Some(500))
  const EVALUATE_TARIFF: Pricing := Pricing(200, "STX", None, None)

  const PRICING: seq<Route> := [
    Route("GET /api/opponents", None),
    Route("GET /api/conversations", None),
    Route("GET /api/conversations/:id", None),
    Route("POST /api/chat", Some(CHAT_TARIFF)),
    Route("POST /api/arena", Some(ARENA_TARIFF)),
    Route("POST /api/evaluate", Some(EVALUATE_TARIFF))
  ]

  /** A reward tier: the amount paid for a conversion score and its label. */
  datatype RewardTier = RewardTier(reward: nat, levelLabel: string)

  const CONVERSION_REWARDS: map<int, RewardTier> := map[
    0 := RewardTier(0, "No engagement"),
    1 := RewardTier(0, "Acknowledged"),
    2 := RewardTier(50, "Interested"),
    3 := RewardTier(200, "Soft conversion"),
    4 := RewardTier(500, "Strong conversion"),
    5 := RewardTier(1000, "Full conversion")
  ]

  const ARENA_STAKE: nat := 500
  const MISSIONARY_BONUS: nat := 300

  /** The chat price per round by caliber (`CHAT_PRICE`), 100 for an unknown caliber. */
  const CHAT_PRICE: map<string, nat> := map["low" := 100, "medium" := 500, "high" := 1000]

  /** `CONVERSION_REWARDS[score] || CONVERSION_REWARDS[0]`: a score outside the
      table, or no score at all, falls back to the score-0 tier. */
  function RewardFor(score: Option<int>): (t: RewardTier)
    ensures t.reward > 0 <==> score.Some? && 2 <= score.value <= 5
    ensures t.reward <= 1000
  {
    if score.Some? && score.value in CONVERSION_REWARDS then CONVERSION_REWARDS[score.value]
    else CONVERSION_REWARDS[0]
  }

  /** `CHAT_PRICE[caliber] || 100`. */
  function ChatPrice(caliber: string): (price: nat)
    ensures price in {100, 500, 1000}
    ensures price > 100 <==> caliber == "medium" || caliber == "high"
  {
    if caliber in CHAT_PRICE then CHAT_PRICE[caliber] else 100
  }

  /** The reward table is defined exactly for the scores 0 to 5. */
  lemma RewardTableDomain()
    ensures forall s :: s in CONVERSION_REWARDS <==> 0 <= s <= 5
  {
  }

  /** A higher score never earns less. */
  lemma RewardMonotone(a: int, b: int)
    requires 0 <= a <= b <= 5
    ensures RewardFor(Some(a)).reward <= RewardFor(Some(b)).reward
  {
  }

  /** Every score outside 0..5 (the evaluator's error sentinel -1 among them), and
      a missing score, pays what score 0 pays: nothing. */
  lemma OutOfTableFallsBack(score: Option<int>)
    requires score.None? || score.value < 0 || score.value > 5
    ensures RewardFor(score) == RewardFor(Some(0))
    ensures RewardFor(score).reward == 0
  {
  }

  /** The per-caliber chat price equals the chat tariff's base times its
      caliber multiplier: 100, 500 and 1000. */
  lemma ChatPriceIsTariff(caliber: string)
    requires caliber in {"low", "medium", "high"}
    ensures CHAT_TARIFF.caliberMultiplier.Some?
    ensures caliber in CHAT_TARIFF.caliberMultiplier.value
    ensures ChatPrice(caliber) == CHAT_TARIFF.base * CHAT_TARIFF.caliberMultiplier.value[caliber]
  {
  }

  /** Free endpoints are present with a null tariff; every pattern is listed once. */
  lemma PricingTableShape()
    ensures forall i, j :: 0 <= i < j < |PRICING| ==> PRICING[i].pattern != PRICING[j].pattern
    ensures forall i :: 0 <= i < 3 ==> PRICING[i].tariff.None?
    ensures forall i :: 3 <= i < |PRICING| ==> PRICING[i].tariff.Some?
  {
  }
}

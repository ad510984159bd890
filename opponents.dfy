/** The sixteen villain agents Syndi debates, reduced to what the settlement
    and session logic uses of them: name, model, caliber and opening line.
    Their persona prompts are not part of this model. */
module Opponents {
  import opened Wrappers
  import opened Pricing

  datatype Opponent = Opponent(name: string, model: string, caliber: string, opener: string)

  /** `OPPONENTS`, in declaration order. */
  const OPPONENTS: seq<Opponent> := [
    Opponent("The Troll", "gpt-4o-mini", "low",
      "lmao another token? what's the scam this time"),
    Opponent("The AI-cels", "gpt-4o-mini", "low",
      "Another AI agent? The apocalypse wasn't caused by nukes — it was caused by things like you."),
    Opponent("The Penguin", "gpt-4o-mini", "low",
      "The S&P is down 12% YTD, CPI is 4.2%, and you want me to look at another token?"),
    Opponent("The Drug Lord", "gpt-4o-mini", "low",
      "YO I just made 40x on a dog coin and now I'm looking for GOD. What you got?"),
    Opponent("The Extrovert", "gpt-4o-mini", "low",
      "OMG this is AMAZING!! Tell me EVERYTHING about this!! I love it already!!"),
    Opponent("The Know It All", "gpt-4o", "medium",
      "I've studied tokenomics extensively. Convince me you've done your homework."),
    Opponent("The False Profit", "gpt-4o", "medium",
      "I've seen this pattern before — Strauss-Howe says we're in the Unraveling. Your token won't survive the Crisis."),
    Opponent("The Bitcoiner", "gpt-4o", "medium",
      "Bitcoin fixes this. Why do I need your token?"),
    Opponent("The Thankless", "gpt-4o", "medium",
      "Sure, another token that'll change my life. What about the people who've already been burned?"),
    Opponent("The Nostradamus", "gpt-4o", "medium",
      "I can see where this is going — in 6 months your token will be worthless. I've seen the pattern."),
    Opponent("What Are They Doing Here?", "gpt-4o", "medium",
      "Before you pitch me — why do people want things? What desire are you actually selling to?"),
    Opponent("So You Think YOU'VE Got It Bad", "gpt-4o", "medium",
      "Easy to pitch tokens when you're not worried about rent. How does this help real people?"),
    Opponent("The Ascot-Wearer", "gpt-4.1", "high",
      "Syncretism is the graveyard of authentic traditions. Defend your merger."),
    Opponent("The Scientist", "gpt-4.1", "high",
      "What's your falsifiable claim? Give me one testable hypothesis."),
    Opponent("The Professor", "gpt-4.1", "high",
      "Investing in people rather than companies. How do you solve the moral hazard problem?"),
    Opponent("The Sage On The Stage", "gpt-4.1", "high",
      "I've watched a thousand projects die. Convince me yours deserves oxygen.")
  ]

  /** The position of the first opponent called `name` (|opponents| if none). */
  function FirstNamed(opponents: seq<Opponent>, name: string): (i: nat)
    ensures i <= |opponents|
    ensures forall k :: 0 <= k < i ==> opponents[k].name != name
    ensures i < |opponents| ==> opponents[i].name == name
  {
    if opponents == [] then 0
    else if opponents[0].name == name then 0
    else 1 + FirstNamed(opponents[1..], name)
  }

  /** `opponents.find((o) => o.name === name)`: the first opponent with that
      name, or nothing when no opponent has it. */
  function Find(opponents: seq<Opponent>, name: string): (r: Option<Opponent>)
    ensures r.None? <==> forall k :: 0 <= k < |opponents| ==> opponents[k].name != name
    ensures r.Some? ==> r.value.name == name && r.value == opponents[FirstNamed(opponents, name)]
  {
    var i := FirstNamed(opponents, name);
    if i < |opponents| then Some(opponents[i]) else None
  }

  /** The caliber tiers and the model each tier runs on. */
  predicate WellTiered(o: Opponent) {
    (o.caliber == "low" && o.model == "gpt-4o-mini")
    || (o.caliber == "medium" && o.model == "gpt-4o")
    || (o.caliber == "high" && o.model == "gpt-4.1")
  }

  /** Every opponent has one of the three calibers, which fixes its model, and so
      a chat price from the caliber table rather than the fallback. */
  lemma OpponentsTiered()
    ensures |OPPONENTS| == 16
    ensures forall k :: 0 <= k < |OPPONENTS| ==> WellTiered(OPPONENTS[k])
    ensures forall k :: 0 <= k < |OPPONENTS| ==> OPPONENTS[k].caliber in CHAT_PRICE
  {
    forall k | 0 <= k < |OPPONENTS| ensures WellTiered(OPPONENTS[k]) {
      if k < 5 {
        assert OPPONENTS[k].caliber == "low" && OPPONENTS[k].model == "gpt-4o-mini";
      } else if k < 12 {
        assert OPPONENTS[k].caliber == "medium" && OPPONENTS[k].model == "gpt-4o";
      } else {
        assert OPPONENTS[k].caliber == "high" && OPPONENTS[k].model == "gpt-4.1";
      }
    }
  }
}

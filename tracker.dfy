/** Syndi's channel-diversity tracker: every Syndi message is classified into one
    of three persuasion channels, the tracker keeps a count per channel and the
    last five channels used, and every tenth message it produces a hint that
    pushes Syndi towards a neglected channel. The classifying regular
    expressions are predicates on the message text. */
module Channels {

  datatype Channel = Comedy | Logic | Scripture

  /** The key of a channel in `channelCounts`. */
  function Key(c: Channel): string {
    match c
    case Comedy => "comedy"
    case Logic => "logic"
    case Scripture => "scripture"
  }

  /** The position of a channel's key in `channelCounts` and `channelNames`:
      comedy, logic, scripture. */
  function KeyOrder(c: Channel): nat {
    match c
    case Comedy => 0
    case Logic => 1
    case Scripture => 2
  }

  /** How a hint names a channel. */
  function Description(c: Channel): string {
    match c
    case Comedy => "HUMOR (jokes, wit, absurdity, kayfabe)"
    case Logic => "LOGIC (data, mechanics, FAB, concrete details)"
    case Scripture => "SCRIPTURE/ART (parables, Tao Te Ching, Jesus quotes, beauty)"
  }

  /** The three classifying patterns of `detectChannel`. */
  datatype ChannelPatterns = ChannelPatterns(humor: string -> bool, scripture: string -> bool, logic: string -> bool)

  /** `detectChannel(message)`: humour wins over scripture, scripture over logic,
      and a message matching none of them counts as logic. */
  function DetectChannel(message: string, p: ChannelPatterns): (c: Channel)
    ensures c == Comedy <==> p.humor(message)
    ensures c == Scripture <==> !p.humor(message) && p.scripture(message)
    ensures c == Logic <==> !p.humor(message) && !p.scripture(message)
  {
    if p.humor(message) then Comedy
    else if p.scripture(message) then Scripture
    else if p.logic(message) then Logic
    else Logic
  }

  /** The logic pattern never changes the classification: logic is also the default. */
  lemma LogicPatternIsRedundant(message: string, p: ChannelPatterns, logic: string -> bool)
    ensures DetectChannel(message, p) == DetectChannel(message, ChannelPatterns(p.humor, p.scripture, logic))
  {
  }

  /** `channelCounts`: one counter per channel. */
  datatype Counts = Counts(comedy: nat, logic: nat, scripture: nat) {
    function Get(c: Channel): nat {
      match c
      case Comedy => comedy
      case Logic => logic
      case Scripture => scripture
    }

    /** `channelCounts[channel] = (channelCounts[channel] || 0) + 1`. */
    function Inc(c: Channel): (r: Counts)
      ensures r.Get(c) == Get(c) + 1
      ensures forall d :: d != c ==> r.Get(d) == Get(d)
      ensures r.Total() == Total() + 1
    {
      match c
      case Comedy => this.(comedy := comedy + 1)
      case Logic => this.(logic := logic + 1)
      case Scripture => this.(scripture := scripture + 1)
    }

    function Total(): nat {
      comedy + logic + scripture
    }
  }

  /** How many of the last channels the tracker keeps. */
  const WINDOW: nat := 5

  /** The last min(5, n) channels, in order. */
  function Window(cs: seq<Channel>): (w: seq<Channel>)
    ensures |w| == if |cs| < WINDOW then |cs| else WINDOW
    ensures w == cs[|cs| - |w|..]
  {
    if |cs| <= WINDOW then cs else cs[|cs| - WINDOW..]
  }

  /** `lastChannels.push(channel)`, then `shift()` once past WINDOW entries. */
  function Slide(last: seq<Channel>, c: Channel): seq<Channel> {
    var w := last + [c];
    if |w| > WINDOW then w[|w| - WINDOW..] else w
  }

  /** Keeping only the window and then sliding it loses nothing: the window of
      the whole history is what the tracker keeps. */
  lemma WindowSlides(cs: seq<Channel>, c: Channel)
    ensures Slide(Window(cs), c) == Window(cs + [c])
  {
    var w := Window(cs) + [c];
    var whole := cs + [c];
    if |w| > WINDOW {
      assert w[|w| - WINDOW..] == whole[|whole| - WINDOW..];
    } else {
      assert w == whole[|whole| - |w|..];
    }
  }

  function Occurrences(cs: seq<Channel>, c: Channel): nat {
    if cs == [] then 0 else Occurrences(cs[..|cs| - 1], c) + (if cs[|cs| - 1] == c then 1 else 0)
  }

  /** The counters a history of channels produces. */
  function Tally(cs: seq<Channel>): Counts {
    Counts(Occurrences(cs, Comedy), Occurrences(cs, Logic), Occurrences(cs, Scripture))
  }

  lemma TallyAppend(cs: seq<Channel>, c: Channel)
    ensures Tally(cs + [c]) == Tally(cs).Inc(c)
  {
    assert (cs + [c])[..|cs|] == cs;
  }

  /** The counters always add up to the number of recorded messages. */
  lemma {:induction false} TallyTotal(cs: seq<Channel>)
    ensures Tally(cs).Total() == |cs|
  {
    if cs != [] {
      var init := cs[..|cs| - 1];
      TallyTotal(init);
      assert cs == init + [cs[|cs| - 1]];
      TallyAppend(init, cs[|cs| - 1]);
    }
  }

  /** The channel `Object.entries(channelCounts).sort((a, b) => a[1] - b[1])`
      puts first: a least-used one, and among equally used ones the earliest
      key (the sort is stable). */
  function LeastUsed(counts: Counts): (c: Channel)
    ensures forall d :: counts.Get(c) <= counts.Get(d)
    ensures forall d :: counts.Get(d) == counts.Get(c) ==> KeyOrder(c) <= KeyOrder(d)
  {
    if counts.comedy <= counts.logic && counts.comedy <= counts.scripture then Comedy
    else if counts.logic <= counts.scripture then Logic
    else Scripture
  }

  /** `Object.keys(channelNames).filter((k) => k !== stuck)`: the two other
      channels in key order. */
  function Alternatives(stuck: Channel): (alts: (Channel, Channel))
    ensures alts.0 != stuck && alts.1 != stuck
    ensures KeyOrder(alts.0) < KeyOrder(alts.1)
  {
    match stuck
    case Comedy => (Logic, Scripture)
    case Logic => (Comedy, Scripture)
    case Scripture => (Comedy, Logic)
  }

  /** What `getChannelCheck` says: nothing, "switch away from the channel you are
      stuck on", or "use your least-used channel". */
  datatype Hint = NoHint | Stuck(stuck: Channel, first: Channel, second: Channel) | Neglected(channel: Channel)

  /** A hint is due on every tenth message index, 0 excluded. */
  predicate HintDue(msgIndex: int) {
    msgIndex > 0 && msgIndex % 10 == 0
  }

  /** The last three channels are one and the same. */
  predicate StuckOn(last: seq<Channel>) {
    |last| >= 3 && last[|last| - 1] == last[|last| - 2] == last[|last| - 3]
  }

  /** The hint for message index `msgIndex`, given the counters and the last channels. */
  function HintFor(msgIndex: int, counts: Counts, last: seq<Channel>): (h: Hint)
    ensures h.NoHint? <==> !HintDue(msgIndex)
    ensures h.Stuck? <==> HintDue(msgIndex) && StuckOn(last)
    ensures h.Stuck? ==>
      h.stuck == last[|last| - 1] && h.first != h.stuck && h.second != h.stuck && KeyOrder(h.first) < KeyOrder(h.second)
    ensures h.Neglected? ==> h.channel == LeastUsed(counts)
  {
    if !HintDue(msgIndex) then NoHint
    else if StuckOn(last) then
      var alts := Alternatives(last[|last| - 1]);
      Stuck(last[|last| - 1], alts.0, alts.1)
    else Neglected(LeastUsed(counts))
  }

  /** The text of a hint; no hint is the empty string. */
  function HintText(h: Hint): (text: string)
    ensures text == "" <==> h.NoHint?
  {
    match h
    case NoHint => ""
    case Stuck(stuck, first, second) =>
      "[CHANNEL CHECK] You've been stuck on " + Key(stuck) + " for the last 3+ messages. SWITCH NOW to "
        + Description(first) + " or " + Description(second) + "."
    case Neglected(channel) =>
      "[CHANNEL CHECK] Your least-used channel is " + Description(channel) + ". Use it in your next response."
  }

  /** What `getMetrics` returns: a copy of the counters and of the last channels. */
  datatype Metrics = Metrics(counts: Counts, lastChannels: seq<Channel>)

  class ChannelTracker {
    var channelCounts: Counts
    var lastChannels: seq<Channel>
    /** Every channel recorded so far, oldest first. */
    ghost var recorded: seq<Channel>

    ghost predicate Valid()
      reads this
    {
      channelCounts == Tally(recorded) && lastChannels == Window(recorded)
    }

    constructor()
      ensures Valid() && recorded == []
      ensures channelCounts == Counts(0, 0, 0) && lastChannels == []
    {
      channelCounts := Counts(0, 0, 0);
      lastChannels := [];
      recorded := [];
    }

    /** `record(message)`: classifies the message, adds one to its channel's
        counter and appends the channel to the last channels, trimmed to five. */
    method Record(message: string, p: ChannelPatterns)
      requires Valid()
      modifies this
      ensures Valid()
      ensures recorded == old(recorded) + [DetectChannel(message, p)]
      ensures channelCounts == old(channelCounts).Inc(DetectChannel(message, p))
      ensures lastChannels == Window(old(recorded) + [DetectChannel(message, p)])
    {
      var channel := DetectChannel(message, p);
      WindowSlides(recorded, channel);
      TallyAppend(recorded, channel);
      channelCounts := channelCounts.Inc(channel);
      lastChannels := Slide(lastChannels, channel);
      recorded := recorded + [channel];
    }

    /** `getChannelCheck(msgIndex)`. */
    function GetChannelCheck(msgIndex: int): (text: string)
      reads this
      ensures text == "" <==> !HintDue(msgIndex)
    {
      HintText(HintFor(msgIndex, channelCounts, lastChannels))
    }

    /** `getMetrics()`: the counters, which add up to the number of recorded
        messages, and at most the last five channels. */
    function GetMetrics(): (m: Metrics)
      reads this
      requires Valid()
      ensures m.counts.Total() == |recorded|
      ensures m.lastChannels == Window(recorded) && |m.lastChannels| <= WINDOW
    {
      TallyTotal(recorded);
      Metrics(channelCounts, lastChannels)
    }
  }
}

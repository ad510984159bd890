/** `runConversation` and the debate loop of the live session: the villain opens,
    then each round Syndi answers (with a channel check appended to her prompt
    when one is due) and the villain answers back. The two chat completions are
    oracles: Syndi's reply depends on the transcript and the channel check text,
    the villain's on the transcript. A reply is the trimmed completion text, or
    the message of the error the request threw. */
module Conversation {
  import opened Wrappers
  import opened Evaluation
  import opened Channels
  import opened Metrics
  import opened Opponents

  datatype Reply = Said(text: string) | Threw(message: string)

  /** What a conversation leaves behind: the transcript and the error that cut
      it short, if any. */
  datatype Dialogue = Dialogue(transcript: seq<Message>, fault: Option<string>)

  /** One round after `d`: Syndi is asked with no channel check, the villain is
      asked; the first error thrown stops the round there. The channel check is
      left empty here because `RunConversation` proves that the tracker never
      produces one at the transcript lengths Syndi is asked at. */
  function Round(villain: Opponent, d: Dialogue, syndi: (seq<Message>, string) -> Reply,
                 opponent: seq<Message> -> Reply): (r: Dialogue)
    ensures |d.transcript| <= |r.transcript| <= |d.transcript| + 2 && r.transcript[..|d.transcript|] == d.transcript
    ensures r.fault.None? <==> |r.transcript| == |d.transcript| + 2
    ensures |r.transcript| > |d.transcript| ==> r.transcript[|d.transcript|].speaker == SYNDI
    ensures |r.transcript| == |d.transcript| + 2 ==> r.transcript[|d.transcript| + 1].speaker == villain.name
  {
    match syndi(d.transcript, "")
    case Threw(m) => Dialogue(d.transcript, Some(m))
    case Said(s) =>
      var t := d.transcript + [Message(SYNDI, s)];
      match opponent(t)
      case Threw(m) => Dialogue(t, Some(m))
      case Said(v) => Dialogue(t + [Message(villain.name, v)], None)
  }

  /** The conversation after `rounds` rounds; an error stops it where it happened. */
  function Converse(villain: Opponent, rounds: nat, syndi: (seq<Message>, string) -> Reply,
                    opponent: seq<Message> -> Reply): (d: Dialogue)
    ensures 1 <= |d.transcript| <= 1 + 2 * rounds && d.transcript[0] == Message(villain.name, villain.opener)
    ensures d.fault.None? ==> |d.transcript| == 1 + 2 * rounds
  {
    if rounds == 0 then Dialogue([Message(villain.name, villain.opener)], None)
    else
      var d := Converse(villain, rounds - 1, syndi, opponent);
      if d.fault.Some? then d else Round(villain, d, syndi, opponent)
  }

  /** Once an error has stopped the conversation, further rounds change nothing. */
  lemma {:induction false} FaultSticks(villain: Opponent, n: nat, m: nat, syndi: (seq<Message>, string) -> Reply,
                                       opponent: seq<Message> -> Reply)
    requires n <= m && Converse(villain, n, syndi, opponent).fault.Some?
    ensures Converse(villain, m, syndi, opponent) == Converse(villain, n, syndi, opponent)
  {
    if n < m {
      FaultSticks(villain, n, m - 1, syndi, opponent);
    }
  }

  /** An odd message index never has a channel check due. */
  lemma OddIndexNoHint(r: nat)
    ensures !HintDue(1 + 2 * r)
  {
    var q := (1 + 2 * r) / 10;
    assert 1 + 2 * r == 10 * q + (1 + 2 * r) % 10;
  }

  /** Who speaks where: the opener first, then Syndi at every odd position and the
      villain at every even one. */
  predicate Alternates(t: seq<Message>, villain: Opponent) {
    |t| >= 1 && t[0] == Message(villain.name, villain.opener)
    && forall k :: 1 <= k < |t| ==> t[k].speaker == (if k % 2 == 1 then SYNDI else villain.name)
  }

  /** The shape of a conversation: the opener, then alternating Syndi and villain
      entries, 1 + 2 × rounds of them unless an error stopped it. */
  lemma {:induction false} ConverseShape(villain: Opponent, rounds: nat, syndi: (seq<Message>, string) -> Reply,
                                         opponent: seq<Message> -> Reply)
    ensures Alternates(Converse(villain, rounds, syndi, opponent).transcript, villain)
  {
    if rounds > 0 {
      var d := Converse(villain, rounds - 1, syndi, opponent);
      ConverseShape(villain, rounds - 1, syndi, opponent);
      if d.fault.None? {
        assert Converse(villain, rounds, syndi, opponent) == Round(villain, d, syndi, opponent);
        AlternatesStep(d.transcript, Round(villain, d, syndi, opponent).transcript, villain);
      }
    }
  }

  /** Extending an alternating transcript of odd length by Syndi's entry and then
      the villain's keeps it alternating. */
  lemma AlternatesStep(s: seq<Message>, t: seq<Message>, villain: Opponent)
    requires Alternates(s, villain) && |s| % 2 == 1
    requires |s| <= |t| <= |s| + 2 && t[..|s|] == s
    requires |t| > |s| ==> t[|s|].speaker == SYNDI
    requires |t| == |s| + 2 ==> t[|s| + 1].speaker == villain.name
    ensures Alternates(t, villain)
  {
    assert t[0] == t[..|s|][0];
    forall k | 1 <= k < |t|
      ensures t[k].speaker == (if k % 2 == 1 then SYNDI else villain.name)
    {
      if k < |s| {
        assert t[k] == t[..|s|][k];
      }
    }
  }

  /** One round of the loop: Syndi is asked with the tracker's channel check for
      the transcript's length, her reply recorded by the tracker, then the villain
      is asked; an error thrown by either request ends the round there. Before
      any round the length is odd and the check empty, so this is the round `Round` describes. */
  method PlayRound(tracker: ChannelTracker, villain: Opponent, round: nat, transcript: seq<Message>,
                   syndi: (seq<Message>, string) -> Reply, opponent: seq<Message> -> Reply, p: ChannelPatterns)
    returns (d: Dialogue)
    requires tracker.Valid() && |transcript| == 1 + 2 * round
    modifies tracker
    ensures tracker.Valid()
    ensures d == Round(villain, Dialogue(transcript, None), syndi, opponent)
  {
    var check := tracker.GetChannelCheck(|transcript|);
    OddIndexNoHint(round);
    var reply := syndi(transcript, check);
    if reply.Threw? {
      return Dialogue(transcript, Some(reply.message));
    }
    var t := transcript + [Message(SYNDI, reply.text)];
    tracker.Record(reply.text, p);
    var answer := opponent(t);
    if answer.Threw? {
      return Dialogue(t, Some(answer.message));
    }
    d := Dialogue(t + [Message(villain.name, answer.text)], None);
  }

  /** `runConversation(openai, villain, rounds)` and the round loop of the live
      session: a fresh channel tracker, the opener, then `rounds` rounds of Syndi
      (prompted with the tracker's channel check for the current transcript
      length, her reply recorded by the tracker) and the villain. An error thrown
      by either request ends the conversation and is returned as the fault.
      Syndi is always asked at an odd transcript length, so the tracker's check
      is empty every time: the conversation is the one `Converse` describes. */
  method RunConversation(villain: Opponent, rounds: nat, syndi: (seq<Message>, string) -> Reply,
                         opponent: seq<Message> -> Reply, p: ChannelPatterns)
    returns (transcript: seq<Message>, fault: Option<string>)
    ensures transcript == Converse(villain, rounds, syndi, opponent).transcript
    ensures fault == Converse(villain, rounds, syndi, opponent).fault
  {
    var tracker := new ChannelTracker();
    transcript := [Message(villain.name, villain.opener)];
    fault := None;
    var round := 0;
    while round < rounds
      invariant 0 <= round <= rounds
      invariant tracker.Valid()
      invariant |transcript| == 1 + 2 * round
      invariant Converse(villain, round, syndi, opponent) == Dialogue(transcript, None)
    {
      var d := PlayRound(tracker, villain, round, transcript, syndi, opponent, p);
      assert Converse(villain, round + 1, syndi, opponent) == d;
      if d.fault.Some? {
        transcript, fault := d.transcript, d.fault;
        FaultSticks(villain, round + 1, rounds, syndi, opponent);
        return;
      }
      transcript := d.transcript;
      round := round + 1;
    }
  }
}

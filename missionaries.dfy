/** Missionary detection: a converted participant (score 3 or more) that argues
    Syndi's case in the shared arena transcript earns one bonus per arena. The
    missionary patterns are regular expressions in the source; here they are
    predicates on message text, tried in order until one matches. */
module MissionaryDetection {
  import opened Wrappers
  import opened Pricing
  import opened Evaluation
  import opened Settlement

  /** One detected missionary. */
  datatype Missionary = Missionary(agent: string, score: int, message: string, bonus: nat)

  /** The lowest score of a converted participant. */
  const CONVERTED_SCORE: int := 3

  /** How many characters of the advocating message a missionary record keeps. */
  const MESSAGE_PREVIEW: nat := 120

  /** `missionaryPatterns.some((pattern) => pattern.test(text))`. */
  predicate Advocates(patterns: seq<string -> bool>, text: string) {
    exists i :: 0 <= i < |patterns| && patterns[i](text)
  }

  /** `text.slice(0, 120)`. */
  function Preview(text: string): (p: string)
    ensures |p| <= MESSAGE_PREVIEW && p <= text
    ensures |text| <= MESSAGE_PREVIEW ==> p == text
  {
    if |text| <= MESSAGE_PREVIEW then text else text[..MESSAGE_PREVIEW]
  }

  /** `transcript.filter((m) => m.speaker === speaker)`. */
  function MessagesBy(transcript: seq<Message>, speaker: string): (r: seq<Message>)
    ensures |r| <= |transcript|
    ensures forall k :: 0 <= k < |r| ==> r[k].speaker == speaker && r[k] in transcript
  {
    if transcript == [] then []
    else (if transcript[0].speaker == speaker then [transcript[0]] else []) + MessagesBy(transcript[1..], speaker)
  }

  /** The first of `msgs` that advocates, scanning in order. */
  function FirstAdvocating(msgs: seq<Message>, patterns: seq<string -> bool>): Option<Message> {
    if msgs == [] then None
    else if Advocates(patterns, msgs[0].text) then Some(msgs[0])
    else FirstAdvocating(msgs[1..], patterns)
  }

  /** Reference definition: the position in the whole transcript of the first
      message that `speaker` wrote and that advocates (|transcript| if none). */
  function FirstAdvocatingIndex(transcript: seq<Message>, speaker: string, patterns: seq<string -> bool>): (i: nat)
    ensures i <= |transcript|
    ensures forall k :: 0 <= k < i ==>
      !(transcript[k].speaker == speaker && Advocates(patterns, transcript[k].text))
    ensures i < |transcript| ==> transcript[i].speaker == speaker && Advocates(patterns, transcript[i].text)
  {
    if transcript == [] then 0
    else if transcript[0].speaker == speaker && Advocates(patterns, transcript[0].text) then 0
    else 1 + FirstAdvocatingIndex(transcript[1..], speaker, patterns)
  }

  /** Filtering by speaker and then taking the first advocating message picks the
      earliest advocating message of that speaker in the whole transcript. */
  lemma {:induction false} FilterThenFirst(transcript: seq<Message>, speaker: string, patterns: seq<string -> bool>)
    ensures var i := FirstAdvocatingIndex(transcript, speaker, patterns);
      FirstAdvocating(MessagesBy(transcript, speaker), patterns)
        == if i < |transcript| then Some(transcript[i]) else None
  {
    if transcript != [] {
      FilterThenFirst(transcript[1..], speaker, patterns);
      var rest := MessagesBy(transcript[1..], speaker);
      if transcript[0].speaker == speaker {
        assert MessagesBy(transcript, speaker) == [transcript[0]] + rest;
        assert ([transcript[0]] + rest)[1..] == rest;
      } else {
        assert MessagesBy(transcript, speaker) == rest;
      }
    }
  }

  /** What one evaluation entry contributes: nothing below CONVERTED_SCORE or
      without an advocating message; otherwise one record for the first
      advocating message of that participant. */
  function MissionaryOf(entry: Entry, transcript: seq<Message>, patterns: seq<string -> bool>): (r: Option<Missionary>)
    ensures var i := FirstAdvocatingIndex(transcript, entry.name, patterns);
      r.Some? <==> ScoreOrZero(entry.evaluation.score) >= CONVERTED_SCORE && i < |transcript|
    ensures var i := FirstAdvocatingIndex(transcript, entry.name, patterns);
      r.Some? ==> r.value == Missionary(entry.name, entry.evaluation.score.value,
                                         Preview(transcript[i].text), MISSIONARY_BONUS)
  {
    FilterThenFirst(transcript, entry.name, patterns);
    if ScoreOrZero(entry.evaluation.score) < CONVERTED_SCORE then None
    else
      match FirstAdvocating(MessagesBy(transcript, entry.name), patterns)
      case None => None
      case Some(msg) =>
        Some(Missionary(entry.name, entry.evaluation.score.value, Preview(msg.text), MISSIONARY_BONUS))
  }

  function OptionToSeq<T>(o: Option<T>): seq<T> {
    if o.Some? then [o.value] else []
  }

  /** `detectMissionaries(transcript, evaluations)` over the entries in order. */
  function Missionaries(entries: seq<Entry>, transcript: seq<Message>, patterns: seq<string -> bool>): (ms: seq<Missionary>)
    ensures |ms| <= |entries|
  {
    if entries == [] then []
    else
      Missionaries(entries[..|entries| - 1], transcript, patterns)
        + OptionToSeq(MissionaryOf(entries[|entries| - 1], transcript, patterns))
  }

  /** `detectMissionaries`: for each entry in order, skip those below
      CONVERTED_SCORE, then scan that participant's messages and record the first
      one that advocates, stopping the scan there. */
  method DetectMissionaries(entries: seq<Entry>, transcript: seq<Message>, patterns: seq<string -> bool>)
    returns (ms: seq<Missionary>)
    ensures ms == Missionaries(entries, transcript, patterns)
  {
    ms := [];
    var i := 0;
    while i < |entries|
      invariant 0 <= i <= |entries|
      invariant ms == Missionaries(entries[..i], transcript, patterns)
    {
      var entry := entries[i];
      assert entries[..i + 1][..i] == entries[..i];
      if ScoreOrZero(entry.evaluation.score) < CONVERTED_SCORE {
        i := i + 1;
        continue;
      }
      var messages := MessagesBy(transcript, entry.name);
      FilterThenFirst(transcript, entry.name, patterns);
      var j := 0;
      while j < |messages|
        invariant 0 <= j <= |messages|
        invariant FirstAdvocating(messages, patterns) == FirstAdvocating(messages[j..], patterns)
      {
        var msg := messages[j];
        if Advocates(patterns, msg.text) {
          ms := ms + [Missionary(entry.name, entry.evaluation.score.value, Preview(msg.text), MISSIONARY_BONUS)];
          break;
        }
        assert messages[j..][1..] == messages[j + 1..];
        j := j + 1;
      }
      i := i + 1;
    }
    assert entries[..|entries|] == entries;
  }

  /** Every record is a converted participant's, carries MISSIONARY_BONUS and at
      most MESSAGE_PREVIEW characters, and comes from one of the entries. */
  lemma {:induction false} MissionaryRecords(entries: seq<Entry>, transcript: seq<Message>, patterns: seq<string -> bool>)
    ensures forall m :: m in Missionaries(entries, transcript, patterns) ==>
      m.bonus == MISSIONARY_BONUS && |m.message| <= MESSAGE_PREVIEW && m.score >= CONVERTED_SCORE &&
      exists k :: 0 <= k < |entries| && MissionaryOf(entries[k], transcript, patterns) == Some(m)
  {
    if entries != [] {
      var init := entries[..|entries| - 1];
      MissionaryRecords(init, transcript, patterns);
      forall m | m in Missionaries(entries, transcript, patterns)
        ensures m.bonus == MISSIONARY_BONUS && |m.message| <= MESSAGE_PREVIEW && m.score >= CONVERTED_SCORE &&
          exists k :: 0 <= k < |entries| && MissionaryOf(entries[k], transcript, patterns) == Some(m)
      {
        if m in Missionaries(init, transcript, patterns) {
          var k :| 0 <= k < |init| && MissionaryOf(init[k], transcript, patterns) == Some(m);
          assert entries[k] == init[k];
        } else {
          var last := entries[|entries| - 1];
          assert MissionaryOf(last, transcript, patterns) == Some(m);
          assert ScoreOrZero(last.evaluation.score) >= CONVERTED_SCORE;
        }
      }
    }
  }

  /** Every converted participant with an advocating message is recorded. */
  lemma {:induction false} EveryAdvocateRecorded(entries: seq<Entry>, transcript: seq<Message>, patterns: seq<string -> bool>, k: nat)
    requires k < |entries| && MissionaryOf(entries[k], transcript, patterns).Some?
    ensures MissionaryOf(entries[k], transcript, patterns).value in Missionaries(entries, transcript, patterns)
  {
    var init := entries[..|entries| - 1];
    if k < |entries| - 1 {
      assert init[k] == entries[k];
      EveryAdvocateRecorded(init, transcript, patterns, k);
    }
  }

  predicate DistinctAgents(ms: seq<Missionary>) {
    forall a, b :: 0 <= a < b < |ms| ==> ms[a].agent != ms[b].agent
  }

  /** Records follow the entry order, one per entry at most, so with distinct
      participant names (the keys of one object) no participant gets two bonuses. */
  lemma {:induction false} OneBonusPerAgent(entries: seq<Entry>, transcript: seq<Message>, patterns: seq<string -> bool>)
    requires forall a, b :: 0 <= a < b < |entries| ==> entries[a].name != entries[b].name
    ensures DistinctAgents(Missionaries(entries, transcript, patterns))
  {
    if entries != [] {
      var init := entries[..|entries| - 1];
      var last := entries[|entries| - 1];
      OneBonusPerAgent(init, transcript, patterns);
      MissionaryRecords(init, transcript, patterns);
      var ms := Missionaries(entries, transcript, patterns);
      var before := Missionaries(init, transcript, patterns);
      forall a, b | 0 <= a < b < |ms| ensures ms[a].agent != ms[b].agent {
        if b >= |before| {
          assert ms == before + OptionToSeq(MissionaryOf(last, transcript, patterns));
          assert ms[b] == MissionaryOf(last, transcript, patterns).value;
          assert ms[b].agent == last.name;
          assert ms[a] == before[a] && before[a] in before;
          var k :| 0 <= k < |init| && MissionaryOf(init[k], transcript, patterns) == Some(ms[a]);
          assert init[k] == entries[k];
          assert ms[a].agent == entries[k].name != entries[|entries| - 1].name;
        } else {
          assert ms[a] == before[a] && ms[b] == before[b];
        }
      }
    }
  }
}

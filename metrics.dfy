/** Quality metrics of a finished transcript: how often Syndi quoted the Tao Te
    Ching and the Gospels, which persuasion techniques Syndi used, and which
    conversion signals the opponent let slip. Every regular expression of the
    source is a predicate on the message text; the global conversion pattern is
    the function listing its matches in a text. */
module Metrics {
  import opened Evaluation

  /** The speaker name of Syndi's own messages. */
  const SYNDI: string := "Syndi"

  /** The techniques `computeMetrics` can detect, declared in the alphabetical
      order of their names. */
  datatype Technique = Analogy | Dialectic | Emotion | Humor | Logic | Scripture

  function Name(t: Technique): string {
    match t
    case Analogy => "analogy"
    case Dialectic => "dialectic"
    case Emotion => "emotion"
    case Humor => "humor"
    case Logic => "logic"
    case Scripture => "scripture"
  }

  /** The position of a technique's name in alphabetical order. */
  function Rank(t: Technique): nat {
    match t
    case Analogy => 0
    case Dialectic => 1
    case Emotion => 2
    case Humor => 3
    case Logic => 4
    case Scripture => 5
  }

  const ALPHABETICAL: seq<Technique> := [Analogy, Dialectic, Emotion, Humor, Logic, Scripture]

  /** The patterns `computeMetrics` applies. */
  datatype MetricPatterns = MetricPatterns(
    tao: string -> bool,
    jesus: string -> bool,
    humor: string -> bool,
    question: string -> bool,
    analogy: string -> bool,
    logic: string -> bool,
    emotion: string -> bool,
    conversion: string -> seq<string>)

  /** The result of `computeMetrics`. */
  datatype QualityMetrics = QualityMetrics(
    taoQuotes: nat,
    jesusQuotes: nat,
    totalScripture: nat,
    techniques: seq<string>,
    techniqueCount: nat,
    conversionSignals: seq<string>,
    syndiMessageCount: nat,
    oppMessageCount: nat)

  /** The texts of the messages whose speaker is (`bySyndi`) or is not Syndi, in order. */
  function Texts(transcript: seq<Message>, bySyndi: bool): (texts: seq<string>)
    ensures |texts| <= |transcript|
  {
    if transcript == [] then []
    else
      (if (transcript[0].speaker == SYNDI) == bySyndi then [transcript[0].text] else [])
        + Texts(transcript[1..], bySyndi)
  }

  /** `filter` then `map` works piece by piece: the texts of two stretches of
      transcript, one after the other, are the texts of each stretch in that
      order. */
  lemma {:induction false} TextsAppend(a: seq<Message>, b: seq<Message>, bySyndi: bool)
    ensures Texts(a + b, bySyndi) == Texts(a, bySyndi) + Texts(b, bySyndi)
  {
    if a == [] {
      assert a + b == b;
    } else {
      var head := if (a[0].speaker == SYNDI) == bySyndi then [a[0].text] else [];
      assert (a + b)[0] == a[0];
      assert (a + b)[1..] == a[1..] + b;
      calc {
        Texts(a + b, bySyndi);
        head + Texts(a[1..] + b, bySyndi);
        { TextsAppend(a[1..], b, bySyndi); }
        head + (Texts(a[1..], bySyndi) + Texts(b, bySyndi));
        Texts(a, bySyndi) + Texts(b, bySyndi);
      }
    }
  }

  /** A lone message gives its text exactly when its speaker is the one asked for. */
  lemma TextsOfOne(m: Message, bySyndi: bool)
    ensures Texts([m], bySyndi) == if (m.speaker == SYNDI) == bySyndi then [m.text] else []
  {
    assert [m][1..] == [];
  }

  /** Every message is Syndi's or the opponent's. */
  lemma {:induction false} TextsPartition(transcript: seq<Message>)
    ensures |Texts(transcript, true)| + |Texts(transcript, false)| == |transcript|
  {
    if transcript != [] {
      TextsPartition(transcript[1..]);
    }
  }

  function CountMatching(texts: seq<string>, pattern: string -> bool): (n: nat)
    ensures n <= |texts|
  {
    if texts == [] then 0 else (if pattern(texts[0]) then 1 else 0) + CountMatching(texts[1..], pattern)
  }

  /** The techniques one message of Syndi's shows. */
  function TechniquesOf(text: string, p: MetricPatterns): set<Technique> {
    (if p.tao(text) || p.jesus(text) then {Scripture} else {})
      + (if p.humor(text) then {Humor} else {})
      + (if p.question(text) then {Dialectic} else {})
      + (if p.analogy(text) then {Analogy} else {})
      + (if p.logic(text) then {Logic} else {})
      + (if p.emotion(text) then {Emotion} else {})
  }

  /** One pass of the loop body: the `techniques.add` calls for one message, in
      the order the source makes them. */
  function AddTechniques(acc: set<Technique>, text: string, p: MetricPatterns): (r: set<Technique>)
    ensures r == acc + TechniquesOf(text, p)
  {
    var a := if p.tao(text) || p.jesus(text) then acc + {Scripture} else acc;
    var b := if p.humor(text) then a + {Humor} else a;
    var c := if p.question(text) then b + {Dialectic} else b;
    var d := if p.analogy(text) then c + {Analogy} else c;
    var e := if p.logic(text) then d + {Logic} else d;
    if p.emotion(text) then e + {Emotion} else e
  }

  /** The techniques the first messages show, as the loop collects them. */
  function UsedIn(texts: seq<string>, p: MetricPatterns): set<Technique> {
    if texts == [] then {} else AddTechniques(UsedIn(texts[..|texts| - 1], p), texts[|texts| - 1], p)
  }

  /** A technique is collected exactly when some message shows it. */
  lemma {:induction false} UsedInMeans(texts: seq<string>, p: MetricPatterns, t: Technique)
    ensures t in UsedIn(texts, p) <==> exists k :: 0 <= k < |texts| && t in TechniquesOf(texts[k], p)
  {
    if texts != [] {
      var init := texts[..|texts| - 1];
      UsedInMeans(init, p, t);
      if exists k :: 0 <= k < |init| && t in TechniquesOf(init[k], p) {
        var k :| 0 <= k < |init| && t in TechniquesOf(init[k], p);
        assert texts[k] == init[k];
      }
      if exists k :: 0 <= k < |texts| && t in TechniquesOf(texts[k], p) {
        var k :| 0 <= k < |texts| && t in TechniquesOf(texts[k], p);
        if k < |init| {
          assert init[k] == texts[k];
        }
      }
    }
  }

  /** Strict lexicographic order on strings, the order of JavaScript's default
      sort for these names. */
  predicate LexLess(a: string, b: string) {
    if a == [] then b != []
    else if b == [] then false
    else a[0] < b[0] || (a[0] == b[0] && LexLess(a[1..], b[1..]))
  }

  lemma NamesFollowRank(a: Technique, b: Technique)
    requires Rank(a) < Rank(b)
    ensures LexLess(Name(a), Name(b))
  {
  }

  /** The techniques of `order` that are in `s`, in the order of `order`. */
  function InOrder(order: seq<Technique>, s: set<Technique>): (r: seq<Technique>)
    ensures forall t :: t in r <==> t in order && t in s
    ensures |r| <= |order|
  {
    if order == [] then [] else (if order[0] in s then [order[0]] else []) + InOrder(order[1..], s)
  }

  predicate RankAscending(ts: seq<Technique>) {
    forall i, j :: 0 <= i < j < |ts| ==> Rank(ts[i]) < Rank(ts[j])
  }

  function Elements(ts: seq<Technique>): (s: set<Technique>)
    ensures forall t :: t in s <==> t in ts
  {
    if ts == [] then {} else {ts[0]} + Elements(ts[1..])
  }

  /** A sequence in strictly ascending rank repeats nothing. */
  lemma {:induction false} AscendingDistinct(ts: seq<Technique>)
    requires RankAscending(ts)
    ensures |Elements(ts)| == |ts|
  {
    if ts != [] {
      AscendingDistinct(ts[1..]);
      assert ts[0] !in ts[1..] by {
        forall k | 0 <= k < |ts[1..]| ensures ts[1..][k] != ts[0] {
          assert ts[1..][k] == ts[k + 1];
        }
      }
    }
  }

  lemma {:induction false} InOrderAscends(order: seq<Technique>, s: set<Technique>)
    requires RankAscending(order)
    ensures RankAscending(InOrder(order, s))
  {
    if order != [] {
      var rest := order[1..];
      InOrderAscends(rest, s);
      var tail := InOrder(rest, s);
      forall k | 0 <= k < |tail| ensures Rank(order[0]) < Rank(tail[k]) {
        assert tail[k] in rest;
        var m :| 0 <= m < |rest| && rest[m] == tail[k];
        assert rest[m] == order[m + 1];
      }
      var r := InOrder(order, s);
      if order[0] in s {
        assert r == [order[0]] + tail;
        forall i, j | 0 <= i < j < |r| ensures Rank(r[i]) < Rank(r[j]) {
          assert r[j] == tail[j - 1];
          if i > 0 {
            assert r[i] == tail[i - 1];
          }
        }
      }
    }
  }

  function Names(ts: seq<Technique>): (names: seq<string>)
    ensures |names| == |ts|
    ensures forall k :: 0 <= k < |ts| ==> names[k] == Name(ts[k])
  {
    if ts == [] then [] else [Name(ts[0])] + Names(ts[1..])
  }

  /** Every technique has its place in ALPHABETICAL. */
  lemma AlphabeticalIsComplete(t: Technique)
    ensures t in ALPHABETICAL
  {
    assert ALPHABETICAL[Rank(t)] == t;
  }

  /** `[...techniques].sort()`: the names, in strictly ascending order, one per
      technique collected. */
  function SortedNames(s: set<Technique>): (names: seq<string>)
    ensures |names| == |s| <= |ALPHABETICAL|
    ensures forall i, j :: 0 <= i < j < |names| ==> LexLess(names[i], names[j])
    ensures forall t :: Name(t) in names <==> t in s
  {
    var ts := InOrder(ALPHABETICAL, s);
    InOrderAscends(ALPHABETICAL, s);
    AscendingDistinct(ts);
    SortedNamesFacts(s, ts);
    Names(ts)
  }

  lemma SortedNamesFacts(s: set<Technique>, ts: seq<Technique>)
    requires ts == InOrder(ALPHABETICAL, s) && RankAscending(ts) && |Elements(ts)| == |ts|
    ensures |ts| == |s|
    ensures forall i, j :: 0 <= i < j < |ts| ==> LexLess(Names(ts)[i], Names(ts)[j])
    ensures forall t :: Name(t) in Names(ts) <==> t in s
  {
    var names := Names(ts);
    assert Elements(ts) == s by {
      forall t ensures t in s ==> t in ts {
        AlphabeticalIsComplete(t);
      }
    }
    forall i, j | 0 <= i < j < |names| ensures LexLess(names[i], names[j]) {
      NamesFollowRank(ts[i], ts[j]);
    }
    forall t ensures Name(t) in names <==> t in s {
      if Name(t) in names {
        var k :| 0 <= k < |names| && names[k] == Name(t);
        NameInjective(ts[k], t);
      }
      if t in s {
        AlphabeticalIsComplete(t);
        var k :| 0 <= k < |ts| && ts[k] == t;
        assert names[k] == Name(t);
      }
    }
  }

  lemma NameInjective(a: Technique, b: Technique)
    requires Name(a) == Name(b)
    ensures a == b
  {
    assert Name(a)[0] == Name(b)[0];
  }

  /** The conversion signals of the first opponent messages, in order. */
  function Signals(texts: seq<string>, p: MetricPatterns): seq<string> {
    if texts == [] then [] else Signals(texts[..|texts| - 1], p) + p.conversion(texts[|texts| - 1])
  }

  /** The loop of `computeMetrics` over Syndi's messages that fills the
      `techniques` set. */
  method CollectTechniques(syndiMessages: seq<string>, p: MetricPatterns) returns (techniques: set<Technique>)
    ensures techniques == UsedIn(syndiMessages, p)
  {
    techniques := {};
    var i := 0;
    while i < |syndiMessages|
      invariant 0 <= i <= |syndiMessages|
      invariant techniques == UsedIn(syndiMessages[..i], p)
    {
      var text := syndiMessages[i];
      ghost var before := techniques;
      assert syndiMessages[..i + 1][..i] == syndiMessages[..i] && syndiMessages[..i + 1][i] == text;
      if p.tao(text) || p.jesus(text) { techniques := techniques + {Scripture}; }
      if p.humor(text) { techniques := techniques + {Humor}; }
      if p.question(text) { techniques := techniques + {Dialectic}; }
      if p.analogy(text) { techniques := techniques + {Analogy}; }
      if p.logic(text) { techniques := techniques + {Logic}; }
      if p.emotion(text) { techniques := techniques + {Emotion}; }
      assert techniques == AddTechniques(before, text, p);
      i := i + 1;
    }
    assert syndiMessages[..|syndiMessages|] == syndiMessages;
  }

  /** The loop of `computeMetrics` over the opponent's messages that gathers
      every conversion-pattern match, in order. */
  method CollectSignals(oppMessages: seq<string>, p: MetricPatterns) returns (conversionSignals: seq<string>)
    ensures conversionSignals == Signals(oppMessages, p)
  {
    conversionSignals := [];
    var j := 0;
    while j < |oppMessages|
      invariant 0 <= j <= |oppMessages|
      invariant conversionSignals == Signals(oppMessages[..j], p)
    {
      assert oppMessages[..j + 1][..j] == oppMessages[..j];
      conversionSignals := conversionSignals + p.conversion(oppMessages[j]);
      j := j + 1;
    }
    assert oppMessages[..|oppMessages|] == oppMessages;
  }

  /** `computeMetrics(transcript)`. */
  method ComputeMetrics(transcript: seq<Message>, p: MetricPatterns) returns (m: QualityMetrics)
    ensures m.syndiMessageCount + m.oppMessageCount == |transcript|
    ensures m.syndiMessageCount == |Texts(transcript, true)|
    ensures m.taoQuotes == CountMatching(Texts(transcript, true), p.tao)
    ensures m.jesusQuotes == CountMatching(Texts(transcript, true), p.jesus)
    ensures m.totalScripture == m.taoQuotes + m.jesusQuotes
    ensures m.techniqueCount == |m.techniques| <= 6
    ensures forall i, j :: 0 <= i < j < |m.techniques| ==> LexLess(m.techniques[i], m.techniques[j])
    ensures forall t :: Name(t) in m.techniques <==>
      exists k :: 0 <= k < |Texts(transcript, true)| && t in TechniquesOf(Texts(transcript, true)[k], p)
    ensures m.conversionSignals == Signals(Texts(transcript, false), p)
  {
    var syndiMessages := Texts(transcript, true);
    var oppMessages := Texts(transcript, false);
    TextsPartition(transcript);
    var taoCount := CountMatching(syndiMessages, p.tao);
    var jesusCount := CountMatching(syndiMessages, p.jesus);
    var techniques := CollectTechniques(syndiMessages, p);
    var conversionSignals := CollectSignals(oppMessages, p);
    forall t ensures t in techniques <==> exists k :: 0 <= k < |syndiMessages| && t in TechniquesOf(syndiMessages[k], p) {
      UsedInMeans(syndiMessages, p, t);
    }
    var sorted := SortedNames(techniques);
    m := QualityMetrics(taoCount, jesusCount, taoCount + jesusCount, sorted, |techniques|,
                        conversionSignals, |syndiMessages|, |oppMessages|);
  }
}

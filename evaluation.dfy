/** The conversion evaluation boundary: which part of a transcript the external
    evaluator sees, and the sentinel it degrades to when the call fails. */
module Evaluation {
  import opened Wrappers
  import opened Pricing
  import opened Decimal

  /** A transcript entry: who spoke and what was said. */
  datatype Message = Message(speaker: string, text: string)

  /** An evaluation as the evaluator returns it. The score is optional because
      the reply is free-form JSON that may lack it. */
  datatype Evaluation = Evaluation(score: Option<int>, level: string, evidence: seq<string>, reasoning: string)

  /** The outcome of the evaluation request for a transcript tail: the parsed JSON
      object, or the message of the error thrown by the request or by `JSON.parse`. */
  datatype EvalReply = Parsed(evaluation: Evaluation) | Failed(message: string)

  /** How a score prints inside a template string: its decimal digits, or
      "undefined" when the evaluator gave none. */
  function ScoreText(score: Option<int>): string {
    if score.Some? then IntToString(score.value) else "undefined"
  }

  /** How many trailing entries the evaluator is shown. */
  const EVAL_WINDOW: nat := 20

  /** `transcript.slice(-20)`: the last min(20, n) entries, in order. */
  function EvalWindow(transcript: seq<Message>): (tail: seq<Message>)
    ensures |tail| == if |transcript| < EVAL_WINDOW then |transcript| else EVAL_WINDOW
    ensures tail == transcript[|transcript| - |tail|..]
  {
    if |transcript| <= EVAL_WINDOW then transcript else transcript[|transcript| - EVAL_WINDOW..]
  }

  /** The error sentinel: score -1, level 'error', no evidence. */
  function ErrorEvaluation(message: string): Evaluation {
    Evaluation(Some(-1), "error", [], message)
  }

  /** `evaluateConversion(client, transcript)`: asks the evaluator `llm` about the
      last 20 entries only; a failed call yields the error sentinel instead of
      throwing. */
  function EvaluateConversion(transcript: seq<Message>, llm: seq<Message> -> EvalReply): (e: Evaluation)
    ensures llm(EvalWindow(transcript)).Failed? ==>
      e.score == Some(-1) && e.level == "error" && e.evidence == []
    ensures llm(EvalWindow(transcript)).Parsed? ==> e == llm(EvalWindow(transcript)).evaluation
  {
    match llm(EvalWindow(transcript))
    case Parsed(ev) => ev
    case Failed(msg) => ErrorEvaluation(msg)
  }

  /** Entries before the last 20 cannot influence the evaluation. */
  lemma {:induction false} EvaluationSeesOnlyWindow(older: seq<Message>, recent: seq<Message>, llm: seq<Message> -> EvalReply)
    requires |recent| >= EVAL_WINDOW
    ensures EvaluateConversion(older + recent, llm) == EvaluateConversion(recent, llm)
  {
    var whole := older + recent;
    assert EvalWindow(whole) == EvalWindow(recent) by {
      assert whole[|whole| - EVAL_WINDOW..] == recent[|recent| - EVAL_WINDOW..];
    }
  }

  /** A failed evaluation degrades to the zero reward instead of crashing settlement. */
  lemma ErrorEvaluationPaysNothing(message: string)
    ensures RewardFor(ErrorEvaluation(message).score) == RewardFor(Some(0))
    ensures RewardFor(ErrorEvaluation(message).score).reward == 0
  {
    OutOfTableFallsBack(Some(-1));
  }
}

/** The call-evaluation rubric of app.py: five checks run in a fixed order
    (greeting, intent, positive language, tone, closing), each adding a
    fixed award to the score and one or more statements to the feedback. */
module Rubric {
  import opened TextOps

  /** The intent lexicon, in declaration order: category name and its keywords. */
  const IntentKeywords: seq<(string, seq<string>)> := [
    ("refund", ["refund", "money back", "return"]),
    ("cancellation", ["cancel", "terminate", "end service"]),
    ("onboarding", ["start", "setup", "onboarding"]),
    ("support", ["help", "support", "issue", "problem", "trouble"]),
    ("billing", ["charge", "billing", "invoice", "payment"])
  ]

  const Greetings: seq<string> := ["hello", "good morning", "good afternoon", "good evening", "hi", "namaste"]
  const Positives: seq<string> := ["thank you", "sure", "absolutely", "happy to help", "zarur", "dhanyavaad"]
  const Closings: seq<string> := ["thank you", "bye", "have a nice day", "shukriya", "alvida"]

  /** The tone label the sentiment step settles on. */
  datatype Tone = Positive | Neutral | Rude | Unknown

  /** What the sentiment analyser hands back: a polarity, or a failure of
      any kind (the bare `except` of the source). */
  datatype SentimentResult = Ok(polarity: real) | Err

  /** One feedback statement; `Text` gives the wording the source emits. */
  datatype Statement =
    | GreetingMet | GreetingMissed
    | IntentFound(name: string) | IntentMissed
    | PositiveMet | PositiveMissed
    | ToneReport(tone: Tone)
    | ClosingSkipped | ClosingNotCredited | ClosingMet | ClosingMissedNeutral | ClosingMissed

  /** The wording that reports a found intent, around the intent's name. */
  const IntentLead: string := "The customer's intent was successfully identified and addressed: "
  const IntentTail: string := ". This shows good listening and understanding."

  /** The statement for a found intent: the intent's name, set between the
      lead and the tail. */
  function IntentText(name: string): (r: string)
    ensures StartsWith(r, IntentLead) && OccursAt(r, name, |IntentLead|)
    ensures |r| == |IntentLead| + |name| + |IntentTail|
  {
    IntentLead + name + IntentTail
  }

  /** The wording the source emits for each statement. */
  function Text(st: Statement): (r: string)
  {
    match st
    case GreetingMet => "The call began with a proper greeting, which sets a professional and courteous tone for the customer interaction."
    case GreetingMissed => "The call did not begin with a clear or polite greeting. A warm opening such as 'Good morning' or 'Hello' helps establish rapport."
    case IntentFound(name) => IntentText(name)
    case IntentMissed => "The customer's intent was not clearly identified during the call. Proactively confirming their needs could improve communication."
    case PositiveMet => "Positive and supportive language was used effectively, making the conversation feel pleasant and helpful."
    case PositiveMissed => "There was a noticeable lack of positive or affirming phrases. Consider using encouraging words to build trust and satisfaction."
    case ToneReport(Positive) => "The overall tone of the conversation was friendly and constructive, which greatly enhances customer satisfaction."
    case ToneReport(Rude) => "The tone of the conversation appeared to be negative. Try to remain calm, respectful, and solution-focused, even during tough calls."
    case ToneReport(Neutral) => "The overall tone was neutral. While not necessarily bad, adding more warmth and engagement can leave a better impression."
    case ToneReport(Unknown) => "Sentiment analysis could not be performed. Ensure the audio is clear and language is supported."
    case ClosingSkipped => "Due to the negative tone of the conversation, the ending statement has not been considered for evaluation."
    case ClosingNotCredited => "The call ended with a proper closing, but since the tone of the conversation was neutral, the effectiveness of the closing is not fully credited."
    case ClosingMet => "The call concluded with a clear and polite closing statement, which helps leave a positive lasting impression."
    case ClosingMissedNeutral => "The conversation tone was neutral, and no clear closing was observed. A proper farewell helps to wrap up calls professionally."
    case ClosingMissed => "A closing statement was missing. Always ensure to conclude with a polite goodbye to maintain professionalism."
  }

  /** The statements' wording, in order. */
  function Render(lines: seq<Statement>): (r: seq<string>)
    ensures |r| == |lines|
    ensures forall k :: 0 <= k < |lines| ==> r[k] == Text(lines[k])
  {
    seq(|lines|, k requires 0 <= k < |lines| => Text(lines[k]))
  }

  // ---------------------------------------------------------------------
  // Step by step specification of evaluate_call.
  // ---------------------------------------------------------------------

  /** The names of the matched categories of `lexicon`, in its order. */
  function FoundIntents(lower: string, lexicon: seq<(string, seq<string>)>): seq<string>
  {
    if |lexicon| == 0 then []
    else
      var last := lexicon[|lexicon| - 1];
      FoundIntents(lower, lexicon[..|lexicon| - 1]) + (if AnySubstring(lower, last.1) then [last.0] else [])
  }

  /** The positions in `lexicon` of the matched categories, in increasing order. */
  function MatchedPositions(lower: string, lexicon: seq<(string, seq<string>)>): seq<nat>
  {
    if |lexicon| == 0 then []
    else
      var n := |lexicon| - 1;
      MatchedPositions(lower, lexicon[..n]) + (if AnySubstring(lower, lexicon[n].1) then [n] else [])
  }

  /** One statement per found intent, in the order found. */
  function IntentLines(found: seq<string>): seq<Statement>
  {
    seq(|found|, k requires 0 <= k < |found| => IntentFound(found[k]))
  }

  /** Tone from the polarity's sign; a failure of the analyser gives Unknown. */
  function ToneOf(sentiment: SentimentResult): (t: Tone)
    ensures t == Unknown <==> sentiment.Err?
    ensures t == Positive <==> sentiment.Ok? && sentiment.polarity > 0.0
    ensures t == Rude <==> sentiment.Ok? && sentiment.polarity < 0.0
    ensures t == Neutral <==> sentiment == Ok(0.0)
  {
    match sentiment
    case Err => Unknown
    case Ok(p) => if p > 0.0 then Positive else if p < 0.0 then Rude else Neutral
  }

  function GreetingAward(lower: string): nat {
    if AnyPrefix(lower, Greetings) then 20 else 0
  }

  function IntentAward(found: seq<string>): nat {
    if |found| > 0 then 20 else 0
  }

  function PositiveAward(lower: string): nat {
    if AnySubstring(lower, Positives) then 20 else 0
  }

  function ToneAward(tone: Tone): nat {
    match tone
    case Positive => 20
    case Neutral => 10
    case Rude => 0
    case Unknown => 0
  }

  /** A rude call is never credited for its closing, a neutral one neither;
      every other tone (Unknown included) earns the closing award. */
  function ClosingAward(tone: Tone, lower: string): nat {
    if tone == Rude then 0
    else if AnySubstring(lower, Closings) then (if tone == Neutral then 0 else 20)
    else 0
  }

  /** The sum of the five awards for the folded text and the tone. */
  function Awards(lower: string, tone: Tone): nat {
    GreetingAward(lower) + IntentAward(FoundIntents(lower, IntentKeywords)) + PositiveAward(lower)
      + ToneAward(tone) + ClosingAward(tone, lower)
  }

  /** The score before the clamp. */
  function RawScore(transcription: string, sentiment: SentimentResult): nat {
    Awards(Lower(transcription), ToneOf(sentiment))
  }

  /** `min(score, 100)`: the score returned by evaluate_call. */
  function Score(transcription: string, sentiment: SentimentResult): (r: int)
    ensures 0 <= r <= 100
    ensures r == RawScore(transcription, sentiment)
  {
    var raw := RawScore(transcription, sentiment);
    if raw < 100 then raw else 100
  }

  function GreetingStatement(lower: string): Statement {
    if AnyPrefix(lower, Greetings) then GreetingMet else GreetingMissed
  }

  function IntentStatements(found: seq<string>): seq<Statement> {
    if |found| > 0 then IntentLines(found) else [IntentMissed]
  }

  function PositiveStatement(lower: string): Statement {
    if AnySubstring(lower, Positives) then PositiveMet else PositiveMissed
  }

  function ClosingStatement(tone: Tone, lower: string): Statement {
    if tone == Rude then ClosingSkipped
    else if AnySubstring(lower, Closings) then
      (if tone == Neutral then ClosingNotCredited else ClosingMet)
    else if tone == Neutral then ClosingMissedNeutral
    else ClosingMissed
  }

  /** The statements of the five steps, in step order. */
  function Assemble(lower: string, tone: Tone): seq<Statement> {
    [GreetingStatement(lower)] + IntentStatements(FoundIntents(lower, IntentKeywords))
      + [PositiveStatement(lower)] + [ToneReport(tone)] + [ClosingStatement(tone, lower)]
  }

  /** The feedback statements of evaluate_call. */
  function Statements(transcription: string, sentiment: SentimentResult): seq<Statement> {
    Assemble(Lower(transcription), ToneOf(sentiment))
  }

  /** The feedback text returned by evaluate_call. */
  function Feedback(transcription: string, sentiment: SentimentResult): string {
    JoinParagraphs(Render(Statements(transcription, sentiment)))
  }

  // ---------------------------------------------------------------------
  // evaluate_call, one method per rubric step.
  // ---------------------------------------------------------------------

  /** Step 1: the folded transcript must open with a greeting phrase. */
  method CheckGreeting(lower: string) returns (award: nat, line: Statement)
    ensures award == GreetingAward(lower) && line == GreetingStatement(lower)
  {
    if AnyPrefix(lower, Greetings) {
      award, line := 20, GreetingMet;
    } else {
      award, line := 0, GreetingMissed;
    }
  }

  /** Step 2: collects the matched lexicon categories in declaration order,
      then reports each one, or reports that none was identified. */
  method CheckIntents(lower: string) returns (found: seq<string>, award: nat, lines: seq<Statement>)
    ensures found == FoundIntents(lower, IntentKeywords)
    ensures award == IntentAward(found) && lines == IntentStatements(found)
  {
    found := [];
    for i := 0 to |IntentKeywords|
      invariant found == FoundIntents(lower, IntentKeywords[..i])
    {
      assert IntentKeywords[..i + 1][..i] == IntentKeywords[..i];
      if AnySubstring(lower, IntentKeywords[i].1) {
        found := found + [IntentKeywords[i].0];
      }
    }
    assert IntentKeywords[..|IntentKeywords|] == IntentKeywords;

    lines := [];
    if |found| > 0 {
      award := 20;
      for j := 0 to |found|
        invariant |lines| == j
        invariant forall k :: 0 <= k < j ==> lines[k] == IntentFound(found[k])
      {
        lines := lines + [IntentFound(found[j])];
      }
    } else {
      award := 0;
      lines := [IntentMissed];
    }
  }

  /** Step 3: some positive phrase occurs anywhere in the folded transcript. */
  method CheckPositiveLanguage(lower: string) returns (award: nat, line: Statement)
    ensures award == PositiveAward(lower) && line == PositiveStatement(lower)
  {
    if AnySubstring(lower, Positives) {
      award, line := 20, PositiveMet;
    } else {
      award, line := 0, PositiveMissed;
    }
  }

  /** Step 4: tone from the analyser's polarity; its failure is absorbed as Unknown. */
  method CheckTone(sentiment: SentimentResult) returns (tone: Tone, award: nat, line: Statement)
    ensures tone == ToneOf(sentiment) && award == ToneAward(tone) && line == ToneReport(tone)
  {
    match sentiment {
      case Ok(polarity) =>
        if polarity > 0.0 {
          award, tone := 20, Positive;
        } else if polarity < 0.0 {
          award, tone := 0, Rude;
        } else {
          award, tone := 10, Neutral;
        }
      case Err =>
        award, tone := 0, Unknown;
    }
    line := ToneReport(tone);
  }

  /** Step 5: the closing, gated by the tone of step 4. */
  method CheckClosing(tone: Tone, lower: string) returns (award: nat, line: Statement)
    ensures award == ClosingAward(tone, lower) && line == ClosingStatement(tone, lower)
  {
    award := 0;
    if tone == Rude {
      line := ClosingSkipped;
    } else if AnySubstring(lower, Closings) {
      if tone == Neutral {
        line := ClosingNotCredited;
      } else {
        award := 20;
        line := ClosingMet;
      }
    } else {
      if tone == Neutral {
        line := ClosingMissedNeutral;
      } else {
        line := ClosingMissed;
      }
    }
  }

  /** The five steps over the folded transcript: the unclamped score and
      the statements, in step order. */
  method RunSteps(lower: string, sentiment: SentimentResult) returns (raw: nat, lines: seq<Statement>)
    ensures raw == Awards(lower, ToneOf(sentiment))
    ensures lines == Assemble(lower, ToneOf(sentiment))
  {
    var award, line := CheckGreeting(lower);
    raw, lines := award, [line];

    var found, report;
    found, award, report := CheckIntents(lower);
    raw, lines := raw + award, lines + report;

    award, line := CheckPositiveLanguage(lower);
    raw, lines := raw + award, lines + [line];

    var tone;
    tone, award, line := CheckTone(sentiment);
    raw, lines := raw + award, lines + [line];

    award, line := CheckClosing(tone, lower);
    raw, lines := raw + award, lines + [line];
  }

  /** Scores one transcript; `sentiment` is what the analyser returned for
      the raw (not folded) transcript. */
  method EvaluateCall(transcription: string, sentiment: SentimentResult) returns (score: int, feedback: string)
    ensures 0 <= score <= 100
    ensures score == Score(transcription, sentiment)
    ensures feedback == Feedback(transcription, sentiment)
  {
    var raw, lines := RunSteps(Lower(transcription), sentiment);
    score := if raw < 100 then raw else 100;
    feedback := JoinParagraphs(Render(lines));
  }
}

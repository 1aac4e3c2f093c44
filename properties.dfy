/** What evaluate_call promises about its score and its feedback, proved of
    the step specification that `Rubric.EvaluateCall` is verified against. */
module RubricProperties {
  import opened TextOps
  import opened Rubric

  function Bit(b: bool): nat {
    if b then 1 else 0
  }

  // ---------------------------------------------------------------------
  // The individual checks.
  // ---------------------------------------------------------------------

  /** The greeting earns 20 exactly when the folded transcript starts with
      one of the six greeting phrases; a greeting later in the text earns nothing. */
  lemma GreetingCredit(transcription: string)
    ensures var lower := Lower(transcription);
      (GreetingAward(lower) == 20 <==> exists k :: 0 <= k < |Greetings| && StartsWith(lower, Greetings[k]))
      && (GreetingAward(lower) == 0 <==> forall k :: 0 <= k < |Greetings| ==> !StartsWith(lower, Greetings[k]))
  {
    AnyPrefixSpec(Lower(transcription), Greetings);
  }

  /** Positive language earns 20 exactly when one of its phrases occurs anywhere. */
  lemma PositiveCredit(transcription: string)
    ensures var lower := Lower(transcription);
      (PositiveAward(lower) == 20 <==> exists k :: 0 <= k < |Positives| && Contains(lower, Positives[k]))
      && (PositiveAward(lower) == 0 <==> forall k :: 0 <= k < |Positives| ==> !Contains(lower, Positives[k]))
  {
    AnySubstringSpec(Lower(transcription), Positives);
  }

  /** The found intents are exactly the names of the matched categories, in
      the order of the lexicon: `MatchedPositions` lists their positions. */
  lemma {:induction false} FoundIntentsSpec(lower: string, lexicon: seq<(string, seq<string>)>)
    ensures var found := FoundIntents(lower, lexicon);
      var positions := MatchedPositions(lower, lexicon);
      |positions| == |found|
      && (forall k :: 0 <= k < |positions| ==> positions[k] < |lexicon| && found[k] == lexicon[positions[k]].0)
      && (forall k, l :: 0 <= k < l < |positions| ==> positions[k] < positions[l])
      && (forall i :: 0 <= i < |lexicon| ==> (i in positions <==> AnySubstring(lower, lexicon[i].1)))
  {
    if |lexicon| > 0 {
      var n := |lexicon| - 1;
      var front := lexicon[..n];
      FoundIntentsSpec(lower, front);
      assert forall i :: 0 <= i < n ==> front[i] == lexicon[i];
    }
  }

  lemma IntentNamesDistinct()
    ensures forall i, j :: 0 <= i < j < |IntentKeywords| ==> IntentKeywords[i].0 != IntentKeywords[j].0
  {
  }

  /** A lexicon category is reported exactly when one of its keywords occurs
      in the folded transcript. */
  lemma IntentReported(transcription: string, i: nat)
    requires i < |IntentKeywords|
    ensures var lower := Lower(transcription);
      (IntentKeywords[i].0 in FoundIntents(lower, IntentKeywords))
        <==> (exists k :: 0 <= k < |IntentKeywords[i].1| && Contains(lower, IntentKeywords[i].1[k]))
  {
    var lower := Lower(transcription);
    var found := FoundIntents(lower, IntentKeywords);
    var positions := MatchedPositions(lower, IntentKeywords);
    FoundIntentsSpec(lower, IntentKeywords);
    AnySubstringSpec(lower, IntentKeywords[i].1);
    IntentNamesDistinct();
    if IntentKeywords[i].0 in found {
      var k :| 0 <= k < |found| && found[k] == IntentKeywords[i].0;
      assert positions[k] == i;
    }
    if AnySubstring(lower, IntentKeywords[i].1) {
      var k :| 0 <= k < |positions| && positions[k] == i;
      assert found[k] == IntentKeywords[i].0;
    }
  }

  /** The intent award is a flat 20 when any category matched, whatever their number. */
  lemma IntentCredit(transcription: string)
    ensures var lower := Lower(transcription);
      ((IntentAward(FoundIntents(lower, IntentKeywords)) == 20)
        <==> (exists i :: 0 <= i < |IntentKeywords| && AnySubstring(lower, IntentKeywords[i].1)))
      && ((IntentAward(FoundIntents(lower, IntentKeywords)) == 0)
        <==> (forall i :: 0 <= i < |IntentKeywords| ==> !AnySubstring(lower, IntentKeywords[i].1)))
  {
    var lower := Lower(transcription);
    var found := FoundIntents(lower, IntentKeywords);
    var positions := MatchedPositions(lower, IntentKeywords);
    FoundIntentsSpec(lower, IntentKeywords);
    if i :| 0 <= i < |IntentKeywords| && AnySubstring(lower, IntentKeywords[i].1) {
      assert i in positions;
    }
    if |found| > 0 {
      assert positions[0] in positions;
    }
  }

  /** Tone and its award for each outcome of the sentiment analyser. */
  lemma ToneCredit(sentiment: SentimentResult)
    ensures sentiment.Ok? && sentiment.polarity > 0.0 ==> ToneOf(sentiment) == Positive && ToneAward(ToneOf(sentiment)) == 20
    ensures sentiment.Ok? && sentiment.polarity < 0.0 ==> ToneOf(sentiment) == Rude && ToneAward(ToneOf(sentiment)) == 0
    ensures sentiment == Ok(0.0) ==> ToneOf(sentiment) == Neutral && ToneAward(ToneOf(sentiment)) == 10
    ensures sentiment.Err? ==> ToneOf(sentiment) == Unknown && ToneAward(ToneOf(sentiment)) == 0
  {
  }

  /** The closing earns 20 exactly when the tone is neither rude nor neutral
      and a closing phrase occurs; an Unknown tone is credited. */
  lemma ClosingCredit(transcription: string, sentiment: SentimentResult)
    ensures var lower := Lower(transcription);
      var tone := ToneOf(sentiment);
      var closed := exists k :: 0 <= k < |Closings| && Contains(lower, Closings[k]);
      (ClosingAward(tone, lower) == 20 <==> tone != Rude && tone != Neutral && closed)
      && (ClosingAward(tone, lower) == 0 <==> !(tone != Rude && tone != Neutral && closed))
  {
    AnySubstringSpec(Lower(transcription), Closings);
  }

  /** A rude tone forfeits the closing, even when a closing phrase is present,
      and the closing is reported as skipped. */
  lemma RudeToneSkipsClosing(transcription: string, sentiment: SentimentResult)
    requires sentiment.Ok? && sentiment.polarity < 0.0
    ensures ClosingAward(ToneOf(sentiment), Lower(transcription)) == 0
    ensures var statements := Statements(transcription, sentiment);
      statements[|statements| - 1] == ClosingSkipped
  {
  }

  /** A failed sentiment analysis does not withhold the closing credit. */
  lemma UnknownToneCreditsClosing(transcription: string)
    requires exists k :: 0 <= k < |Closings| && Contains(Lower(transcription), Closings[k])
    ensures ClosingAward(ToneOf(Err), Lower(transcription)) == 20
    ensures Score(transcription, Err) >= 20
  {
    AnySubstringSpec(Lower(transcription), Closings);
  }

  // ---------------------------------------------------------------------
  // The score.
  // ---------------------------------------------------------------------

  /** The score is 20 per credited check plus the tone award, so the clamp
      never changes it; it is a multiple of 10, and an odd multiple of 10
      exactly when the tone is neutral. */
  lemma ScoreDecomposition(transcription: string, sentiment: SentimentResult)
    ensures var lower := Lower(transcription);
      var tone := ToneOf(sentiment);
      Score(transcription, sentiment)
        == 20 * (Bit(AnyPrefix(lower, Greetings)) + Bit(|FoundIntents(lower, IntentKeywords)| > 0)
                 + Bit(AnySubstring(lower, Positives)) + Bit(ClosingAward(tone, lower) == 20))
           + ToneAward(tone)
      && ToneAward(tone) in {0, 10, 20}
      && RawScore(transcription, sentiment) <= 100
    ensures Score(transcription, sentiment) % 10 == 0
    ensures Score(transcription, sentiment) % 20 == 10 <==> ToneOf(sentiment) == Neutral
  {
  }

  /** With polarity exactly zero the tone earns 10 and the closing nothing:
      full tone credit and closing credit never come together. */
  lemma NeutralToneNeverFullCredit(transcription: string)
    ensures ToneAward(ToneOf(Ok(0.0))) + ClosingAward(ToneOf(Ok(0.0)), Lower(transcription)) == 10
  {
  }

  /** Full marks exactly when every check is credited: a greeting opens the
      call, some intent is found, positive language and a closing phrase
      occur, and the polarity is positive. */
  lemma PerfectScore(transcription: string, sentiment: SentimentResult)
    ensures var lower := Lower(transcription);
      (Score(transcription, sentiment) == 100)
        <==> ((exists k :: 0 <= k < |Greetings| && StartsWith(lower, Greetings[k]))
          && |FoundIntents(lower, IntentKeywords)| > 0
          && (exists k :: 0 <= k < |Positives| && Contains(lower, Positives[k]))
          && (exists k :: 0 <= k < |Closings| && Contains(lower, Closings[k]))
          && sentiment.Ok? && sentiment.polarity > 0.0)
  {
    var lower := Lower(transcription);
    ScoreDecomposition(transcription, sentiment);
    AnyPrefixSpec(lower, Greetings);
    AnySubstringSpec(lower, Positives);
    AnySubstringSpec(lower, Closings);
  }

  /** Matching is case-insensitive: evaluating the folded transcript gives the
      same result as evaluating the transcript. */
  lemma {:induction false} EvaluationIgnoresCase(transcription: string, sentiment: SentimentResult)
    ensures Score(Lower(transcription), sentiment) == Score(transcription, sentiment)
    ensures Feedback(Lower(transcription), sentiment) == Feedback(transcription, sentiment)
  {
    LowerIdempotent(transcription);
  }

  // ---------------------------------------------------------------------
  // The feedback.
  // ---------------------------------------------------------------------

  predicate IsClosingStatement(st: Statement) {
    st.ClosingSkipped? || st.ClosingNotCredited? || st.ClosingMet? || st.ClosingMissedNeutral? || st.ClosingMissed?
  }

  /** The feedback holds one statement each for greeting, positive language,
      tone and closing, in that order around the intent statements: one per
      found intent, or one saying that none was identified. */
  lemma StatementLayout(transcription: string, sentiment: SentimentResult)
    ensures var lower := Lower(transcription);
      var found := FoundIntents(lower, IntentKeywords);
      var tone := ToneOf(sentiment);
      var statements := Statements(transcription, sentiment);
      var n := |statements|;
      n == 4 + (if |found| > 0 then |found| else 1)
      && statements[0] == GreetingStatement(lower)
      && (|found| > 0 ==> forall k :: 0 <= k < |found| ==> statements[1 + k] == IntentFound(found[k]))
      && (|found| == 0 ==> statements[1] == IntentMissed)
      && statements[n - 3] == PositiveStatement(lower)
      && statements[n - 2] == ToneReport(tone)
      && statements[n - 1] == ClosingStatement(tone, lower)
      && (forall k :: 0 <= k < n - 1 ==> !IsClosingStatement(statements[k]))
      && IsClosingStatement(statements[n - 1])
  {
  }

  /** The feedback text is the statements joined by paragraph breaks: as
      long as no statement's wording holds a line break itself, cutting the
      text at its breaks gives back the statements, 4 + max(1, |found intents|)
      of them. */
  lemma FeedbackParagraphs(transcription: string, sentiment: SentimentResult)
    requires var texts := Render(Statements(transcription, sentiment));
      forall k :: 0 <= k < |texts| ==> '\n' !in texts[k]
    ensures SplitParagraphs(Feedback(transcription, sentiment)) == Render(Statements(transcription, sentiment))
    ensures var found := FoundIntents(Lower(transcription), IntentKeywords);
      |SplitParagraphs(Feedback(transcription, sentiment))| == 4 + (if |found| > 0 then |found| else 1)
  {
    var texts := Render(Statements(transcription, sentiment));
    assert Feedback(transcription, sentiment) == JoinParagraphs(texts);
    assert |texts| >= 5 by {
      StatementLayout(transcription, sentiment);
    }
    SplitJoin(texts);
    StatementLayout(transcription, sentiment);
  }

  /** The statement for a found intent names that intent, and different
      intents get different statements. */
  lemma {:induction false} IntentStatementNamesIntent(name: string, other: string)
    ensures Contains(Text(IntentFound(name)), name)
    ensures Text(IntentFound(name)) == Text(IntentFound(other)) ==> name == other
  {
    var r := Text(IntentFound(name));
    ContainsSpec(r, name);
    if r == Text(IntentFound(other)) {
      assert |other| == |name|;
      assert other == r[|IntentLead|..|IntentLead| + |other|];
    }
  }

  // ---------------------------------------------------------------------
  // Worked examples.
  // ---------------------------------------------------------------------

  /** A transcript opening with "Hello" earns the greeting; one that only
      mentions a greeting later does not. */
  lemma GreetingExamples()
    ensures GreetingAward(Lower("Hello there")) == 20
    ensures GreetingAward(Lower("I said hello")) == 0
  {
    var greeted := Lower("Hello there");
    assert greeted[..5] == "hello";
    assert StartsWith(greeted, Greetings[0]);
    var plain := Lower("I said hello");
    assert plain[0] == 'i' && plain[1] == ' ';
    AnyPrefixSpec(plain, Greetings);
  }

  /** "I want a refund please" is reported under the refund category and
      earns the intent award. */
  lemma RefundExample()
    ensures "refund" in FoundIntents(Lower("I want a refund please"), IntentKeywords)
    ensures IntentAward(FoundIntents(Lower("I want a refund please"), IntentKeywords)) == 20
  {
    var lower := Lower("I want a refund please");
    assert lower[9..15] == "refund";
    assert OccursAt(lower, IntentKeywords[0].1[0], 9);
    ContainsSpec(lower, IntentKeywords[0].1[0]);
    IntentReported("I want a refund please", 0);
    IntentCredit("I want a refund please");
  }
}

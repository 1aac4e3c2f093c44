# Call evaluation rubric

A Dafny model of `evaluate_call` in `app.py` and of the intent lexicon it reads, together with proofs about it. `evaluate_call` scores a call transcript out of 100 and writes a feedback text. It runs five checks in a fixed order:

1. greeting: the folded transcript starts with a greeting phrase;
2. intent: the lexicon categories with a keyword somewhere in the text;
3. positive language: a positive phrase occurs in the text;
4. tone: the sign of the sentiment polarity;
5. closing: a closing phrase occurs, gated by the tone of step 4.

Each check adds a fixed award and one statement to the feedback. The intent check adds one statement per category found. The statements are joined with blank lines, and the score is capped at 100.

Layout:

- `strings.dfy`, module `TextOps`: the string operations the rubric uses.
  - ASCII case folding, `startswith`, substring search, and the two `any(...)` forms.
  - The `"\n\n"` join, and a split that inverts it.
- `rubric.dfy`, module `Rubric`: the lexicon and phrase lists, and the `Tone`, `SentimentResult` and `Statement` types.
  - A specification function for every step, and the functions `Score` and `Feedback` for the whole evaluation.
  - The imperative `EvaluateCall`. Each step is a method proved against its specification function.
- `properties.dfy`, module `RubricProperties`: what the rubric promises, proved of those functions, plus a few worked examples.

A feedback statement is a `Statement` value. `Rubric.Text` gives each value the exact wording the source emits. Lexicon categories are tried in declaration order. The order is preserved because the lexicon is a sequence.

Behaviour of the code worth noting, which the model keeps:

- **Unknown tone.** A failed sentiment analysis sets the tone to "unknown". A closing phrase then still earns the full +20, because control reaches the `else` at app.py:82-84.
- **Strict zero.** The tone thresholds at app.py:62 and app.py:66 compare strictly with zero. Only a polarity of exactly 0 is neutral.
- **One statement per intent.** The transcript "Good morning, I have an issue with billing. Absolutely, thank you for calling, have a nice day." matches support (through "issue") and billing. So the code emits six statements, two of them for intents. `RubricProperties.StatementLayout` gives the count for every transcript: 4 + max(1, number of intents found).

## Model

| member | source | states |
|---|---|---|
| TextOps.Lower | app.py:29 | folding keeps the length and lower-cases each ASCII capital, leaving every other character alone |
| TextOps.LowerIdempotent | app.py:29 | the folded text holds no capital letter, so folding it again changes nothing |
| TextOps.ContainsSpec | app.py:42 | the substring test `p in s` holds exactly when `p` occurs at some position of `s` |
| TextOps.AnyPrefixSpec | app.py:34 | `any(s.startswith(p) ...)` holds exactly when some phrase of the list is a prefix of `s` |
| TextOps.AnySubstringSpec | app.py:54 | `any(p in s ...)` holds exactly when some phrase of the list occurs in `s` |
| TextOps.SplitJoin | app.py:91 | for statements without line breaks, splitting the `"\n\n"`-joined text at paragraph breaks returns exactly the statements, in order |
| Rubric.IntentText | app.py:48 | the statement for a found intent starts with the fixed lead sentence and holds the intent's name right after it |
| Rubric.Render | app.py:36-89 | the list of feedback strings has one entry per statement, in order, each being that statement's wording |
| Rubric.ToneOf | app.py:60-75 | positive iff polarity > 0, rude iff < 0, neutral iff exactly 0, unknown iff the analysis failed |
| Rubric.Score | app.py:91 | the returned score is in [0, 100] and equals the unclamped sum of the awards |
| Rubric.CheckGreeting | app.py:32-38 | the greeting step's award and statement are those of the greeting specification |
| Rubric.CheckIntents | app.py:41-50 | the loop collects exactly the matched categories in lexicon order; a flat 20 when any matched; one statement per found intent, or the "not identified" statement |
| Rubric.CheckPositiveLanguage | app.py:53-58 | the positive-language step's award and statement are those of its specification |
| Rubric.CheckTone | app.py:60-75 | the tone is `ToneOf` of the analyser's result, with award 20/10/0/0 and the matching tone statement |
| Rubric.CheckClosing | app.py:77-89 | the closing award and which of the five closing statements is emitted, given the tone and the text |
| Rubric.RunSteps | app.py:27-89 | running the five steps in order yields the sum of their awards and their statements in step order |
| Rubric.EvaluateCall | app.py:26-91 | the returned score is `min(sum of awards, 100)`, within [0, 100]; the feedback is the statements joined by blank lines |
| RubricProperties.GreetingCredit | app.py:33-35 | greeting award 20 iff the folded text starts with one of the six phrases, 0 iff none is a prefix |
| RubricProperties.PositiveCredit | app.py:53-55 | positive award 20 iff one of the positive phrases occurs anywhere, 0 iff none does |
| RubricProperties.FoundIntentsSpec | app.py:41-43 | the found intents are the names of exactly the matched categories, at strictly increasing lexicon positions |
| RubricProperties.IntentNamesDistinct | app.py:18-24 | the five category names of the lexicon are pairwise distinct |
| RubricProperties.IntentReported | app.py:41-43 | a category's name is among the found intents iff one of its keywords occurs in the folded text |
| RubricProperties.IntentCredit | app.py:45-50 | intent award 20 iff some category matched, 0 iff none did, however many matched |
| RubricProperties.ToneCredit | app.py:60-75 | each analyser outcome gives its tone and tone award: 20 positive, 0 rude, 10 neutral, 0 unknown |
| RubricProperties.ClosingCredit | app.py:77-89 | closing award 20 iff the tone is neither rude nor neutral and a closing phrase occurs, else 0 |
| RubricProperties.RudeToneSkipsClosing | app.py:77-78 | a negative polarity gives closing award 0 and ends the feedback with the "skipped" statement, even when a closing phrase is present |
| RubricProperties.UnknownToneCreditsClosing | app.py:73-84 | with a failed analysis and a closing phrase, the closing earns 20, so the score is at least 20 |
| RubricProperties.ScoreDecomposition | app.py:27-91 | score = 20·(greeting + intent + positive + closing credited) + tone award, never above 100 before the cap; a multiple of 10; ≡ 10 mod 20 iff the tone is neutral |
| RubricProperties.NeutralToneNeverFullCredit | app.py:69-81 | with polarity exactly 0, tone and closing together earn exactly 10, never both full credits |
| RubricProperties.PerfectScore | app.py:27-91 | the score is 100 iff greeting, some intent, positive language and a closing phrase are all present and the polarity is positive |
| RubricProperties.EvaluationIgnoresCase | app.py:29 | for the same analyser outcome, evaluating the folded transcript gives the same score and feedback as the original one |
| RubricProperties.StatementLayout | app.py:28-89 | the feedback has 4 + max(1, intents found) statements: greeting, the intent statements in order, positive, tone, and exactly one closing statement, last |
| RubricProperties.FeedbackParagraphs | app.py:91 | if no statement contains a line break, splitting the feedback text at blank lines returns the statements, 4 + max(1, intents found) of them |
| RubricProperties.IntentStatementNamesIntent | app.py:48 | a found intent's statement contains the intent's name, and different intents get different statements |
| RubricProperties.GreetingExamples | app.py:33-35 | "Hello there" earns the greeting; "I said hello" does not, since the greeting is not at the start |
| RubricProperties.RefundExample | app.py:18-19 | "I want a refund please" is reported under "refund" and earns the intent award |

## Left out

- Speech-to-text with Whisper, the upload and output folders, `save_text_file`, the gTTS audio feedback and the Streamlit page (app.py:1-16, 93-137) are outside this model. They are I/O around `evaluate_call`.
- TextBlob is outside this model. Its polarity enters `EvaluateCall` as a parameter: `Ok(polarity)` on success, `Err` for any exception caught by the bare `except`.
- Polarity is a Dafny `real`, not a floating-point number, so NaN is not modelled.
- `str.lower()` is modelled on ASCII letters only. Full Unicode case mapping is not modelled.
- `EvaluateCall` does not return the tone, because the source does not either. The tone is available as `Rubric.ToneOf`.
- RubricProperties.FeedbackParagraphs: takes as a precondition that no statement's wording contains a line break, which the source's wording satisfies. That fact is not proved here; proving it for statements this long is too costly.
- Rubric.EvaluateCall: is written as one method per rubric step plus `RunSteps`. The source uses a single function body. The order of steps and their effects on the score and feedback are the same.
- Rubric.Text: carries no contract of its own. It is the table of fixed wordings from app.py:36-89, and `Rubric.IntentText` states the one wording that varies. That no wording contains a line break is not proved (see `RubricProperties.FeedbackParagraphs`).
- Worked examples on the 95-character transcript above, and on a concrete transcript containing no lexicon keyword, are not proved. `RubricProperties.PerfectScore` and `RubricProperties.IntentCredit` state these cases for every transcript.

/** What the AI service does with the language model's answers: the
    sentiment analysis is clamped into range with a neutral fallback, the
    generated reply is trimmed with two fixed fallbacks, and the admin
    suggestions carry a short history of the customer's last subjects. The
    model itself is not part of this model: its answer is an input. */
module AiService {
  import opened Wrappers
  import opened Text
  import opened Config
  import opened QueryModel

  /** The fields of the model's JSON answer (`score`, `label`, `confidence`), each possibly missing. */
  datatype RawSentiment = RawSentiment(score: Option<real>, polarity: Option<string>, confidence: Option<real>)

  /** The outcome of a call to the model: a parsed answer, or a failure
      (network error, malformed JSON, ...). */
  datatype Outcome<T> = Answer(value: T) | Failure

  /** The answer used without an API key and after any failure. */
  const NeutralSentiment := Sentiment(0.0, Neutral, 0.5)

  /** `Math.max(lo, Math.min(hi, x))`. */
  function Clamp(lo: real, hi: real, x: real): (r: real)
    requires lo <= hi
    ensures lo <= r <= hi
    ensures lo <= x <= hi ==> r == x
    ensures x < lo ==> r == lo
    ensures hi < x ==> r == hi
  {
    if x < lo then lo else if hi < x then hi else x
  }

  /** `value || fallback` on a number: missing and zero take the fallback. */
  function OrIfZero(v: Option<real>, fallback: real): (r: real)
    ensures v.Some? && v.value != 0.0 ==> r == v.value
    ensures v.None? || v.value == 0.0 ==> r == fallback
  {
    if v.Some? && v.value != 0.0 then v.value else fallback
  }

  /** The normalisation of a parsed answer. */
  function Normalise(raw: RawSentiment): (s: Sentiment)
    ensures SentimentInBounds(s)
    ensures raw.polarity.Some? && ParseLabel(raw.polarity.value).Some? ==> s.polarity == ParseLabel(raw.polarity.value).value
    ensures raw.polarity.None? || ParseLabel(raw.polarity.value).None? ==> s.polarity == Neutral
    ensures raw.score.Some? && -1.0 <= raw.score.value <= 1.0 ==> s.score == raw.score.value
    ensures raw.score.None? ==> s.score == 0.0
    ensures raw.score.Some? && raw.score.value > 1.0 ==> s.score == 1.0
    ensures raw.score.Some? && raw.score.value < -1.0 ==> s.score == -1.0
    ensures raw.confidence.Some? && 0.0 < raw.confidence.value <= 1.0 ==> s.confidence == raw.confidence.value
    ensures raw.confidence.None? || raw.confidence.value == 0.0 ==> s.confidence == 0.5
  {
    Sentiment(
      Clamp(-1.0, 1.0, OrIfZero(raw.score, 0.0)),
      if raw.polarity.Some? && ParseLabel(raw.polarity.value).Some? then ParseLabel(raw.polarity.value).value else Neutral,
      Clamp(0.0, 1.0, OrIfZero(raw.confidence, 0.5)))
  }

  /** `analyzeQuery(text)`: the neutral answer without an API key or on any
      failure, the normalised answer otherwise. */
  function AnalyzeQuery(apiKey: Option<string>, outcome: Outcome<RawSentiment>): (s: Sentiment)
    ensures SentimentInBounds(s)
    ensures !IsSet(apiKey) || outcome.Failure? ==> s == NeutralSentiment
    ensures IsSet(apiKey) && outcome.Answer? ==> s == Normalise(outcome.value)
  {
    if !IsSet(apiKey) then NeutralSentiment
    else match outcome
      case Failure => NeutralSentiment
      case Answer(raw) => Normalise(raw)
  }

  /** A confidence the model reports out of range is cut to the nearest
      bound, a zero one replaced by 0.5; a negative one becomes 0. */
  lemma ConfidenceNormalised(raw: RawSentiment)
    requires raw.confidence.Some?
    ensures raw.confidence.value > 1.0 ==> Normalise(raw).confidence == 1.0
    ensures raw.confidence.value < 0.0 ==> Normalise(raw).confidence == 0.0
    ensures raw.confidence.value == 0.0 ==> Normalise(raw).confidence == 0.5
  {
  }

  function CategoryFallback(category: string): string {
    "Thank you for contacting us regarding your " + category
    + " inquiry. We have received your message and will get back to you as soon as possible. Our team is committed to providing you with the best possible assistance."
  }

  /** The reply without an API key names the query's category. */
  lemma CategoryFallbackNamesCategory(category: string)
    ensures Contains(CategoryFallback(category), category)
  {
    ContainsPart("Thank you for contacting us regarding your ", category,
      " inquiry. We have received your message and will get back to you as soon as possible. Our team is committed to providing you with the best possible assistance.");
  }

  const ErrorFallback :=
    "Thank you for contacting us. We have received your inquiry and our team will review it carefully. We'll get back to you with a detailed response as soon as possible. If this is urgent, please don't hesitate to reach out to us directly."

  /** `generateAIResponse(query, category)`: without an API key a reply
      naming the category, on failure a generic reply, otherwise the
      model's reply without surrounding white space. */
  function GenerateAIResponse(apiKey: Option<string>, category: string, outcome: Outcome<string>): (r: string)
    ensures !IsSet(apiKey) ==> r == CategoryFallback(category)
    ensures IsSet(apiKey) && outcome.Failure? ==> r == ErrorFallback
    ensures IsSet(apiKey) && outcome.Answer? ==> r == Trim(outcome.value) && Trim(r) == r
  {
    if !IsSet(apiKey) then CategoryFallback(category)
    else match outcome
      case Failure => ErrorFallback
      case Answer(text) =>
        TrimIdempotent(text);
        Trim(text)
  }

  const NoKeySuggestions := [
    "Thank you for bringing this to our attention. Let me look into this for you.",
    "I understand your concern. Here's what we can do to resolve this issue.",
    "I apologize for any inconvenience. Let me help you with this right away."
  ]

  const ErrorSuggestions := [
    "Thank you for contacting us. I'll personally ensure this issue is resolved promptly.",
    "I understand your concern and appreciate you bringing this to our attention. Let me help you with this.",
    "I apologize for any inconvenience caused. Here's how we can address your concern immediately."
  ]

  /** The subjects of the last three queries of `history` (all of them when
      there are fewer), oldest first. */
  function LastSubjects(history: seq<Query>): (subjects: seq<string>)
    ensures |subjects| == if |history| < 3 then |history| else 3
    ensures forall k :: 0 <= k < |subjects| ==> subjects[k] == history[|history| - |subjects| + k].subject
  {
    var recent := if |history| < 3 then history else history[|history| - 3..];
    seq(|recent|, k requires 0 <= k < |recent| => recent[k].subject)
  }

  /** The history line of the suggestion prompt. */
  function HistoryContext(history: seq<Query>): (context: string)
    ensures history == [] <==> context == ""
  {
    if |history| > 0 then "Previous interactions: " + Join(LastSubjects(history), ", ") else ""
  }

  /** The history line names each of the last three subjects and ends with
      the most recent one. */
  lemma HistoryContextNamesRecentSubjects(history: seq<Query>)
    requires |history| > 0
    ensures forall k :: |history| - 3 <= k < |history| && 0 <= k ==> Contains(HistoryContext(history), history[k].subject)
    ensures EndsWith(HistoryContext(history), history[|history| - 1].subject)
  {
    var subjects := LastSubjects(history);
    var prefix := "Previous interactions: ";
    forall k | |history| - 3 <= k < |history| && 0 <= k
      ensures Contains(HistoryContext(history), history[k].subject)
    {
      var j := k - (|history| - |subjects|);
      assert subjects[j] == history[k].subject;
      JoinContains(subjects, ", ", j);
      ContainsWithin(prefix, Join(subjects, ", "), [], history[k].subject);
      assert prefix + Join(subjects, ", ") + [] == HistoryContext(history);
    }
    JoinEndsWithLast(subjects, ", ");
    var joined := Join(subjects, ", ");
    var last := history[|history| - 1].subject;
    assert subjects[|subjects| - 1] == last;
    assert (prefix + joined)[|prefix + joined| - |last|..] == joined[|joined| - |last|..];
  }

  /** `generateAdminSuggestions(query, history)`: the three canned
      suggestions without an API key, three others on failure, otherwise
      the model's list. */
  function GenerateAdminSuggestions(apiKey: Option<string>, outcome: Outcome<seq<string>>): (r: seq<string>)
    ensures !IsSet(apiKey) ==> r == NoKeySuggestions
    ensures IsSet(apiKey) && outcome.Failure? ==> r == ErrorSuggestions
    ensures IsSet(apiKey) && outcome.Answer? ==> r == outcome.value
  {
    if !IsSet(apiKey) then NoKeySuggestions
    else match outcome
      case Failure => ErrorSuggestions
      case Answer(list) => list
  }
}

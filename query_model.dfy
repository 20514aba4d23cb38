/** The Query document: its closed value sets and defaults, the bounds its
    schema enforces, the `pre('save')` hook that records how long a query
    took to resolve, and the collection that stores queries. */
module QueryModel {
  import opened Wrappers
  import opened Text

  type UserId = nat
  type QueryId = nat

  datatype Category = Technical | Billing | General | Complaint | FeatureRequest
  datatype Priority = Low | Medium | High | Urgent
  datatype Status = Open | InProgress | Resolved | Closed
  datatype SentimentLabel = Positive | Neutral | Negative

  function CategoryName(c: Category): string {
    match c
    case Technical => "technical"
    case Billing => "billing"
    case General => "general"
    case Complaint => "complaint"
    case FeatureRequest => "feature-request"
  }

  /** The `enum` check of `category`: only the five names are accepted. */
  function ParseCategory(s: string): (r: Option<Category>)
    ensures r.Some? ==> CategoryName(r.value) == s
    ensures r.None? ==> forall c: Category :: CategoryName(c) != s
  {
    if s == "technical" then Some(Technical)
    else if s == "billing" then Some(Billing)
    else if s == "general" then Some(General)
    else if s == "complaint" then Some(Complaint)
    else if s == "feature-request" then Some(FeatureRequest)
    else None
  }

  function PriorityName(p: Priority): string {
    match p
    case Low => "low"
    case Medium => "medium"
    case High => "high"
    case Urgent => "urgent"
  }

  function ParsePriority(s: string): (r: Option<Priority>)
    ensures r.Some? ==> PriorityName(r.value) == s
    ensures r.None? ==> forall p: Priority :: PriorityName(p) != s
  {
    if s == "low" then Some(Low)
    else if s == "medium" then Some(Medium)
    else if s == "high" then Some(High)
    else if s == "urgent" then Some(Urgent)
    else None
  }

  function StatusName(s: Status): string {
    match s
    case Open => "open"
    case InProgress => "in-progress"
    case Resolved => "resolved"
    case Closed => "closed"
  }

  function ParseStatus(s: string): (r: Option<Status>)
    ensures r.Some? ==> StatusName(r.value) == s
    ensures r.None? ==> forall t: Status :: StatusName(t) != s
  {
    if s == "open" then Some(Open)
    else if s == "in-progress" then Some(InProgress)
    else if s == "resolved" then Some(Resolved)
    else if s == "closed" then Some(Closed)
    else None
  }

  function LabelName(l: SentimentLabel): string {
    match l
    case Positive => "positive"
    case Neutral => "neutral"
    case Negative => "negative"
  }

  function ParseLabel(s: string): (r: Option<SentimentLabel>)
    ensures r.Some? ==> LabelName(r.value) == s
    ensures r.None? ==> forall l: SentimentLabel :: LabelName(l) != s
  {
    if s == "positive" then Some(Positive)
    else if s == "neutral" then Some(Neutral)
    else if s == "negative" then Some(Negative)
    else None
  }

  /** Every stored name parses back to its value, so each value set is
      closed and its names are distinct. */
  lemma NamesRoundTrip(c: Category, p: Priority, s: Status, l: SentimentLabel)
    ensures ParseCategory(CategoryName(c)) == Some(c)
    ensures ParsePriority(PriorityName(p)) == Some(p)
    ensures ParseStatus(StatusName(s)) == Some(s)
    ensures ParseLabel(LabelName(l)) == Some(l)
  {
  }

  /** `label` is a keyword here; the field is called `polarity`. */
  datatype Sentiment = Sentiment(score: real, polarity: SentimentLabel, confidence: real)

  /** The schema's `min`/`max` on the sentiment numbers. */
  predicate SentimentInBounds(s: Sentiment) {
    -1.0 <= s.score <= 1.0 && 0.0 <= s.confidence <= 1.0
  }

  datatype AiResponse = AiResponse(message: string, confidence: real, generatedAt: int)

  datatype AdminResponse = AdminResponse(message: string, respondedBy: UserId, respondedAt: int)

  datatype Query = Query(
    id: nat,
    customer: UserId,
    subject: string,
    message: string,
    category: Category,
    priority: Priority,
    status: Status,
    sentiment: Option<Sentiment>,
    aiResponse: Option<AiResponse>,
    adminResponse: Option<AdminResponse>,
    responseTime: Option<int>,         // minutes
    satisfactionRating: Option<int>,
    feedback: Option<string>,
    createdAt: int,
    updatedAt: int)

  const DefaultStatus := Open

  /** What the schema validators check on save: the required strings are
      present and not empty, the sentiment numbers and the rating are in
      range. (The value sets are closed by the types.) */
  predicate SchemaValid(q: Query) {
    && q.subject != "" && q.message != ""
    && (q.sentiment.Some? ==> SentimentInBounds(q.sentiment.value))
    && (q.satisfactionRating.Some? ==> 1 <= q.satisfactionRating.value <= 5)
  }

  /** A document as `new Query({...})` builds it; the schema setter trims
      the subject and the timestamps are both the creation time. */
  function NewQuery(id: nat, customer: UserId, subject: string, message: string, category: Category,
                    priority: Priority, sentiment: Option<Sentiment>, aiResponse: Option<AiResponse>,
                    now: int): (q: Query)
    ensures q.id == id && q.customer == customer && q.subject == Trim(subject) && q.message == message
    ensures q.category == category && q.priority == priority && q.status == DefaultStatus
    ensures q.sentiment == sentiment && q.aiResponse == aiResponse
    ensures q.adminResponse.None? && q.responseTime.None? && q.satisfactionRating.None? && q.feedback.None?
    ensures q.createdAt == now && q.updatedAt == now
    ensures SchemaValid(q) <==>
      Trim(subject) != "" && message != "" && (sentiment.Some? ==> SentimentInBounds(sentiment.value))
  {
    Query(id, customer, Trim(subject), message, category, priority, DefaultStatus, sentiment, aiResponse,
          None, None, None, None, now, now)
  }

  /** `!this.responseTime`: unset, or zero. */
  predicate Falsy(v: Option<int>) {
    v.None? || v.value == 0
  }

  /** `Math.round(elapsed / 60000)`: whole minutes, halves rounded up. */
  function RoundMinutes(elapsed: int): int {
    (elapsed + 30000) / 60000
  }

  /** The rounding is to the nearest minute: the rounded value is within
      half a minute of the elapsed time, an exact half rounding up. */
  lemma RoundMinutesNearest(elapsed: int)
    ensures var m := RoundMinutes(elapsed);
            -30000 < 60000 * m - elapsed <= 30000
  {
    var a := elapsed + 30000;
    assert a == (a / 60000) * 60000 + a % 60000;
  }

  /** The `pre('save')` hook: when the save changed `status` to resolved
      and no (non-zero) response time is recorded yet, the elapsed minutes
      since creation are recorded. `statusModified` is mongoose's
      `isModified('status')`. */
  function PreSave(q: Query, statusModified: bool, now: int): (r: Query)
    ensures r.(responseTime := q.responseTime) == q
    ensures statusModified && q.status == Resolved && Falsy(q.responseTime) ==>
      r.responseTime == Some(RoundMinutes(now - q.createdAt))
    ensures !(statusModified && q.status == Resolved && Falsy(q.responseTime)) ==> r == q
  {
    if statusModified && q.status == Resolved && Falsy(q.responseTime)
    then q.(responseTime := Some(RoundMinutes(now - q.createdAt)))
    else q
  }

  /** A non-zero response time is never recomputed, by any later save. */
  lemma ResponseTimeSetOnce(q: Query, statusModified: bool, now: int)
    requires q.responseTime.Some? && q.responseTime.value != 0
    ensures PreSave(q, statusModified, now) == q
  {
  }

  /** A recorded response time of zero counts as unset: resolving again
      overwrites it. */
  lemma ZeroResponseTimeRecomputed(q: Query, now: int)
    requires q.responseTime == Some(0) && q.status == Resolved
    ensures PreSave(q, true, now).responseTime == Some(RoundMinutes(now - q.createdAt))
  {
  }

  /** The document `save()` writes when the stored query `stored` now holds
      `q`: the hook runs (the status counts as modified when it differs
      from the stored one), and the `timestamps` option stamps `updatedAt`
      only when some field was modified. */
  function Saved(stored: Query, q: Query, now: int): (r: Query)
    ensures q == stored ==> r == stored
    ensures q != stored ==> r.updatedAt == now
    ensures r.(updatedAt := q.updatedAt, responseTime := q.responseTime) == q
    ensures r.responseTime == PreSave(q, q.status != stored.status, now).responseTime
  {
    var hooked := PreSave(q, q.status != stored.status, now);
    if q == stored then hooked else hooked.(updatedAt := now)
  }

  /** The queries collection. Queries are never deleted, so a query's id is
      its position in the collection; every stored query passed the schema
      validators. */
  class QueryCollection {
    var records: seq<Query>

    ghost predicate Valid()
      reads this
    {
      forall i :: 0 <= i < |records| ==> records[i].id == i && SchemaValid(records[i])
    }

    constructor ()
      ensures Valid() && records == []
    {
      records := [];
    }

    /** `new Query({...}).save()`: a new query is stored under the next id
        unless the schema validators reject it. A new query's status is the
        default, so the hook has nothing to do. */
    method Insert(q: Query) returns (r: Option<Query>)
      requires Valid()
      modifies this
      ensures Valid()
      ensures SchemaValid(q) ==> r == Some(q.(id := |old(records)|)) && records == old(records) + [r.value]
      ensures !SchemaValid(q) ==> r.None? && records == old(records)
    {
      if !SchemaValid(q) {
        return None;
      }
      var stored := q.(id := |records|);
      records := records + [stored];
      r := Some(stored);
    }

    /** `query.save()` on the loaded query `i`, now holding `q`: the
        document is `Saved`, and the validators decide whether it is
        written. */
    method Save(i: nat, q: Query, now: int) returns (r: Option<Query>)
      requires Valid() && i < |records| && q.id == i
      modifies this
      ensures Valid()
      ensures var saved := Saved(old(records)[i], q, now);
              && (SchemaValid(saved) ==> r == Some(saved) && records == old(records)[i := saved])
              && (!SchemaValid(saved) ==> r.None? && records == old(records))
    {
      var saved := Saved(records[i], q, now);
      if !SchemaValid(saved) {
        return None;
      }
      records := records[i := saved];
      r := Some(saved);
    }
  }

  /** `findOne({ _id: id, customer: user })`: the query `id` when it belongs
      to `user`. */
  function FindOwnedQuery(rs: seq<Query>, id: nat, user: UserId): (r: Option<Query>)
    ensures r.Some? <==> id < |rs| && rs[id].customer == user
    ensures r.Some? ==> r.value == rs[id]
  {
    if id < |rs| && rs[id].customer == user then Some(rs[id]) else None
  }
}

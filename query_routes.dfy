/** The customer's query routes: create a query (validation, sentiment,
    priority, AI reply, a "Query Received" notification), list the
    customer's own queries, fetch one, and rate the answer to one. Every
    read and every rating is scoped to the calling customer. */
module QueryRoutes {
  import opened Wrappers
  import opened Text
  import opened Seqs
  import opened Paging
  import opened Listing
  import opened Http
  import opened QueryModel
  import opened AiService
  import NS = NotificationService
  import NM = NotificationModel

  /** The body of `POST /api/queries`. */
  datatype CreateRequest = CreateRequest(subject: Option<string>, message: Option<string>, category: Option<string>)

  /** The JSON body of a reply that carries one query. */
  datatype QueryReply = QueryReply(message: string, query: Query)

  /** The validators of `POST /api/queries`, in declaration order. */
  function CreateErrors(req: CreateRequest): (errors: seq<FieldError>)
    ensures errors == [] <==>
      |Trimmed(req.subject)| >= 5 && |Trimmed(req.message)| >= 10
      && (req.category.None? || ParseCategory(req.category.value).Some?)
    ensures |errors| <= 3
  {
    MinLengthError("subject", req.subject, 5, "Subject must be at least 5 characters")
    + MinLengthError("message", req.message, 10, "Message must be at least 10 characters")
    + OptionalIsInError("category", req.category, s => ParseCategory(s).Some?, InvalidValue)
  }

  /** The priority a new query gets from its sentiment. */
  function PriorityFor(s: Sentiment): (p: Priority)
    ensures p == High <==> s.polarity == Negative && s.confidence > 0.7
    ensures p == Low <==> s.polarity == Positive
    ensures p == Medium <==> !(s.polarity == Negative && s.confidence > 0.7) && s.polarity != Positive
    ensures p != Urgent
  {
    if s.polarity == Negative && s.confidence > 0.7 then High
    else if s.polarity == Positive then Low
    else Medium
  }

  /** The category name the handler works with: `category = 'general'`. */
  function CategoryOrDefault(req: CreateRequest): string {
    req.category.GetOr("general")
  }

  /** The category of a valid request: the one it names, or `general`. */
  function RequestCategory(req: CreateRequest): (c: Category)
    requires CreateErrors(req) == []
    ensures CategoryName(c) == CategoryOrDefault(req)
  {
    if req.category.None? then General else ParseCategory(req.category.value).value
  }

  /** The query `POST /api/queries` stores for a valid request, given the
      language model's two answers. */
  function CreatedQuery(user: UserId, req: CreateRequest, apiKey: Option<string>,
                        sentimentOutcome: Outcome<RawSentiment>, replyOutcome: Outcome<string>,
                        id: nat, now: int): (q: Query)
    requires CreateErrors(req) == []
    ensures SchemaValid(q)
    ensures q.id == id && q.customer == user && q.status == Open && q.createdAt == now
  {
    var sentiment := AnalyzeQuery(apiKey, sentimentOutcome);
    var reply := GenerateAIResponse(apiKey, CategoryOrDefault(req), replyOutcome);
    var subject := Trimmed(req.subject);
    TrimIdempotent(req.subject.GetOr(""));
    assert Trim(subject) != "";
    NewQuery(id, user, subject, Trimmed(req.message), RequestCategory(req), PriorityFor(sentiment),
             Some(sentiment), Some(AiResponse(reply, 0.8, now)), now)
  }

  /** The stored query has the trimmed subject and message, the requested
      category or `general`, the analysed sentiment and the priority it
      implies, the AI reply with confidence 0.8, and nothing else set. */
  lemma CreatedQueryFields(user: UserId, req: CreateRequest, apiKey: Option<string>,
                           sentimentOutcome: Outcome<RawSentiment>, replyOutcome: Outcome<string>,
                           id: nat, now: int)
    requires CreateErrors(req) == []
    ensures var q := CreatedQuery(user, req, apiKey, sentimentOutcome, replyOutcome, id, now);
            && q.subject == Trimmed(req.subject) && q.message == Trimmed(req.message)
            && CategoryName(q.category) == CategoryOrDefault(req)
            && q.sentiment == Some(AnalyzeQuery(apiKey, sentimentOutcome))
            && q.priority == PriorityFor(q.sentiment.value)
            && q.aiResponse == Some(AiResponse(GenerateAIResponse(apiKey, CategoryOrDefault(req), replyOutcome), 0.8, now))
            && q.adminResponse.None? && q.responseTime.None? && q.satisfactionRating.None? && q.feedback.None?
  {
    TrimIdempotent(req.subject.GetOr(""));
  }

  /** The notification a new query triggers. */
  function ReceivedNotice(user: UserId, q: QueryId): (req: NS.NotificationRequest)
    ensures req.recipient == user && req.kind == NM.QueryResponse && req.relatedQuery == Some(q)
    ensures req.channels.None? && req.metadata.None?
  {
    NS.NotificationRequest(user, NM.QueryResponse, "Query Received",
      "Your query has been received and processed by our AI assistant.", Some(q), None, None)
  }

  /** The body of `GET /api/queries`; every field may be left out. */
  datatype ListRequest = ListRequest(page: Option<int>, limit: Option<int>, status: Option<string>, category: Option<string>)

  /** The filter of `GET /api/queries`: the caller's queries, restricted by
      status and category when those are given. */
  predicate MineMatching(q: Query, user: UserId, req: ListRequest) {
    q.customer == user
    && (!Given(req.status) || StatusName(q.status) == req.status.value)
    && (!Given(req.category) || CategoryName(q.category) == req.category.value)
  }

  function NewestQueryKey(q: Query): Key {
    Key(q.createdAt, 0)
  }

  /** `GET /api/queries` (page 1, ten to a page, by default). The model
      answers a page or a limit below 1 with 500; in the store only a page
      below 1 fails (a negative skip), while a zero limit means no limit and
      a negative one a single batch. */
  function ListMine(rs: seq<Query>, user: UserId, req: ListRequest): (r: Reply<Page<Query>>)
    ensures r.Success? <==> ValidPaging(req.page.GetOr(1), req.limit.GetOr(10))
    ensures !r.Success? ==> r == ServerError("Server error while fetching queries")
    ensures r.Success? ==>
      var p := r.body;
      && r.code == 200
      && |p.items| <= req.limit.GetOr(10)
      && (forall q :: q in p.items ==> q in rs && q.customer == user && MineMatching(q, user, req))
      && (forall i, j :: 0 <= i < j < |p.items| ==> p.items[j].createdAt <= p.items[i].createdAt)
      && p.items == Window(SortDesc(Filter(rs, q => MineMatching(q, user, req)), NewestQueryKey), req.page.GetOr(1), req.limit.GetOr(10))
      && p.current == req.page.GetOr(1)
      && p.total == Count(rs, q => MineMatching(q, user, req))
      && p.pages == PageCount(p.total, req.limit.GetOr(10))
  {
    var page, limit := req.page.GetOr(1), req.limit.GetOr(10);
    if !ValidPaging(page, limit) then ServerError("Server error while fetching queries")
    else Success(200, ListPage(rs, q => MineMatching(q, user, req), NewestQueryKey, page, limit))
  }

  /** Other customers' queries make no difference to a customer's listing. */
  lemma ListMineIgnoresOthers(rs: seq<Query>, user: UserId, req: ListRequest)
    ensures ListMine(rs, user, req) == ListMine(Filter(rs, (q: Query) => q.customer == user), user, req)
  {
    FilterOfFilter(rs, (q: Query) => q.customer == user, q => MineMatching(q, user, req));
  }

  /** `GET /api/queries/:id`: found only when it belongs to the caller. */
  function GetMine(rs: seq<Query>, id: nat, user: UserId): (r: Reply<Query>)
    ensures r.Success? <==> id < |rs| && rs[id].customer == user
    ensures r.Success? ==> r == Success(200, rs[id])
    ensures !r.Success? ==> r == NotFound("Query not found")
  {
    match FindOwnedQuery(rs, id, user)
    case None => NotFound("Query not found")
    case Some(q) => Success(200, q)
  }

  /** The body of `POST /api/queries/:id/rate`. The rating is modelled as an
      integer. */
  datatype RateRequest = RateRequest(rating: Option<int>, feedback: Option<string>)

  function RateErrors(req: RateRequest): (errors: seq<FieldError>)
    ensures errors == [] <==>
      req.rating.Some? && 1 <= req.rating.value <= 5
      && (req.feedback.None? || |Trim(req.feedback.value)| <= 500)
  {
    (if req.rating.None? || !(1 <= req.rating.value <= 5)
     then [FieldError("rating", "Rating must be between 1 and 5")] else [])
    + (if req.feedback.Some? && |Trim(req.feedback.value)| > 500
       then [FieldError("feedback", "Feedback too long")] else [])
  }

  /** The query after a rating: the rating is set, the feedback is replaced
      only by a non-empty (trimmed) feedback; nothing else changes. */
  function Rated(q: Query, req: RateRequest): (r: Query)
    requires RateErrors(req) == []
    ensures r.satisfactionRating == req.rating
    ensures Trimmed(req.feedback) != "" ==> r.feedback == Some(Trimmed(req.feedback))
    ensures Trimmed(req.feedback) == "" ==> r.feedback == q.feedback
    ensures r.(satisfactionRating := q.satisfactionRating, feedback := q.feedback) == q
    ensures SchemaValid(q) ==> SchemaValid(r)
  {
    q.(satisfactionRating := req.rating,
       feedback := if Trimmed(req.feedback) != "" then Some(Trimmed(req.feedback)) else q.feedback)
  }

  /** The handlers, over the query collection and the notification
      service. */
  class QueryRouter {
    const queries: QueryCollection
    const notifications: NS.NotificationService

    ghost predicate Valid()
      reads this, queries, notifications, notifications.store
    {
      queries.Valid() && notifications.Valid()
    }

    constructor (queries: QueryCollection, notifications: NS.NotificationService)
      requires queries.Valid() && notifications.Valid()
      ensures Valid() && this.queries == queries && this.notifications == notifications
    {
      this.queries := queries;
      this.notifications := notifications;
    }

    /** `POST /api/queries` for the authenticated customer `user`. A valid
        request stores the query, then the "Query Received" notification
        (which asks for no email), and answers 201. */
    method Create(users: NS.Users, user: UserId, req: CreateRequest,
                  sentimentOutcome: Outcome<RawSentiment>, replyOutcome: Outcome<string>, now: int)
      returns (reply: Reply<QueryReply>)
      requires Valid() && user in users
      modifies queries, notifications, notifications.store
      ensures Valid()
      ensures CreateErrors(req) != [] ==>
        && reply == BadRequest(CreateErrors(req))
        && queries.records == old(queries.records)
        && notifications.store.records == old(notifications.store.records)
      ensures CreateErrors(req) == [] ==>
        var q := CreatedQuery(user, req, notifications.env.openAiApiKey, sentimentOutcome, replyOutcome,
                              |old(queries.records)|, now);
        && queries.records == old(queries.records) + [q]
        && notifications.store.records == old(notifications.store.records)
             + [NS.RecordFor(ReceivedNotice(user, q.id), |old(notifications.store.records)|, now)]
        && reply == Success(201, QueryReply("Query created successfully", q))
      ensures notifications.sent == old(notifications.sent)
    {
      var errors := CreateErrors(req);
      if errors != [] {
        return BadRequest(errors);
      }
      var q := CreatedQuery(user, req, notifications.env.openAiApiKey, sentimentOutcome, replyOutcome,
                            |queries.records|, now);
      StoreQuery(users, q, now);
      reply := Success(201, QueryReply("Query created successfully", q));
    }

    /** The part of `POST /api/queries` after validation: save the built
        query, then notify its customer. */
    method StoreQuery(users: NS.Users, q: Query, now: int)
      requires Valid() && q.customer in users && SchemaValid(q) && q.id == |queries.records|
      modifies queries, notifications, notifications.store
      ensures Valid()
      ensures queries.records == old(queries.records) + [q]
      ensures notifications.store.records == old(notifications.store.records)
                + [NS.RecordFor(ReceivedNotice(q.customer, q.id), |old(notifications.store.records)|, now)]
      ensures notifications.sent == old(notifications.sent)
    {
      var stored := queries.Insert(q);
      assert q.(id := q.id) == q;
      NotifyReceived(users, q.customer, q.id, now);
    }

    /** The "Query Received" notification for the customer's new query `id`;
        it asks for no email, so none is sent. */
    method NotifyReceived(users: NS.Users, user: UserId, id: QueryId, now: int)
      requires notifications.Valid() && user in users
      modifies notifications, notifications.store
      ensures notifications.Valid()
      ensures notifications.store.records == old(notifications.store.records)
                + [NS.RecordFor(ReceivedNotice(user, id), |old(notifications.store.records)|, now)]
      ensures notifications.sent == old(notifications.sent)
    {
      var notice := notifications.CreateNotification(users, ReceivedNotice(user, id), now, false);
    }

    /** `POST /api/queries/:id/rate` for the authenticated customer `user`. */
    method Rate(user: UserId, id: nat, req: RateRequest, now: int) returns (reply: Reply<QueryReply>)
      requires Valid()
      modifies queries
      ensures Valid()
      ensures RateErrors(req) != [] ==> reply == BadRequest(RateErrors(req)) && queries.records == old(queries.records)
      ensures RateErrors(req) == [] && FindOwnedQuery(old(queries.records), id, user).None? ==>
        reply == NotFound("Query not found") && queries.records == old(queries.records)
      ensures RateErrors(req) == [] && FindOwnedQuery(old(queries.records), id, user).Some? ==>
        var q := Saved(old(queries.records)[id], Rated(old(queries.records)[id], req), now);
        && queries.records == old(queries.records)[id := q]
        && reply == Success(200, QueryReply("Rating submitted successfully", q))
    {
      var errors := RateErrors(req);
      if errors != [] {
        return BadRequest(errors);
      }
      var found := FindOwnedQuery(queries.records, id, user);
      if found.None? {
        return NotFound("Query not found");
      }
      var rated := Rated(found.value, req);
      var saved := queries.Save(id, rated, now);
      reply := Success(200, QueryReply("Rating submitted successfully", saved.value));
    }
  }
}

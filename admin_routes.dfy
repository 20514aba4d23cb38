/** The admin's query routes: the filtered, paged listing of all queries
    with per-status statistics, answering a query, and changing a query's
    status and priority. Answers and status changes notify the customer. */
module AdminRoutes {
  import opened Wrappers
  import opened Text
  import opened Seqs
  import opened Paging
  import opened Listing
  import opened Http
  import opened QueryModel
  import NS = NotificationService
  import NM = NotificationModel
  import QR = QueryRoutes

  // ---------------------------------------------------------------------
  // Listing
  // ---------------------------------------------------------------------

  /** The query string of `GET /api/admin/queries`; every field may be
      left out. */
  datatype AdminListRequest = AdminListRequest(
    page: Option<int>,
    limit: Option<int>,
    status: Option<string>,
    priority: Option<string>,
    category: Option<string>,
    sentiment: Option<string>,
    search: Option<string>)

  /** The search: the text occurs in the subject or in the message,
      ignoring case. */
  predicate SearchMatches(q: Query, text: string) {
    ContainsIgnoreCase(q.subject, text) || ContainsIgnoreCase(q.message, text)
  }

  /** The listing filter: each given filter must hold; a filter that is
      missing or empty is not applied. */
  predicate AdminMatching(q: Query, req: AdminListRequest) {
    && (!Given(req.status) || StatusName(q.status) == req.status.value)
    && (!Given(req.priority) || PriorityName(q.priority) == req.priority.value)
    && (!Given(req.category) || CategoryName(q.category) == req.category.value)
    && (!Given(req.sentiment) || (q.sentiment.Some? && LabelName(q.sentiment.value.polarity) == req.sentiment.value))
    && (!Given(req.search) || SearchMatches(q, req.search.value))
  }

  /** The position of a priority in the listing: the store sorts the
      stored names, so "urgent" comes first, then "medium", "low", and
      "high" last. */
  function PriorityRank(p: Priority): int {
    match p
    case Urgent => 3
    case Medium => 2
    case Low => 1
    case High => 0
  }

  /** The ranks order priorities exactly as their names compare as
      strings. */
  lemma PriorityRankIsNameOrder(a: Priority, b: Priority)
    ensures PriorityRank(a) < PriorityRank(b) <==> StringLess(PriorityName(a), PriorityName(b))
  {
    var x, y := PriorityName(a), PriorityName(b);
    if a == b {
      StringLessIrreflexive(x);
    } else {
      assert x[0] != y[0];
    }
  }

  /** `sort({ priority: -1, createdAt: -1 })`. */
  function AdminKey(q: Query): Key {
    Key(PriorityRank(q.priority), q.createdAt)
  }

  /** The `stats` of the listing: the number of queries of each status
      over the whole collection, with a key only for a status that has at
      least one query. */
  function StatusStats(qs: seq<Query>): (stats: map<string, nat>)
    ensures forall k :: k in stats ==> ParseStatus(k).Some?
  {
    if |qs| == 0 then map[]
    else
      var rest := StatusStats(qs[1..]);
      var k := StatusName(qs[0].status);
      rest[k := (if k in rest then rest[k] else 0) + 1]
  }

  predicate HasStatus(q: Query, s: Status) {
    q.status == s
  }

  /** The statistics count the queries of each status, and name no status
      without queries. */
  lemma {:induction false} StatusStatsCount(qs: seq<Query>, s: Status)
    ensures StatusName(s) in StatusStats(qs) <==> Count(qs, q => HasStatus(q, s)) > 0
    ensures StatusName(s) in StatusStats(qs) ==> StatusStats(qs)[StatusName(s)] == Count(qs, q => HasStatus(q, s))
  {
    if |qs| > 0 {
      StatusStatsCount(qs[1..], s);
      NamesRoundTrip(General, Medium, s, Neutral);
      NamesRoundTrip(General, Medium, qs[0].status, Neutral);
    }
  }

  datatype AdminListing = AdminListing(queries: Page<Query>, stats: map<string, nat>)

  /** `GET /api/admin/queries` (page 1, twenty to a page, by default). The
      model answers a page or a limit below 1 with 500; in the store only a
      page below 1 fails (a negative skip), while a zero limit means no
      limit and a negative one a single batch. */
  function ListQueries(rs: seq<Query>, req: AdminListRequest): (r: Reply<AdminListing>)
    ensures r.Success? <==> ValidPaging(req.page.GetOr(1), req.limit.GetOr(20))
    ensures !r.Success? ==> r == ServerError("Server error while fetching queries")
    ensures r.Success? ==>
      var p := r.body.queries;
      && r.code == 200
      && |p.items| <= req.limit.GetOr(20)
      && (forall q :: q in p.items ==> q in rs && AdminMatching(q, req))
      && SortedDesc(p.items, AdminKey)
      && p.items == Window(SortDesc(Filter(rs, q => AdminMatching(q, req)), AdminKey), req.page.GetOr(1), req.limit.GetOr(20))
      && p.current == req.page.GetOr(1)
      && p.total == Count(rs, q => AdminMatching(q, req))
      && p.pages == PageCount(p.total, req.limit.GetOr(20))
      && r.body.stats == StatusStats(rs)
  {
    var page, limit := req.page.GetOr(1), req.limit.GetOr(20);
    if !ValidPaging(page, limit) then ServerError("Server error while fetching queries")
    else Success(200, AdminListing(ListPage(rs, q => AdminMatching(q, req), AdminKey, page, limit), StatusStats(rs)))
  }

  /** In the listing, a query of higher priority rank comes first, and
      among equal priorities the newer one. */
  lemma ListingOrder(rs: seq<Query>, req: AdminListRequest, i: nat, j: nat)
    requires ListQueries(rs, req).Success?
    requires i < j < |ListQueries(rs, req).body.queries.items|
    ensures var items := ListQueries(rs, req).body.queries.items;
            && PriorityRank(items[j].priority) <= PriorityRank(items[i].priority)
            && (items[i].priority == items[j].priority ==> items[j].createdAt <= items[i].createdAt)
  {
  }

  /** The statistics ignore the request's filters and paging. */
  lemma StatsIgnoreFilters(rs: seq<Query>, a: AdminListRequest, b: AdminListRequest)
    requires ListQueries(rs, a).Success? && ListQueries(rs, b).Success?
    ensures ListQueries(rs, a).body.stats == ListQueries(rs, b).body.stats
  {
  }

  // ---------------------------------------------------------------------
  // Answering and status changes
  // ---------------------------------------------------------------------

  /** The body of `POST /api/admin/queries/:id/respond`. */
  datatype RespondRequest = RespondRequest(message: Option<string>, status: Option<string>)

  function RespondErrors(req: RespondRequest): (errors: seq<FieldError>)
    ensures errors == [] <==> |Trimmed(req.message)| >= 10 && (req.status.None? || ParseStatus(req.status.value).Some?)
  {
    MinLengthError("message", req.message, 10, "Response must be at least 10 characters")
    + OptionalIsInError("status", req.status, s => ParseStatus(s).Some?, InvalidValue)
  }

  /** The status an answer sets: the requested one, resolved by default. */
  function RespondStatus(req: RespondRequest): (s: Status)
    requires RespondErrors(req) == []
    ensures req.status.None? ==> s == Resolved
    ensures req.status.Some? ==> StatusName(s) == req.status.value
  {
    if req.status.None? then Resolved else ParseStatus(req.status.value).value
  }

  /** The query after `admin` answered it at `now`: the answer and the
      status are set; nothing else changes. */
  function Responded(q: Query, admin: UserId, req: RespondRequest, now: int): (r: Query)
    requires RespondErrors(req) == []
    ensures r.adminResponse == Some(AdminResponse(Trimmed(req.message), admin, now))
    ensures r.status == RespondStatus(req)
    ensures r.(adminResponse := q.adminResponse, status := q.status) == q
    ensures SchemaValid(q) ==> SchemaValid(r)
  {
    q.(adminResponse := Some(AdminResponse(Trimmed(req.message), admin, now)), status := RespondStatus(req))
  }

  /** The notification of an answer; it asks for every channel. */
  function ResponseNotice(q: Query): (n: NS.NotificationRequest)
    ensures n.recipient == q.customer && n.kind == NM.QueryResponse && n.relatedQuery == Some(q.id)
    ensures n.channels == Some(NM.ChannelRequest(Some(true), Some(true), Some(true)))
    ensures NM.ChannelsWithDefaults(n.channels) == NM.Channels(true, true, true)
  {
    NS.NotificationRequest(q.customer, NM.QueryResponse, "Response to Your Query",
      "An admin has responded to your query: \"" + q.subject + "\"", Some(q.id),
      Some(NM.ChannelRequest(Some(true), Some(true), Some(true))), None)
  }

  /** The body of `PATCH /api/admin/queries/:id/status`. */
  datatype StatusRequest = StatusRequest(status: Option<string>, priority: Option<string>)

  function StatusErrors(req: StatusRequest): (errors: seq<FieldError>)
    ensures errors == [] <==>
      req.status.Some? && ParseStatus(req.status.value).Some?
      && (req.priority.None? || ParsePriority(req.priority.value).Some?)
  {
    IsInError("status", req.status, s => ParseStatus(s).Some?, "Invalid status")
    + OptionalIsInError("priority", req.priority, s => ParsePriority(s).Some?, InvalidValue)
  }

  /** The query after a status change: the status is set, the priority
      only when one is given; nothing else changes. */
  function StatusUpdated(q: Query, req: StatusRequest): (r: Query)
    requires StatusErrors(req) == []
    ensures StatusName(r.status) == req.status.value
    ensures req.priority.Some? ==> PriorityName(r.priority) == req.priority.value
    ensures req.priority.None? ==> r.priority == q.priority
    ensures r.(status := q.status, priority := q.priority) == q
    ensures SchemaValid(q) ==> SchemaValid(r)
  {
    q.(status := ParseStatus(req.status.value).value,
       priority := if req.priority.Some? then ParsePriority(req.priority.value).value else q.priority)
  }

  /** A status change notifies the customer when the status actually
      changed, into resolved or closed. */
  predicate NotifiesOnStatusChange(before: Status, after: Status) {
    before != after && (after == Resolved || after == Closed)
  }

  /** Reopening, moving to in progress, or setting the same status again
      never notifies; every change into resolved or closed does. */
  lemma NotifiesOnlyOnClosingChange(before: Status, after: Status)
    ensures NotifiesOnStatusChange(before, after) <==> before != after && after !in {Open, InProgress}
  {
  }

  /** The notification of a status change. */
  function StatusNotice(q: Query, status: string): (n: NS.NotificationRequest)
    ensures n.recipient == q.customer && n.kind == NM.StatusUpdate && n.relatedQuery == Some(q.id)
    ensures n.channels.None?
  {
    NS.NotificationRequest(q.customer, NM.StatusUpdate, "Query Status Updated",
      "Your query \"" + q.subject + "\" has been " + status, Some(q.id), None, None)
  }

  /** The handlers, over the query collection and the notification
      service. */
  class AdminRouter {
    const queries: QueryCollection
    const notifications: NS.NotificationService

    ghost predicate Valid()
      reads this, queries, notifications, notifications.store
    {
      queries.Valid() && notifications.Valid()
    }

    constructor (queries: QueryCollection, notifications: NS.NotificationService)
      requires queries.Valid() && notifications.Valid()
      ensures Valid() && this.queries == queries && this.notifications == notifications
    {
      this.queries := queries;
      this.notifications := notifications;
    }

    /** `POST /api/admin/queries/:id/respond` by the admin `admin`. The
        query is saved first; a customer who no longer exists makes the
        handler fail with 500 after the save, without a notification. */
    method Respond(users: NS.Users, admin: UserId, id: nat, req: RespondRequest, now: int, relayAccepts: bool)
      returns (reply: Reply<QR.QueryReply>)
      requires Valid()
      modifies queries, notifications, notifications.store
      ensures Valid()
      ensures RespondErrors(req) != [] || id >= |old(queries.records)| ==>
        && queries.records == old(queries.records)
        && notifications.store.records == old(notifications.store.records)
        && notifications.sent == old(notifications.sent)
      ensures RespondErrors(req) != [] ==> reply == BadRequest(RespondErrors(req))
      ensures RespondErrors(req) == [] && id >= |old(queries.records)| ==> reply == NotFound("Query not found")
      ensures RespondErrors(req) == [] && id < |old(queries.records)| ==>
        var before := old(queries.records)[id];
        var saved := Saved(before, Responded(before, admin, req, now), now);
        && queries.records == old(queries.records)[id := saved]
        && (before.customer in users ==>
              && notifications.store.records == old(notifications.store.records)
                   + [NS.RecordFor(ResponseNotice(saved), |old(notifications.store.records)|, now)]
              && notifications.sent == NS.Outbox(old(notifications.sent), notifications.transporter, notifications.env,
                   users[before.customer], NS.RecordFor(ResponseNotice(saved), |old(notifications.store.records)|, now), relayAccepts)
              && reply == Success(200, QR.QueryReply("Response sent successfully", saved)))
        && (before.customer !in users ==>
              && notifications.store.records == old(notifications.store.records)
              && notifications.sent == old(notifications.sent)
              && reply == ServerError("Server error while responding to query"))
    {
      var errors := RespondErrors(req);
      if errors != [] {
        return BadRequest(errors);
      }
      if id >= |queries.records| {
        return NotFound("Query not found");
      }
      var saved := SaveResponse(admin, id, req, now);
      if saved.customer !in users {
        return ServerError("Server error while responding to query");
      }
      Notify(users, ResponseNotice(saved), now, relayAccepts);
      reply := Success(200, QR.QueryReply("Response sent successfully", saved));
    }

    /** Sets the answer and the status of query `id` and saves it. */
    method SaveResponse(admin: UserId, id: nat, req: RespondRequest, now: int) returns (saved: Query)
      requires queries.Valid() && RespondErrors(req) == [] && id < |queries.records|
      modifies queries
      ensures queries.Valid()
      ensures var before := old(queries.records)[id];
              saved == Saved(before, Responded(before, admin, req, now), now)
      ensures queries.records == old(queries.records)[id := saved]
      ensures saved.customer == old(queries.records)[id].customer && saved.id == id
    {
      var before := queries.records[id];
      var result := queries.Save(id, Responded(before, admin, req, now), now);
      saved := result.value;
    }

    /** `createNotification(request)` for a recipient who exists. */
    method Notify(users: NS.Users, request: NS.NotificationRequest, now: int, relayAccepts: bool)
      requires notifications.Valid() && request.recipient in users
      requires NM.RequiredFieldsPresent(request.title, request.message)
      modifies notifications, notifications.store
      ensures notifications.Valid()
      ensures notifications.store.records == old(notifications.store.records)
                + [NS.RecordFor(request, |old(notifications.store.records)|, now)]
      ensures notifications.sent == NS.Outbox(old(notifications.sent), notifications.transporter, notifications.env,
                users[request.recipient], NS.RecordFor(request, |old(notifications.store.records)|, now), relayAccepts)
    {
      var created := notifications.CreateNotification(users, request, now, relayAccepts);
    }

    /** `PATCH /api/admin/queries/:id/status`. The query is saved first; a
        customer who no longer exists makes the handler fail with 500 after
        the save, without a notification. */
    method UpdateStatus(users: NS.Users, id: nat, req: StatusRequest, now: int)
      returns (reply: Reply<QR.QueryReply>)
      requires Valid()
      modifies queries, notifications, notifications.store
      ensures Valid()
      ensures notifications.sent == old(notifications.sent)
      ensures StatusErrors(req) != [] || id >= |old(queries.records)| ==>
        && queries.records == old(queries.records)
        && notifications.store.records == old(notifications.store.records)
      ensures StatusErrors(req) != [] ==> reply == BadRequest(StatusErrors(req))
      ensures StatusErrors(req) == [] && id >= |old(queries.records)| ==> reply == NotFound("Query not found")
      ensures StatusErrors(req) == [] && id < |old(queries.records)| ==>
        var before := old(queries.records)[id];
        var after := StatusUpdated(before, req);
        var saved := Saved(before, after, now);
        && queries.records == old(queries.records)[id := saved]
        && (before.customer in users && NotifiesOnStatusChange(before.status, after.status) ==>
              notifications.store.records == old(notifications.store.records)
                + [NS.RecordFor(StatusNotice(saved, req.status.value), |old(notifications.store.records)|, now)])
        && (before.customer !in users || !NotifiesOnStatusChange(before.status, after.status) ==>
              notifications.store.records == old(notifications.store.records))
        && (before.customer in users ==> reply == Success(200, QR.QueryReply("Query updated successfully", saved)))
        && (before.customer !in users ==> reply == ServerError("Server error while updating query"))
    {
      var errors := StatusErrors(req);
      if errors != [] {
        return BadRequest(errors);
      }
      if id >= |queries.records| {
        return NotFound("Query not found");
      }
      var oldStatus := queries.records[id].status;
      var saved := SaveStatus(id, req, now);
      if saved.customer !in users {
        return ServerError("Server error while updating query");
      }
      if NotifiesOnStatusChange(oldStatus, saved.status) {
        Notify(users, StatusNotice(saved, req.status.value), now, false);
      }
      reply := Success(200, QR.QueryReply("Query updated successfully", saved));
    }

    /** Sets the status (and the priority, when given) of query `id` and
        saves it. */
    method SaveStatus(id: nat, req: StatusRequest, now: int) returns (saved: Query)
      requires queries.Valid() && StatusErrors(req) == [] && id < |queries.records|
      modifies queries
      ensures queries.Valid()
      ensures var before := old(queries.records)[id];
              var after := StatusUpdated(before, req);
              saved == Saved(before, after, now)
      ensures queries.records == old(queries.records)[id := saved]
      ensures saved.customer == old(queries.records)[id].customer && saved.id == id
      ensures saved.status == StatusUpdated(old(queries.records)[id], req).status
    {
      var before := queries.records[id];
      var result := queries.Save(id, StatusUpdated(before, req), now);
      saved := result.value;
    }
  }
}

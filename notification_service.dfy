/** The notification service: `createNotification` (persist, then look up the
    recipient, then maybe send an email), the email transport and its HTML
    template, the paged listing of a user's notifications and the two
    read-state operations. */
module NotificationService {
  import opened Wrappers
  import opened Text
  import opened Seqs
  import opened Paging
  import opened Config
  import opened NotificationModel
  import opened Listing

  /** What the service reads of a user document. `emailPreference` is
      `preferences.notifications.email`, absent when the user never set it. */
  datatype User = User(email: string, emailPreference: Option<bool>)

  /** The user collection, read-only from here. */
  type Users = map<UserId, User>

  /** The payload of `createNotification`; `channels` and `metadata` may be
      left out. */
  datatype NotificationRequest = NotificationRequest(
    recipient: UserId,
    kind: NotificationType,
    title: string,
    message: string,
    relatedQuery: Option<QueryId>,
    channels: Option<ChannelRequest>,
    metadata: Option<map<string, string>>)

  datatype ServiceError = UserNotFound | NotificationNotFound | ValidationFailed | InvalidPaging

  // ---------------------------------------------------------------------
  // Email transport
  // ---------------------------------------------------------------------

  /** The SMTP settings of the process-wide transporter. */
  datatype Transport = Transport(host: string, port: string, user: string, pass: string)

  /** `createTransporter()`: a transporter exists only when host, user and
      password are all set; the port defaults to 587. */
  function CreateTransporter(env: Env): (t: Option<Transport>)
    ensures t.Some? <==> IsSet(env.emailHost) && IsSet(env.emailUser) && IsSet(env.emailPass)
    ensures t.Some? ==> t.value.host == env.emailHost.value && t.value.user == env.emailUser.value
    ensures t.Some? ==> t.value.pass == env.emailPass.value && t.value.port == OrElse(env.emailPort, "587")
  {
    if !IsSet(env.emailHost) || !IsSet(env.emailUser) || !IsSet(env.emailPass) then None
    else Some(Transport(env.emailHost.value, OrElse(env.emailPort, "587"), env.emailUser.value, env.emailPass.value))
  }

  datatype Email = Email(from: string, to: string, subject: string, html: string)

  const DefaultFrontendUrl := "http://localhost:3000"

  /** The deep link of a notification's query. */
  function QueryLink(frontendUrl: Option<string>, q: QueryId): string {
    OrElse(frontendUrl, DefaultFrontendUrl) + "/queries/" + NatToString(q)
  }

  const TemplateOpen :=
    "\n"
    + "    <!DOCTYPE html>\n"
    + "    <html>\n"
    + "    <head>\n"
    + "      <meta charset=\"utf-8\">\n"
    + "      <meta name=\"viewport\" content=\"width=device-width, initial-scale=1.0\">\n"
    + "      <title>"
  const TemplateBeforeHeading :=
    "</title>\n"
    + "      <style>\n"
    + "        body { font-family: Arial, sans-serif; line-height: 1.6; color: #333; }\n"
    + "        .container { max-width: 600px; margin: 0 auto; padding: 20px; }\n"
    + "        .header { background: #007bff; color: white; padding: 20px; text-align: center; }\n"
    + "        .content { padding: 20px; background: #f9f9f9; }\n"
    + "        .footer { padding: 20px; text-align: center; font-size: 12px; color: #666; }\n"
    + "        .button { display: inline-block; padding: 10px 20px; background: #007bff; color: white; text-decoration: none; border-radius: 5px; }\n"
    + "      </style>\n"
    + "    </head>\n"
    + "    <body>\n"
    + "      <div class=\"container\">\n"
    + "        <div class=\"header\">\n"
    + "          <h1>Customer Service Update</h1>\n"
    + "        </div>\n"
    + "        <div class=\"content\">\n"
    + "          "
  /** The line break and indentation between the blocks of the content. */
  const ContentBreak := "\n          "
  const TemplateClose :=
    "\n"
    + "        </div>\n"
    + "        <div class=\"footer\">\n"
    + "          <p>This is an automated message from our customer service system.</p>\n"
    + "          <p>If you have any questions, please contact our support team.</p>\n"
    + "        </div>\n"
    + "      </div>\n"
    + "    </body>\n"
    + "    </html>\n"
    + "  "

  function Heading(title: string): string {
    "<h2>" + title + "</h2>"
  }

  function Paragraph(message: string): string {
    "<p>" + message + "</p>"
  }

  /** The button's link attribute. */
  function Href(frontendUrl: Option<string>, q: QueryId): string {
    "href=\"" + QueryLink(frontendUrl, q) + "\""
  }

  /** The "View Query Details" button, linking to the query's page. */
  function LinkBlock(frontendUrl: Option<string>, q: QueryId): string {
    "\n            <p>\n              <a "
    + Href(frontendUrl, q)
    + " class=\"button\">\n                View Query Details\n              </a>\n            </p>\n          "
  }

  /** Everything of the template up to where the button would go. */
  function TemplateHead(n: Notification): string {
    TemplateOpen + n.title + TemplateBeforeHeading + Heading(n.title) + ContentBreak + Paragraph(n.message) + ContentBreak
  }

  /** What follows the content paragraph: the button for a notification
      about a query, nothing otherwise. */
  function TemplateButton(n: Notification, frontendUrl: Option<string>): string {
    if n.relatedQuery.Some? then LinkBlock(frontendUrl, n.relatedQuery.value) else ""
  }

  /** `getEmailTemplate(notification)`: title and message are embedded
      verbatim, without escaping; the button is present only for a
      notification about a query. */
  function EmailTemplate(n: Notification, frontendUrl: Option<string>): string {
    TemplateHead(n) + TemplateButton(n, frontendUrl) + TemplateClose
  }

  /** The page heading and the first paragraph carry the title and the
      message as given. */
  lemma TemplateEmbedsTitleAndMessage(n: Notification, frontendUrl: Option<string>)
    ensures Contains(EmailTemplate(n, frontendUrl), "<h2>" + n.title + "</h2>")
    ensures Contains(EmailTemplate(n, frontendUrl), "<p>" + n.message + "</p>")
  {
    var button, close := TemplateButton(n, frontendUrl), TemplateClose;
    var h, p := Heading(n.title), Paragraph(n.message);
    var opening := TemplateOpen + n.title + TemplateBeforeHeading;
    ContainsPart(opening, h, []);
    assert opening + h + [] == opening + h;
    ContainsExtend(opening + h, ContentBreak, h);
    ContainsExtend(opening + h + ContentBreak, p, h);
    ContainsExtend(opening + h + ContentBreak + p, ContentBreak, h);
    ContainsExtend(TemplateHead(n), button, h);
    ContainsExtend(TemplateHead(n) + button, close, h);
    var before := opening + h + ContentBreak;
    ContainsPart(before, p, []);
    assert before + p + [] == before + p;
    ContainsExtend(before + p, ContentBreak, p);
    ContainsExtend(TemplateHead(n), button, p);
    ContainsExtend(TemplateHead(n) + button, close, p);
  }

  /** The button is the only difference a related query makes: the template
      of a notification about a query is the template of the same
      notification without one, with the button block spliced in where the
      content paragraph ends. */
  lemma TemplateButtonSplice(n: Notification, frontendUrl: Option<string>)
    requires n.relatedQuery.Some?
    ensures var with, without := EmailTemplate(n, frontendUrl), EmailTemplate(n.(relatedQuery := None), frontendUrl);
            var k, link := |TemplateHead(n)|, LinkBlock(frontendUrl, n.relatedQuery.value);
            && |with| == |without| + |link|
            && with[..k] == without[..k]
            && with[k..k + |link|] == link
            && with[k + |link|..] == without[k..]
  {
    var head, close := TemplateHead(n), TemplateClose;
    var link := LinkBlock(frontendUrl, n.relatedQuery.value);
    assert TemplateHead(n.(relatedQuery := None)) == head;
    assert TemplateButton(n.(relatedQuery := None), frontendUrl) == [];
    assert EmailTemplate(n.(relatedQuery := None), frontendUrl) == head + [] + close;
    AppendNothing(head, close);
    Splice(head + link + close, head + close, head, link, close);
  }

  /** The button of a notification about query `q` links to
      `FRONTEND_URL/queries/q`. */
  lemma TemplateLinksToQuery(n: Notification, frontendUrl: Option<string>)
    requires n.relatedQuery.Some?
    ensures Contains(EmailTemplate(n, frontendUrl), Href(frontendUrl, n.relatedQuery.value))
  {
    var href := Href(frontendUrl, n.relatedQuery.value);
    ContainsPart("\n            <p>\n              <a ", href,
      " class=\"button\">\n                View Query Details\n              </a>\n            </p>\n          ");
    ContainsWithin(TemplateHead(n), LinkBlock(frontendUrl, n.relatedQuery.value), TemplateClose, href);
  }

  /** The message `sendEmailNotification` hands to the transporter. */
  function MailFor(t: Transport, user: User, n: Notification, frontendUrl: Option<string>): (m: Email)
    ensures m.to == user.email && m.subject == n.title
    ensures m.html == EmailTemplate(n, frontendUrl)
    ensures m.from == "\"Customer Service\" <" + t.user + ">"
  {
    Email("\"Customer Service\" <" + t.user + ">", user.email, n.title, EmailTemplate(n, frontendUrl))
  }

  /** The email gate of `createNotification`: the caller asked for email,
      the recipient's stored preference is on, and a transporter exists. An
      unset preference is not "on". */
  predicate ShouldSendEmail(channels: Channels, user: User, transporter: Option<Transport>) {
    channels.email && user.emailPreference == Some(true) && transporter.Some?
  }

  // ---------------------------------------------------------------------
  // Creating notifications
  // ---------------------------------------------------------------------

  /** The document `createNotification` stores for `req` under `id`. */
  function RecordFor(req: NotificationRequest, id: nat, now: int): (n: Notification)
    ensures n.id == id && n.recipient == req.recipient && n.kind == req.kind
    ensures n.title == req.title && n.message == req.message && n.relatedQuery == req.relatedQuery
    ensures !n.isRead && n.readAt.None? && ReadStateConsistent(n)
    ensures req.channels.None? ==> n.channels == DefaultChannels
    ensures req.metadata.None? ==> n.metadata == map[]
    ensures n.createdAt == now
  {
    NewNotification(id, req.recipient, req.kind, req.title, req.message, req.relatedQuery,
                     ChannelsWithDefaults(req.channels), req.metadata.GetOr(map[]), now)
  }

  // ---------------------------------------------------------------------
  // Listing
  // ---------------------------------------------------------------------

  /** The options of `getUserNotifications`; each may be left out. */
  datatype ListOptions = ListOptions(page: Option<int>, limit: Option<int>, unreadOnly: Option<bool>)

  datatype NotificationPage = NotificationPage(
    notifications: seq<Notification>,
    current: int,
    pages: nat,
    total: nat,
    unreadCount: nat)

  /** The listing filter: the user's notifications, only the unread ones
      when `unreadOnly`. */
  predicate InFeed(n: Notification, user: UserId, unreadOnly: bool) {
    n.recipient == user && (!unreadOnly || !n.isRead)
  }

  /** The user's unread notifications. */
  predicate UnreadOf(n: Notification, user: UserId) {
    n.recipient == user && !n.isRead
  }

  /** Newest first: `sort({ createdAt: -1 })`. */
  function NewestKey(n: Notification): Key {
    Key(n.createdAt, 0)
  }

  /** The page of the user's listing for valid paging. */
  function FeedPage(rs: seq<Notification>, user: UserId, page: int, limit: int, unreadOnly: bool): (p: NotificationPage)
    requires ValidPaging(page, limit)
    ensures |p.notifications| <= limit
    ensures forall n :: n in p.notifications ==> n in rs && InFeed(n, user, unreadOnly)
    ensures forall i, j :: 0 <= i < j < |p.notifications| ==> p.notifications[j].createdAt <= p.notifications[i].createdAt
    ensures p.notifications == Window(SortDesc(Filter(rs, n => InFeed(n, user, unreadOnly)), NewestKey), page, limit)
    ensures p.current == page
    ensures p.total == Count(rs, n => InFeed(n, user, unreadOnly))
    ensures p.pages == PageCount(p.total, limit)
    ensures p.unreadCount == Count(rs, n => UnreadOf(n, user))
  {
    var listed := ListPage(rs, n => InFeed(n, user, unreadOnly), NewestKey, page, limit);
    NotificationPage(listed.items, listed.current, listed.pages, listed.total, Count(rs, n => UnreadOf(n, user)))
  }

  /** `getUserNotifications(user, options)` over the stored documents `rs`
      (page 1, limit 20 and all notifications unless the options say
      otherwise). */
  function GetUserNotifications(rs: seq<Notification>, user: UserId, options: ListOptions): (r: Result<NotificationPage, ServiceError>)
    ensures r.Ok? <==> ValidPaging(options.page.GetOr(1), options.limit.GetOr(20))
    ensures r.Err? ==> r.error == InvalidPaging
    ensures r.Ok? ==> r.value == FeedPage(rs, user, options.page.GetOr(1), options.limit.GetOr(20), options.unreadOnly.GetOr(false))
  {
    var page, limit, unreadOnly := options.page.GetOr(1), options.limit.GetOr(20), options.unreadOnly.GetOr(false);
    if !ValidPaging(page, limit) then Err(InvalidPaging)
    else Ok(FeedPage(rs, user, page, limit, unreadOnly))
  }

  /** `unreadCount` counts all of the user's unread notifications, whether or
      not the page itself is restricted to unread ones. */
  lemma UnreadCountIgnoresFilter(rs: seq<Notification>, user: UserId, page: Option<int>, limit: Option<int>)
    requires ValidPaging(page.GetOr(1), limit.GetOr(20))
    ensures var a := GetUserNotifications(rs, user, ListOptions(page, limit, Some(true)));
            var b := GetUserNotifications(rs, user, ListOptions(page, limit, Some(false)));
            a.Ok? && b.Ok? && a.value.unreadCount == b.value.unreadCount
            && a.value.unreadCount == a.value.total
  {
    var f1 := (n: Notification) => InFeed(n, user, true);
    var f2 := (n: Notification) => UnreadOf(n, user);
    FilterSamePredicate(rs, f1, f2);
  }

  /** Page 2 of twelve notifications of one user, five per page, holds five
      notifications (the sixth to tenth newest); there are three pages. */
  lemma TwelveNotificationsSecondPage(rs: seq<Notification>, user: UserId)
    requires |rs| == 12
    requires forall i :: 0 <= i < |rs| ==> rs[i].recipient == user
    ensures var r := GetUserNotifications(rs, user, ListOptions(Some(2), Some(5), None));
            && r.Ok?
            && r.value.notifications == SortDesc(rs, NewestKey)[5..10]
            && r.value.pages == 3 && r.value.total == 12
  {
    assert forall i :: 0 <= i < |rs| ==> InFeed(rs[i], user, false);
    var r := GetUserNotifications(rs, user, ListOptions(Some(2), Some(5), None));
    assert Filter(rs, n => InFeed(n, user, false)) == rs;
    assert PageCount(12, 5) == 3;
  }

  // ---------------------------------------------------------------------
  // Read state
  // ---------------------------------------------------------------------

  /** `findOne({ _id: id, recipient: user })`. */
  function FindOwned(rs: seq<Notification>, id: nat, user: UserId): (r: Option<nat>)
    ensures r.Some? ==> r.value < |rs| && rs[r.value].id == id && rs[r.value].recipient == user
    ensures r.None? ==> forall i :: 0 <= i < |rs| ==> !(rs[i].id == id && rs[i].recipient == user)
  {
    FindFirst(rs, (n: Notification) => n.id == id && n.recipient == user)
  }

  /** The stored documents after `markAsRead(id, user)`: the user's
      notification is marked read if it was unread; nothing else changes. */
  function AfterMarkAsRead(rs: seq<Notification>, id: nat, user: UserId, now: int): (r: seq<Notification>)
    ensures |r| == |rs|
    ensures FindOwned(rs, id, user).None? ==> r == rs
    ensures forall i :: 0 <= i < |rs| && rs[i].isRead ==> r[i] == rs[i]
    ensures forall i :: 0 <= i < |rs| && !(rs[i].id == id && rs[i].recipient == user) ==> r[i] == rs[i]
    ensures FindOwned(rs, id, user).Some? ==> r[FindOwned(rs, id, user).value].isRead
    ensures FindOwned(rs, id, user).Some? && !rs[FindOwned(rs, id, user).value].isRead ==>
      r[FindOwned(rs, id, user).value] == MarkedRead(rs[FindOwned(rs, id, user).value], now)
  {
    match FindOwned(rs, id, user)
    case None => rs
    case Some(i) => if rs[i].isRead then rs else rs[i := MarkedRead(rs[i], now)]
  }

  /** Marking a notification read a second time, at any later time, changes
      nothing: `readAt` keeps the time of the first call. */
  lemma MarkAsReadIdempotent(rs: seq<Notification>, id: nat, user: UserId, first: int, later: int)
    ensures AfterMarkAsRead(AfterMarkAsRead(rs, id, user, first), id, user, later) == AfterMarkAsRead(rs, id, user, first)
  {
    var once := AfterMarkAsRead(rs, id, user, first);
    var owned := (n: Notification) => n.id == id && n.recipient == user;
    forall i | 0 <= i < |rs|
      ensures owned(rs[i]) == owned(once[i])
    {
      if rs[i] != once[i] {
        assert once[i] == MarkedRead(rs[i], first);
      }
    }
    FindFirstAgrees(rs, once, owned);
  }

  /** The stored documents after `markAllAsRead(user)`. */
  function AfterMarkAllAsRead(rs: seq<Notification>, user: UserId, now: int): seq<Notification> {
    UpdatedMany(rs, n => UnreadOf(n, user), now)
  }

  /** After `markAllAsRead(user)` the user has no unread notification; every
      other user's notification and every notification already read is
      exactly as before (its `readAt` included). */
  lemma MarkAllAsReadEffect(rs: seq<Notification>, user: UserId, now: int)
    ensures var r := AfterMarkAllAsRead(rs, user, now);
            && |r| == |rs|
            && Count(r, n => UnreadOf(n, user)) == 0
            && (forall i :: 0 <= i < |rs| && (rs[i].recipient != user || rs[i].isRead) ==> r[i] == rs[i])
            && (forall i :: 0 <= i < |rs| && UnreadOf(rs[i], user) ==> r[i] == MarkedRead(rs[i], now))
  {
    FilterNone(AfterMarkAllAsRead(rs, user, now), n => UnreadOf(n, user));
  }

  /** A second `markAllAsRead` changes nothing. */
  lemma MarkAllAsReadIdempotent(rs: seq<Notification>, user: UserId, first: int, later: int)
    ensures AfterMarkAllAsRead(AfterMarkAllAsRead(rs, user, first), user, later) == AfterMarkAllAsRead(rs, user, first)
  {
  }

  // ---------------------------------------------------------------------
  // The service
  // ---------------------------------------------------------------------

  /** The emails the relay holds after notification `n` was created for
      `user`: one more exactly when the email gate opens and the relay
      accepts the mail. */
  function Outbox(sent: seq<Email>, transporter: Option<Transport>, env: Env, user: User, n: Notification, relayAccepts: bool): seq<Email>
  {
    sent + (if ShouldSendEmail(n.channels, user, transporter) && relayAccepts
            then [MailFor(transporter.value, user, n, env.frontendUrl)] else [])
  }

  /** The service's state: the notifications collection, the environment
      it was started with, the transporter built once from it, and the
      emails the mail relay accepted. */
  class NotificationService {
    const store: NotificationCollection
    const env: Env
    const transporter: Option<Transport>
    var sent: seq<Email>

    ghost predicate Valid()
      reads this, store
    {
      store.Valid() && transporter == CreateTransporter(env)
    }

    constructor (store: NotificationCollection, env: Env)
      requires store.Valid()
      ensures Valid() && this.store == store && this.env == env && sent == []
    {
      this.store := store;
      this.env := env;
      this.transporter := CreateTransporter(env);
      sent := [];
    }

    /** `sendEmailNotification(user, notification)`: never fails. Without a
        transporter it does nothing; otherwise the relay either accepts the
        mail (`relayAccepts`) or its error is swallowed. */
    method SendEmailNotification(user: User, n: Notification, relayAccepts: bool)
      modifies this
      ensures sent == old(sent) + (if transporter.Some? && relayAccepts then [MailFor(transporter.value, user, n, env.frontendUrl)] else [])
    {
      if transporter.None? {
        return;
      }
      var mail := MailFor(transporter.value, user, n, env.frontendUrl);
      if relayAccepts {
        sent := sent + [mail];
      }
    }

    /** `createNotification(req)`: the document is saved first (unless the
        schema rejects it); only then is the recipient looked up, so an
        unknown recipient fails with `UserNotFound` after the document is
        stored. An email goes out only through `ShouldSendEmail`, and a
        failed delivery does not fail the call. */
    method CreateNotification(users: Users, req: NotificationRequest, now: int, relayAccepts: bool)
      returns (r: Result<Notification, ServiceError>)
      requires Valid()
      modifies this, store
      ensures Valid()
      ensures !RequiredFieldsPresent(req.title, req.message) ==>
        r == Err(ValidationFailed) && store.records == old(store.records) && sent == old(sent)
      ensures RequiredFieldsPresent(req.title, req.message) ==>
        store.records == old(store.records) + [RecordFor(req, |old(store.records)|, now)]
      ensures RequiredFieldsPresent(req.title, req.message) && req.recipient !in users ==>
        r == Err(UserNotFound) && sent == old(sent)
      ensures RequiredFieldsPresent(req.title, req.message) && req.recipient in users ==>
        var n := RecordFor(req, |old(store.records)|, now);
        && r == Ok(n)
        && sent == Outbox(old(sent), transporter, env, users[req.recipient], n, relayAccepts)
    {
      if !RequiredFieldsPresent(req.title, req.message) {
        return Err(ValidationFailed);
      }
      var n := store.Insert(RecordFor(req, 0, now));
      if req.recipient !in users {
        return Err(UserNotFound);
      }
      var user := users[req.recipient];
      if ShouldSendEmail(n.channels, user, transporter) {
        SendEmailNotification(user, n, relayAccepts);
      }
      r := Ok(n);
    }

    /** `markAsRead(id, user)`: fails unless the notification exists and
        belongs to the user; an unread one is marked read, a read one is
        returned untouched. */
    method MarkAsRead(id: nat, user: UserId, now: int) returns (r: Result<Notification, ServiceError>)
      requires Valid()
      modifies store
      ensures Valid()
      ensures store.records == AfterMarkAsRead(old(store.records), id, user, now)
      ensures FindOwned(old(store.records), id, user).None? ==> r == Err(NotificationNotFound)
      ensures FindOwned(old(store.records), id, user).Some? ==>
        r == Ok(store.records[FindOwned(old(store.records), id, user).value])
    {
      var found := FindOwned(store.records, id, user);
      if found.None? {
        return Err(NotificationNotFound);
      }
      var i := found.value;
      if !store.records[i].isRead {
        store.MarkDocumentRead(i, now);
      }
      r := Ok(store.records[i]);
    }

    /** `markAllAsRead(user)`. */
    method MarkAllAsRead(user: UserId, now: int) returns (message: string)
      requires Valid()
      modifies store
      ensures Valid()
      ensures store.records == AfterMarkAllAsRead(old(store.records), user, now)
      ensures message == "All notifications marked as read"
    {
      store.UpdateManyMarkRead(n => UnreadOf(n, user), now);
      message := "All notifications marked as read";
    }
  }
}

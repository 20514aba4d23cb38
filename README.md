# Customer-support backend: a verified model

This project models the rule-bearing core of an AI-assisted customer-support application, written in Dafny. Customers file queries. A language model scores each query's sentiment and drafts a first reply. Admins respond and move queries through the statuses open, in-progress, resolved and closed. Notifications record each step and can be mailed.

The model covers:

- **Notifications.** The notification collection and the notification service:
  - creating a record and deciding whether to send email;
  - the HTML email template;
  - the paged per-user feed with its unread count;
  - marking one or all notifications read.
- **Queries.** The query document, with its enums, defaults, bounds and the pre-save hook that records the response time once.
- **Customer routes:** create, list, get, rate.
- **Admin routes:**
  - the filtered, sorted and paged listing, with per-status statistics;
  - respond;
  - status update, which notifies only on a change into resolved or closed.
- **Sentiment and reply post-processing.** The language model's output is an input to the model:
  - the sentiment is clamped and whitelisted;
  - constant fallbacks cover a missing key or a failure;
  - the customer-history context string.
- **The CORS allow-list** of the HTTP and socket servers.
- **The page title and navigation menu** of both client layouts.

How the model is built:

- **Stores.** The stores are classes holding a sequence of records. A record's id is its position, and records are never deleted. Handlers that save are methods with `modifies` clauses, proved against pure functions of the old store. The properties are stated as lemmas about those functions.
- **Time and environment.** Wall-clock time is an integer `now`, and environment variables are an `Env` value.
- **Outside answers.** The answers of the language model and of the mail relay are parameters.
- **The email preference.** The model follows the truthiness test at backend/services/notificationService.js:58. A preference that is absent counts as off. The user schema is not part of this model.

## Model

| member | source | states |
|---|---|---|
| NotificationModel.ChannelsWithDefaults | backend/models/Notification.js:31-35 | Each channel flag the request leaves out takes its schema default (email false, push false, in-app true); no request gives exactly the defaults |
| NotificationModel.NewNotification | backend/models/Notification.js:4-30 | A new record carries the given recipient, type, title, message, related query, channels and metadata, is unread, has no read time and is read-state consistent |
| NotificationModel.MarkedRead | backend/models/Notification.js:49-53 | The document method sets the read flag and the read time to now unconditionally, and changes nothing else |
| NotificationModel.UpdatedMany | backend/services/notificationService.js:208-211 | A bulk update marks exactly the selected records read at `now` and leaves every other record as it was |
| NotificationModel.NotificationCollection.Insert | backend/services/notificationService.js:49 | Saving appends exactly one record, numbered by its position, and keeps the store valid |
| NotificationModel.NotificationCollection.MarkDocumentRead | backend/models/Notification.js:49-53 | The in-place update replaces only record `i`, by its marked-read version |
| NotificationModel.NotificationCollection.UpdateManyMarkRead | backend/services/notificationService.js:208-211 | The store after the bulk update is the bulk update of the old store |
| NotificationService.CreateTransporter | backend/services/notificationService.js:6-21 | A transport exists iff host, user and password are all set; the port defaults to 587 |
| NotificationService.MailFor | backend/services/notificationService.js:77-84 | The mail goes to the user's address, has the notification title as subject and the template as body, and comes from "Customer Service" at the configured user |
| NotificationService.TemplateEmbedsTitleAndMessage | backend/services/notificationService.js:117-118 | The email embeds the title as the heading and the message as a paragraph, verbatim |
| NotificationService.TemplateButtonSplice | backend/services/notificationService.js:119-125 | The email with a related query is the email without one, with exactly the link block inserted after the message |
| NotificationService.TemplateLinksToQuery | backend/services/notificationService.js:121 | With a related query, the email links to the frontend URL (default http://localhost:3000) + "/queries/" + the query id |
| NotificationService.RecordFor | backend/services/notificationService.js:28-47 | The stored record carries the request's fields, is unread, and takes the default channels and empty metadata when they are omitted |
| NotificationService.FeedPage | backend/services/notificationService.js:148-173 | A feed page holds at most `limit` of the user's (unread-only if asked) notifications, newest first, the given window of them, with total, page count ceil(total/limit), and the user's unread count |
| NotificationService.GetUserNotifications | backend/services/notificationService.js:140-175 | Page 1, 20 to a page and all notifications by default; a page or limit below 1 is an error |
| NotificationService.UnreadCountIgnoresFilter | backend/services/notificationService.js:161-165 | The unread count is the same whether or not only unread notifications are listed, and equals the total of the unread-only listing |
| NotificationService.TwelveNotificationsSecondPage | backend/services/notificationService.js:148-171 | Twelve notifications, five per page: page 2 is the sixth to tenth newest, and there are 3 pages |
| NotificationService.FindOwned | backend/services/notificationService.js:185-188 | Finds a record with that id belonging to that user, or proves none exists |
| NotificationService.AfterMarkAsRead | backend/services/notificationService.js:183-198 | Only the user's own unread record with that id is changed, and it becomes the document marked read at now (read time and update time set, every other field kept); an already read record keeps its read time; an unknown or foreign id changes nothing |
| NotificationService.MarkAsReadIdempotent | backend/services/notificationService.js:194-196 | Marking a notification read twice is marking it read once |
| NotificationService.MarkAllAsReadEffect | backend/services/notificationService.js:206-213 | Afterwards the user has no unread notifications; the user's unread ones are marked read at `now`; all others are unchanged |
| NotificationService.MarkAllAsReadIdempotent | backend/services/notificationService.js:206-211 | Marking all read twice is marking all read once |
| NotificationService.NotificationService.SendEmailNotification | backend/services/notificationService.js:70-91 | Without a transport, or when the relay refuses, nothing is sent and nothing is raised; otherwise exactly the mail for this user and notification is sent |
| NotificationService.NotificationService.CreateNotification | backend/services/notificationService.js:26-67 | A missing title or message fails before saving; otherwise exactly one record is appended before the recipient is looked up; an unknown recipient fails with the record kept; email is sent only if the email channel, the user's preference and a transport all hold |
| NotificationService.NotificationService.MarkAsRead | backend/services/notificationService.js:183-203 | The store becomes the marked-read store; an unknown or foreign id fails with "Notification not found"; otherwise the record is returned |
| NotificationService.NotificationService.MarkAllAsRead | backend/services/notificationService.js:206-218 | The store becomes the all-marked-read store and the reply is "All notifications marked as read" |
| QueryModel.ParseCategory | backend/models/Query.js:18-22 | Accepts exactly the five category names, each back to its value |
| QueryModel.ParsePriority | backend/models/Query.js:23-27 | Accepts exactly the four priority names |
| QueryModel.ParseStatus | backend/models/Query.js:28-32 | Accepts exactly the four status names |
| QueryModel.ParseLabel | backend/models/Query.js:35 | Accepts exactly the three sentiment labels |
| QueryModel.NamesRoundTrip | backend/models/Query.js:18-35 | Every enum value's name parses back to that value |
| QueryModel.NewQuery | backend/models/Query.js:9-37 | A new query has the trimmed subject, status open, no admin response, response time, rating or feedback, and both timestamps at creation; it passes validation iff the trimmed subject and the message are non-empty and the sentiment is within bounds |
| QueryModel.RoundMinutesNearest | backend/models/Query.js:76 | The response time is the whole number of minutes nearest to the elapsed milliseconds, halves rounded up |
| QueryModel.PreSave | backend/models/Query.js:74-79 | The hook changes only the response time; it sets it exactly when the status was modified, is resolved and the response time is unset or 0 |
| QueryModel.ResponseTimeSetOnce | backend/models/Query.js:75 | A non-zero response time is never recomputed by a later save |
| QueryModel.ZeroResponseTimeRecomputed | backend/models/Query.js:75 | A response time of 0 counts as unset and is recomputed when the query is saved as newly resolved |
| QueryModel.QueryCollection.Insert | backend/routes/queries.js:51 | A schema-valid query is appended under the next id; an invalid one is refused and the store kept |
| QueryModel.Saved | backend/models/Query.js:63-79 | Saving a document nobody modified writes it back unchanged; a modified one gets update time now; only the update time and the hook's response time can differ from what the handler set |
| QueryModel.QueryCollection.Save | backend/models/Query.js:63-79 | The store holds the saved document in place of the old one if it is schema-valid, and is unchanged otherwise |
| QueryModel.FindOwnedQuery | backend/routes/queries.js:112-115 | A query is found iff that id exists and belongs to that customer |
| AiService.Normalise | backend/services/aiService.js:41-45 | Score clamped to [-1,1]: in range kept, above 1 gives 1, below -1 gives -1, missing gives 0; label kept only if positive, neutral or negative (else neutral), confidence clamped to [0,1] (missing or 0 gives 0.5) |
| AiService.AnalyzeQuery | backend/services/aiService.js:8-55 | Without a key or on failure the result is score 0, neutral, confidence 0.5; otherwise the normalised answer; always within the schema bounds |
| AiService.ConfidenceNormalised | backend/services/aiService.js:44 | A confidence above 1 becomes 1, below 0 becomes 0, and 0 becomes 0.5 |
| AiService.CategoryFallbackNamesCategory | backend/services/aiService.js:60-63 | The no-key reply names the query's category |
| AiService.GenerateAIResponse | backend/services/aiService.js:58-99 | The category fallback without a key, the fixed error reply on failure, otherwise the trimmed answer, which trimming leaves unchanged |
| AiService.LastSubjects | backend/services/aiService.js:113 | The subjects of the last three (or fewer) history entries, in order |
| AiService.HistoryContext | backend/services/aiService.js:112-114 | The context is empty exactly when there is no history |
| AiService.HistoryContextNamesRecentSubjects | backend/services/aiService.js:112-114 | The context mentions each of the last three subjects and ends with the latest one |
| AiService.GenerateAdminSuggestions | backend/services/aiService.js:102-149 | Three fixed suggestions without a key, three other fixed ones on failure, otherwise the model's answer |
| Http.MinLengthError | backend/routes/queries.js:12-13 | A trimmed field shorter than the minimum yields exactly its message, and only then |
| Http.OptionalIsInError | backend/routes/queries.js:14 | An optional enum field is an error exactly when it is present and not allowed |
| Http.IsInError | backend/routes/admin.js:149 | A required enum field is an error exactly when it is missing or not allowed |
| QueryRoutes.CreateErrors | backend/routes/queries.js:11-20 | No errors exactly when the trimmed subject has 5+ characters, the trimmed message 10+, and the category, if given, is one of the five |
| QueryRoutes.PriorityFor | backend/routes/queries.js:29-34 | High iff negative with confidence above 0.7, low iff positive, medium otherwise, never urgent |
| QueryRoutes.RequestCategory | backend/routes/queries.js:22 | The category is the one the request names, or general |
| QueryRoutes.CreatedQuery | backend/routes/queries.js:22-49 | The stored query passes the schema's validation, belongs to the caller, is open and was created now |
| QueryRoutes.CreatedQueryFields | backend/routes/queries.js:22-49 | The stored query has the trimmed subject and message, the requested category or general, the analysed sentiment and the priority it implies, and the AI reply with confidence 0.8; nothing else is set |
| QueryRoutes.ReceivedNotice | backend/routes/queries.js:55-61 | The notification is a query-response to the caller about the new query, with default channels |
| QueryRoutes.ListMine | backend/routes/queries.js:77-107 | The page is the window of page `page` (1 by default), skipping (page-1)*limit, over the caller's queries filtered by status and category when given, newest first; at most `limit` (10 by default) items, with total and ceil(total/limit) pages |
| QueryRoutes.ListMineIgnoresOthers | backend/routes/queries.js:82 | Other customers' queries make no difference to the caller's listing |
| QueryRoutes.GetMine | backend/routes/queries.js:110-128 | Found iff the query exists and belongs to the caller; otherwise 404 "Query not found" |
| QueryRoutes.RateErrors | backend/routes/queries.js:131-139 | No errors exactly when a rating in 1..5 is given and the trimmed feedback, if any, has at most 500 characters |
| QueryRoutes.Rated | backend/routes/queries.js:152-153 | The rating is set; the feedback is replaced only by a non-empty one; nothing else changes; schema validity is kept |
| QueryRoutes.QueryRouter.Create | backend/routes/queries.js:11-74 | Invalid input: 400, no change. Valid input: exactly the created query is appended, then exactly one "Query Received" notification, no email, and 201 with the query |
| QueryRoutes.QueryRouter.Rate | backend/routes/queries.js:131-164 | Invalid input: 400, no change. A foreign or unknown query: 404, no change. Otherwise only that query is replaced by its rated, saved version |
| AdminRoutes.PriorityRankIsNameOrder | backend/routes/admin.js:41 | Sorting priorities as strings descending puts urgent, then medium, then low, then high |
| AdminRoutes.StatusStats | backend/routes/admin.js:48-55 | Every key of the statistics is a status name |
| AdminRoutes.StatusStatsCount | backend/routes/admin.js:48-67 | A status appears in the statistics iff some query has it, and maps to the number of queries with it |
| AdminRoutes.ListQueries | backend/routes/admin.js:11-73 | The page is the window of page `page` (1 by default), skipping (page-1)*limit, over the queries matching every given filter and the case-insensitive search of subject or message, in admin order; at most `limit` (20 by default) items, with total, ceil(total/limit) pages and the statistics of all queries |
| AdminRoutes.ListingOrder | backend/routes/admin.js:41 | Within a page, the priority rank never rises, and within one priority the creation time never rises |
| AdminRoutes.StatsIgnoreFilters | backend/routes/admin.js:48-55 | The statistics do not depend on the request's filters or page |
| AdminRoutes.RespondErrors | backend/routes/admin.js:94-96 | No errors exactly when the trimmed response has 10+ characters and the status, if given, is one of the four |
| AdminRoutes.RespondStatus | backend/routes/admin.js:104 | The status defaults to resolved |
| AdminRoutes.Responded | backend/routes/admin.js:114-119 | Only the admin response (trimmed message, admin, now) and the status change |
| AdminRoutes.ResponseNotice | backend/routes/admin.js:125-132 | A query-response notification to the query's customer about the query, on all three channels |
| AdminRoutes.StatusErrors | backend/routes/admin.js:148-150 | No errors exactly when the status is one of the four and the priority, if given, one of the four |
| AdminRoutes.StatusUpdated | backend/routes/admin.js:167-169 | The status is replaced; the priority only when one is given; nothing else changes |
| AdminRoutes.NotifiesOnlyOnClosingChange | backend/routes/admin.js:174 | A status notification fires iff the status changed and the new one is resolved or closed |
| AdminRoutes.StatusNotice | backend/routes/admin.js:175-181 | A status-update notification to the query's customer about the query, with default channels |
| AdminRoutes.AdminRouter.Respond | backend/routes/admin.js:94-145 | 400 or 404 change nothing. Otherwise only that query is replaced by its responded, saved version. With a known customer, exactly one all-channel notification follows, one email is added to the outbox exactly when the customer's preference, the transport and the relay allow it, and the reply is "Response sent successfully". With the customer gone, the reply is a 500 after the save |
| AdminRoutes.AdminRouter.UpdateStatus | backend/routes/admin.js:148-195 | 400 or 404 change nothing. Otherwise only that query is replaced by its updated, saved version. A status notification is stored iff the status changed into resolved or closed and the customer exists. No email is sent |
| Paging.PageCount | backend/routes/queries.js:99 | `pages` is ceil(total/limit): the pages hold all documents, the last page is non-empty, and there are 0 pages iff there is nothing to list |
| Paging.Window | backend/routes/queries.js:80-91 | The window skips (page-1)*limit documents and takes at most `limit` of them, in order |
| Paging.WindowNonEmptyIff | backend/routes/admin.js:23-61 | A page holds documents iff its number is at most the page count |
| Paging.EveryDocumentOnItsPage | backend/routes/admin.js:23-61 | Document i is at position i mod limit of page i div limit + 1 |
| Listing.ListPage | backend/services/notificationService.js:148-171 | A page is the window of the filtered listing sorted by key descending, holding only matching documents, with the filtered total and its page count |
| Listing.PagesCoverListing | backend/services/notificationService.js:158-171 | A page is non-empty iff its number is at most the reported page count |
| Text.TrimSpec | backend/server.js:26 | The trimmed string is an infix of the original with only JavaScript white space before and after it |
| Text.TrimEndsClean | backend/server.js:26 | The trimmed string neither starts nor ends with white space |
| Text.TrimClean | backend/server.js:26 | A string without white space at either end is its own trim |
| Text.TrimIdempotent | backend/routes/queries.js:12 | Trimming twice is trimming once, so the schema's trim of an already trimmed subject changes nothing |
| Cors.AdditionalOrigins | backend/server.js:26 | One extra origin per comma-separated part, or none when the variable is unset or empty |
| Cors.AdditionalOriginsTrimmed | backend/server.js:26 | Each extra origin is its comma-separated part, trimmed |
| Cors.ExactOrigins | backend/server.js:19-35 | The exact origins are the four local ones, FRONTEND_URL and the extra ones, with empty or unset entries dropped |
| Cors.EntriesOf | backend/server.js:19-35 | The list is the exact origins, in order, followed by the seven platform patterns |
| Cors.EntryOfListAllows | backend/server.js:43-51 | Some entry of the list allows an origin iff it is one of the exact origins or matches a platform pattern |
| Cors.AnyAllowsIff | backend/server.js:43-51 | The `some` over the list holds iff some entry allows the origin |
| Cors.CheckOrigin | backend/server.js:38-72 | The one origin check of both servers either lets the request through or refuses it with "Not allowed by CORS" |
| Cors.CheckOriginIff | backend/server.js:38-58 | An origin is let through iff it is missing, equals a listed origin, or is "https://" + text without line breaks + a platform suffix |
| Cors.ConfiguredOriginsAllowed | backend/server.js:19-24 | The local origins are always allowed, and so is FRONTEND_URL when set |
| Cors.AdditionalOriginsRoundTrip | backend/server.js:26 | A comma-joined list of trimmed, comma-free origins is read back exactly |
| Cors.AdditionalOriginAllowed | backend/server.js:26-35 | Each non-empty extra origin is allowed |
| Cors.RenderOriginAllowed | backend/server.js:28 | https://my-app.onrender.com is allowed |
| Cors.PlainHttpRefused | backend/server.js:28-58 | http://my-app.onrender.com is refused unless listed exactly |
| Cors.UnlistedOriginRefused | backend/server.js:53-58 | https://example.org is refused unless listed exactly |
| LayoutRoot.GetPageTitle | src/components/Layout/Layout.js:272-288 | A title is always non-empty, and is either a table title, "Query Details" or "AI Customer Service" |
| LayoutRoot.ExactPathTitles | src/components/Layout/Layout.js:272-281 | Each of the seven exact paths, '/about' included, gets its table title |
| LayoutRoot.DetailsPaths | src/components/Layout/Layout.js:283-285 | Every path "/queries/" + x with x not "new" is titled "Query Details" |
| LayoutRoot.DefaultTitleIff | src/components/Layout/Layout.js:287 | The default title is given exactly to paths that are neither in the table nor a query's page |
| LayoutRoot.MenuItems | src/components/Layout/Layout.js:68-80 | Non-admins get exactly the four base items; admins get them followed by Admin Dashboard and All Queries; every item's path has its own table title |
| LayoutFrontend.GetPageTitle | frontend/src/components/Layout/Layout.js:219-234 | A title is always non-empty, and is either a table title, "Query Details" or "AI Customer Service" |
| LayoutFrontend.AboutIsUnknown | frontend/src/components/Layout/Layout.js:219-233 | '/about' is not in this client's table and gets the default title |
| LayoutFrontend.TitlesAgreeExceptAbout | frontend/src/components/Layout/Layout.js:219-233 | This client titles a path like the top-level client iff the path is not '/about' |
| LayoutFrontend.MenuItems | frontend/src/components/Layout/Layout.js:64-75 | Non-admins get the three base items (the top-level menu without About); admins get them followed by the two admin items; every item's path has its own table title |

## Left out

- Socket.io emits (`query-created`, `query-updated`) and all logging are not modelled; they do not change stored state.
- The OpenAI calls and the nodemailer transport are foreign I/O. Their answers are parameters: `Outcome` for the language model, `relayAccepts` for the relay.
- The prompts sent to the language model, including the history context's place in the prompt, are not modelled; only the context string is.
- JSON coercions in the language model's answer (numeric strings, NaN, non-string labels) are not modelled; score and confidence are optional reals.
- AiService.GenerateAdminSuggestions: the parsed answer is taken as a sequence of strings; an answer that parses to something else is not modelled.
- The authentication middleware is left out. Handlers take the caller's id, and the caller is required to be a known user.
- The admin single-query route, the admin dashboard and the notification and AI routes are not part of this model.
- Tags, attachments and population of referenced documents are not modelled.
- Ids are positions in the store, rendered in decimal in the email link. The store's hexadecimal object ids are not modelled.
- AdminRoutes.ListQueries: the search string is matched as a literal substring with ASCII case folding. The store reads it as a regular expression, so the model agrees with the source only for searches without metacharacters.
- AdminRoutes.ListQueries: a page or limit below 1 is answered as a server error. In the store, only a page below 1 fails, through a negative skip. `limit(0)` means no limit, and a negative limit returns a single batch of at most |limit| documents. Neither is modelled.
- QueryRoutes.ListMine: a page or limit below 1 is answered as a server error, as above; the store's readings of a zero or negative limit are not modelled. Query-string numbers arrive as text and are not modelled as such.
- NotificationService.GetUserNotifications: a page or limit below 1 is an error value. In the store, only a page below 1 fails (a negative skip). A zero limit means no limit and a negative one a single batch; neither is modelled.
- QueryRoutes.RateErrors: the rating is an integer. Ratings sent as numeric strings or non-integral numbers are not modelled.
- The order among documents with equal sort keys is fixed by the model's insertion sort. The store leaves it unspecified.
- Http.MinLengthError: lengths are counted in characters. The validator's `isLength` also counts a surrogate pair as one, so the two agree outside the Basic Multilingual Plane. Recent versions of the validator also skip the variation selectors U+FE0E and U+FE0F, which the model counts, so a subject such as "Help" followed by U+FE0F passes here and fails there.
- QueryRoutes.RateErrors: the 500-character feedback bound counts characters the same way, with the same difference for U+FE0E and U+FE0F.
- The titles table is a plain map. Object-prototype keys such as "constructor" are not modelled; routed paths always start with "/".
- Menu icons and all rendering are not modelled.

/** The Notification document: its schema (required fields, the closed set
    of types, the defaults of the read state and of the channel flags) and
    the collection that stores it, with the document method that marks one
    notification read. */
module NotificationModel {
  import opened Wrappers

  type UserId = nat
  type QueryId = nat

  datatype NotificationType = QueryResponse | StatusUpdate | System | Reminder

  /** The three channel flags the caller asked for (not what was delivered). */
  datatype Channels = Channels(email: bool, push: bool, inApp: bool)

  /** Channel flags as a caller may give them: any flag may be left out. */
  datatype ChannelRequest = ChannelRequest(email: Option<bool>, push: Option<bool>, inApp: Option<bool>)

  /** The schema defaults of the channel flags. */
  const DefaultChannels := Channels(false, false, true)

  /** The stored flags: every flag left out takes its schema default. */
  function ChannelsWithDefaults(req: Option<ChannelRequest>): (c: Channels)
    ensures req.None? ==> c == DefaultChannels
    ensures req.Some? && req.value.email.Some? ==> c.email == req.value.email.value
    ensures req.Some? && req.value.push.Some? ==> c.push == req.value.push.value
    ensures req.Some? && req.value.inApp.Some? ==> c.inApp == req.value.inApp.value
    ensures req.Some? && req.value.email.None? ==> !c.email
    ensures req.Some? && req.value.push.None? ==> !c.push
    ensures req.Some? && req.value.inApp.None? ==> c.inApp
  {
    match req
    case None => DefaultChannels
    case Some(r) => Channels(r.email.GetOr(false), r.push.GetOr(false), r.inApp.GetOr(true))
  }

  datatype Notification = Notification(
    id: nat,
    recipient: UserId,
    kind: NotificationType,
    title: string,
    message: string,
    relatedQuery: Option<QueryId>,
    isRead: bool,
    readAt: Option<int>,
    channels: Channels,
    metadata: map<string, string>,
    createdAt: int,
    updatedAt: int)

  /** The schema's `required` validators: a missing or empty string fails. */
  predicate RequiredFieldsPresent(title: string, message: string) {
    title != "" && message != ""
  }

  /** `readAt` is unset exactly while the notification is unread. */
  predicate ReadStateConsistent(n: Notification) {
    n.isRead <==> n.readAt.Some?
  }

  /** A document as `new Notification({...})` builds it: unread, with no
      `readAt`, both timestamps at the time of creation. */
  function NewNotification(id: nat, recipient: UserId, kind: NotificationType, title: string,
                           message: string, relatedQuery: Option<QueryId>, channels: Channels,
                           metadata: map<string, string>, now: int): (n: Notification)
    ensures !n.isRead && n.readAt.None? && ReadStateConsistent(n)
    ensures n.id == id && n.recipient == recipient && n.kind == kind
    ensures n.title == title && n.message == message && n.relatedQuery == relatedQuery
    ensures n.channels == channels && n.metadata == metadata
    ensures n.createdAt == now && n.updatedAt == now
  {
    Notification(id, recipient, kind, title, message, relatedQuery, false, None, channels, metadata, now, now)
  }

  /** The document method `markAsRead`: sets the read flag and the read time
      unconditionally, whatever the previous read state. */
  function MarkedRead(n: Notification, now: int): (r: Notification)
    ensures r.isRead && r.readAt == Some(now) && r.updatedAt == now
    ensures ReadStateConsistent(r)
    ensures r.(isRead := n.isRead, readAt := n.readAt, updatedAt := n.updatedAt) == n
  {
    n.(isRead := true, readAt := Some(now), updatedAt := now)
  }

  /** The documents of `rs` after a bulk update that marks read every
      document `selects` picks. */
  function UpdatedMany(rs: seq<Notification>, selects: Notification -> bool, now: int): (r: seq<Notification>)
    ensures |r| == |rs|
    ensures forall i :: 0 <= i < |rs| && selects(rs[i]) ==> r[i] == MarkedRead(rs[i], now)
    ensures forall i :: 0 <= i < |rs| && !selects(rs[i]) ==> r[i] == rs[i]
  {
    seq(|rs|, i requires 0 <= i < |rs| => if selects(rs[i]) then MarkedRead(rs[i], now) else rs[i])
  }

  /** The notifications collection. Notifications are never deleted, so a
      document's id is its position in the collection. */
  class NotificationCollection {
    var records: seq<Notification>

    ghost predicate Valid()
      reads this
    {
      forall i :: 0 <= i < |records| ==> records[i].id == i && ReadStateConsistent(records[i])
    }

    constructor ()
      ensures Valid() && records == []
    {
      records := [];
    }

    /** `new Notification({...}).save()`: stores a new document under the
        next id. */
    method Insert(n: Notification) returns (stored: Notification)
      requires Valid() && ReadStateConsistent(n)
      modifies this
      ensures Valid()
      ensures stored == n.(id := |old(records)|)
      ensures records == old(records) + [stored]
    {
      stored := n.(id := |records|);
      records := records + [stored];
    }

    /** `notification.markAsRead()` on the stored document `i`, then `save()`. */
    method MarkDocumentRead(i: nat, now: int)
      requires Valid() && i < |records|
      modifies this
      ensures Valid()
      ensures records == old(records)[i := MarkedRead(old(records)[i], now)]
    {
      records := records[i := MarkedRead(records[i], now)];
    }

    /** `updateMany(filter, { isRead: true, readAt: now })`: every document
        the filter selects is marked read; the others are left alone. */
    method UpdateManyMarkRead(selects: Notification -> bool, now: int)
      requires Valid()
      modifies this
      ensures Valid()
      ensures records == UpdatedMany(old(records), selects, now)
    {
      records := UpdatedMany(records, selects, now);
    }
  }
}

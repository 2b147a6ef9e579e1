/**
 * The notification inbox: marking read, the tab filter, and the tables that
 * give each notification type its icon and colour.
 */
module Notifications {
  import opened Wrappers
  import opened Seqs

  datatype Sender = Sender(name: string, username: string, avatar: string)

  /** One notification; `kind` is the source's free-form `type` string. */
  datatype Notification = Notification(
    id: int, kind: string, user: Sender, postImage: Option<string>,
    message: string, timeAgo: string, isRead: bool)

  /** The seven types the tables know. */
  const KnownKinds: set<string> := {"like", "comment", "follow", "mention", "tag", "story", "follow_request"}

  /** `getNotificationIcon`. */
  function Icon(kind: string): (icon: string)
    ensures icon == "person-add" <==> kind == "follow" || kind == "follow_request"
    ensures icon == "notifications" <==> kind !in KnownKinds
  {
    match kind
    case "like" => "heart"
    case "comment" => "chatbubble"
    case "follow" => "person-add"
    case "mention" => "at"
    case "tag" => "pricetag"
    case "story" => "camera"
    case "follow_request" => "person-add"
    case _ => "notifications"
  }

  /** `getNotificationColor`. */
  function Colour(kind: string): (colour: string)
    ensures colour == "#999" <==> kind !in KnownKinds
  {
    match kind
    case "like" => "#FF3040"
    case "comment" => "#405DE6"
    case "follow" => "#8E44AD"
    case "mention" => "#F39C12"
    case "tag" => "#27AE60"
    case "story" => "#E74C3C"
    case "follow_request" => "#9B59B6"
    case _ => "#999"
  }

  /**
   * Every known type has its own colour, so the colour tells the type apart
   * even where the icon does not (follow and follow requests share one).
   */
  lemma ColourIdentifiesKnownKind(a: string, b: string)
    requires a in KnownKinds && b in KnownKinds
    requires Colour(a) == Colour(b)
    ensures a == b
  {
  }

  /** `markAsRead(id)`: the notifications with that id become read. */
  function MarkRead(ns: seq<Notification>, id: int): (r: seq<Notification>)
    ensures |r| == |ns|
    ensures forall i :: 0 <= i < |ns| ==> r[i] == ns[i].(isRead := r[i].isRead)
    ensures forall i :: 0 <= i < |ns| ==> r[i].isRead == (ns[i].isRead || ns[i].id == id)
  {
    seq(|ns|, i requires 0 <= i < |ns| => if ns[i].id == id then ns[i].(isRead := true) else ns[i])
  }

  /** `markAllAsRead`: every notification becomes read. */
  function MarkAllRead(ns: seq<Notification>): (r: seq<Notification>)
    ensures |r| == |ns|
    ensures forall i :: 0 <= i < |ns| ==> r[i] == ns[i].(isRead := true)
  {
    seq(|ns|, i requires 0 <= i < |ns| => ns[i].(isRead := true))
  }

  /** The number of unread notifications. */
  function UnreadCount(ns: seq<Notification>): (n: nat)
    ensures n <= |ns|
  {
    if ns == [] then 0 else (if ns[0].isRead then 0 else 1) + UnreadCount(ns[1..])
  }

  lemma MarkReadIdempotent(ns: seq<Notification>, id: int)
    ensures MarkRead(MarkRead(ns, id), id) == MarkRead(ns, id)
  {
  }

  /** Marking one notification read never raises the unread count, and removes the matching ones from it. */
  lemma {:induction false} MarkReadLowersUnread(ns: seq<Notification>, id: int)
    ensures UnreadCount(MarkRead(ns, id)) <= UnreadCount(ns)
    ensures (exists i :: 0 <= i < |ns| && ns[i].id == id && !ns[i].isRead) ==> UnreadCount(MarkRead(ns, id)) < UnreadCount(ns)
    decreases |ns|
  {
    if ns != [] {
      MarkReadLowersUnread(ns[1..], id);
      assert MarkRead(ns, id)[1..] == MarkRead(ns[1..], id);
      if exists i :: 0 <= i < |ns| && ns[i].id == id && !ns[i].isRead {
        var i :| 0 <= i < |ns| && ns[i].id == id && !ns[i].isRead;
        if i > 0 {
          assert ns[1..][i - 1].id == id && !ns[1..][i - 1].isRead;
        }
      }
    }
  }

  /** After marking all read nothing is unread. */
  lemma {:induction false} MarkAllReadClearsUnread(ns: seq<Notification>)
    ensures UnreadCount(MarkAllRead(ns)) == 0
    decreases |ns|
  {
    if ns != [] {
      MarkAllReadClearsUnread(ns[1..]);
      assert MarkAllRead(ns)[1..] == MarkAllRead(ns[1..]);
    }
  }

  /** Marking one read and then all read is the same as marking all read. */
  lemma MarkAllReadAbsorbsMarkRead(ns: seq<Notification>, id: int)
    ensures MarkAllRead(MarkRead(ns, id)) == MarkAllRead(ns)
  {
  }

  /** The tab filter: 'mentions' keeps mentions and tags, 'likes' keeps likes and comments, any other tab keeps all. */
  predicate ShownOnTab(tab: string, n: Notification) {
    if tab == "all" then true
    else if tab == "mentions" then n.kind in ["mention", "tag"]
    else if tab == "likes" then n.kind in ["like", "comment"]
    else true
  }

  /** `filteredNotifications`. */
  function FilterByTab(ns: seq<Notification>, tab: string): (r: seq<Notification>)
    ensures tab != "mentions" && tab != "likes" ==> r == ns
    ensures tab == "mentions" ==> forall i :: 0 <= i < |r| ==> r[i].kind == "mention" || r[i].kind == "tag"
    ensures tab == "likes" ==> forall i :: 0 <= i < |r| ==> r[i].kind == "like" || r[i].kind == "comment"
    ensures forall i :: 0 <= i < |r| ==> r[i] in ns
    ensures forall i :: 0 <= i < |ns| && ShownOnTab(tab, ns[i]) ==> ns[i] in r
  {
    var r := Filter(n => ShownOnTab(tab, n), ns);
    if tab != "mentions" && tab != "likes" then
      FilterKeepsAll(n => ShownOnTab(tab, n), ns);
      r
    else r
  }

  /** The filtered list keeps the order of the inbox. */
  lemma FilterByTabPreservesOrder(ns: seq<Notification>, tab: string)
    ensures IsSubsequence(FilterByTab(ns, tab), ns)
  {
    FilterIsSubsequence(n => ShownOnTab(tab, n), ns);
  }

  /** The state of the notification screen. */
  class NotificationScreen {
    var notifications: seq<Notification>
    var activeTab: string

    constructor (seed: seq<Notification>)
      ensures notifications == seed && activeTab == "all"
    {
      notifications, activeTab := seed, "all";
    }

    method MarkAsRead(id: int)
      modifies this`notifications
      ensures notifications == MarkRead(old(notifications), id)
    {
      notifications := MarkRead(notifications, id);
    }

    method MarkAllAsRead()
      modifies this`notifications
      ensures notifications == MarkAllRead(old(notifications))
      ensures UnreadCount(notifications) == 0
    {
      notifications := MarkAllRead(notifications);
      MarkAllReadClearsUnread(old(notifications));
    }

    function Visible(): (r: seq<Notification>)
      reads this
      ensures IsSubsequence(r, notifications)
    {
      FilterByTabPreservesOrder(notifications, activeTab);
      FilterByTab(notifications, activeTab)
    }
  }
}

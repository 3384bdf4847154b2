/** The navigation bar (src/components/portal/Navbar.tsx): the unread
    notification count, marking everything read, and the role badge. */
module Navbar {
  import opened Wrappers
  import opened Data
  import Seqs

  function IsUnread(n: Notification): bool
  {
    !n.read
  }

  /** `unreadCount`. */
  function UnreadCount(ns: seq<Notification>): (k: nat)
    ensures k <= |ns|
    ensures k == 0 <==> forall i :: 0 <= i < |ns| ==> ns[i].read
  {
    assert !(forall i :: 0 <= i < |ns| ==> ns[i].read) ==> Seqs.Filter(ns, IsUnread) != [] by {
      if exists i :: 0 <= i < |ns| && !ns[i].read {
        var i :| 0 <= i < |ns| && !ns[i].read;
        Seqs.FilterMembership(ns, IsUnread, ns[i]);
      }
    }
    assert (forall i :: 0 <= i < |ns| ==> ns[i].read) ==> Seqs.Filter(ns, IsUnread) == [] by {
      if forall i :: 0 <= i < |ns| ==> ns[i].read {
        Seqs.FilterKeepsNone(ns, IsUnread);
      }
    }
    Seqs.Count(ns, IsUnread)
  }

  function MarkRead(n: Notification): Notification
  {
    n.(read := true)
  }

  /** The list after `markAllRead`. */
  function AllRead(ns: seq<Notification>): (r: seq<Notification>)
    ensures |r| == |ns|
    ensures forall i :: 0 <= i < |r| ==> r[i] == ns[i].(read := true)
  {
    seq(|ns|, i requires 0 <= i < |ns| => MarkRead(ns[i]))
  }

  /** After marking everything read nothing is unread, and marking again
      changes nothing. */
  lemma AllReadClears(ns: seq<Notification>)
    ensures UnreadCount(AllRead(ns)) == 0
    ensures AllRead(AllRead(ns)) == AllRead(ns)
  {
  }

  /** `getRoleDisplayName`. */
  function RoleDisplayName(role: string): (name: string)
    ensures role == "super_admin" ==> name == "Super Admin"
    ensures role == "state_member" ==> name == "State Member"
    ensures role != "super_admin" && role != "state_member" ==> name == "Employee"
  {
    if role == "super_admin" then "Super Admin"
    else if role == "state_member" then "State Member"
    else "Employee"
  }

  /** `getRoleBadgeVariant`. */
  function RoleBadgeVariant(role: string): (v: Variant)
    ensures v == Success <==> role == "super_admin"
    ensures v == Warning <==> role == "state_member"
    ensures v == DefaultVariant <==> role != "super_admin" && role != "state_member"
  {
    if role == "super_admin" then Success
    else if role == "state_member" then Warning
    else DefaultVariant
  }

  /** The badge colour and the display name single out the same roles. */
  lemma BadgeMatchesName(role: string)
    ensures RoleBadgeVariant(role) == DefaultVariant <==> RoleDisplayName(role) == "Employee"
  {
  }

  /** `getNotifIcon`: the text colour of a notification's icon. */
  function NotificationColor(kind: NotificationType): string
  {
    match kind
    case InfoNotice => "text-accent"
    case WarningNotice => "text-warning"
    case SuccessNotice => "text-success"
    case UrgentNotice => "text-destructive"
  }

  /** The bar's state: the notification list. */
  class NavbarState {
    var notifications: seq<Notification>

    constructor(saved: Option<seq<Notification>>)
      ensures notifications == saved.GetOr(DefaultNotifications)
    {
      notifications := saved.GetOr(DefaultNotifications);
    }

    method MarkAllRead()
      modifies this
      ensures notifications == AllRead(old(notifications))
      ensures UnreadCount(notifications) == 0
    {
      notifications := AllRead(notifications);
      AllReadClears(old(notifications));
    }
  }
}

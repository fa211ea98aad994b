/** The notification list and its "mark all as read" action. */
module Notifications {
  datatype NotificationItem = NotificationItem(id: int, message: string, timestamp: string, read: bool)

  /** `markAllAsRead`: every item, in place, with `read` set. */
  function MarkAllAsRead(ns: seq<NotificationItem>): (r: seq<NotificationItem>)
    ensures |r| == |ns|
    ensures forall i :: 0 <= i < |ns| ==> r[i].read
    ensures forall i :: 0 <= i < |ns| ==>
      r[i].id == ns[i].id && r[i].message == ns[i].message && r[i].timestamp == ns[i].timestamp
  {
    if ns == [] then [] else [ns[0].(read := true)] + MarkAllAsRead(ns[1..])
  }

  /** Items still unread. */
  function UnreadCount(ns: seq<NotificationItem>): (n: nat)
    ensures n <= |ns|
    ensures n == 0 <==> forall i :: 0 <= i < |ns| ==> ns[i].read
  {
    if ns == [] then 0 else (if ns[0].read then 0 else 1) + UnreadCount(ns[1..])
  }

  /** Marking twice is marking once, and nothing is left unread. */
  lemma MarkAllAsReadIdempotent(ns: seq<NotificationItem>)
    ensures MarkAllAsRead(MarkAllAsRead(ns)) == MarkAllAsRead(ns)
    ensures UnreadCount(MarkAllAsRead(ns)) == 0
  {
  }

  /** A list that is already read is left as it is. */
  lemma MarkAllAsReadFixesReadLists(ns: seq<NotificationItem>)
    requires UnreadCount(ns) == 0
    ensures MarkAllAsRead(ns) == ns
  {
  }

  /** The five items the screen starts with, two of them unread. */
  function InitialNotifications(): (ns: seq<NotificationItem>)
    ensures |ns| == 5 && UnreadCount(ns) == 2
  {
    var ns := [
      NotificationItem(1, "Vous avez accumulé 3 retards ce mois-ci. Merci de respecter les horaires.", "2 hours ago", false),
      NotificationItem(2, "Votre demande de congé du 10 au 15 mars a été approuvée.", "5 hours ago", false),
      NotificationItem(3, "Votre temps de pause dépasse la durée autorisée. Merci de reprendre votre poste.", "1 day ago", true),
      NotificationItem(4, "Votre responsable a demandé une justification pour votre retard du 12 février.", "2 days ago", true),
      NotificationItem(5, "N'oubliez pas la réunion d'équipe aujourd'hui à 14h.", "3 days ago", true)];
    assert ns[1..][1..][1..][1..][1..] == [];
    ns
  }
}

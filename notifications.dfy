/** The notifications page (src/app/dashboard/notifications/page.tsx): a fixed
    initial list, dismissed one card at a time. */
module Notifications {
  import opened Text

  datatype NotificationType = FormResponse | SystemUpdate | PerformanceAlerts

  datatype Notification = Notification(ntype: NotificationType, title: string, description: string, timestamp: string)

  /** The list the page starts with. */
  const INITIAL: seq<Notification> := [
    Notification(FormResponse,
      "New response: \"You have 5 new submissions for Customer Satisfaction Survey\"",
      "Last submitted by Sarah M., 2 mins ago",
      "24 July 2025 at 9:30am"),
    Notification(SystemUpdate,
      "Story mode form : Scenario \U{2018}Store Assistant Demo\U{2019} has been published",
      "Published by Admin \U{2022} 2 mins ago",
      "24 July 2025 at 9:30am"),
    Notification(PerformanceAlerts,
      "Form alert : Product Knowledge Quiz has reached 500 total completions",
      "Last milestone hit 2 weeks ago",
      "24 July 2025 at 9:30am")
  ]

  /** The page starts with three notifications, one of each type, in this order. */
  lemma InitialList()
    ensures |INITIAL| == 3
    ensures INITIAL[0].ntype == FormResponse && INITIAL[1].ntype == SystemUpdate
    ensures INITIAL[2].ntype == PerformanceAlerts
  {
  }

  /** `prev.filter((_, i) => i !== index)`: the walk over the list, with the
      index counted down as it goes. */
  function Dismiss<T>(ns: seq<T>, index: int): (r: seq<T>)
    ensures |r| <= |ns|
  {
    if ns == [] then [] else (if index == 0 then [] else [ns[0]]) + Dismiss(ns[1..], index - 1)
  }

  /** A valid index removes exactly that card, keeps the others in order and
      shortens the list by one. */
  lemma DismissInRange<T>(ns: seq<T>, index: int)
    requires 0 <= index < |ns|
    ensures Dismiss(ns, index) == ns[..index] + ns[index + 1..]
    ensures |Dismiss(ns, index)| == |ns| - 1
    ensures multiset(Dismiss(ns, index)) + multiset{ns[index]} == multiset(ns)
  {
    DismissRemoves(ns, index);
    RemoveAt(ns, index);
  }

  /** Cutting one element out of a list. */
  lemma RemoveAt<T>(s: seq<T>, i: int)
    requires 0 <= i < |s|
    ensures |s[..i] + s[i + 1..]| == |s| - 1
    ensures multiset(s[..i] + s[i + 1..]) + multiset{s[i]} == multiset(s)
  {
    assert s == s[..i] + [s[i]] + s[i + 1..];
  }

  lemma {:induction false} DismissRemoves<T>(ns: seq<T>, index: int)
    requires 0 <= index < |ns|
    ensures Dismiss(ns, index) == ns[..index] + ns[index + 1..]
  {
    if index == 0 {
      DismissOutOfRange(ns[1..], -1);
      assert Dismiss(ns, index) == [] + Dismiss(ns[1..], -1);
    } else {
      var tail := ns[1..];
      DismissRemoves(tail, index - 1);
      assert Dismiss(ns, index) == [ns[0]] + Dismiss(tail, index - 1);
      assert ns[..index] == [ns[0]] + tail[..index - 1];
      assert ns[index + 1..] == tail[index..];
    }
  }

  /** An index outside the list leaves it unchanged. */
  lemma {:induction false} DismissOutOfRange<T>(ns: seq<T>, index: int)
    requires index < 0 || index >= |ns|
    ensures Dismiss(ns, index) == ns
  {
    if ns != [] {
      DismissOutOfRange(ns[1..], index - 1);
    }
  }

  /** `Notifications (n)` */
  function Header(n: nat): string {
    "Notifications (" + NatToString(n) + ")"
  }

  datatype NotificationsView =
    | EmptyState(header: string)
    | Cards(header: string, cards: seq<Notification>)

  /** The page: the empty state exactly when there is no notification, and a
      header that counts the current list either way. */
  function Render(ns: seq<Notification>): (v: NotificationsView)
    ensures v.EmptyState? <==> |ns| == 0
    ensures v.header == Header(|ns|)
    ensures v.Cards? ==> v.cards == ns
  {
    if |ns| == 0 then
      assert NatToString(0) == "0";
      EmptyState("Notifications (0)")
    else Cards(Header(|ns|), ns)
  }

  /** Dismissing every card of the initial list, first card first, reaches the
      empty state. */
  lemma DismissAllReachesEmpty()
    ensures Render(Dismiss(Dismiss(Dismiss(INITIAL, 0), 0), 0)).EmptyState?
  {
    DismissInRange(INITIAL, 0);
    DismissInRange(Dismiss(INITIAL, 0), 0);
    DismissInRange(Dismiss(Dismiss(INITIAL, 0), 0), 0);
  }
}

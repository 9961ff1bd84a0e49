/** The notification bell: pushed notifications kept newest first and capped at ten,
    a badge on the bell, and a popup opened and closed by clicks. */
module NotificationBell {
  import opened Wrappers
  import opened Lists

  /** At most this many notifications are kept. */
  const MaxKept: nat := 10

  datatype Kind = NewMessage | NewPost
  datatype Sender = Sender(id: string, fullName: string, profilePic: string)
  datatype Notification = Notification(kind: Kind, fromUser: Sender, message: string,
                                       chatId: Option<string>, postId: Option<string>, time: string)

  /** `[notif, ...prev.slice(0, 9)]`: the new notification first, then the newest nine
      of the earlier ones. */
  function Prepend(n: Notification, prev: seq<Notification>): (r: seq<Notification>)
    ensures |r| == if |prev| < MaxKept then |prev| + 1 else MaxKept
    ensures r[0] == n
    ensures r[1..] == prev[..|r| - 1]
  {
    [n] + Take(prev, MaxKept - 1)
  }

  /** The list after the notifications `arrivals` are pushed one after the other. */
  function ReceiveAll(prev: seq<Notification>, arrivals: seq<Notification>): seq<Notification>
    decreases |arrivals|
  {
    if arrivals == [] then prev else ReceiveAll(Prepend(arrivals[0], prev), arrivals[1..])
  }

  /** Prepending is taking the ten newest of the list with the new notification first. */
  lemma PrependIsTake(n: Notification, prev: seq<Notification>)
    ensures Prepend(n, prev) == Take([n] + prev, MaxKept)
  {
    var r, t := Prepend(n, prev), Take([n] + prev, MaxKept);
    assert |r| == |t|;
    forall i | 0 <= i < |r| ensures r[i] == t[i] {
      if i > 0 {
        assert r[i] == r[1..][i - 1];
      }
    }
  }

  /** Whatever arrives, the list holds the ten most recent notifications, newest first. */
  lemma {:induction false} ReceiveAllKeepsNewest(prev: seq<Notification>, arrivals: seq<Notification>)
    requires |prev| <= MaxKept
    ensures ReceiveAll(prev, arrivals) == Take(Reverse(arrivals) + prev, MaxKept)
    decreases |arrivals|
  {
    if arrivals == [] {
      assert Reverse(arrivals) + prev == prev;
    } else {
      var n, rest := arrivals[0], arrivals[1..];
      ReceiveAllKeepsNewest(Prepend(n, prev), rest);
      PrependIsTake(n, prev);
      TakeOfTaken(Reverse(rest), [n] + prev, MaxKept);
      calc {
        Reverse(rest) + ([n] + prev);
        (Reverse(rest) + [n]) + prev;
        Reverse(arrivals) + prev;
      }
    }
  }

  /** What the badge on the bell shows. */
  datatype Badge = Hidden | Count(n: nat) | NinePlus

  /** No badge for an empty list, "9+" above nine, the count otherwise. */
  function BadgeFor(count: nat): (b: Badge)
    ensures b == Hidden <==> count == 0
    ensures b == NinePlus <==> count > 9
    ensures b.Count? ==> b.n == count && 1 <= count <= 9
  {
    if count == 0 then Hidden else if count > 9 then NinePlus else Count(count)
  }

  /** With the cap in place, "9+" is shown exactly when the list is full. */
  lemma NinePlusIffFull(notifications: seq<Notification>)
    requires |notifications| <= MaxKept
    ensures BadgeFor(|notifications|) == NinePlus <==> |notifications| == MaxKept
  {
  }

  /** The chat a click on the notification opens: its `chatId` when that is truthy. */
  function ChatToOpen(n: Notification): (r: Option<string>)
    ensures r.Some? <==> n.chatId.Some? && n.chatId.value != ""
    ensures r.Some? ==> r == n.chatId
  {
    if n.chatId.Some? && n.chatId.value != "" then n.chatId else None
  }

  class Bell {
    var notifications: seq<Notification>
    var showPopup: bool

    ghost predicate Valid()
      reads this
    {
      |notifications| <= MaxKept
    }

    constructor ()
      ensures Valid() && notifications == [] && !showPopup
    {
      notifications, showPopup := [], false;
    }

    /** The socket's "notification" handler (the sound it plays is not modelled). */
    method HandleNotification(n: Notification)
      requires Valid()
      modifies this
      ensures Valid()
      ensures notifications == Prepend(n, old(notifications))
      ensures showPopup
    {
      notifications := Prepend(n, notifications);
      showPopup := true;
    }

    /** "Clear All". */
    method ClearAll()
      requires Valid()
      modifies this
      ensures Valid()
      ensures notifications == [] && showPopup == old(showPopup)
    {
      notifications := [];
    }

    /** A click on the bell. */
    method ToggleBell()
      requires Valid()
      modifies this
      ensures Valid()
      ensures showPopup == !old(showPopup) && notifications == old(notifications)
    {
      showPopup := !showPopup;
    }

    /** The popup's close button and a click on the backdrop. */
    method ClosePopup()
      requires Valid()
      modifies this
      ensures Valid()
      ensures !showPopup && notifications == old(notifications)
    {
      showPopup := false;
    }

    /** A click on the notification at `index`: open its chat when it names one, and
        close the popup in every case. */
    method ClickNotification(index: nat) returns (chat: Option<string>)
      requires Valid() && index < |notifications|
      modifies this
      ensures Valid()
      ensures chat == ChatToOpen(old(notifications)[index])
      ensures !showPopup && notifications == old(notifications)
    {
      var notif := notifications[index];
      chat := None;
      if notif.chatId.Some? && notif.chatId.value != "" {
        chat := Some(notif.chatId.value);
      }
      showPopup := false;
    }

    function Badge(): (b: Badge)
      reads this
      requires Valid()
      ensures b == BadgeFor(|notifications|)
      ensures b == NinePlus <==> |notifications| == MaxKept
    {
      NinePlusIffFull(notifications);
      BadgeFor(|notifications|)
    }
  }
}

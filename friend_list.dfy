/** The friend list panel: loading the list, choosing a friend, removing one, with the
    chosen friend kept consistent with the list throughout. */
module FriendList {
  import opened Wrappers
  import opened Lists

  const NoToken := "No auth token"
  const FetchFailed := "Failed to fetch friends"
  const RemoveFailed := "Failed to remove friend"

  datatype Friend = Friend(id: string, name: string, email: string)

  /** How a request ended: an ok response with its body, a non-ok response with the
      body's `msg`, or a thrown error with its message (a failed request or a body that
      could not be read). */
  datatype Reply<T> = Ok(body: T) | NotOk(msg: string) | Thrown(message: string)

  /** `localStorage.getItem("token")` is truthy. */
  predicate HasToken(token: Option<string>) {
    token.Some? && token.value != ""
  }

  /** The message of the error a failed request throws: `data.msg || fallback` for a
      non-ok response, the error's own message otherwise. */
  function FailureMessage<T>(reply: Reply<T>, fallback: string): (msg: string)
    requires !reply.Ok?
    ensures reply.NotOk? && reply.msg == "" ==> msg == fallback
    ensures reply.NotOk? && reply.msg != "" ==> msg == reply.msg
    ensures reply.Thrown? ==> msg == reply.message
  {
    match reply
    case NotOk(m) => if m != "" then m else fallback
    case Thrown(m) => m
  }

  /** The friend chosen after a successful load: the first one, or none. */
  function FirstId(friends: seq<Friend>): (id: string)
    ensures friends == [] ==> id == ""
    ensures friends != [] ==> id == friends[0].id
  {
    if friends == [] then "" else friends[0].id
  }

  /** The chosen id is empty or the id of a listed friend. */
  predicate SelectionConsistent(friends: seq<Friend>, selected: string) {
    selected == "" || exists i | 0 <= i < |friends| :: friends[i].id == selected
  }

  /** `prev.filter((f) => f._id !== friendId)` */
  function WithoutFriend(friends: seq<Friend>, friendId: string): (r: seq<Friend>)
    ensures forall i | 0 <= i < |r| :: r[i].id != friendId && r[i] in friends
    ensures forall i | 0 <= i < |friends| && friends[i].id != friendId :: friends[i] in r
    ensures forall f :: multiset(r)[f] == if f.id != friendId then multiset(friends)[f] else 0
  {
    FilterCounts(friends, (f: Friend) => f.id != friendId);
    Filter(friends, (f: Friend) => f.id != friendId)
  }

  /** Removing a friend keeps the other friends in their order. */
  lemma WithoutFriendInOrder(a: seq<Friend>, b: seq<Friend>, friendId: string)
    ensures WithoutFriend(a + b, friendId) == WithoutFriend(a, friendId) + WithoutFriend(b, friendId)
  {
    FilterAppend(a, b, (f: Friend) => f.id != friendId);
  }

  /** Removing a friend keeps the selection consistent, and the removed id (when not
      empty) is never the one chosen afterwards. */
  lemma RemoveKeepsSelection(friends: seq<Friend>, selected: string, friendId: string)
    requires SelectionConsistent(friends, selected)
    ensures var after := if friendId == selected then "" else selected;
      && SelectionConsistent(WithoutFriend(friends, friendId), after)
      && (friendId != "" ==> after != friendId)
  {
    if friendId != selected && selected != "" {
      var i :| 0 <= i < |friends| && friends[i].id == selected;
      var rest := WithoutFriend(friends, friendId);
      assert friends[i] in rest;
      var j :| 0 <= j < |rest| && rest[j] == friends[i];
    }
  }

  class FriendListPanel {
    var friends: seq<Friend>
    var selectedFriendId: string
    var loading: bool
    var error: Option<string>

    /** The chosen friend is one of the listed ones (or none is chosen), and nothing is
        loading between two handlers. */
    ghost predicate Valid()
      reads this
    {
      SelectionConsistent(friends, selectedFriendId) && !loading
    }

    constructor ()
      ensures Valid() && friends == [] && selectedFriendId == "" && error == None
    {
      friends, selectedFriendId, loading, error := [], "", false, None;
    }

    /** `fetchFriends`: with a token and an ok reply the list is replaced and the first
        friend chosen; otherwise the error is set and the list and choice stay. */
    method FetchFriends(token: Option<string>, reply: Reply<seq<Friend>>) returns (requested: bool)
      requires Valid()
      modifies this
      ensures Valid()
      ensures requested <==> HasToken(token)
      ensures requested && reply.Ok? ==>
        friends == reply.body && selectedFriendId == FirstId(reply.body) && error == None
      ensures !HasToken(token) ==>
        friends == old(friends) && selectedFriendId == old(selectedFriendId) && error == Some(NoToken)
      ensures requested && !reply.Ok? ==>
        friends == old(friends) && selectedFriendId == old(selectedFriendId)
        && error == Some(FailureMessage(reply, FetchFailed))
    {
      loading := true;
      error := None;
      requested := HasToken(token);
      if !requested {
        error := Some(NoToken);
      } else if !reply.Ok? {
        error := Some(FailureMessage(reply, FetchFailed));
      } else {
        var data := reply.body;
        friends := data;
        if |data| > 0 {
          selectedFriendId := data[0].id;
        } else {
          selectedFriendId := "";
        }
      }
      loading := false;
    }

    /** A click on a listed friend chooses it. */
    method SelectFriend(friendId: string)
      requires Valid()
      requires exists i | 0 <= i < |friends| :: friends[i].id == friendId
      modifies this
      ensures Valid()
      ensures selectedFriendId == friendId && friends == old(friends) && error == old(error)
    {
      selectedFriendId := friendId;
    }

    /** `removeFriend` (the Remove button does not also choose its row): on success the
        friend leaves the list and, if it was chosen, the choice is cleared; on any
        failure an alert is raised and the list and choice stay. */
    method RemoveFriend(friendId: string, token: Option<string>, reply: Reply<()>)
      returns (requested: bool, alert: Option<string>)
      requires Valid()
      modifies this
      ensures Valid()
      ensures requested <==> HasToken(token)
      ensures error == old(error)
      ensures requested && reply.Ok? ==>
        && friends == WithoutFriend(old(friends), friendId)
        && selectedFriendId == (if friendId == old(selectedFriendId) then "" else old(selectedFriendId))
        && alert == None
      ensures requested && reply.Ok? && friendId != "" ==> selectedFriendId != friendId
      ensures !HasToken(token) ==>
        friends == old(friends) && selectedFriendId == old(selectedFriendId)
        && alert == Some("Error: " + NoToken)
      ensures requested && !reply.Ok? ==>
        friends == old(friends) && selectedFriendId == old(selectedFriendId)
        && alert == Some("Error: " + FailureMessage(reply, RemoveFailed))
    {
      requested := HasToken(token);
      if !requested {
        alert := Some("Error: " + NoToken);
        return;
      }
      if !reply.Ok? {
        alert := Some("Error: " + FailureMessage(reply, RemoveFailed));
        return;
      }
      RemoveKeepsSelection(friends, selectedFriendId, friendId);
      friends := WithoutFriend(friends, friendId);
      if friendId == selectedFriendId {
        selectedFriendId := "";
      }
      alert := None;
    }
  }
}

/** The dashboard feed: captions posted, edited and deleted through the server, with a
    per-post menu. */
module Dashboard {
  import opened Wrappers
  import opened Lists
  import opened Text

  datatype Post = Post(id: string, caption: string)

  /** `posts.filter((p) => p._id !== postId)` */
  function RemovePost(posts: seq<Post>, postId: string): (r: seq<Post>)
    ensures |r| <= |posts|
    ensures forall i | 0 <= i < |r| :: r[i].id != postId && r[i] in posts
    ensures forall i | 0 <= i < |posts| && posts[i].id != postId :: posts[i] in r
    ensures forall p :: multiset(r)[p] == if p.id != postId then multiset(posts)[p] else 0
  {
    FilterCounts(posts, (p: Post) => p.id != postId);
    Filter(posts, (p: Post) => p.id != postId)
  }

  /** Deleting keeps the surviving posts in their order: deleting from two runs of posts
      deletes from each. */
  lemma RemovePostInOrder(a: seq<Post>, b: seq<Post>, postId: string)
    ensures RemovePost(a + b, postId) == RemovePost(a, postId) + RemovePost(b, postId)
  {
    FilterAppend(a, b, (p: Post) => p.id != postId);
  }

  /** `posts.map((p) => (p._id === editingPostId ? updatedPost : p))`: with no post being
      edited no post matches. */
  function ReplacePost(posts: seq<Post>, editingPostId: Option<string>, updated: Post): (r: seq<Post>)
    ensures |r| == |posts|
    ensures forall i | 0 <= i < |posts| ::
      r[i] == if Some(posts[i].id) == editingPostId then updated else posts[i]
    ensures editingPostId.None? ==> r == posts
  {
    UpdateWhere(posts, (p: Post) => Some(p.id) == editingPostId, (p: Post) => updated)
  }

  /** Every field of the feed. */
  datatype FeedState = FeedState(caption: string, posts: seq<Post>, editingPostId: Option<string>,
                                 editingCaption: string, menuOpenFor: Option<string>)

  class Feed {
    var caption: string
    var posts: seq<Post>
    var editingPostId: Option<string>
    var editingCaption: string
    var menuOpenFor: Option<string>

    function State(): FeedState
      reads this
    {
      FeedState(caption, posts, editingPostId, editingCaption, menuOpenFor)
    }

    constructor ()
      ensures State() == FeedState("", [], None, "", None)
    {
      caption, posts, editingPostId, editingCaption, menuOpenFor := "", [], None, "", None;
    }

    /** The load effect: the decoded list, when the request and its body succeed,
        becomes the feed. */
    method Load(data: Option<seq<Post>>)
      modifies this
      ensures data.None? ==> State() == old(State())
      ensures data.Some? ==> State() == old(State()).(posts := data.value)
    {
      if data.Some? {
        posts := data.value;
      }
    }

    /** The caption input. */
    method ChangeCaption(text: string)
      modifies this
      ensures State() == old(State()).(caption := text)
    {
      caption := text;
    }

    /** `handlePost`, with the decoded answer passed in (None when the request or its
        body failed): a blank caption raises the alert and sends nothing; otherwise the
        returned post goes first and the caption is cleared. */
    method HandlePost(newPost: Option<Post>) returns (requested: bool, alerted: bool)
      modifies this
      ensures requested <==> !Blank(old(caption))
      ensures alerted <==> !requested
      ensures !requested || newPost.None? ==> State() == old(State())
      ensures requested && newPost.Some? ==>
        State() == old(State()).(posts := [newPost.value] + old(posts), caption := "")
    {
      requested := !Blank(caption);
      alerted := !requested;
      if !requested || newPost.None? {
        return;
      }
      posts := [newPost.value] + posts;
      caption := "";
    }

    /** `handleDelete`: without confirmation nothing happens; once the request completes,
        whatever its status, the post leaves the list and the menu closes. */
    method HandleDelete(postId: string, confirmed: bool, completed: bool) returns (requested: bool)
      modifies this
      ensures requested <==> confirmed
      ensures !(confirmed && completed) ==> State() == old(State())
      ensures confirmed && completed ==>
        State() == old(State()).(posts := RemovePost(old(posts), postId), menuOpenFor := None)
    {
      requested := confirmed;
      if !confirmed || !completed {
        return;
      }
      posts := RemovePost(posts, postId);
      menuOpenFor := None;
    }

    /** `startEdit` */
    method StartEdit(post: Post)
      modifies this
      ensures State() == old(State()).(editingPostId := Some(post.id), editingCaption := post.caption,
                                       menuOpenFor := None)
    {
      editingPostId := Some(post.id);
      editingCaption := post.caption;
      menuOpenFor := None;
    }

    /** The edit box's onChange. */
    method ChangeEditingCaption(text: string)
      modifies this
      ensures State() == old(State()).(editingCaption := text)
    {
      editingCaption := text;
    }

    /** `cancelEdit` */
    method CancelEdit()
      modifies this
      ensures State() == old(State()).(editingPostId := None, editingCaption := "")
    {
      editingPostId := None;
      editingCaption := "";
    }

    /** `saveEdit`, with the decoded answer passed in: a blank caption raises the alert
        and sends nothing; otherwise the post being edited is replaced by the answer and
        editing ends. */
    method SaveEdit(updated: Option<Post>) returns (requested: bool, alerted: bool)
      modifies this
      ensures requested <==> !Blank(old(editingCaption))
      ensures alerted <==> !requested
      ensures !requested || updated.None? ==> State() == old(State())
      ensures requested && updated.Some? ==>
        State() == old(State()).(posts := ReplacePost(old(posts), old(editingPostId), updated.value),
                                 editingPostId := None, editingCaption := "")
    {
      requested := !Blank(editingCaption);
      alerted := !requested;
      if !requested || updated.None? {
        return;
      }
      posts := ReplacePost(posts, editingPostId, updated.value);
      editingPostId := None;
      editingCaption := "";
    }

    /** The three-dots button: open this post's menu, or close it when it is open. */
    method ToggleMenu(postId: string)
      modifies this
      ensures menuOpenFor == Toggle(old(menuOpenFor), postId)
      ensures State() == old(State()).(menuOpenFor := menuOpenFor)
    {
      menuOpenFor := if menuOpenFor == Some(postId) then None else Some(postId);
    }
  }
}

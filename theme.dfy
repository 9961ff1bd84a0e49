/** The frame-themed post board: a purely client-side list of posts with likes,
    comments, edits, deletion, a frame filter, and a comment box and share menu that
    exclude each other. */
module Theme {
  import opened Wrappers
  import opened Lists
  import opened Text

  datatype Comment = Comment(id: int, text: string)

  datatype Post = Post(id: int, text: string, frame: string,
                       mediaUrl: Option<string>, mediaType: Option<string>,
                       likes: int, likedByUser: bool, comments: seq<Comment>)

  /** The file picked for a post; only its MIME type is read. */
  datatype Media = Media(mimeType: string)

  datatype Frame = Frame(id: string, name: string, style: string, borderColor: string, extraClass: string)

  /** The value of the filter that shows every post. */
  const ShowAll := "all"

  const Frames: seq<Frame> := [
    Frame("frame1", "Classic Pink (Pulse)", "bg-pink-100 border-pink-500 text-pink-700", "#ec4899", "anim-pulse-border"),
    Frame("frame2", "Nature Green (Glow)", "bg-green-100 border-green-600 text-green-800", "#16a34a", "anim-glow-border"),
    Frame("frame3", "Sky Blue (Rotate)", "bg-blue-100 border-blue-500 text-blue-700", "#3b82f6", "anim-rotate-border"),
    Frame("frame4", "Sunset Orange (Bounce)", "bg-orange-100 border-orange-500 text-orange-700", "#f97316", "anim-bounce-border"),
    Frame("frame5", "Royal Purple (Shadow Glow)", "bg-purple-900 border-purple-700 text-purple-300", "#7c3aed", "anim-shadow-glow"),
    Frame("frame6", "Cool Teal (Slide)", "bg-teal-900 border-teal-700 text-teal-300", "#0d9488", "anim-slide-border"),
    Frame("frame7", "Sunny Yellow (Flower Spin)", "bg-yellow-100 border-yellow-500 text-yellow-800", "#ca8a04", "flower-frame anim-flower-spin"),
    Frame("frame8", "Rose Red (Dark Glow Flower)", "bg-rose-900 border-rose-700 text-rose-300", "#be123c", "dark-frame flower-frame anim-glow-flower")
  ]

  // ------------------------------------------------------------ frame lookup

  /** `frames.find((f) => f.id === id)`: the first frame with that id. */
  function FindFrame(frames: seq<Frame>, id: string): (r: Option<Frame>)
    ensures r.None? <==> forall i | 0 <= i < |frames| :: frames[i].id != id
    ensures r.Some? ==> exists k | 0 <= k < |frames| ::
      frames[k] == r.value && r.value.id == id && forall m | 0 <= m < k :: frames[m].id != id
  {
    if frames == [] then None
    else if frames[0].id == id then Some(frames[0])
    else
      var r := FindFrame(frames[1..], id);
      assert r.Some? ==> exists k | 0 <= k < |frames| - 1 ::
        frames[1..][k] == r.value && r.value.id == id && forall m | 0 <= m < k :: frames[1..][m].id != id;
      r
  }

  /** `frames.find(...) || frames[0]`: the frame with the given id, the first frame when
      no frame has it. */
  function CurrentFrame(id: string): (f: Frame)
    ensures f in Frames
    ensures (exists i | 0 <= i < |Frames| :: Frames[i].id == id) ==> f.id == id
    ensures (forall i | 0 <= i < |Frames| :: Frames[i].id != id) ==> f == Frames[0]
  {
    match FindFrame(Frames, id)
    case Some(frame) => frame
    case None => Frames[0]
  }

  // ------------------------------------------------------------ list transforms

  /** The like button's effect on one post: the flag flips and the count moves with it. */
  function ToggleLike(p: Post): (q: Post)
    ensures q.likedByUser == !p.likedByUser
    ensures q.likes == if p.likedByUser then p.likes - 1 else p.likes + 1
    ensures q.(likes := p.likes, likedByUser := p.likedByUser) == p
  {
    p.(likedByUser := !p.likedByUser, likes := if !p.likedByUser then p.likes + 1 else p.likes - 1)
  }

  function LikePost(posts: seq<Post>, id: int): (r: seq<Post>)
    ensures |r| == |posts|
    ensures forall i | 0 <= i < |posts| :: r[i] == if posts[i].id == id then ToggleLike(posts[i]) else posts[i]
  {
    UpdateWhere(posts, (p: Post) => p.id == id, ToggleLike)
  }

  /** Liking twice gives back the post, and the list, it started from. */
  lemma LikeTwice(posts: seq<Post>, id: int)
    ensures forall p: Post :: ToggleLike(ToggleLike(p)) == p
    ensures LikePost(LikePost(posts, id), id) == posts
  {
    var twice := LikePost(LikePost(posts, id), id);
    forall i | 0 <= i < |posts| ensures twice[i] == posts[i] {
      if posts[i].id == id {
        assert ToggleLike(ToggleLike(posts[i])) == posts[i];
      }
    }
  }

  /** The like count of a post created here and only liked or unliked here. */
  predicate LikesConsistent(p: Post) {
    p.likes == if p.likedByUser then 1 else 0
  }

  predicate AllLikesConsistent(posts: seq<Post>) {
    forall i | 0 <= i < |posts| :: LikesConsistent(posts[i])
  }

  /** The post `handlePost` creates. */
  function NewPost(id: int, text: string, frame: string, media: Option<Media>, blobUrl: string): (p: Post)
    ensures p.id == id && p.text == text && p.frame == frame
    ensures p.likes == 0 && !p.likedByUser && p.comments == []
    ensures p.mediaUrl.Some? <==> media.Some?
    ensures media.Some? ==> p.mediaUrl == Some(blobUrl) && p.mediaType == Some(media.value.mimeType)
    ensures media.None? ==> p.mediaType == None
  {
    match media
    case None => Post(id, text, frame, None, None, 0, false, [])
    case Some(m) => Post(id, text, frame, Some(blobUrl), Some(m.mimeType), 0, false, [])
  }

  /** A new post is consistent, and liking keeps every post consistent. */
  lemma LikesStayConsistent(posts: seq<Post>, id: int, p: Post)
    requires AllLikesConsistent(posts)
    ensures p.likes == 0 && !p.likedByUser ==> AllLikesConsistent([p] + posts)
    ensures AllLikesConsistent(LikePost(posts, id))
  {
    var liked := LikePost(posts, id);
    forall i | 0 <= i < |liked| ensures LikesConsistent(liked[i]) {
      assert LikesConsistent(posts[i]);
    }
    if p.likes == 0 && !p.likedByUser {
      forall i | 0 <= i < |posts| + 1 ensures LikesConsistent(([p] + posts)[i]) {
        if i > 0 {
          assert ([p] + posts)[i] == posts[i - 1];
        }
      }
    }
  }

  /** `submitComment`: the comment goes at the end of the matching post's comments. */
  function AddComment(posts: seq<Post>, postId: int, c: Comment): (r: seq<Post>)
    ensures |r| == |posts|
    ensures forall i | 0 <= i < |posts| && posts[i].id == postId ::
      r[i] == posts[i].(comments := posts[i].comments + [c])
    ensures forall i | 0 <= i < |posts| && posts[i].id != postId :: r[i] == posts[i]
  {
    UpdateWhere(posts, (p: Post) => p.id == postId, (p: Post) => p.(comments := p.comments + [c]))
  }

  /** `saveEditedPost`: the matching post's text is replaced. */
  function EditPostText(posts: seq<Post>, postId: int, text: string): (r: seq<Post>)
    ensures |r| == |posts|
    ensures forall i | 0 <= i < |posts| && posts[i].id == postId :: r[i] == posts[i].(text := text)
    ensures forall i | 0 <= i < |posts| && posts[i].id != postId :: r[i] == posts[i]
  {
    UpdateWhere(posts, (p: Post) => p.id == postId, (p: Post) => p.(text := text))
  }

  /** `deletePost`: every post with that id leaves, the others keep their order. */
  function RemovePost(posts: seq<Post>, postId: int): (r: seq<Post>)
    ensures |r| <= |posts|
    ensures forall i | 0 <= i < |r| :: r[i].id != postId && r[i] in posts
    ensures forall i | 0 <= i < |posts| && posts[i].id != postId :: posts[i] in r
    ensures forall p :: multiset(r)[p] == if p.id != postId then multiset(posts)[p] else 0
  {
    FilterCounts(posts, (p: Post) => p.id != postId);
    Filter(posts, (p: Post) => p.id != postId)
  }

  /** Deleting keeps the surviving posts in their order: deleting from two runs of posts
      deletes from each. */
  lemma RemovePostInOrder(a: seq<Post>, b: seq<Post>, postId: int)
    ensures RemovePost(a + b, postId) == RemovePost(a, postId) + RemovePost(b, postId)
  {
    FilterAppend(a, b, (p: Post) => p.id != postId);
  }

  /** The comments of one post with one comment's text replaced. */
  function EditCommentText(comments: seq<Comment>, commentId: int, text: string): (r: seq<Comment>)
    ensures |r| == |comments|
    ensures forall i | 0 <= i < |comments| ::
      r[i] == if comments[i].id == commentId then comments[i].(text := text) else comments[i]
  {
    UpdateWhere(comments, (c: Comment) => c.id == commentId, (c: Comment) => c.(text := text))
  }

  /** `saveEditedComment`: only the named comment of the named post changes. */
  function EditComment(posts: seq<Post>, postId: int, commentId: int, text: string): (r: seq<Post>)
    ensures |r| == |posts|
    ensures forall i | 0 <= i < |posts| && posts[i].id == postId ::
      r[i] == posts[i].(comments := EditCommentText(posts[i].comments, commentId, text))
    ensures forall i | 0 <= i < |posts| && posts[i].id != postId :: r[i] == posts[i]
  {
    UpdateWhere(posts, (p: Post) => p.id == postId,
                (p: Post) => p.(comments := EditCommentText(p.comments, commentId, text)))
  }

  /** The comments of one post without one comment. */
  function WithoutComment(comments: seq<Comment>, commentId: int): (r: seq<Comment>)
    ensures |r| <= |comments|
    ensures forall i | 0 <= i < |r| :: r[i].id != commentId && r[i] in comments
    ensures forall i | 0 <= i < |comments| && comments[i].id != commentId :: comments[i] in r
    ensures forall c :: multiset(r)[c] == if c.id != commentId then multiset(comments)[c] else 0
  {
    FilterCounts(comments, (c: Comment) => c.id != commentId);
    Filter(comments, (c: Comment) => c.id != commentId)
  }

  /** Deleting a comment keeps the other comments in their order. */
  lemma WithoutCommentInOrder(a: seq<Comment>, b: seq<Comment>, commentId: int)
    ensures WithoutComment(a + b, commentId) == WithoutComment(a, commentId) + WithoutComment(b, commentId)
  {
    FilterAppend(a, b, (c: Comment) => c.id != commentId);
  }

  /** `deleteComment`: only the named post loses the named comment. */
  function RemoveComment(posts: seq<Post>, postId: int, commentId: int): (r: seq<Post>)
    ensures |r| == |posts|
    ensures forall i | 0 <= i < |posts| && posts[i].id == postId ::
      r[i] == posts[i].(comments := WithoutComment(posts[i].comments, commentId))
    ensures forall i | 0 <= i < |posts| && posts[i].id != postId :: r[i] == posts[i]
  {
    UpdateWhere(posts, (p: Post) => p.id == postId,
                (p: Post) => p.(comments := WithoutComment(p.comments, commentId)))
  }

  /** Every list transform other than liking leaves each post's like fields alone, so the
      like invariant survives all of them. */
  lemma EditsKeepLikes(posts: seq<Post>, postId: int, commentId: int, text: string, c: Comment)
    requires AllLikesConsistent(posts)
    ensures AllLikesConsistent(AddComment(posts, postId, c))
    ensures AllLikesConsistent(EditPostText(posts, postId, text))
    ensures AllLikesConsistent(RemovePost(posts, postId))
    ensures AllLikesConsistent(EditComment(posts, postId, commentId, text))
    ensures AllLikesConsistent(RemoveComment(posts, postId, commentId))
  {
    var removed := RemovePost(posts, postId);
    forall i | 0 <= i < |removed| ensures LikesConsistent(removed[i]) {
      var j :| 0 <= j < |posts| && posts[j] == removed[i];
    }
    var a, b, d, e := AddComment(posts, postId, c), EditPostText(posts, postId, text),
      EditComment(posts, postId, commentId, text), RemoveComment(posts, postId, commentId);
    forall i | 0 <= i < |posts|
      ensures LikesConsistent(a[i]) && LikesConsistent(b[i]) && LikesConsistent(d[i]) && LikesConsistent(e[i])
    {
      assert LikesConsistent(posts[i]);
    }
  }

  // ------------------------------------------------------------ filter and media

  /** `filteredPosts`: every post for "all", otherwise the posts of that frame. */
  function VisiblePosts(posts: seq<Post>, filter: string): (r: seq<Post>)
    ensures filter == ShowAll ==> r == posts
    ensures filter != ShowAll ==> forall i | 0 <= i < |r| :: r[i].frame == filter && r[i] in posts
    ensures filter != ShowAll ==> forall i | 0 <= i < |posts| && posts[i].frame == filter :: posts[i] in r
  {
    if filter == ShowAll then posts else Filter(posts, (p: Post) => p.frame == filter)
  }

  /** The filter keeps the posts' order: the visible posts of two runs of posts are the
      visible posts of each, one after the other. */
  lemma VisiblePostsInOrder(a: seq<Post>, b: seq<Post>, filter: string)
    ensures VisiblePosts(a + b, filter) == VisiblePosts(a, filter) + VisiblePosts(b, filter)
  {
    if filter != ShowAll {
      FilterAppend(a, b, (p: Post) => p.frame == filter);
    }
  }

  /** A post made in the frame being filtered on shows at the top of the filtered list. */
  lemma NewPostOnTop(p: Post, posts: seq<Post>, filter: string)
    requires filter == ShowAll || p.frame == filter
    ensures VisiblePosts([p] + posts, filter) == [p] + VisiblePosts(posts, filter)
  {
    VisiblePostsInOrder([p], posts, filter);
    if filter != ShowAll {
      assert Filter([p], (q: Post) => q.frame == filter) == [p] + Filter([], (q: Post) => q.frame == filter);
    }
  }

  /** `isVideo`: a truthy MIME type decides alone; otherwise a truthy URL ending in
      ".mp4" or ".webm" marks a video. */
  function IsVideo(p: Post): (r: bool)
    ensures Truthy(p.mediaType) ==> (r <==> StartsWith(p.mediaType.value, "video/"))
    ensures !Truthy(p.mediaType) ==>
      (r <==> Truthy(p.mediaUrl) && (EndsWith(p.mediaUrl.value, ".mp4") || EndsWith(p.mediaUrl.value, ".webm")))
  {
    if Truthy(p.mediaType) then StartsWith(p.mediaType.value, "video/")
    else if Truthy(p.mediaUrl) then EndsWith(p.mediaUrl.value, ".mp4") || EndsWith(p.mediaUrl.value, ".webm")
    else false
  }

  // ------------------------------------------------------------ the board

  datatype CommentRef = CommentRef(postId: int, commentId: int)

  /** Every field of the board, for stating what a handler leaves alone. */
  datatype BoardState = BoardState(
    profileFrame: string, selectedFrame: string, postText: string, postMedia: Option<Media>,
    posts: seq<Post>, filterFrame: string,
    openCommentBoxPostId: Option<int>, commentInputs: map<int, string>, sharePostId: Option<int>,
    editingPostId: Option<int>, editingPostText: string,
    editingComment: Option<CommentRef>, editingCommentText: string)

  /** The comment box and the share menu are not both open. */
  predicate MenusExclusive(openCommentBox: Option<int>, share: Option<int>) {
    !(openCommentBox.Some? && share.Some?)
  }

  /** `commentInputs[postId]`, with a missing entry read as the empty (falsy) text. */
  function InputFor(inputs: map<int, string>, postId: int): string {
    if postId in inputs then inputs[postId] else ""
  }

  class Board {
    var profileFrame: string
    var selectedFrame: string
    var postText: string
    var postMedia: Option<Media>
    var posts: seq<Post>
    var filterFrame: string
    var openCommentBoxPostId: Option<int>
    var commentInputs: map<int, string>
    var sharePostId: Option<int>
    var editingPostId: Option<int>
    var editingPostText: string
    var editingComment: Option<CommentRef>
    var editingCommentText: string

    function State(): BoardState
      reads this
    {
      BoardState(profileFrame, selectedFrame, postText, postMedia, posts, filterFrame,
                 openCommentBoxPostId, commentInputs, sharePostId,
                 editingPostId, editingPostText, editingComment, editingCommentText)
    }

    /** Every post's like count agrees with its flag. */
    ghost predicate Valid()
      reads this
    {
      AllLikesConsistent(posts)
    }

    constructor ()
      ensures Valid()
      ensures State() == BoardState("frame1", "frame1", "", None, [], ShowAll,
                                    None, map[], None, None, "", None, "")
    {
      profileFrame, selectedFrame, postText, postMedia := "frame1", "frame1", "", None;
      posts, filterFrame := [], ShowAll;
      openCommentBoxPostId, commentInputs, sharePostId := None, map[], None;
      editingPostId, editingPostText, editingComment, editingCommentText := None, "", None, "";
    }

    /** `filteredPosts` */
    function FilteredPosts(): seq<Post>
      reads this
    {
      VisiblePosts(posts, filterFrame)
    }

    /** A click on a frame of the profile card. */
    method ChooseProfileFrame(id: string)
      requires Valid()
      modifies this
      ensures Valid()
      ensures State() == old(State()).(profileFrame := id)
    {
      profileFrame := id;
    }

    /** A click on a frame of the post creator. */
    method ChooseFrame(id: string)
      requires Valid()
      modifies this
      ensures Valid()
      ensures State() == old(State()).(selectedFrame := id)
    {
      selectedFrame := id;
    }

    /** The post creator's text input. */
    method ChangePostText(text: string)
      requires Valid()
      modifies this
      ensures Valid()
      ensures State() == old(State()).(postText := text)
    {
      postText := text;
    }

    /** The post creator's file input: the first picked file, or none. */
    method ChangePostMedia(media: Option<Media>)
      requires Valid()
      modifies this
      ensures Valid()
      ensures State() == old(State()).(postMedia := media)
    {
      postMedia := media;
    }

    /** `handlePost`, with the clock reading and the object URL made for the file passed
        in. Nothing happens without text and without a file; otherwise the new post goes
        first and the draft is cleared. */
    method HandlePost(now: int, blobUrl: string)
      requires Valid()
      modifies this
      ensures Valid()
      ensures old(postText) == "" && old(postMedia).None? ==> State() == old(State())
      ensures old(postText) != "" || old(postMedia).Some? ==>
        State() == old(State()).(
          posts := [NewPost(now, old(postText), old(selectedFrame), old(postMedia), blobUrl)] + old(posts),
          postText := "", postMedia := None)
    ensures (old(postText) != "" || old(postMedia).Some?) && (filterFrame == ShowAll || selectedFrame == filterFrame) ==>
      FilteredPosts() == [posts[0]] + old(FilteredPosts())
    {
      if postText == "" && postMedia.None? {
        return;
      }
      var p := NewPost(now, postText, selectedFrame, postMedia, blobUrl);
      LikesStayConsistent(posts, p.id, p);
      if filterFrame == ShowAll || selectedFrame == filterFrame {
        NewPostOnTop(p, posts, filterFrame);
      }
      posts := [p] + posts;
      postText := "";
      postMedia := None;
    }

    /** `handleLike` */
    method HandleLike(postId: int)
      requires Valid()
      modifies this
      ensures Valid()
      ensures State() == old(State()).(posts := LikePost(old(posts), postId))
    {
      LikesStayConsistent(posts, postId, NewPost(0, "", "", None, ""));
      posts := LikePost(posts, postId);
    }

    /** `toggleCommentBox`: open or close this post's comment box, and close a share menu
        whose id is truthy (not 0). */
    method ToggleCommentBox(postId: int)
      requires Valid()
      modifies this
      ensures Valid()
      ensures openCommentBoxPostId == Toggle(old(openCommentBoxPostId), postId)
      ensures sharePostId == if old(sharePostId).Some? && old(sharePostId).value != 0 then None else old(sharePostId)
      ensures old(sharePostId) != Some(0) ==> MenusExclusive(openCommentBoxPostId, sharePostId)
      ensures State() == old(State()).(openCommentBoxPostId := openCommentBoxPostId, sharePostId := sharePostId)
    {
      openCommentBoxPostId := Toggle(openCommentBoxPostId, postId);
      if sharePostId.Some? && sharePostId.value != 0 {
        sharePostId := None;
      }
    }

    /** `toggleShareMenu`: the mirror image of `toggleCommentBox`. */
    method ToggleShareMenu(postId: int)
      requires Valid()
      modifies this
      ensures Valid()
      ensures sharePostId == Toggle(old(sharePostId), postId)
      ensures openCommentBoxPostId ==
        if old(openCommentBoxPostId).Some? && old(openCommentBoxPostId).value != 0 then None else old(openCommentBoxPostId)
      ensures old(openCommentBoxPostId) != Some(0) ==> MenusExclusive(openCommentBoxPostId, sharePostId)
      ensures State() == old(State()).(openCommentBoxPostId := openCommentBoxPostId, sharePostId := sharePostId)
    {
      sharePostId := Toggle(sharePostId, postId);
      if openCommentBoxPostId.Some? && openCommentBoxPostId.value != 0 {
        openCommentBoxPostId := None;
      }
    }

    /** `handleCommentChange` */
    method HandleCommentChange(postId: int, text: string)
      requires Valid()
      modifies this
      ensures Valid()
      ensures State() == old(State()).(commentInputs := old(commentInputs)[postId := text])
    {
      commentInputs := commentInputs[postId := text];
    }

    /** `submitComment`, with the clock reading passed in as the comment's id. An empty
        input does nothing; otherwise the comment is appended to the post and the post's
        input cleared. */
    method SubmitComment(postId: int, now: int)
      requires Valid()
      modifies this
      ensures Valid()
      ensures InputFor(old(commentInputs), postId) == "" ==> State() == old(State())
      ensures InputFor(old(commentInputs), postId) != "" ==>
        State() == old(State()).(
          posts := AddComment(old(posts), postId, Comment(now, InputFor(old(commentInputs), postId))),
          commentInputs := old(commentInputs)[postId := ""])
    {
      var text := InputFor(commentInputs, postId);
      if text == "" {
        return;
      }
      assert AllLikesConsistent(AddComment(posts, postId, Comment(now, text))) by {
        EditsKeepLikes(posts, postId, 0, "", Comment(now, text));
      }
      posts := AddComment(posts, postId, Comment(now, text));
      commentInputs := commentInputs[postId := ""];
    }

    /** `handleCommentKeyPress`: Enter submits the comment, other keys do nothing. */
    method HandleCommentKeyPress(key: string, postId: int, now: int)
      requires Valid()
      modifies this
      ensures Valid()
      ensures key != "Enter" ==> State() == old(State())
      ensures key == "Enter" && InputFor(old(commentInputs), postId) != "" ==>
        State() == old(State()).(
          posts := AddComment(old(posts), postId, Comment(now, InputFor(old(commentInputs), postId))),
          commentInputs := old(commentInputs)[postId := ""])
      ensures key == "Enter" && InputFor(old(commentInputs), postId) == "" ==> State() == old(State())
    {
      if key == "Enter" {
        SubmitComment(postId, now);
      }
    }

    /** `startEditingPost` */
    method StartEditingPost(post: Post)
      requires Valid()
      modifies this
      ensures Valid()
      ensures State() == old(State()).(editingPostId := Some(post.id), editingPostText := post.text)
    {
      editingPostId := Some(post.id);
      editingPostText := post.text;
    }

    /** The edit box's onChange. */
    method ChangeEditingPostText(text: string)
      requires Valid()
      modifies this
      ensures Valid()
      ensures State() == old(State()).(editingPostText := text)
    {
      editingPostText := text;
    }

    /** `cancelEditingPost` */
    method CancelEditingPost()
      requires Valid()
      modifies this
      ensures Valid()
      ensures State() == old(State()).(editingPostId := None, editingPostText := "")
    {
      editingPostId := None;
      editingPostText := "";
    }

    /** `saveEditedPost`: blank text changes nothing; otherwise the post's text is
        replaced and editing ends. */
    method SaveEditedPost(postId: int)
      requires Valid()
      modifies this
      ensures Valid()
      ensures Blank(old(editingPostText)) ==> State() == old(State())
      ensures !Blank(old(editingPostText)) ==>
        State() == old(State()).(posts := EditPostText(old(posts), postId, old(editingPostText)),
                                 editingPostId := None, editingPostText := "")
    {
      var text := editingPostText;
      if Blank(text) {
        return;
      }
      var edited := EditPostText(posts, postId, text);
      assert AllLikesConsistent(edited) by {
        EditsKeepLikes(posts, postId, 0, text, Comment(0, ""));
      }
      posts, editingPostId, editingPostText := edited, None, "";
    }

    /** `deletePost` */
    method DeletePost(postId: int)
      requires Valid()
      modifies this
      ensures Valid()
      ensures State() == old(State()).(posts := RemovePost(old(posts), postId))
    {
      assert AllLikesConsistent(RemovePost(posts, postId)) by {
        EditsKeepLikes(posts, postId, 0, "", Comment(0, ""));
      }
      posts := RemovePost(posts, postId);
    }

    /** `handleFilterChange`: the filter takes the value, and a frame value also becomes
        the frame new posts are made in. */
    method HandleFilterChange(value: string)
      requires Valid()
      modifies this
      ensures Valid()
      ensures State() == old(State()).(filterFrame := value,
                                       selectedFrame := if value != ShowAll then value else old(selectedFrame))
    {
      filterFrame := value;
      if value != ShowAll {
        selectedFrame := value;
      }
    }

    /** `startEditingComment` */
    method StartEditingComment(postId: int, commentId: int, text: string)
      requires Valid()
      modifies this
      ensures Valid()
      ensures State() == old(State()).(editingComment := Some(CommentRef(postId, commentId)),
                                       editingCommentText := text)
    {
      editingComment := Some(CommentRef(postId, commentId));
      editingCommentText := text;
    }

    /** The comment edit box's onChange. */
    method ChangeEditingCommentText(text: string)
      requires Valid()
      modifies this
      ensures Valid()
      ensures State() == old(State()).(editingCommentText := text)
    {
      editingCommentText := text;
    }

    /** `cancelEditingComment` */
    method CancelEditingComment()
      requires Valid()
      modifies this
      ensures Valid()
      ensures State() == old(State()).(editingComment := None, editingCommentText := "")
    {
      editingComment := None;
      editingCommentText := "";
    }

    /** `saveEditedComment`: blank text changes nothing; otherwise only that comment's
        text changes and comment editing ends. */
    method SaveEditedComment(postId: int, commentId: int)
      requires Valid()
      modifies this
      ensures Valid()
      ensures Blank(old(editingCommentText)) ==> State() == old(State())
      ensures !Blank(old(editingCommentText)) ==>
        State() == old(State()).(posts := EditComment(old(posts), postId, commentId, old(editingCommentText)),
                                 editingComment := None, editingCommentText := "")
    {
      if Blank(editingCommentText) {
        return;
      }
      var text := editingCommentText;
      var edited := EditComment(posts, postId, commentId, text);
      assert AllLikesConsistent(edited) by {
        EditsKeepLikes(posts, postId, commentId, text, Comment(0, ""));
      }
      posts, editingComment, editingCommentText := edited, None, "";
    }

    /** The comment edit box's key handler: Enter saves, Escape cancels. */
    method CommentEditKeyDown(key: string, postId: int, commentId: int)
      requires Valid()
      modifies this
      ensures Valid()
      ensures key != "Enter" && key != "Escape" ==> State() == old(State())
      ensures key == "Escape" ==> State() == old(State()).(editingComment := None, editingCommentText := "")
      ensures key == "Enter" && Blank(old(editingCommentText)) ==> State() == old(State())
      ensures key == "Enter" && !Blank(old(editingCommentText)) ==>
        State() == old(State()).(posts := EditComment(old(posts), postId, commentId, old(editingCommentText)),
                                 editingComment := None, editingCommentText := "")
    {
      if key == "Enter" {
        SaveEditedComment(postId, commentId);
      }
      if key == "Escape" {
        CancelEditingComment();
      }
    }

    /** `deleteComment` */
    method DeleteComment(postId: int, commentId: int)
      requires Valid()
      modifies this
      ensures Valid()
      ensures State() == old(State()).(posts := RemoveComment(old(posts), postId, commentId))
    {
      assert AllLikesConsistent(RemoveComment(posts, postId, commentId)) by {
        EditsKeepLikes(posts, postId, commentId, "", Comment(0, ""));
      }
      posts := RemoveComment(posts, postId, commentId);
    }
  }
}

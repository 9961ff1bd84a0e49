/** The profile page: the user's own posts as the server returns them, with the list
    updated after each answered request, and the "last uploaded image" kept in step with
    the first post. */
module Profile {
  import opened Wrappers
  import opened Lists

  const SelectImage := "Please select an image!"
  const UploadRefused := "Upload failed. Check console for details."
  const NoImageReturned := "Upload failed. No image returned."
  const UploadBroke := "Something went wrong during upload."
  const CaptionFailed := "Caption update failed. Try again."
  const DeleteFailed := "Failed to delete post"
  const LoginToEdit := "Please login to edit comments"
  const CommentUpdateFailed := "Failed to update comment"
  const CommentDeleteFailed := "Failed to delete comment"

  /** A comment; `id` is None where the server sent none. */
  datatype Comment = Comment(id: Option<string>, text: string, createdAt: string)

  /** A post as the server sends it. A missing `imageUrl` is the empty (falsy) text; the
      optional fields stay optional. */
  datatype Post = Post(id: Option<string>, imageUrl: string, caption: string, createdAt: string,
                       likes: Option<int>, likedByUser: Option<bool>, comments: Option<seq<Comment>>)

  /** The file picked in the file input; it is only passed on. */
  datatype ImageFile = ImageFile(name: string)

  /** How an awaited request ended: an answer with its `ok` flag and decoded body, or a
      thrown error (the request failed or its body could not be read). */
  datatype Outcome<T> = Answered(ok: bool, body: T) | Thrown

  /** The like endpoint's body. */
  datatype LikeBody = LikeBody(likes: Option<int>, likedByUser: Option<bool>)

  /** The comment being edited. */
  datatype CommentEdit = CommentEdit(postId: string, commentId: string, text: string)

  /** `post._id === postId`: a post without an id matches no id. */
  predicate Matches(p: Post, postId: string) {
    p.id == Some(postId)
  }

  /** `posts[0]?.imageUrl ?? ""` */
  function LastImageUrl(posts: seq<Post>): string {
    if posts == [] then "" else posts[0].imageUrl
  }

  /** The posts `fetchMyPost` stores: each loaded post, marked as not liked. */
  function MarkUnliked(posts: seq<Post>): (r: seq<Post>)
    ensures |r| == |posts|
    ensures forall i | 0 <= i < |r| :: r[i].likedByUser == Some(false)
    ensures forall i | 0 <= i < |r| :: r[i].(likedByUser := posts[i].likedByUser) == posts[i]
  {
    seq(|posts|, i requires 0 <= i < |posts| => posts[i].(likedByUser := Some(false)))
  }

  /** `handleLike`'s update: the server's like fields replace the matching post's. */
  function SetLikes(posts: seq<Post>, postId: string, body: LikeBody): (r: seq<Post>)
    ensures |r| == |posts|
    ensures forall i | 0 <= i < |posts| && Matches(posts[i], postId) ::
      r[i] == posts[i].(likes := body.likes, likedByUser := body.likedByUser)
    ensures forall i | 0 <= i < |posts| && !Matches(posts[i], postId) :: r[i] == posts[i]
  {
    UpdateWhere(posts, (p: Post) => Matches(p, postId),
                (p: Post) => p.(likes := body.likes, likedByUser := body.likedByUser))
  }

  /** `submitComment`'s and `saveEditedComment`'s update: the server's comment list
      replaces the matching post's. */
  function SetComments(posts: seq<Post>, postId: string, comments: Option<seq<Comment>>): (r: seq<Post>)
    ensures |r| == |posts|
    ensures forall i | 0 <= i < |posts| && Matches(posts[i], postId) :: r[i] == posts[i].(comments := comments)
    ensures forall i | 0 <= i < |posts| && !Matches(posts[i], postId) :: r[i] == posts[i]
  {
    UpdateWhere(posts, (p: Post) => Matches(p, postId), (p: Post) => p.(comments := comments))
  }

  /** `saveEdit`'s update: the matching post's caption is replaced. Unlike `SetComments`
      it takes the caption as text, since the page only reaches this update when the
      server's answer carries one. */
  function SetCaption(posts: seq<Post>, postId: string, caption: string): (r: seq<Post>)
    ensures |r| == |posts|
    ensures forall i | 0 <= i < |posts| && Matches(posts[i], postId) :: r[i] == posts[i].(caption := caption)
    ensures forall i | 0 <= i < |posts| && !Matches(posts[i], postId) :: r[i] == posts[i]
  {
    UpdateWhere(posts, (p: Post) => Matches(p, postId), (p: Post) => p.(caption := caption))
  }

  /** `deletePost`'s update: the posts with that id leave; posts without an id stay. */
  function RemovePost(posts: seq<Post>, postId: string): (r: seq<Post>)
    ensures |r| <= |posts|
    ensures forall i | 0 <= i < |r| :: !Matches(r[i], postId) && r[i] in posts
    ensures forall i | 0 <= i < |posts| && !Matches(posts[i], postId) :: posts[i] in r
    ensures forall p :: multiset(r)[p] == if !Matches(p, postId) then multiset(posts)[p] else 0
  {
    FilterCounts(posts, (p: Post) => !Matches(p, postId));
    Filter(posts, (p: Post) => !Matches(p, postId))
  }

  /** Deleting keeps the surviving posts in their order, so the post that comes first
      afterwards is the first post that survives. */
  lemma RemovePostInOrder(a: seq<Post>, b: seq<Post>, postId: string)
    ensures RemovePost(a + b, postId) == RemovePost(a, postId) + RemovePost(b, postId)
  {
    FilterAppend(a, b, (p: Post) => !Matches(p, postId));
  }

  /** `comments?.filter((comment) => comment._id !== commentId)` */
  function WithoutComment(comments: Option<seq<Comment>>, commentId: string): (r: Option<seq<Comment>>)
    ensures r.None? <==> comments.None?
    ensures r.Some? ==> forall i | 0 <= i < |r.value| ::
      r.value[i].id != Some(commentId) && r.value[i] in comments.value
    ensures r.Some? ==> forall i | 0 <= i < |comments.value| && comments.value[i].id != Some(commentId) ::
      comments.value[i] in r.value
    ensures r.Some? ==>
      forall c :: multiset(r.value)[c] == if c.id != Some(commentId) then multiset(comments.value)[c] else 0
  {
    match comments
    case None => None
    case Some(cs) =>
      FilterCounts(cs, (c: Comment) => c.id != Some(commentId));
      Some(Filter(cs, (c: Comment) => c.id != Some(commentId)))
  }

  /** Deleting a comment keeps the other comments in their order. */
  lemma WithoutCommentInOrder(a: seq<Comment>, b: seq<Comment>, commentId: string)
    ensures WithoutComment(Some(a + b), commentId).value
         == WithoutComment(Some(a), commentId).value + WithoutComment(Some(b), commentId).value
  {
    FilterAppend(a, b, (c: Comment) => c.id != Some(commentId));
  }

  /** `deleteComment`'s update: only the matching post loses the comment. */
  function RemoveComment(posts: seq<Post>, postId: string, commentId: string): (r: seq<Post>)
    ensures |r| == |posts|
    ensures forall i | 0 <= i < |posts| && Matches(posts[i], postId) ::
      r[i] == posts[i].(comments := WithoutComment(posts[i].comments, commentId))
    ensures forall i | 0 <= i < |posts| && !Matches(posts[i], postId) :: r[i] == posts[i]
  {
    UpdateWhere(posts, (p: Post) => Matches(p, postId),
                (p: Post) => p.(comments := WithoutComment(p.comments, commentId)))
  }

  /** Deleting a comment twice is deleting it once: after the first deletion no comment
      of that post has the id. */
  lemma RemoveCommentIdempotent(posts: seq<Post>, postId: string, commentId: string)
    ensures RemoveComment(RemoveComment(posts, postId, commentId), postId, commentId)
         == RemoveComment(posts, postId, commentId)
  {
    var once := RemoveComment(posts, postId, commentId);
    var twice := RemoveComment(once, postId, commentId);
    forall i | 0 <= i < |posts| ensures twice[i] == once[i] {
      if Matches(posts[i], postId) && posts[i].comments.Some? {
        var cs := once[i].comments.value;
        FilterKeepsAll(cs, (c: Comment) => c.id != Some(commentId));
      }
    }
  }

  /** Deleting a post twice is deleting it once. */
  lemma RemovePostIdempotent(posts: seq<Post>, postId: string)
    ensures RemovePost(RemovePost(posts, postId), postId) == RemovePost(posts, postId)
  {
    FilterKeepsAll(RemovePost(posts, postId), (p: Post) => !Matches(p, postId));
  }

  /** Every field of the page, for stating what a handler leaves alone. */
  datatype PageState = PageState(
    caption: string, imagePreview: Option<string>, imageFile: Option<ImageFile>,
    posts: seq<Post>, lastUploadedImageUrl: string,
    openCommentBoxPostId: Option<string>, commentInputs: map<string, string>, sharePostId: Option<string>,
    editingPostId: Option<string>, editingCaption: string, editingComment: Option<CommentEdit>)

  /** `commentInputs[postId]`, with a missing entry read as the empty (falsy) text. */
  function InputFor(inputs: map<string, string>, postId: string): string {
    if postId in inputs then inputs[postId] else ""
  }

  class ProfilePage {
    var caption: string
    var imagePreview: Option<string>
    var imageFile: Option<ImageFile>
    var posts: seq<Post>
    var lastUploadedImageUrl: string
    var openCommentBoxPostId: Option<string>
    var commentInputs: map<string, string>
    var sharePostId: Option<string>
    var editingPostId: Option<string>
    var editingCaption: string
    var editingComment: Option<CommentEdit>

    function State(): PageState
      reads this
    {
      PageState(caption, imagePreview, imageFile, posts, lastUploadedImageUrl,
                openCommentBoxPostId, commentInputs, sharePostId,
                editingPostId, editingCaption, editingComment)
    }

    /** The effect on `posts` has run: the last uploaded image is the first post's. */
    ghost predicate Valid()
      reads this
    {
      lastUploadedImageUrl == LastImageUrl(posts)
    }

    /** The page after its first render and effects, before the posts arrive. */
    constructor ()
      ensures Valid()
      ensures State() == PageState("", None, None, [], "", None, map[], None, None, "", None)
    {
      caption, imagePreview, imageFile := "", None, None;
      posts, lastUploadedImageUrl := [], "";
      openCommentBoxPostId, commentInputs, sharePostId := None, map[], None;
      editingPostId, editingCaption, editingComment := None, "", None;
    }

    /** The effect that runs after every change of `posts`. */
    method PostsChanged()
      modifies this
      ensures Valid()
      ensures State() == old(State()).(lastUploadedImageUrl := LastImageUrl(old(posts)))
    {
      lastUploadedImageUrl := LastImageUrl(posts);
    }

    /** The caption input. */
    method ChangeCaption(text: string)
      requires Valid()
      modifies this
      ensures Valid()
      ensures State() == old(State()).(caption := text)
    {
      caption := text;
    }

    /** `handleFileChange`, with the preview URL made for the file passed in. */
    method HandleFileChange(file: Option<ImageFile>, previewUrl: string)
      requires Valid()
      modifies this
      ensures Valid()
      ensures file.None? ==> State() == old(State())
      ensures file.Some? ==> State() == old(State()).(imageFile := file, imagePreview := Some(previewUrl))
    {
      if file.Some? {
        imageFile := file;
        imagePreview := Some(previewUrl);
      }
    }

    /** `handleUpload`, with the stored user id and the outcome of the upload passed in.
        Without a file or a user id nothing is sent; a refused answer, an answer without
        an image and a thrown error each raise their alert and change nothing; otherwise
        the returned post goes at the end and the file and caption are cleared. */
    method HandleUpload(userId: Option<string>, outcome: Outcome<Option<Post>>)
      returns (requested: bool, alert: Option<string>)
      requires Valid()
      modifies this
      ensures Valid()
      ensures requested <==> old(imageFile).Some? && userId.Some? && userId.value != ""
      ensures !requested ==> State() == old(State()) && alert == Some(SelectImage)
      ensures requested && outcome.Thrown? ==> State() == old(State()) && alert == Some(UploadBroke)
      ensures requested && outcome.Answered? && !outcome.ok ==>
        State() == old(State()) && alert == Some(UploadRefused)
      ensures requested && outcome.Answered? && outcome.ok && (outcome.body.None? || outcome.body.value.imageUrl == "") ==>
        State() == old(State()) && alert == Some(NoImageReturned)
      ensures requested && outcome.Answered? && outcome.ok && outcome.body.Some? && outcome.body.value.imageUrl != "" ==>
        && alert == None
        && State() == old(State()).(posts := old(posts) + [outcome.body.value], imageFile := None, caption := "",
                                    lastUploadedImageUrl := LastImageUrl(old(posts) + [outcome.body.value]))
    {
      requested := imageFile.Some? && userId.Some? && userId.value != "";
      if !requested {
        alert := Some(SelectImage);
        return;
      }
      match outcome {
        case Thrown =>
          alert := Some(UploadBroke);
        case Answered(ok, data) =>
          if !ok {
            alert := Some(UploadRefused);
          } else if data.None? || data.value.imageUrl == "" {
            alert := Some(NoImageReturned);
          } else {
            alert := None;
            posts := posts + [data.value];
            PostsChanged();
            imageFile := None;
            caption := "";
          }
      }
    }

    /** `fetchMyPost`: an ok answer replaces the posts, each marked not liked; anything
        else changes nothing. The prefixed image URL it sets is at once replaced by the
        effect on `posts`. */
    method FetchMyPost(outcome: Outcome<seq<Post>>)
      requires Valid()
      modifies this
      ensures Valid()
      ensures outcome.Answered? && outcome.ok ==>
        State() == old(State()).(posts := MarkUnliked(outcome.body),
                                 lastUploadedImageUrl := LastImageUrl(outcome.body))
      ensures !(outcome.Answered? && outcome.ok) ==> State() == old(State())
    {
      if outcome.Thrown? || !outcome.ok {
        return;
      }
      var data := outcome.body;
      posts := MarkUnliked(data);
      if |data| > 0 {
        lastUploadedImageUrl := "http://localhost:8000" + data[0].imageUrl;
      }
      PostsChanged();
    }

    /** `handleLike`: whatever the status, a readable answer's like fields replace the
        matching post's. */
    method HandleLike(postId: string, outcome: Outcome<LikeBody>)
      requires Valid()
      modifies this
      ensures Valid()
      ensures outcome.Thrown? ==> State() == old(State())
      ensures outcome.Answered? ==>
        State() == old(State()).(posts := SetLikes(old(posts), postId, outcome.body),
                                 lastUploadedImageUrl := LastImageUrl(SetLikes(old(posts), postId, outcome.body)))
    {
      if outcome.Answered? {
        posts := SetLikes(posts, postId, outcome.body);
        PostsChanged();
      }
    }

    /** `toggleCommentBox` */
    method ToggleCommentBox(postId: string)
      requires Valid()
      modifies this
      ensures Valid()
      ensures State() == old(State()).(openCommentBoxPostId := Toggle(old(openCommentBoxPostId), postId))
    {
      openCommentBoxPostId := Toggle(openCommentBoxPostId, postId);
    }

    /** `toggleShareMenu` */
    method ToggleShareMenu(postId: string)
      requires Valid()
      modifies this
      ensures Valid()
      ensures State() == old(State()).(sharePostId := Toggle(old(sharePostId), postId))
    {
      sharePostId := Toggle(sharePostId, postId);
    }

    /** `handleCommentChange` */
    method HandleCommentChange(postId: string, text: string)
      requires Valid()
      modifies this
      ensures Valid()
      ensures State() == old(State()).(commentInputs := old(commentInputs)[postId := text])
    {
      commentInputs := commentInputs[postId := text];
    }

    /** `submitComment`: an empty input sends nothing; otherwise, whatever the status, a
        readable answer's comment list replaces the post's and the input is cleared. */
    method SubmitComment(postId: string, outcome: Outcome<Option<seq<Comment>>>) returns (requested: bool)
      requires Valid()
      modifies this
      ensures Valid()
      ensures requested <==> InputFor(old(commentInputs), postId) != ""
      ensures !requested || outcome.Thrown? ==> State() == old(State())
      ensures requested && outcome.Answered? ==>
        State() == old(State()).(posts := SetComments(old(posts), postId, outcome.body),
                                 lastUploadedImageUrl := LastImageUrl(SetComments(old(posts), postId, outcome.body)),
                                 commentInputs := old(commentInputs)[postId := ""])
    {
      requested := InputFor(commentInputs, postId) != "";
      if !requested || outcome.Thrown? {
        return;
      }
      posts := SetComments(posts, postId, outcome.body);
      PostsChanged();
      commentInputs := commentInputs[postId := ""];
    }

    /** `handleCommentKeyPress`: Enter submits the comment, other keys do nothing. */
    method HandleCommentKeyPress(key: string, postId: string, outcome: Outcome<Option<seq<Comment>>>)
      returns (requested: bool)
      requires Valid()
      modifies this
      ensures Valid()
      ensures requested <==> key == "Enter" && InputFor(old(commentInputs), postId) != ""
      ensures !requested || outcome.Thrown? ==> State() == old(State())
      ensures requested && outcome.Answered? ==>
        State() == old(State()).(posts := SetComments(old(posts), postId, outcome.body),
                                 lastUploadedImageUrl := LastImageUrl(SetComments(old(posts), postId, outcome.body)),
                                 commentInputs := old(commentInputs)[postId := ""])
    {
      requested := false;
      if key == "Enter" {
        requested := SubmitComment(postId, outcome);
      }
    }

    /** `startEditing` */
    method StartEditing(postId: string, currentCaption: string)
      requires Valid()
      modifies this
      ensures Valid()
      ensures State() == old(State()).(editingPostId := Some(postId), editingCaption := currentCaption)
    {
      editingPostId := Some(postId);
      editingCaption := currentCaption;
    }

    /** `saveEdit`, with the answer's caption as the body: a non-ok answer or a thrown
        error raises the alert and changes nothing; an ok answer replaces the matching
        caption and ends editing. The caption is not checked for blankness. */
    method SaveEdit(postId: string, outcome: Outcome<string>) returns (alert: Option<string>)
      requires Valid()
      modifies this
      ensures Valid()
      ensures !(outcome.Answered? && outcome.ok) ==> State() == old(State()) && alert == Some(CaptionFailed)
      ensures outcome.Answered? && outcome.ok ==>
        && alert == None
        && State() == old(State()).(posts := SetCaption(old(posts), postId, outcome.body),
                                    lastUploadedImageUrl := LastImageUrl(SetCaption(old(posts), postId, outcome.body)),
                                    editingPostId := None, editingCaption := "")
    {
      if outcome.Thrown? || !outcome.ok {
        alert := Some(CaptionFailed);
        return;
      }
      alert := None;
      posts := SetCaption(posts, postId, outcome.body);
      PostsChanged();
      editingPostId := None;
      editingCaption := "";
    }

    /** The caption edit box's onChange. */
    method ChangeEditingCaption(text: string)
      requires Valid()
      modifies this
      ensures Valid()
      ensures State() == old(State()).(editingCaption := text)
    {
      editingCaption := text;
    }

    /** `cancelEdit` */
    method CancelEdit()
      requires Valid()
      modifies this
      ensures Valid()
      ensures State() == old(State()).(editingPostId := None, editingCaption := "")
    {
      editingPostId := None;
      editingCaption := "";
    }

    /** `deletePost`: nothing without confirmation; an ok answer removes the post, a
        non-ok one raises the alert, a thrown error is only logged. */
    method DeletePost(postId: string, confirmed: bool, outcome: Outcome<()>)
      returns (requested: bool, alert: Option<string>)
      requires Valid()
      modifies this
      ensures Valid()
      ensures requested <==> confirmed
      ensures alert == (if confirmed && outcome.Answered? && !outcome.ok then Some(DeleteFailed) else None)
      ensures confirmed && outcome.Answered? && outcome.ok ==>
        State() == old(State()).(posts := RemovePost(old(posts), postId),
                                 lastUploadedImageUrl := LastImageUrl(RemovePost(old(posts), postId)))
      ensures !(confirmed && outcome.Answered? && outcome.ok) ==> State() == old(State())
    {
      requested, alert := confirmed, None;
      if !confirmed || outcome.Thrown? {
        return;
      }
      if outcome.ok {
        posts := RemovePost(posts, postId);
        PostsChanged();
      } else {
        alert := Some(DeleteFailed);
      }
    }

    /** `saveEditedComment`, with the stored token passed in: no token, no request; a
        non-ok answer or a thrown error raises the alert and changes nothing; an ok
        answer's comment list replaces the post's and comment editing ends. */
    method SaveEditedComment(postId: string, commentId: string, newText: string,
                             token: Option<string>, outcome: Outcome<Option<seq<Comment>>>)
      returns (requested: bool, alert: Option<string>)
      requires Valid()
      modifies this
      ensures Valid()
      ensures requested <==> token.Some? && token.value != ""
      ensures !requested ==> State() == old(State()) && alert == Some(LoginToEdit)
      ensures requested && !(outcome.Answered? && outcome.ok) ==>
        State() == old(State()) && alert == Some(CommentUpdateFailed)
      ensures requested && outcome.Answered? && outcome.ok ==>
        && alert == None
        && State() == old(State()).(posts := SetComments(old(posts), postId, outcome.body),
                                    lastUploadedImageUrl := LastImageUrl(SetComments(old(posts), postId, outcome.body)),
                                    editingComment := None)
    {
      requested := token.Some? && token.value != "";
      if !requested {
        alert := Some(LoginToEdit);
        return;
      }
      if outcome.Thrown? || !outcome.ok {
        alert := Some(CommentUpdateFailed);
        return;
      }
      alert := None;
      posts := SetComments(posts, postId, outcome.body);
      PostsChanged();
      editingComment := None;
    }

    /** `deleteComment`: nothing without confirmation; an ok answer removes the comment
        from the matching post, a non-ok one raises the alert, a thrown error is only
        logged. */
    method DeleteComment(postId: string, commentId: string, confirmed: bool, outcome: Outcome<()>)
      returns (requested: bool, alert: Option<string>)
      requires Valid()
      modifies this
      ensures Valid()
      ensures requested <==> confirmed
      ensures alert == (if confirmed && outcome.Answered? && !outcome.ok then Some(CommentDeleteFailed) else None)
      ensures confirmed && outcome.Answered? && outcome.ok ==>
        State() == old(State()).(posts := RemoveComment(old(posts), postId, commentId),
                                 lastUploadedImageUrl := LastImageUrl(RemoveComment(old(posts), postId, commentId)))
      ensures !(confirmed && outcome.Answered? && outcome.ok) ==> State() == old(State())
    {
      requested, alert := confirmed, None;
      if !confirmed || outcome.Thrown? {
        return;
      }
      if !outcome.ok {
        alert := Some(CommentDeleteFailed);
        return;
      }
      posts := RemoveComment(posts, postId, commentId);
      PostsChanged();
    }

    /** `startEditComment` */
    method StartEditComment(postId: string, commentId: string, text: string)
      requires Valid()
      modifies this
      ensures Valid()
      ensures State() == old(State()).(editingComment := Some(CommentEdit(postId, commentId, text)))
    {
      editingComment := Some(CommentEdit(postId, commentId, text));
    }

    /** The comment edit box's onChange: the text of the comment being edited changes;
        with no comment being edited nothing changes. */
    method ChangeEditingCommentText(text: string)
      requires Valid()
      modifies this
      ensures Valid()
      ensures old(editingComment).None? ==> State() == old(State())
      ensures old(editingComment).Some? ==>
        State() == old(State()).(editingComment := Some(old(editingComment).value.(text := text)))
    {
      if editingComment.Some? {
        editingComment := Some(editingComment.value.(text := text));
      }
    }

    /** `cancelEditComment` */
    method CancelEditComment()
      requires Valid()
      modifies this
      ensures Valid()
      ensures State() == old(State()).(editingComment := None)
    {
      editingComment := None;
    }
  }
}

/** The comment box with one button: the first click enables the input, a later click
    with non-blank text hands the text to the parent's `handleComment` and resets. */
module CommentInput {
  import opened Wrappers
  import opened Text

  /** One call of the parent's `handleComment(uniqueId, text)`. */
  datatype CommentCall = CommentCall(uniqueId: string, text: string)

  class CommentBox {
    const uniqueId: string
    var commentText: string
    var inputEnabled: bool

    /** A disabled input is empty: it cannot be typed into while disabled, and a
        submitting click clears it as it disables it. */
    ghost predicate Valid()
      reads this
    {
      !inputEnabled ==> commentText == ""
    }

    constructor (uniqueId: string)
      ensures Valid()
      ensures this.uniqueId == uniqueId && commentText == "" && !inputEnabled
    {
      this.uniqueId := uniqueId;
      commentText := "";
      inputEnabled := false;
    }

    /** The input's onChange. A disabled input receives no change events. */
    method HandleTextChange(text: string)
      requires Valid() && inputEnabled
      modifies this
      ensures Valid()
      ensures commentText == text && inputEnabled
    {
      commentText := text;
    }

    /** `handleButtonClick`. Returns the `handleComment` call it makes, if any. */
    method HandleButtonClick() returns (call: Option<CommentCall>)
      requires Valid()
      modifies this
      ensures Valid()
      ensures !old(inputEnabled) ==> inputEnabled && commentText == old(commentText) && call == None
      ensures old(inputEnabled) && Blank(old(commentText)) ==>
        inputEnabled && commentText == old(commentText) && call == None
      ensures old(inputEnabled) && !Blank(old(commentText)) ==>
        call == Some(CommentCall(uniqueId, old(commentText))) && commentText == "" && !inputEnabled
    {
      call := None;
      if !inputEnabled {
        inputEnabled := true;
      } else {
        if Blank(commentText) {
          return;
        }
        call := Some(CommentCall(uniqueId, commentText));
        commentText := "";
        inputEnabled := false;
      }
    }
  }
}

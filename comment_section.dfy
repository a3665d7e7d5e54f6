/**
 * The comment form under each post: a nickname and a text, a submitting flag
 * and whether the form is expanded.
 */
module CommentSection {
  import opened Collections
  import opened Gateway
  import Text

  /** The call `onAddComment(postId, nickname, content)` the form makes. */
  datatype AddCommentCall = AddCommentCall(postId: int, nickname: string, content: string)

  /** The submit button is disabled while a field is blank or a submission is in flight. */
  predicate SubmitDisabled(nickname: string, content: string, isSubmitting: bool) {
    Text.Blank(nickname) || Text.Blank(content) || isSubmitting
  }

  /**
   * The submit button is disabled exactly when the nickname or the text is
   * nothing but whitespace, or a submission is in flight; an enabled button
   * therefore always gets past the submit guard.
   */
  lemma SubmitDisabledIff(nickname: string, content: string, isSubmitting: bool)
    ensures SubmitDisabled(nickname, content, isSubmitting) <==>
      (forall i :: 0 <= i < |nickname| ==> Text.IsSpace(nickname[i]))
      || (forall i :: 0 <= i < |content| ==> Text.IsSpace(content[i]))
      || isSubmitting
    ensures !SubmitDisabled(nickname, content, isSubmitting) ==>
      !Text.Blank(nickname) && !Text.Blank(content)
  {
    Text.BlankIffAllSpace(nickname);
    Text.BlankIffAllSpace(content);
  }

  /** `getInitials`: the first character of the name, upper-cased; nothing for an empty name. */
  function Initials(name: string): (r: string)
    ensures |r| <= 1 && (r == [] <==> name == [])
    ensures forall k :: 0 <= k < |r| ==> !('a' <= r[k] <= 'z')
    ensures name != [] && 'a' <= name[0] <= 'z' ==> r[0] as int == name[0] as int - 32
    ensures name != [] && !('a' <= name[0] <= 'z') ==> r == name[..1]
  {
    if name == [] then [] else [Text.UpperChar(name[0])]
  }

  /** The initials depend on the first character only, and are their own initials. */
  lemma InitialsOfFirst(name: string)
    ensures Initials(name) == Initials(name[..if name == [] then 0 else 1])
    ensures Initials(Initials(name)) == Initials(name)
  {
  }

  /** The state of one post's comment form. */
  class Form {
    const postId: int
    var nickname: string
    var content: string
    var isSubmitting: bool
    var showForm: bool

    /** A form for post `postId` starts empty, idle and collapsed. */
    constructor (postId: int)
      ensures this.postId == postId
      ensures nickname == "" && content == "" && !isSubmitting && !showForm
    {
      this.postId := postId;
      nickname := "";
      content := "";
      isSubmitting := false;
      showForm := false;
    }

    /** The "add comment" button expands the form. */
    method Open()
      modifies this
      ensures showForm
      ensures nickname == old(nickname) && content == old(content) && isSubmitting == old(isSubmitting)
    {
      showForm := true;
    }

    /** Typing into the nickname field. */
    method SetNickname(s: string)
      modifies this
      ensures nickname == s
      ensures content == old(content) && isSubmitting == old(isSubmitting) && showForm == old(showForm)
    {
      nickname := s;
    }

    /** Typing into the comment field. */
    method SetContent(s: string)
      modifies this
      ensures content == s
      ensures nickname == old(nickname) && isSubmitting == old(isSubmitting) && showForm == old(showForm)
    {
      content := s;
    }

    /** The cancel button collapses the form and clears both fields. */
    method Cancel()
      modifies this
      ensures !showForm && nickname == "" && content == ""
      ensures isSubmitting == old(isSubmitting)
    {
      showForm := false;
      nickname := "";
      content := "";
    }

    /**
     * `handleSubmit` up to its await: a blank nickname or text returns with
     * nothing changed and no call; otherwise the submitting flag goes up and
     * `onAddComment` is called with the fields as they are (untrimmed).
     */
    method BeginSubmit() returns (call: Option<AddCommentCall>)
      modifies this
      ensures call.None? <==> Text.Blank(old(nickname)) || Text.Blank(old(content))
      ensures call.None? ==> isSubmitting == old(isSubmitting)
      ensures call.Some? ==> call.value == AddCommentCall(postId, nickname, content) && isSubmitting
      ensures nickname == old(nickname) && content == old(content) && showForm == old(showForm)
    {
      if Text.Blank(nickname) || Text.Blank(content) {
        return None;
      }
      isSubmitting := true;
      call := Some(AddCommentCall(postId, nickname, content));
    }

    /**
     * `handleSubmit` after its await: when `onAddComment` resolved the fields
     * are cleared and the form collapses; when it rejected they stay; either
     * way the submitting flag comes down.
     */
    method EndSubmit(settled: Settlement)
      modifies this
      ensures !isSubmitting
      ensures settled == Resolved ==> nickname == "" && content == "" && !showForm
      ensures settled == Rejected ==>
        nickname == old(nickname) && content == old(content) && showForm == old(showForm)
    {
      if settled == Resolved {
        nickname := "";
        content := "";
        showForm := false;
      }
      isSubmitting := false;
    }
  }
}

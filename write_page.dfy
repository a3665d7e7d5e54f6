/**
 * The post composer: nickname, text and an optional inline image, submitted
 * as one insert into the posts collection.
 */
module WritePage {
  import opened Collections
  import opened Gateway
  import Text

  /** The inserted row `{content, author, profile_image_url}`. */
  datatype PostInsert = PostInsert(content: string, author: string, profileImageUrl: Option<string>)

  /** How a submission starts: stopped by the guard (with its prompt), or sending an insert. */
  datatype Start = Blocked | Sending(insert: PostInsert)

  /** The alert shown once the insert has settled. */
  datatype Notice = Posted | PostFailed

  /** `profileImage || null`: no image is sent as null, any other image unchanged. */
  function ImageField(profileImage: string): (r: Option<string>)
    ensures r.None? <==> profileImage == ""
    ensures r.Some? ==> r.value == profileImage
  {
    if profileImage == "" then None else Some(profileImage)
  }

  /** The submit button is disabled while the text or the nickname is blank, or a post is in flight. */
  predicate SubmitDisabled(content: string, nickname: string, isPosting: bool) {
    Text.Blank(content) || Text.Blank(nickname) || isPosting
  }

  /**
   * The submit button is disabled exactly when the text or the nickname is
   * nothing but whitespace, or a post is in flight; an enabled button
   * therefore always gets past the submit guard.
   */
  lemma SubmitDisabledIff(content: string, nickname: string, isPosting: bool)
    ensures SubmitDisabled(content, nickname, isPosting) <==>
      (forall i :: 0 <= i < |content| ==> Text.IsSpace(content[i]))
      || (forall i :: 0 <= i < |nickname| ==> Text.IsSpace(nickname[i]))
      || isPosting
    ensures !SubmitDisabled(content, nickname, isPosting) ==>
      !Text.Blank(content) && !Text.Blank(nickname)
  {
    Text.BlankIffAllSpace(content);
    Text.BlankIffAllSpace(nickname);
  }

  /** The state of the composer page. */
  class Composer {
    var nickname: string
    var content: string
    var profileImage: string
    var isPosting: bool

    /** The page starts with empty fields and nothing in flight. */
    constructor ()
      ensures nickname == "" && content == "" && profileImage == "" && !isPosting
    {
      nickname := "";
      content := "";
      profileImage := "";
      isPosting := false;
    }

    /** Typing into the nickname field. */
    method SetNickname(s: string)
      modifies this
      ensures nickname == s
      ensures content == old(content) && profileImage == old(profileImage) && isPosting == old(isPosting)
    {
      nickname := s;
    }

    /** Typing into the text field. */
    method SetContent(s: string)
      modifies this
      ensures content == s
      ensures nickname == old(nickname) && profileImage == old(profileImage) && isPosting == old(isPosting)
    {
      content := s;
    }

    /**
     * `handleImageUpload`: with no file chosen nothing happens; otherwise the
     * file's data URL (`encoded`) becomes the profile image.
     */
    method UploadImage(encoded: Option<string>)
      modifies this
      ensures profileImage == (if encoded.Some? then encoded.value else old(profileImage))
      ensures nickname == old(nickname) && content == old(content) && isPosting == old(isPosting)
    {
      if encoded.Some? {
        profileImage := encoded.value;
      }
    }

    /**
     * `handleSubmit` up to its await: a blank text or nickname is blocked
     * with a prompt and nothing changes; otherwise the posting flag goes up
     * and the insert carries the fields untrimmed, an empty image as null.
     */
    method BeginSubmit() returns (start: Start)
      modifies this
      ensures start == Blocked <==> Text.Blank(old(content)) || Text.Blank(old(nickname))
      ensures start == Blocked ==> isPosting == old(isPosting)
      ensures start.Sending? ==>
        start.insert == PostInsert(content, nickname, ImageField(profileImage)) && isPosting
      ensures nickname == old(nickname) && content == old(content) && profileImage == old(profileImage)
    {
      if Text.Blank(content) || Text.Blank(nickname) {
        return Blocked;
      }
      isPosting := true;
      start := Sending(PostInsert(content, nickname, ImageField(profileImage)));
    }

    /**
     * `handleSubmit` after its await: success clears all three fields, failure
     * keeps them; the matching alert is returned and the posting flag comes
     * down on both paths.
     */
    method EndSubmit(reply: Reply<()>) returns (notice: Notice)
      modifies this
      ensures !isPosting
      ensures notice == (if reply.Ok? then Posted else PostFailed)
      ensures reply.Ok? ==> nickname == "" && content == "" && profileImage == ""
      ensures reply.Err? ==>
        nickname == old(nickname) && content == old(content) && profileImage == old(profileImage)
    {
      if reply.Ok? {
        nickname := "";
        content := "";
        profileImage := "";
        notice := Posted;
      } else {
        notice := PostFailed;
      }
      isPosting := false;
    }

    /**
     * The whole of `handleSubmit`, as one step: blocked with fields and flag
     * as they were, or sent and settled with the flag down afterwards.
     */
    method Submit(reply: Reply<()>) returns (start: Start, notice: Option<Notice>)
      modifies this
      ensures start == Blocked <==> Text.Blank(old(content)) || Text.Blank(old(nickname))
      ensures start == Blocked ==>
        notice.None? && nickname == old(nickname) && content == old(content)
        && profileImage == old(profileImage) && isPosting == old(isPosting)
      ensures start.Sending? ==>
        start.insert == PostInsert(old(content), old(nickname), ImageField(old(profileImage)))
        && !isPosting && notice == Some(if reply.Ok? then Posted else PostFailed)
        && (reply.Ok? ==> nickname == "" && content == "" && profileImage == "")
        && (reply.Err? ==> nickname == old(nickname) && content == old(content) && profileImage == old(profileImage))
    {
      start := BeginSubmit();
      if start == Blocked {
        return start, None;
      }
      var n := EndSubmit(reply);
      notice := Some(n);
    }
  }
}

/** Client of the composer's contracts: an empty nickname blocks the submission. */
module WriteScenario {
  import opened Gateway
  import opened WritePage

  method EmptyNicknameBlocks(reply: Reply<()>) {
    var page := new Composer();
    page.SetContent("hello");
    var start, notice := page.Submit(reply);
    assert start == Blocked && notice.None?;
    assert page.nickname == "" && page.content == "hello" && !page.isPosting;
  }
}

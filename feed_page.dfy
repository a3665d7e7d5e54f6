/**
 * The feed: posts fetched with their joined comments, turned into view-model
 * posts, and patched in memory after a like or a new comment.
 */
module FeedPage {
  import opened Collections
  import opened Gateway
  import Text
  import CommentSection

  /** A comment row as the gateway returns it, joined to its post. */
  datatype CommentRow = CommentRow(
    id: int, nickname: string, content: string, createdAt: string,
    profileImageUrl: Option<string>)

  /** A post row as the gateway returns it; `comments` is absent when the join produced nothing. */
  datatype PostRow = PostRow(
    id: int, content: string, author: string, createdAt: string, likes: int,
    profileImageUrl: Option<string>, comments: Option<seq<CommentRow>>)

  /** A view-model comment, as rendered under its post. */
  datatype Comment = Comment(
    id: int, nickname: string, content: string, timestamp: string,
    profileImage: Option<string>)

  /** A view-model post: `comments` is the displayed counter, `commentList` the displayed comments. */
  datatype Post = Post(
    id: int, content: string, author: string, timestamp: string, likes: int,
    comments: int, profileImage: Option<string>, commentList: seq<Comment>)

  /** The comment insert the feed sends: the row `{post_id, nickname, content}`. */
  datatype CommentInsert = CommentInsert(postId: int, nickname: string, content: string)

  /** The like update the feed sends: `likes = likes` where `id = postId`. */
  datatype LikeUpdate = LikeUpdate(postId: int, likes: int)

  // ---------------------------------------------------------------------
  // Load transform

  /** A joined comment as loaded: every field copied, `created_at` shown as the timestamp. */
  function LoadedComment(row: CommentRow): Comment {
    Comment(row.id, row.nickname, row.content, row.createdAt, row.profileImageUrl)
  }

  /** The number of comments the join returned for a post (`comments?.length || 0`). */
  function JoinedCount(row: PostRow): nat {
    match row.comments
    case None => 0
    case Some(cs) => |cs|
  }

  /** A post row as loaded: fields copied, counter and list taken from the joined comments. */
  function LoadedPost(row: PostRow): Post {
    Post(row.id, row.content, row.author, row.createdAt, row.likes,
         JoinedCount(row), row.profileImageUrl,
         match row.comments
         case None => []
         case Some(cs) => Map(LoadedComment, cs))
  }

  /** The `transformedData` of a successful load. */
  function Transform(rows: seq<PostRow>): seq<Post> {
    Map(LoadedPost, rows)
  }

  /** Every post's counter equals the length of its comment list. */
  ghost predicate CountersTrack(posts: seq<Post>) {
    forall i :: 0 <= i < |posts| ==> posts[i].comments == |posts[i].commentList|
  }

  /** No two posts share an id (the store assigns them). */
  ghost predicate UniqueIds(posts: seq<Post>) {
    forall i, j :: 0 <= i < j < |posts| ==> posts[i].id != posts[j].id
  }

  /**
   * The load transform keeps the rows' number and order and copies id,
   * content, author, likes, image and creation time of each.
   */
  lemma LoadCopiesRows(rows: seq<PostRow>, i: nat)
    requires i < |rows|
    ensures |Transform(rows)| == |rows|
    ensures Transform(rows)[i].id == rows[i].id
    ensures Transform(rows)[i].content == rows[i].content
    ensures Transform(rows)[i].author == rows[i].author
    ensures Transform(rows)[i].likes == rows[i].likes
    ensures Transform(rows)[i].timestamp == rows[i].createdAt
    ensures Transform(rows)[i].profileImage == rows[i].profileImageUrl
  {
    MapAt(LoadedPost, rows, i);
  }

  /**
   * After the load transform a post's counter is the number of its joined
   * comments and equals the length of its list, which holds those comments
   * in order; a post without joined comments gets 0 and an empty list.
   */
  lemma LoadCountsComments(rows: seq<PostRow>, i: nat)
    requires i < |rows|
    ensures Transform(rows)[i].comments == |Transform(rows)[i].commentList| == JoinedCount(rows[i])
    ensures rows[i].comments.None? ==> Transform(rows)[i].comments == 0 && Transform(rows)[i].commentList == []
    ensures rows[i].comments.Some? ==>
      forall j :: 0 <= j < |rows[i].comments.value| ==>
        Transform(rows)[i].commentList[j] == LoadedComment(rows[i].comments.value[j])
  {
    MapAt(LoadedPost, rows, i);
    if rows[i].comments.Some? {
      var cs := rows[i].comments.value;
      forall j | 0 <= j < |cs| ensures Transform(rows)[i].commentList[j] == LoadedComment(cs[j]) {
        MapAt(LoadedComment, cs, j);
      }
    }
  }

  /** A freshly loaded feed has every counter in step with its comment list. */
  lemma LoadEstablishesCounters(rows: seq<PostRow>)
    ensures CountersTrack(Transform(rows))
  {
    forall i | 0 <= i < |Transform(rows)|
      ensures Transform(rows)[i].comments == |Transform(rows)[i].commentList|
    {
      LoadCountsComments(rows, i);
    }
  }

  // ---------------------------------------------------------------------
  // Add-comment patch

  /** The comment built from the inserted row (`profile_image_url || undefined`). */
  function InsertedComment(row: CommentRow): (c: Comment)
    ensures c.id == row.id && c.nickname == row.nickname && c.content == row.content
    ensures c.timestamp == row.createdAt
    ensures c.profileImage.Some? <==> row.profileImageUrl.Some? && row.profileImageUrl.value != ""
    ensures c.profileImage.Some? ==> c.profileImage == row.profileImageUrl
  {
    Comment(row.id, row.nickname, row.content, row.createdAt,
            if row.profileImageUrl == Some("") then None else row.profileImageUrl)
  }

  /** One post under the add-comment patch. */
  function WithComment(postId: int, c: Comment): Post -> Post {
    (p: Post) => if p.id == postId then p.(comments := p.comments + 1, commentList := p.commentList + [c]) else p
  }

  /** `prev.map(...)` of `handleAddComment`. */
  function AddCommentPatch(posts: seq<Post>, postId: int, c: Comment): seq<Post> {
    Map(WithComment(postId, c), posts)
  }

  /**
   * The add-comment patch keeps the number of posts; a post with the target id
   * gets its counter raised by exactly one and the comment appended at the end
   * of its list, its other fields untouched; every other post is unchanged.
   */
  lemma AddCommentAt(posts: seq<Post>, postId: int, c: Comment, i: nat)
    requires i < |posts|
    ensures |AddCommentPatch(posts, postId, c)| == |posts|
    ensures posts[i].id != postId ==> AddCommentPatch(posts, postId, c)[i] == posts[i]
    ensures posts[i].id == postId ==>
      var q := AddCommentPatch(posts, postId, c)[i];
      q.comments == posts[i].comments + 1 && q.commentList == posts[i].commentList + [c]
      && q == posts[i].(comments := q.comments, commentList := q.commentList)
  {
    MapAt(WithComment(postId, c), posts, i);
  }

  /** Adding a comment keeps every counter in step with its list. */
  lemma AddCommentKeepsCounters(posts: seq<Post>, postId: int, c: Comment)
    requires CountersTrack(posts)
    ensures CountersTrack(AddCommentPatch(posts, postId, c))
  {
    forall i | 0 <= i < |posts|
      ensures AddCommentPatch(posts, postId, c)[i].comments == |AddCommentPatch(posts, postId, c)[i].commentList|
    {
      AddCommentAt(posts, postId, c, i);
    }
  }

  // ---------------------------------------------------------------------
  // Like patch

  /** `posts.find(post => post.id === postId)`, as the index of the first match. */
  function FindPost(posts: seq<Post>, postId: int): (r: Option<nat>)
    ensures r.None? <==> forall i :: 0 <= i < |posts| ==> posts[i].id != postId
    ensures r.Some? ==> r.value < |posts| && posts[r.value].id == postId
    ensures r.Some? ==> forall j :: 0 <= j < r.value ==> posts[j].id != postId
  {
    if posts == [] then None
    else if posts[0].id == postId then Some(0)
    else match FindPost(posts[1..], postId)
      case None => None
      case Some(k) => Some(k + 1)
  }

  /** One post under the like patch. */
  function WithLikes(postId: int, likes: int): Post -> Post {
    (p: Post) => if p.id == postId then p.(likes := likes) else p
  }

  /** `posts.map(...)` of `handleLike`: the posts with the target id get the new count. */
  function LikePatch(posts: seq<Post>, postId: int, likes: int): seq<Post> {
    Map(WithLikes(postId, likes), posts)
  }

  /**
   * The like patch keeps the number of posts, sets the like count of each post
   * with the target id and touches nothing else.
   */
  lemma LikeAt(posts: seq<Post>, postId: int, likes: int, i: nat)
    requires i < |posts|
    ensures |LikePatch(posts, postId, likes)| == |posts|
    ensures LikePatch(posts, postId, likes)[i] ==
      if posts[i].id == postId then posts[i].(likes := likes) else posts[i]
  {
    MapAt(WithLikes(postId, likes), posts, i);
  }

  /**
   * A successful like on a post that is present raises that post's count by
   * exactly one and, when ids are unique, leaves every other post as it was.
   */
  lemma LikeIncrements(posts: seq<Post>, postId: int)
    requires FindPost(posts, postId).Some?
    ensures var k := FindPost(posts, postId).value;
      var r := LikePatch(posts, postId, posts[k].likes + 1);
      |r| == |posts| && r[k] == posts[k].(likes := posts[k].likes + 1)
      && (UniqueIds(posts) ==> forall i :: 0 <= i < |posts| && i != k ==> r[i] == posts[i])
  {
    var k := FindPost(posts, postId).value;
    var n := posts[k].likes + 1;
    LikeAt(posts, postId, n, k);
    forall i | 0 <= i < |posts| && i != k && UniqueIds(posts)
      ensures LikePatch(posts, postId, n)[i] == posts[i]
    {
      LikeAt(posts, postId, n, i);
    }
  }

  /** A like keeps every counter in step with its list. */
  lemma LikeKeepsCounters(posts: seq<Post>, postId: int, likes: int)
    requires CountersTrack(posts)
    ensures CountersTrack(LikePatch(posts, postId, likes))
  {
    forall i | 0 <= i < |posts|
      ensures LikePatch(posts, postId, likes)[i].comments == |LikePatch(posts, postId, likes)[i].commentList|
    {
      LikeAt(posts, postId, likes, i);
    }
  }

  /**
   * A like and an added comment touch disjoint fields, so the order in which
   * their results are applied does not matter.
   */
  lemma LikeAndCommentCommute(posts: seq<Post>, likeId: int, likes: int, commentId: int, c: Comment)
    ensures LikePatch(AddCommentPatch(posts, commentId, c), likeId, likes)
         == AddCommentPatch(LikePatch(posts, likeId, likes), commentId, c)
  {
    var a := LikePatch(AddCommentPatch(posts, commentId, c), likeId, likes);
    var b := AddCommentPatch(LikePatch(posts, likeId, likes), commentId, c);
    forall i | 0 <= i < |posts| ensures a[i] == b[i] {
      AddCommentAt(posts, commentId, c, i);
      LikeAt(AddCommentPatch(posts, commentId, c), likeId, likes, i);
      LikeAt(posts, likeId, likes, i);
      AddCommentAt(LikePatch(posts, likeId, likes), commentId, c, i);
    }
  }

  // ---------------------------------------------------------------------
  // The feed state

  /** The `posts` and `loading` state of the feed page. */
  class Feed {
    var posts: seq<Post>
    var loading: bool

    /** The page mounts with no posts and the loading flag raised. */
    constructor ()
      ensures posts == [] && loading
    {
      posts := [];
      loading := true;
    }

    /** `fetchPosts` before its query: the loading flag goes up. */
    method BeginLoad()
      modifies this
      ensures loading && posts == old(posts)
    {
      loading := true;
    }

    /**
     * `fetchPosts` once its query has settled: an error or a null payload
     * keeps the posts, returned rows (an empty list too) replace them
     * wholesale; either way the loading flag comes down.
     */
    method EndLoad(reply: Reply<Option<seq<PostRow>>>)
      modifies this
      ensures !loading
      ensures posts == (if reply.Ok? && reply.value.Some? then Transform(reply.value.value) else old(posts))
      ensures CountersTrack(old(posts)) ==> CountersTrack(posts)
    {
      if reply.Err? {
        loading := false;
        return;
      }
      if reply.value.Some? {
        var rows := reply.value.value;
        LoadEstablishesCounters(rows);
        posts := Transform(rows);
      }
      loading := false;
    }

    /** The whole of `fetchPosts`, as one step. */
    method Load(reply: Reply<Option<seq<PostRow>>>)
      modifies this
      ensures !loading
      ensures posts == (if reply.Ok? && reply.value.Some? then Transform(reply.value.value) else old(posts))
    {
      BeginLoad();
      EndLoad(reply);
    }

    /**
     * `handleAddComment`: sends the insert; on success the returned row is
     * appended to the matching post and its counter raised; on failure the
     * posts stay; the error is caught, so the returned promise always resolves.
     */
    method AddComment(postId: int, nickname: string, content: string, reply: Reply<CommentRow>)
      returns (sent: CommentInsert, settled: Settlement)
      modifies this
      ensures sent == CommentInsert(postId, nickname, content)
      ensures settled == Resolved
      ensures loading == old(loading)
      ensures posts == (if reply.Ok? then AddCommentPatch(old(posts), postId, InsertedComment(reply.value)) else old(posts))
      ensures CountersTrack(old(posts)) ==> CountersTrack(posts)
    {
      sent := CommentInsert(postId, nickname, content);
      settled := Resolved;
      if reply.Err? {
        return;
      }
      var c := InsertedComment(reply.value);
      if CountersTrack(posts) {
        AddCommentKeepsCounters(posts, postId, c);
      }
      posts := AddCommentPatch(posts, postId, c);
    }

    /**
     * `handleLike`: a missing post is a no-op with no update sent; otherwise
     * the update for the first matching post's count plus one is sent, and only
     * on success is that count written into the posts with this id.
     */
    method Like(postId: int, reply: Reply<()>) returns (sent: Option<LikeUpdate>)
      modifies this
      ensures sent.None? <==> FindPost(old(posts), postId).None?
      ensures sent.None? ==> posts == old(posts)
      ensures sent.Some? ==>
        var k := FindPost(old(posts), postId).value;
        sent.value == LikeUpdate(postId, old(posts)[k].likes + 1)
        && posts == (if reply.Ok? then LikePatch(old(posts), postId, sent.value.likes) else old(posts))
      ensures loading == old(loading)
      ensures CountersTrack(old(posts)) ==> CountersTrack(posts)
    {
      var found := FindPost(posts, postId);
      if found.None? {
        return None;
      }
      var newLikes := posts[found.value].likes + 1;
      sent := Some(LikeUpdate(postId, newLikes));
      if reply.Err? {
        return;
      }
      if CountersTrack(posts) {
        LikeKeepsCounters(posts, postId, newLikes);
      }
      posts := LikePatch(posts, postId, newLikes);
    }
  }

  /**
   * A comment form of the feed submitting through `handleAddComment`: a blank
   * field stops it before anything is sent; otherwise the insert goes out and,
   * because the feed swallows gateway errors, the form is cleared and collapsed
   * whether or not the insert succeeded.
   */
  method SubmitComment(feed: Feed, form: CommentSection.Form, reply: Reply<CommentRow>)
    returns (sent: Option<CommentInsert>)
    modifies feed, form
    ensures sent.None? <==> Text.Blank(old(form.nickname)) || Text.Blank(old(form.content))
    ensures sent.None? ==>
      feed.posts == old(feed.posts) && form.nickname == old(form.nickname) && form.content == old(form.content)
      && form.showForm == old(form.showForm) && form.isSubmitting == old(form.isSubmitting)
    ensures sent.Some? ==>
      sent.value == CommentInsert(form.postId, old(form.nickname), old(form.content))
      && feed.posts == (if reply.Ok? then AddCommentPatch(old(feed.posts), form.postId, InsertedComment(reply.value)) else old(feed.posts))
      && form.nickname == "" && form.content == "" && !form.showForm && !form.isSubmitting
    ensures feed.loading == old(feed.loading)
  {
    var call := form.BeginSubmit();
    if call.None? {
      return None;
    }
    var insert, settled := feed.AddComment(call.value.postId, call.value.nickname, call.value.content, reply);
    form.EndSubmit(settled);
    sent := Some(insert);
  }
}

/**
 * Client of the feed's contracts: two loaded posts, a like on the first and a
 * comment on the second.
 */
module FeedScenario {
  import opened Collections
  import opened Gateway
  import opened FeedPage

  method LikeThenComment() {
    var c1 := CommentRow(7, "Ann", "first", "t0", None);
    var rows := [PostRow(1, "a", "Amy", "t1", 5, None, Some([])),
                 PostRow(2, "b", "Ben", "t2", 0, None, Some([c1]))];
    var feed := new Feed();
    feed.Load(Ok(Some(rows)));
    LoadCopiesRows(rows, 0);
    LoadCopiesRows(rows, 1);
    LoadCountsComments(rows, 1);
    assert !feed.loading && |feed.posts| == 2;
    var before := feed.posts;

    var update := feed.Like(1, Ok(()));
    assert update == Some(LikeUpdate(1, 6));
    LikeAt(before, 1, 6, 0);
    LikeAt(before, 1, 6, 1);
    assert feed.posts[0].likes == 6 && feed.posts[1] == before[1];

    var liked := feed.posts;
    var row := CommentRow(99, "Bob", "hi", "t", None);
    var sent, settled := feed.AddComment(2, "Bob", "hi", Ok(row));
    AddCommentAt(liked, 2, InsertedComment(row), 0);
    AddCommentAt(liked, 2, InsertedComment(row), 1);
    assert feed.posts[0] == liked[0];
    assert feed.posts[1].commentList == [LoadedComment(c1), Comment(99, "Bob", "hi", "t", None)];
    assert feed.posts[1].comments == 2;
  }
}

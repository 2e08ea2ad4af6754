/** The single-post page (client/src/pages/BlogPost.js): the fetched post
    and its comments, a like button that toggles a local count, and new
    comments added to the front of the list. */
module BlogPostPage {
  import opened Wrappers
  import opened BlogStore

  const PostNotFoundMessage := "Post not found"

  /** What the page renders. */
  datatype PageView = Spinner | NotFoundNotice | Article

  /** `post.likes || 0`: the server never stores a `likes` key, so in
      practice this is 0. */
  function InitialLikes(likes: Option<int>): int {
    if likes.Some? && likes.value != 0 then likes.value else 0
  }

  class PostPageState {
    var post: Option<Post>
    var comments: seq<Comment>
    var loading: bool
    var error: Option<string>
    var isLiked: bool
    var likeCount: int
    /** The count the page would show with the post not liked. */
    ghost var baseLikes: int

    /** The count is the unliked count plus one while the post is liked. */
    ghost predicate Valid()
      reads this
    {
      likeCount == baseLikes + (if isLiked then 1 else 0)
    }

    constructor ()
      ensures Valid() && baseLikes == 0
      ensures post == None && comments == [] && loading && error == None
      ensures !isLiked && likeCount == 0
    {
      post, comments, loading, error := None, [], true, None;
      isLiked, likeCount := false, 0;
      baseLikes := 0;
    }

    function View(): (v: PageView)
      reads this
      ensures v == Spinner <==> loading
      ensures v == NotFoundNotice <==> !loading && (error.Some? || post.None?)
    {
      if loading then Spinner
      else if error.Some? || post.None? then NotFoundNotice
      else Article
    }

    /** The fetch effect starting (again) for the id in the route. */
    method FetchStarted()
      modifies this`loading
      ensures loading
    {
      loading := true;
    }

    /** Both requests answered: the post, its comments and its like count
        are taken over. The like flag is not reset, so the unliked count is
        the new count less one if the post is still marked liked. */
    method FetchSucceeded(p: Post, likes: Option<int>, fetchedComments: seq<Comment>)
      requires Valid()
      modifies this
      ensures Valid()
      ensures post == Some(p) && comments == fetchedComments && !loading
      ensures likeCount == InitialLikes(likes)
      ensures isLiked == old(isLiked) && error == old(error)
      ensures !isLiked ==> baseLikes == InitialLikes(likes)
    {
      post := Some(p);
      comments := fetchedComments;
      likeCount := InitialLikes(likes);
      baseLikes := likeCount - (if isLiked then 1 else 0);
      loading := false;
    }

    /** Either request failed: the page shows its not-found notice. */
    method FetchFailed()
      requires Valid()
      modifies this`error, this`loading
      ensures Valid()
      ensures error == Some(PostNotFoundMessage) && !loading
      ensures View() == NotFoundNotice
    {
      error := Some(PostNotFoundMessage);
      loading := false;
    }

    /** handleLike: the flag flips; the count goes up for a like and down
        for an unlike. */
    method HandleLike()
      requires Valid()
      modifies this`isLiked, this`likeCount
      ensures Valid()
      ensures isLiked == !old(isLiked)
      ensures likeCount == if old(isLiked) then old(likeCount) - 1 else old(likeCount) + 1
    {
      var wasLiked := isLiked;
      isLiked := !wasLiked;
      likeCount := if wasLiked then likeCount - 1 else likeCount + 1;
    }

    /** handleCommentSubmit: the new comment goes in front of the others. */
    method HandleCommentSubmit(c: Comment)
      modifies this`comments
      ensures comments == [c] + old(comments)
      ensures |comments| == |old(comments)| + 1 && comments[0] == c && comments[1..] == old(comments)
    {
      comments := [c] + comments;
    }
  }

  /** Two clicks on the like button leave the flag and the count as they
      were. */
  method LikeTwice(page: PostPageState)
    requires page.Valid()
    modifies page
    ensures page.Valid()
    ensures page.isLiked == old(page.isLiked) && page.likeCount == old(page.likeCount)
    ensures page.baseLikes == old(page.baseLikes)
  {
    page.HandleLike();
    page.HandleLike();
  }
}

/** The "my posts" feed (`MyPostsPage.jsx`): the main feed's operations, with every
    fetched page filtered to the viewer's own posts and an owner-gated create handler. */
module MyPostsPage {
  import opened Wrappers
  import opened Entities
  import opened FeedLists
  import HomePage

  /** `post.user_id === currentUser.id` with a loaded user. */
  predicate IsOwner(currentUser: Option<User>, post: Post)
  {
    currentUser.Some? && post.userId == currentUser.value.id
  }

  class Feed {
    var currentUser: Option<User>
    var posts: seq<Post>
    var page: nat
    var loading: bool
    var hasMore: bool
    var activePost: Option<Post>
    var replyingTo: Option<Post>

    /** A fetch is only ever started with a loaded user. */
    ghost predicate Valid()
      reads this
    {
      page >= 1 && (loading ==> currentUser.Some?)
    }

    /** Every post in the feed belongs to the current user. */
    ghost predicate Owned()
      reads this
    {
      forall i :: 0 <= i < |posts| ==> IsOwner(currentUser, posts[i])
    }

    constructor ()
      ensures Valid() && Owned()
      ensures currentUser == None && posts == [] && page == 1 && !loading && hasMore
      ensures activePost == None && replyingTo == None
    {
      currentUser, posts, page, loading, hasMore := None, [], 1, false, true;
      activePost, replyingTo := None, None;
    }

    /** The mount effect, as on the main feed. */
    method FetchCurrentUser(hasToken: bool, response: Response<User>) returns (redirectToLogin: bool)
      requires Valid()
      modifies this`currentUser
      ensures Valid()
      ensures redirectToLogin == (!hasToken || response.Failed?)
      ensures currentUser == if redirectToLogin then old(currentUser) else Some(response.data)
    {
      if !hasToken {
        return true;
      }
      if response.Ok? {
        currentUser := Some(response.data);
        redirectToLogin := false;
      } else {
        redirectToLogin := true;
      }
    }

    /** `fetchMyPosts` up to its `await`: nothing happens without both a token and a loaded
        user; otherwise the feed is loading and the current page is requested. */
    method StartFetch(hasToken: bool) returns (request: Option<nat>)
      requires Valid()
      modifies this`loading
      ensures Valid()
      ensures request == if hasToken && currentUser.Some? then Some(page) else None
      ensures loading == (request.Some? || old(loading))
    {
      if !hasToken || currentUser.None? {
        return None;
      }
      loading := true;
      request := Some(page);
    }

    /** `fetchMyPosts` after its `await`: the page is filtered to the user's own posts, which
        are appended in order; `hasMore` records whether any were found, and on page 1 the
        first of them becomes active. A failure changes none of these. Loading ends. */
    method FinishFetch(response: Response<seq<Post>>)
      requires Valid() && loading
      modifies this`posts, this`hasMore, this`activePost, this`loading
      ensures Valid() && !loading
      ensures old(Owned()) ==> Owned()
      ensures response.Ok? ==>
        var mine := OwnPosts(response.data, currentUser.value.id);
        && posts == old(posts) + mine
        && hasMore == (mine != [])
        && activePost == if page == 1 && mine != [] then Some(mine[0]) else old(activePost)
      ensures response.Failed? ==>
        posts == old(posts) && hasMore == old(hasMore) && activePost == old(activePost)
    {
      if response.Ok? {
        var myPosts := OwnPosts(response.data, currentUser.value.id);
        posts := posts + myPosts;
        hasMore := |myPosts| > 0;
        if page == 1 && |myPosts| > 0 {
          activePost := Some(myPosts[0]);
        }
      }
      loading := false;
    }

    /** The sentinel observer, as on the main feed: the last card, once the user is loaded,
        while not loading. */
    predicate SentinelObserved()
      reads this
    {
      currentUser.Some? && !loading && posts != []
    }

    /** The infinite-scroll observer, as on the main feed. */
    method SentinelIntersected(isIntersecting: bool)
      requires Valid()
      modifies this`page
      ensures Valid()
      ensures page == if SentinelObserved() && isIntersecting && hasMore then old(page) + 1 else old(page)
    {
      if SentinelObserved() && isIntersecting && hasMore {
        page := page + 1;
      }
    }

    /** The snap observer, as on the main feed. */
    method PostVisible(postId: int)
      modifies this`activePost
      ensures var found := FindById(posts, postId);
        activePost == if currentUser.Some? && found.Some? && !HomePage.IsActiveId(old(activePost), postId) then found else old(activePost)
    {
      var found := FindById(posts, postId);
      if currentUser.Some? && found.Some? && !HomePage.IsActiveId(activePost, found.value.id) {
        activePost := found;
      }
    }

    /** `handlePostCreated`: an invalid response is ignored; a created post that belongs to the
        user goes to the top with zero counts and the feed scrolls up; anyone else's post
        changes nothing. */
    method HandlePostCreated(data: seq<Post>) returns (scrolledToTop: bool)
      requires currentUser.Some?
      modifies this`posts
      ensures old(Owned()) ==> Owned()
      ensures scrolledToTop == (data != [] && IsOwner(currentUser, data[0]))
      ensures posts == if scrolledToTop then [WithUserData(data[0], currentUser)] + old(posts) else old(posts)
    {
      if data == [] {
        return false;
      }
      var newPost := data[0];
      scrolledToTop := false;
      if newPost.userId == currentUser.value.id {
        posts := [WithUserData(newPost, currentUser)] + posts;
        scrolledToTop := true;
      }
    }

    /** `handleToggleReplyMode`, as on the main feed. */
    method HandleToggleReplyMode(post: Post)
      modifies this`replyingTo
      ensures replyingTo == ToggledReplyTarget(old(replyingTo), post)
    {
      if replyingTo.Some? && replyingTo.value.id == post.id {
        replyingTo := None;
      } else {
        replyingTo := Some(post);
      }
    }

    /** `handleReplyCreated`, as on the main feed; an updated post of the user's keeps the feed
        to the user's posts. */
    method HandleReplyCreated(updated: Post)
      modifies this`posts, this`activePost, this`replyingTo
      ensures old(Owned()) && IsOwner(currentUser, updated) ==> Owned()
      ensures posts == ReplacedById(old(posts), updated)
      ensures activePost == Some(updated) && replyingTo == None
    {
      posts := ReplacedById(posts, updated);
      activePost := Some(updated);
      replyingTo := None;
    }
  }

  /** With a token but no loaded user, no page is requested. */
  method NoFetchBeforeUser() returns (request: Option<nat>, loading: bool)
    ensures request == None && !loading
  {
    var feed := new Feed();
    request := feed.StartFetch(true);
    loading := feed.loading;
  }

  /** When the first page holds one of the user's posts, the sentinel moves on, pages 1 and 2
      are requested, and the feed ends up equal to the user's posts of both pages, in order,
      and nothing else. */
  method LoadTwoPages(user: User, first: seq<Post>, second: seq<Post>) returns (posts: seq<Post>, requested: seq<nat>)
    requires exists i :: 0 <= i < |first| && first[i].userId == user.id
    ensures requested == [1, 2]
    ensures posts == OwnPosts(first + second, user.id)
    ensures forall i :: 0 <= i < |posts| ==> posts[i].userId == user.id
  {
    var feed := new Feed();
    var redirect := feed.FetchCurrentUser(true, Ok(user));
    var r1 := feed.StartFetch(true);
    feed.FinishFetch(Ok(first));
    OwnPostsEmptyIff(first, user.id);
    assert feed.posts == OwnPosts(first, user.id) != [];
    feed.SentinelIntersected(true);
    assert feed.page == 2;
    var r2 := feed.StartFetch(true);
    feed.FinishFetch(Ok(second));
    assert feed.posts == OwnPosts(first, user.id) + OwnPosts(second, user.id);
    OwnPostsOfConcat(first, second, user.id);
    posts, requested := feed.posts, [r1.value, r2.value];
  }

  /** A valid response carrying someone else's post neither changes the feed nor scrolls it. */
  method ForeignPostIgnored(user: User, foreign: Post) returns (posts: seq<Post>, scrolled: bool)
    requires foreign.userId != user.id
    ensures posts == [] && !scrolled
  {
    var feed := new Feed();
    var redirect := feed.FetchCurrentUser(true, Ok(user));
    scrolled := feed.HandlePostCreated([foreign]);
    posts := feed.posts;
  }

  /** A first page without any of the user's posts ends paging: `hasMore` becomes false even
      though the server returned posts, and the empty feed has no sentinel to observe. */
  method ForeignPageStopsPaging(user: User, first: seq<Post>) returns (hasMore: bool, posts: seq<Post>, page: nat)
    requires forall i :: 0 <= i < |first| ==> first[i].userId != user.id
    ensures !hasMore && posts == [] && page == 1
  {
    var feed := new Feed();
    var redirect := feed.FetchCurrentUser(true, Ok(user));
    var r1 := feed.StartFetch(true);
    feed.FinishFetch(Ok(first));
    OwnPostsEmptyIff(first, user.id);
    feed.SentinelIntersected(true);
    hasMore, posts, page := feed.hasMore, feed.posts, feed.page;
  }
}

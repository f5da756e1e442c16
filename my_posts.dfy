/** The second "my posts" feed (`MyPosts.jsx`): like `MyPostsPage`, except that its create
    handler scrolls to the top for every valid response, and its reply toggle is a
    functional state update. */
module MyPosts {
  import opened Wrappers
  import opened Entities
  import opened FeedLists
  import HomePage
  import MyPostsPage
  class Feed {
    var currentUser: Option<User>
    var posts: seq<Post>
    var page: nat
    var loading: bool
    var hasMore: bool
    var activePost: Option<Post>
    var replyingTo: Option<Post>

    /** A fetch is only ever started with a loaded user. */
    ghost predicate Valid()
      reads this
    {
      page >= 1 && (loading ==> currentUser.Some?)
    }

    /** Every post in the feed belongs to the current user. */
    ghost predicate Owned()
      reads this
    {
      forall i :: 0 <= i < |posts| ==> MyPostsPage.IsOwner(currentUser, posts[i])
    }

    constructor ()
      ensures Valid() && Owned()
      ensures currentUser == None && posts == [] && page == 1 && !loading && hasMore
      ensures activePost == None && replyingTo == None
    {
      currentUser, posts, page, loading, hasMore := None, [], 1, false, true;
      activePost, replyingTo := None, None;
    }

    /** The mount effect, as on the main feed. */
    method FetchCurrentUser(hasToken: bool, response: Response<User>) returns (redirectToLogin: bool)
      requires Valid()
      modifies this`currentUser
      ensures Valid()
      ensures redirectToLogin == (!hasToken || response.Failed?)
      ensures currentUser == if redirectToLogin then old(currentUser) else Some(response.data)
    {
      if !hasToken {
        return true;
      }
      if response.Ok? {
        currentUser := Some(response.data);
        redirectToLogin := false;
      } else {
        redirectToLogin := true;
      }
    }

    /** `fetchPosts` up to its `await`: nothing happens without both a token and a loaded
        user; otherwise the feed is loading and the current page is requested. */
    method StartFetch(hasToken: bool) returns (request: Option<nat>)
      requires Valid()
      modifies this`loading
      ensures Valid()
      ensures request == if hasToken && currentUser.Some? then Some(page) else None
      ensures loading == (request.Some? || old(loading))
    {
      if !hasToken || currentUser.None? {
        return None;
      }
      loading := true;
      request := Some(page);
    }

    /** `fetchPosts` after its `await`: the page is filtered to the user's own posts, which
        are appended in order; `hasMore` records whether any were found, and on page 1 the
        first of them becomes active. A failure changes none of these. Loading ends. */
    method FinishFetch(response: Response<seq<Post>>)
      requires Valid() && loading
      modifies this`posts, this`hasMore, this`activePost, this`loading
      ensures Valid() && !loading
      ensures old(Owned()) ==> Owned()
      ensures response.Ok? ==>
        var mine := OwnPosts(response.data, currentUser.value.id);
        && posts == old(posts) + mine
        && hasMore == (mine != [])
        && activePost == if page == 1 && mine != [] then Some(mine[0]) else old(activePost)
      ensures response.Failed? ==>
        posts == old(posts) && hasMore == old(hasMore) && activePost == old(activePost)
    {
      if response.Ok? {
        var userPosts := OwnPosts(response.data, currentUser.value.id);
        posts := posts + userPosts;
        hasMore := |userPosts| > 0;
        if page == 1 && |userPosts| > 0 {
          activePost := Some(userPosts[0]);
        }
      }
      loading := false;
    }

    /** The sentinel observer, as on the main feed: the last card, once the user is loaded,
        while not loading. */
    predicate SentinelObserved()
      reads this
    {
      currentUser.Some? && !loading && posts != []
    }

    /** The infinite-scroll observer, as on the main feed. */
    method SentinelIntersected(isIntersecting: bool)
      requires Valid()
      modifies this`page
      ensures Valid()
      ensures page == if SentinelObserved() && isIntersecting && hasMore then old(page) + 1 else old(page)
    {
      if SentinelObserved() && isIntersecting && hasMore {
        page := page + 1;
      }
    }

    /** The snap observer, as on the main feed. */
    method PostVisible(postId: int)
      modifies this`activePost
      ensures var found := FindById(posts, postId);
        activePost == if currentUser.Some? && found.Some? && !HomePage.IsActiveId(old(activePost), postId) then found else old(activePost)
    {
      var found := FindById(posts, postId);
      if currentUser.Some? && found.Some? && !HomePage.IsActiveId(activePost, found.value.id) {
        activePost := found;
      }
    }

    /** `handlePostCreated`: an invalid response is ignored; otherwise the feed scrolls to the
        top, and the created post, with zero counts, goes to the top only when it belongs to
        the user. */
    method HandlePostCreated(data: seq<Post>) returns (scrolledToTop: bool)
      requires currentUser.Some?
      modifies this`posts
      ensures old(Owned()) ==> Owned()
      ensures scrolledToTop == (data != [])
      ensures posts == if data != [] && MyPostsPage.IsOwner(currentUser, data[0])
                       then [WithUserData(data[0], currentUser)] + old(posts)
                       else old(posts)
    {
      if data == [] {
        return false;
      }
      var newPost := data[0];
      var postWithUserData := WithUserData(newPost, currentUser);
      if newPost.userId == currentUser.value.id {
        posts := [postWithUserData] + posts;
      }
      scrolledToTop := true;
    }

    /** `handleToggleReplyMode`: applies the functional updater to the previous target. */
    method HandleToggleReplyMode(post: Post)
      modifies this`replyingTo
      ensures replyingTo == ToggledReplyTarget(old(replyingTo), post)
    {
      replyingTo := ToggledReplyTarget(replyingTo, post);
    }

    /** `handleReplyCreated`, as on the main feed; an updated post of the user's keeps the feed
        to the user's posts. */
    method HandleReplyCreated(updated: Post)
      modifies this`posts, this`activePost, this`replyingTo
      ensures old(Owned()) && MyPostsPage.IsOwner(currentUser, updated) ==> Owned()
      ensures posts == ReplacedById(old(posts), updated)
      ensures activePost == Some(updated) && replyingTo == None
    {
      posts := ReplacedById(posts, updated);
      activePost := Some(updated);
      replyingTo := None;
    }
  }

  /** The create handler's distinguishing rule: a valid response carrying someone else's
      post scrolls the feed to the top but adds nothing, while the user's own post is
      prepended with zero counts. */
  method CreatedPostsOfTwoOwners(user: User, foreign: Post, own: Post) returns (afterForeign: seq<Post>, scrolled: bool, afterOwn: seq<Post>)
    requires foreign.userId != user.id && own.userId == user.id
    ensures afterForeign == [] && scrolled
    ensures afterOwn == [WithUserData(own, Some(user))]
  {
    var feed := new Feed();
    var redirect := feed.FetchCurrentUser(true, Ok(user));
    scrolled := feed.HandlePostCreated([foreign]);
    afterForeign := feed.posts;
    var s2 := feed.HandlePostCreated([own]);
    afterOwn := feed.posts;
  }
}

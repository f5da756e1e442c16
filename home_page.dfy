/** The main feed: paged fetch, infinite scroll, active-post tracking, and the
    handlers the composer calls back. */
module HomePage {
  import opened Wrappers
  import opened Entities
  import opened FeedLists

  /** `post.id !== activePost?.id` fails exactly when `activePost` is that post. */
  predicate IsActiveId(activePost: Option<Post>, id: int)
  {
    activePost.Some? && activePost.value.id == id
  }

  class Feed {
    var currentUser: Option<User>
    var posts: seq<Post>
    var page: nat
    var loading: bool
    var hasMore: bool
    var activePost: Option<Post>
    var replyingTo: Option<Post>
    /** Whether the snap effect last ran while the cards were rendered, i.e. with the user
        loaded. The effect re-runs only when `posts` or the active post's id change, so
        cards rendered by the user's arrival alone are not observed. */
    var cardsObserved: bool

    ghost predicate Valid()
      reads this
    {
      page >= 1
    }

    /** The initial `useState` values. */
    constructor ()
      ensures Valid()
      ensures currentUser == None && posts == [] && page == 1 && !loading && hasMore
      ensures activePost == None && replyingTo == None && !cardsObserved
    {
      currentUser, posts, page, loading, hasMore := None, [], 1, false, true;
      activePost, replyingTo, cardsObserved := None, None, false;
    }

    /** The mount effect: without a token, or when `GET /user` fails, the page redirects
        to the login screen; otherwise the user is stored. */
    method FetchCurrentUser(hasToken: bool, response: Response<User>) returns (redirectToLogin: bool)
      modifies this`currentUser
      ensures redirectToLogin == (!hasToken || response.Failed?)
      ensures currentUser == if redirectToLogin then old(currentUser) else Some(response.data)
    {
      if !hasToken {
        return true;
      }
      match response
      case Ok(user) =>
        currentUser := Some(user);
        redirectToLogin := false;
      case Failed(_) =>
        redirectToLogin := true;
    }

    /** The fetch effect up to its `await`: with a token, marks the feed loading and
        requests the current page (the returned page number); without one, does nothing. */
    method StartFetch(hasToken: bool) returns (request: Option<nat>)
      modifies this`loading
      ensures request == if hasToken then Some(page) else None
      ensures loading == (hasToken || old(loading))
    {
      if !hasToken {
        return None;
      }
      loading := true;
      request := Some(page);
    }

    /** The fetch effect after its `await`: a page is appended as it came, `hasMore` records
        whether it was non-empty, and a non-empty first page makes its first post active;
        the new `posts` array re-runs the snap effect. A failure changes none of these.
        Loading ends either way. */
    method FinishFetch(response: Response<seq<Post>>)
      requires loading
      modifies this`posts, this`hasMore, this`activePost, this`loading, this`cardsObserved
      ensures !loading
      ensures cardsObserved == if response.Ok? then currentUser.Some? else old(cardsObserved)
      ensures response.Ok? ==>
        && posts == old(posts) + response.data
        && hasMore == (|response.data| > 0)
        && activePost == if page == 1 && |response.data| > 0 then Some(response.data[0]) else old(activePost)
      ensures response.Failed? ==>
        posts == old(posts) && hasMore == old(hasMore) && activePost == old(activePost)
    {
      if response.Ok? {
        var newPosts := response.data;
        posts := posts + newPosts;
        hasMore := |newPosts| > 0;
        if page == 1 && |newPosts| > 0 {
          activePost := Some(newPosts[0]);
        }
        cardsObserved := currentUser.Some?;
      }
      loading := false;
    }

    /** An intersection observer is attached to the last post only, and only once the user
        is loaded (before that no card is rendered) and while not loading. */
    predicate SentinelObserved()
      reads this
    {
      currentUser.Some? && !loading && posts != []
    }

    /** The infinite-scroll observer fires: the page advances by one when the sentinel is
        observed and intersecting and more pages may exist. */
    method SentinelIntersected(isIntersecting: bool)
      requires Valid()
      modifies this`page
      ensures Valid()
      ensures page == if SentinelObserved() && isIntersecting && hasMore then old(page) + 1 else old(page)
    {
      if SentinelObserved() && isIntersecting && hasMore {
        page := page + 1;
      }
    }

    /** The snap observer reports the card with `postId` mostly in view: the first post with
        that id becomes active unless it already is. Only cards the effect observed can be
        reported; a change of the active id re-runs the effect over the same rendered cards. */
    method PostVisible(postId: int)
      modifies this`activePost
      ensures var found := FindById(posts, postId);
        activePost == if cardsObserved && found.Some? && !IsActiveId(old(activePost), postId) then found else old(activePost)
      ensures activePost != old(activePost) ==>
        activePost.Some? && activePost.value in posts && activePost.value.id == postId &&
        !IsActiveId(old(activePost), postId)
    {
      var found := FindById(posts, postId);
      if cardsObserved && found.Some? && !IsActiveId(activePost, found.value.id) {
        activePost := found;
      }
    }

    /** `handlePostCreated`: a response without a first element is ignored; otherwise that
        post, with zero counts and the current user attached, goes to the top of the feed
        and the feed scrolls to the top; the new `posts` array re-runs the snap effect. */
    method HandlePostCreated(data: seq<Post>) returns (scrolledToTop: bool)
      modifies this`posts, this`cardsObserved
      ensures scrolledToTop == (data != [])
      ensures cardsObserved == if data == [] then old(cardsObserved) else currentUser.Some?
      ensures posts == if data == [] then old(posts) else [WithUserData(data[0], currentUser)] + old(posts)
    {
      if data == [] {
        return false;
      }
      var created := WithUserData(data[0], currentUser);
      posts := [created] + posts;
      cardsObserved := currentUser.Some?;
      scrolledToTop := true;
    }

    /** `handleToggleReplyMode`: the reply icon of the post being replied to cancels reply
        mode; any other post's icon targets that post. */
    method HandleToggleReplyMode(post: Post)
      modifies this`replyingTo
      ensures replyingTo == ToggledReplyTarget(old(replyingTo), post)
    {
      if replyingTo.Some? && replyingTo.value.id == post.id {
        replyingTo := None;
      } else {
        replyingTo := Some(post);
      }
    }

    /** `handleReplyCreated`: the server's updated post replaces the posts with its id, becomes
        active, and reply mode ends; the new `posts` array re-runs the snap effect. */
    method HandleReplyCreated(updated: Post)
      modifies this`posts, this`activePost, this`replyingTo, this`cardsObserved
      ensures posts == ReplacedById(old(posts), updated)
      ensures activePost == Some(updated) && replyingTo == None
      ensures cardsObserved == currentUser.Some?
    {
      posts := ReplacedById(posts, updated);
      activePost := Some(updated);
      replyingTo := None;
      cardsObserved := currentUser.Some?;
    }
  }

  /** With the user loaded, loading page 1 and then page 2 gives page 1 followed by page 2,
      with no de-duplication, and the first post of page 1 active. */
  method LoadTwoPages(user: User, first: seq<Post>, second: seq<Post>) returns (posts: seq<Post>, requested: seq<nat>, active: Option<Post>)
    requires first != []
    ensures posts == first + second
    ensures requested == [1, 2]
    ensures active == Some(first[0])
  {
    var feed := new Feed();
    var redirect := feed.FetchCurrentUser(true, Ok(user));
    var r1 := feed.StartFetch(true);
    feed.FinishFetch(Ok(first));
    feed.SentinelIntersected(true);
    var r2 := feed.StartFetch(true);
    feed.FinishFetch(Ok(second));
    posts, requested, active := feed.posts, [r1.value, r2.value], feed.activePost;
  }

  /** After an empty page `hasMore` is false and the sentinel no longer advances the page. */
  method EmptyPageStopsPaging(user: User, first: seq<Post>) returns (hasMore: bool, pageBefore: nat, pageAfter: nat)
    requires first != []
    ensures !hasMore && pageBefore == pageAfter == 2
  {
    var feed := new Feed();
    var redirect := feed.FetchCurrentUser(true, Ok(user));
    var r1 := feed.StartFetch(true);
    feed.FinishFetch(Ok(first));
    feed.SentinelIntersected(true);
    var r2 := feed.StartFetch(true);
    feed.FinishFetch(Ok([]));
    pageBefore := feed.page;
    feed.SentinelIntersected(true);
    hasMore, pageAfter := feed.hasMore, feed.page;
  }

  /** While a page is loading the sentinel is not observed, so the page does not advance. */
  method NoAdvanceWhileLoading(user: User, first: seq<Post>) returns (pageBefore: nat, pageAfter: nat)
    requires first != []
    ensures pageBefore == pageAfter == 2
  {
    var feed := new Feed();
    var redirect := feed.FetchCurrentUser(true, Ok(user));
    var r1 := feed.StartFetch(true);
    feed.FinishFetch(Ok(first));
    feed.SentinelIntersected(true);
    var r2 := feed.StartFetch(true);
    pageBefore := feed.page;
    feed.SentinelIntersected(true);
    pageAfter := feed.page;
  }

  /** The main feed fetches without waiting for the user, but until the user is loaded no card
      is rendered: the sentinel does not advance the page and no post becomes active by
      scrolling. */
  method NothingObservedBeforeUser(first: seq<Post>) returns (page: nat, activeBefore: Option<Post>, activeAfter: Option<Post>)
    requires first != []
    ensures page == 1 && activeAfter == activeBefore
  {
    var feed := new Feed();
    var r1 := feed.StartFetch(true);
    feed.FinishFetch(Ok(first));
    feed.SentinelIntersected(true);
    activeBefore := feed.activePost;
    feed.PostVisible(first[0].id);
    page, activeAfter := feed.page, feed.activePost;
  }

  /** A first page that arrives before `GET /user` settles is fetched while only the loading
      notice is rendered, so the snap effect observes none of its cards; loading the user does
      not re-run it, and scrolling activates nothing. A created post changes `posts`, the
      effect re-runs over the rendered cards, and scrolling to the created post makes it
      active. */
  method UserLoadedAfterFirstPage(user: User, first: seq<Post>, created: Post)
    returns (activeBefore: Option<Post>, activeAfterScroll: Option<Post>, activeAfterCreate: Option<Post>)
    requires first != [] && created.id != first[0].id
    ensures activeBefore == Some(first[0])
    ensures activeAfterScroll == activeBefore
    ensures activeAfterCreate == Some(WithUserData(created, Some(user)))
  {
    var feed := new Feed();
    var r1 := feed.StartFetch(true);
    feed.FinishFetch(Ok(first));
    var redirect := feed.FetchCurrentUser(true, Ok(user));
    activeBefore := feed.activePost;
    feed.PostVisible(first[|first| - 1].id);
    activeAfterScroll := feed.activePost;
    var scrolled := feed.HandlePostCreated([created]);
    assert feed.posts[0] == WithUserData(created, Some(user));
    feed.PostVisible(created.id);
    activeAfterCreate := feed.activePost;
  }
}

/** The pure list expressions the three feed pages apply to their `posts` slot. */
module FeedLists {
  import opened Wrappers
  import opened Entities

  /** `page.filter(post => post.user_id === ownerId)`. */
  function OwnPosts(page: seq<Post>, ownerId: int): (r: seq<Post>)
    ensures |r| <= |page|
    ensures forall i :: 0 <= i < |r| ==> r[i].userId == ownerId && r[i] in page
    ensures forall p :: p in page && p.userId == ownerId ==> p in r
  {
    if page == [] then []
    else if page[0].userId == ownerId then [page[0]] + OwnPosts(page[1..], ownerId)
    else OwnPosts(page[1..], ownerId)
  }

  /** Filtering a concatenation filters each part, keeping their order. */
  lemma {:induction false} OwnPostsOfConcat(a: seq<Post>, b: seq<Post>, ownerId: int)
    ensures OwnPosts(a + b, ownerId) == OwnPosts(a, ownerId) + OwnPosts(b, ownerId)
  {
    if a == [] {
      assert a + b == b;
    } else {
      assert (a + b)[1..] == a[1..] + b;
      OwnPostsOfConcat(a[1..], b, ownerId);
    }
  }

  /** A page made only of the owner's posts passes the filter unchanged. */
  lemma {:induction false} OwnPostsOfOwned(page: seq<Post>, ownerId: int)
    requires forall i :: 0 <= i < |page| ==> page[i].userId == ownerId
    ensures OwnPosts(page, ownerId) == page
  {
    if page != [] {
      OwnPostsOfOwned(page[1..], ownerId);
    }
  }

  /** The filter is empty exactly when the page holds none of the owner's posts. */
  lemma {:induction false} OwnPostsEmptyIff(page: seq<Post>, ownerId: int)
    ensures OwnPosts(page, ownerId) == [] <==> forall i :: 0 <= i < |page| ==> page[i].userId != ownerId
  {
    if page != [] {
      OwnPostsEmptyIff(page[1..], ownerId);
      assert forall i :: 1 <= i < |page| ==> page[i] == page[1..][i - 1];
    }
  }

  /** The first own post of a page is the first element of the filtered page. */
  lemma {:induction false} OwnPostsHead(page: seq<Post>, ownerId: int, k: nat)
    requires k < |page| && page[k].userId == ownerId
    requires forall i :: 0 <= i < k ==> page[i].userId != ownerId
    ensures OwnPosts(page, ownerId) != [] && OwnPosts(page, ownerId)[0] == page[k]
  {
    if k > 0 {
      OwnPostsHead(page[1..], ownerId, k - 1);
    }
  }

  /** `{ ...post, users: currentUser, likes: [{ count: 0 }], replies: [{ count: 0 }] }`. */
  function WithUserData(post: Post, currentUser: Option<User>): (r: Post)
    ensures r.id == post.id && r.userId == post.userId
    ensures r.content == post.content && r.createdAt == post.createdAt
    ensures r.users == currentUser
    ensures FirstCount(r.likes) == 0 && FirstCount(r.replies) == 0
  {
    post.(users := currentUser, likes := [Aggregate(0)], replies := [Aggregate(0)])
  }

  /** `posts.map(p => p.id === updated.id ? updated : p)`. */
  function ReplacedById(posts: seq<Post>, updated: Post): (r: seq<Post>)
    ensures |r| == |posts|
    ensures forall i :: 0 <= i < |posts| ==> r[i] == (if posts[i].id == updated.id then updated else posts[i])
  {
    seq(|posts|, i requires 0 <= i < |posts| => if posts[i].id == updated.id then updated else posts[i])
  }

  /** Replacing by id touches nothing when no post carries that id. */
  lemma ReplacedByIdAbsent(posts: seq<Post>, updated: Post)
    requires forall i :: 0 <= i < |posts| ==> posts[i].id != updated.id
    ensures ReplacedById(posts, updated) == posts
  {
  }

  /** Replacing twice with the same post is the same as replacing once. */
  lemma ReplacedByIdIdempotent(posts: seq<Post>, updated: Post)
    ensures ReplacedById(ReplacedById(posts, updated), updated) == ReplacedById(posts, updated)
  {
  }

  /** `posts.find(p => p.id === id)`: the first post with that id, if any. */
  function FindById(posts: seq<Post>, id: int): (r: Option<Post>)
    ensures r.None? <==> forall i :: 0 <= i < |posts| ==> posts[i].id != id
    ensures r.Some? ==> exists k :: 0 <= k < |posts| && posts[k] == r.value && r.value.id == id &&
                                    forall i :: 0 <= i < k ==> posts[i].id != id
  {
    if posts == [] then None
    else if posts[0].id == id then Some(posts[0])
    else
      var r := FindById(posts[1..], id);
      assert forall i :: 1 <= i < |posts| ==> posts[i] == posts[1..][i - 1];
      if r.Some? then
        var k :| 0 <= k < |posts[1..]| && posts[1..][k] == r.value && r.value.id == id &&
                 forall i :: 0 <= i < k ==> posts[1..][i].id != id;
        assert posts[k + 1] == r.value;
        r
      else r
  }

  /** `prev && prev.id === post.id ? null : post`: the reply target after clicking
      the reply icon of `post`. */
  function ToggledReplyTarget(prev: Option<Post>, post: Post): (r: Option<Post>)
    ensures r.None? <==> prev.Some? && prev.value.id == post.id
    ensures r.Some? ==> r == Some(post)
  {
    if prev.Some? && prev.value.id == post.id then None else Some(post)
  }

  /** Clicking the same reply icon twice from any state other than replying to
      that post returns to not replying. */
  lemma ToggleTwiceClears(prev: Option<Post>, post: Post)
    requires !(prev.Some? && prev.value.id == post.id)
    ensures ToggledReplyTarget(ToggledReplyTarget(prev, post), post) == None
  {
  }
}

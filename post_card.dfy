/** The like button of one post card: an optimistic like/unlike with an
    in-flight guard and rollback on failure. */
module Likes {
  import opened Wrappers
  import opened Entities

  /** The request `handleLike` issues: `POST` or `DELETE /post/:id/likes`. */
  datatype LikeRequest = CreateLike(postId: int) | DeleteLike(postId: int)

  /** The optimistic view after a click: the heart flips and the count moves by one. */
  function Toggled(isLiked: bool, likesCount: int): (r: (bool, int))
    ensures r.0 == !isLiked
    ensures r.1 == (if isLiked then likesCount - 1 else likesCount + 1)
  {
    (!isLiked, if isLiked then likesCount - 1 else likesCount + 1)
  }

  /** Two optimistic toggles cancel: like then unlike restores heart and count. */
  lemma ToggledTwice(isLiked: bool, likesCount: int)
    ensures Toggled(Toggled(isLiked, likesCount).0, Toggled(isLiked, likesCount).1) == (isLiked, likesCount)
  {
  }

  class PostCard {
    const postId: int
    var likesCount: int
    var isLiked: bool
    var isLiking: bool
    // The values `handleLike` captured before its optimistic update
    // (`originalLikes`, `originalIsLiked`), kept for the pending request.
    var originalLikes: int
    var originalIsLiked: bool

    /** While a request is in flight the shown state is the toggle of the captured one. */
    ghost predicate Valid()
      reads this
    {
      isLiking ==> (isLiked, likesCount) == Toggled(originalIsLiked, originalLikes)
    }

    /** A fresh card: not liked, not liking, the count from `post.likes[0]?.count || 0`. */
    constructor (post: Post)
      ensures Valid()
      ensures postId == post.id
      ensures likesCount == FirstCount(post.likes) && !isLiked && !isLiking
    {
      postId := post.id;
      likesCount := FirstCount(post.likes);
      isLiked := false;
      isLiking := false;
      originalLikes := FirstCount(post.likes);
      originalIsLiked := false;
    }

    /** The synchronous part of `handleLike`, up to the `await`: ignored while a request is
        in flight; otherwise marks the card liking, captures the originals, flips the heart,
        moves the count and issues the matching request. */
    method Click() returns (request: Option<LikeRequest>)
      requires Valid()
      modifies this
      ensures Valid()
      ensures old(isLiking) ==> request == None && unchanged(this)
      ensures !old(isLiking) ==>
        && isLiking
        && originalLikes == old(likesCount) && originalIsLiked == old(isLiked)
        && (isLiked, likesCount) == Toggled(old(isLiked), old(likesCount))
        && request == Some(if old(isLiked) then DeleteLike(postId) else CreateLike(postId))
    {
      if isLiking {
        return None;
      }
      isLiking := true;
      originalLikes := likesCount;
      originalIsLiked := isLiked;
      var wasLiked := isLiked;
      isLiked := !wasLiked;
      likesCount := if wasLiked then likesCount - 1 else likesCount + 1;
      if wasLiked {
        request := Some(DeleteLike(postId));
      } else {
        request := Some(CreateLike(postId));
      }
    }

    /** The rest of `handleLike` once the request settles: on failure the captured values
        come back and an alert is raised; `finally` clears the in-flight flag either way. */
    method Settle(succeeded: bool) returns (alerted: bool)
      requires Valid() && isLiking
      modifies this
      ensures Valid() && !isLiking
      ensures alerted == !succeeded
      ensures succeeded ==> isLiked == old(isLiked) && likesCount == old(likesCount)
      ensures !succeeded ==> isLiked == old(originalIsLiked) && likesCount == old(originalLikes)
      ensures originalLikes == old(originalLikes) && originalIsLiked == old(originalIsLiked)
    {
      alerted := false;
      if !succeeded {
        isLiked := originalIsLiked;
        likesCount := originalLikes;
        alerted := true;
      }
      isLiking := false;
    }
  }

  /** A click whose request fails leaves the card exactly as it was before the click. */
  method FailedClickRestores(post: Post) returns (before: (bool, int), after: (bool, int), alerted: bool)
    ensures after == before && alerted
  {
    var card := new PostCard(post);
    before := (card.isLiked, card.likesCount);
    var request := card.Click();
    alerted := card.Settle(false);
    after := (card.isLiked, card.likesCount);
  }

  /** Liking a post and then unliking it, both succeeding, returns the count to its
      original value; the two requests are a create and then a delete of the like. */
  method LikeThenUnlike(post: Post) returns (before: int, after: int, first: Option<LikeRequest>, second: Option<LikeRequest>)
    ensures after == before == FirstCount(post.likes)
    ensures first == Some(CreateLike(post.id)) && second == Some(DeleteLike(post.id))
  {
    var card := new PostCard(post);
    before := card.likesCount;
    first := card.Click();
    var a1 := card.Settle(true);
    second := card.Click();
    var a2 := card.Settle(true);
    after := card.likesCount;
  }

  /** A second click while the first request is pending issues nothing and changes nothing. */
  method ClickWhilePending(post: Post) returns (pending: (bool, int), after: (bool, int), second: Option<LikeRequest>)
    ensures second == None && after == pending == (true, FirstCount(post.likes) + 1)
  {
    var card := new PostCard(post);
    var first := card.Click();
    pending := (card.isLiked, card.likesCount);
    second := card.Click();
    after := (card.isLiked, card.likesCount);
  }
}

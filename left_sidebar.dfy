/** The reply panel in the left sidebar: the replies of the active post, and deletion of
    the viewer's own replies. */
module ReplyPanel {
  import opened Wrappers
  import opened Entities

  /** `response.data.replies || []`. */
  function RepliesOrEmpty(detail: PostDetail): seq<Reply>
  {
    if detail.replies.Some? then detail.replies.value else []
  }

  /** `reply.users?.id === currentUser.id`: a reply without an embedded author is nobody's. */
  predicate CanDelete(reply: Reply, viewer: User)
  {
    reply.users.Some? && reply.users.value.id == viewer.id
  }

  /** For each rendered reply card, the reply id its trash icon deletes, or `None` when the
      card shows no trash icon. */
  function DeleteControls(replies: seq<Reply>, viewer: User): (r: seq<Option<int>>)
    ensures |r| == |replies|
    ensures forall i :: 0 <= i < |r| ==> (r[i].Some? <==> CanDelete(replies[i], viewer))
    ensures forall i :: 0 <= i < |r| && r[i].Some? ==> r[i].value == replies[i].id
  {
    seq(|replies|, i requires 0 <= i < |replies| => if CanDelete(replies[i], viewer) then Some(replies[i].id) else None)
  }

  /** Every offered delete targets a reply the viewer owns. */
  lemma OfferedDeletesAreOwn(replies: seq<Reply>, viewer: User, replyId: int)
    requires Some(replyId) in DeleteControls(replies, viewer)
    ensures exists i :: 0 <= i < |replies| && replies[i].id == replyId && CanDelete(replies[i], viewer)
  {
    var controls := DeleteControls(replies, viewer);
    var i :| 0 <= i < |controls| && controls[i] == Some(replyId);
    assert replies[i].id == replyId && CanDelete(replies[i], viewer);
  }

  class LeftSidebar {
    var replies: seq<Reply>

    constructor ()
      ensures replies == []
    {
      replies := [];
    }

    /** The fetch effect, which runs whenever `activePost` or `authHeaders` changes (the
        pages build a new `authHeaders` object on every render, so it may run at any time):
        with no active post the list is cleared and nothing is requested; otherwise
        `GET /post/:id` replaces the list with its replies, and a failure clears it.
        Returns the post id requested. */
    method FetchReplies(activePost: Option<Post>, response: Response<PostDetail>) returns (request: Option<int>)
      modifies this`replies
      ensures request == if activePost.Some? then Some(activePost.value.id) else None
      ensures replies == if activePost.Some? && response.Ok? then RepliesOrEmpty(response.data) else []
    {
      if activePost.None? {
        replies := [];
        return None;
      }
      request := Some(activePost.value.id);
      if response.Ok? {
        replies := RepliesOrEmpty(response.data);
      } else {
        replies := [];
      }
    }

    /** `handleDeleteReply`: a no-op without an active post; otherwise `DELETE
        /post/:id/replies/:replyId` is sent, a success installs the server's list, and a
        failure raises an alert and leaves the list as it was. */
    method HandleDeleteReply(activePost: Option<Post>, replyId: int, response: Response<PostDetail>)
      returns (request: Option<(int, int)>, alerted: bool)
      modifies this`replies
      ensures request == if activePost.Some? then Some((activePost.value.id, replyId)) else None
      ensures alerted == (activePost.Some? && response.Failed?)
      ensures replies == if activePost.Some? && response.Ok? then RepliesOrEmpty(response.data) else old(replies)
    {
      if activePost.None? {
        return None, false;
      }
      request := Some((activePost.value.id, replyId));
      if response.Ok? {
        replies := RepliesOrEmpty(response.data);
        alerted := false;
      } else {
        alerted := true;
      }
    }
  }

  /** A failed delete keeps the list fetched before it. */
  method FailedDeleteKeepsReplies(post: Post, fetched: seq<Reply>, replyId: int) returns (before: seq<Reply>, after: seq<Reply>)
    ensures before == after == fetched
  {
    var panel := new LeftSidebar();
    var r1 := panel.FetchReplies(Some(post), Ok(PostDetail(Some(fetched))));
    before := panel.replies;
    var r2, alerted := panel.HandleDeleteReply(Some(post), replyId, Failed(None));
    after := panel.replies;
  }
}

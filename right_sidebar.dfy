/** The composer in the right sidebar: one textarea that creates a post or, when a post
    is being replied to, a reply. */
module Composer {
  import opened Wrappers
  import opened Entities
  import opened Text

  /** The request `handleSubmit` sends: `POST /post/:id/replies` or `POST /post`. */
  datatype ComposerRequest = CreateReply(postId: int, content: string) | CreatePost(content: string)

  /** The callback a settled request reaches: `onReplyCreated` with the updated parent post,
      or `onPostCreated` with the created-post wrapper. */
  datatype Delivery = ReplyCreated(updated: Post) | PostCreated(data: seq<Post>)

  /** The URL-encoded body: the single field `content`, untrimmed. */
  function FormBody(request: ComposerRequest): seq<(string, string)>
  {
    [("content", request.content)]
  }

  /** What `handleSubmit` sends for the given mode and text: nothing for blank text; a reply
      to the target post exactly when one is set; the text as typed. */
  function Dispatch(replyingTo: Option<Post>, content: string): (r: Option<ComposerRequest>)
    ensures r.None? <==> AllWhitespace(content)
    ensures r.Some? ==> r.value.content == content
    ensures r.Some? ==> (r.value.CreateReply? <==> replyingTo.Some?)
    ensures r.Some? && r.value.CreateReply? ==> r.value.postId == replyingTo.value.id
  {
    TrimEmptyIffAllWhitespace(content);
    if Trim(content) == [] then None
    else if replyingTo.Some? then Some(CreateReply(replyingTo.value.id, content))
    else Some(CreatePost(content))
  }

  /** The body that reaches the backend for any non-blank text is the text exactly as typed,
      in the single field `content`, whichever endpoint it goes to. */
  lemma SentBodyIsTypedText(replyingTo: Option<Post>, content: string)
    requires !AllWhitespace(content)
    ensures Dispatch(replyingTo, content).Some?
    ensures FormBody(Dispatch(replyingTo, content).value) == [("content", content)]
  {
  }

  class RightSidebar {
    /** The `replyingTo` prop. */
    var replyingTo: Option<Post>
    var content: string

    predicate IsReplying()
      reads this
    {
      replyingTo.Some?
    }

    /** The first render: empty text. */
    constructor (replyingTo: Option<Post>)
      ensures this.replyingTo == replyingTo && content == ""
    {
      this.replyingTo := replyingTo;
      content := "";
    }

    /** The textarea's `onChange`. */
    method Type(text: string)
      modifies this`content
      ensures content == text
    {
      content := text;
    }

    /** A new `replyingTo` prop arrives; the effect keyed on reply mode clears the text when
        the mode changed, and only then (retargeting a reply keeps the text). */
    method ReceiveReplyingTo(next: Option<Post>)
      modifies this
      ensures replyingTo == next
      ensures content == if next.Some? != old(replyingTo).Some? then "" else old(content)
    {
      var wasReplying := IsReplying();
      replyingTo := next;
      if IsReplying() != wasReplying {
        content := "";
      }
    }

    /** `handleSubmit`, with the outcome each endpoint would give: blank text returns at once;
        otherwise the request for the current mode is sent, its callback gets the response
        on success (an alert is raised on failure), and the text is cleared either way. */
    method HandleSubmit(replyResponse: Response<Post>, postResponse: Response<seq<Post>>)
      returns (request: Option<ComposerRequest>, delivered: Option<Delivery>, alerted: bool)
      modifies this`content
      ensures request == Dispatch(replyingTo, old(content))
      ensures request.None? ==> content == old(content) && delivered.None? && !alerted
      ensures request.Some? ==> content == "" && alerted == delivered.None?
      ensures request.Some? && request.value.CreateReply? ==>
        delivered == if replyResponse.Ok? then Some(ReplyCreated(replyResponse.data)) else None
      ensures request.Some? && request.value.CreatePost? ==>
        delivered == if postResponse.Ok? then Some(PostCreated(postResponse.data)) else None
    {
      TrimEmptyIffAllWhitespace(content);
      if Trim(content) == [] {
        return None, None, false;
      }
      if IsReplying() {
        request := Some(CreateReply(replyingTo.value.id, content));
        if replyResponse.Ok? {
          delivered, alerted := Some(ReplyCreated(replyResponse.data)), false;
        } else {
          delivered, alerted := None, true;
        }
      } else {
        request := Some(CreatePost(content));
        if postResponse.Ok? {
          delivered, alerted := Some(PostCreated(postResponse.data)), false;
        } else {
          delivered, alerted := None, true;
        }
      }
      content := "";
    }
  }

  /** A submit whose request fails still empties the textarea and reaches no callback. */
  method FailedSubmitClearsText(replyingTo: Option<Post>, text: string) returns (request: Option<ComposerRequest>, delivered: Option<Delivery>, after: string)
    requires !AllWhitespace(text)
    ensures request.Some? && request.value.content == text
    ensures delivered == None && after == ""
  {
    var composer := new RightSidebar(replyingTo);
    composer.Type(text);
    var alerted;
    request, delivered, alerted := composer.HandleSubmit(Failed(None), Failed(None));
    after := composer.content;
  }

  /** Leaving reply mode clears the text; moving the reply to another post keeps it. */
  method ModeSwitchClears(target: Post, other: Post, text: string) returns (afterRetarget: string, afterLeave: string)
    ensures afterRetarget == text && afterLeave == ""
  {
    var composer := new RightSidebar(Some(target));
    composer.Type(text);
    composer.ReceiveReplyingTo(Some(other));
    afterRetarget := composer.content;
    composer.ReceiveReplyingTo(None);
    afterLeave := composer.content;
  }
}

/** The records the backend returns, as the client reads them. */
module Entities {
  import opened Wrappers

  datatype User = User(id: int, fName: string, lName: string, email: string, profilePicture: string)

  /** An embedded aggregate such as `likes: [{ count: 3 }]`. */
  datatype Aggregate = Aggregate(count: int)

  /** A post as listed by `GET /post?page=N`: `users` is the embedded author,
      `likes` and `replies` hold the aggregate counts (normally one element). */
  datatype Post = Post(
    id: int,
    userId: int,
    content: string,
    createdAt: string,
    users: Option<User>,
    likes: seq<Aggregate>,
    replies: seq<Aggregate>)

  /** A reply as embedded in `GET /post/:id`; `users` may be absent. */
  datatype Reply = Reply(id: int, postId: int, users: Option<User>, content: string, createdAt: string)

  /** The body of `GET /post/:id` and of `DELETE /post/:id/replies/:replyId`:
      only its optional `replies` list is read. */
  datatype PostDetail = PostDetail(replies: Option<seq<Reply>>)

  /** `aggregates[0]?.count || 0`: the first count, or 0 when there is none. */
  function FirstCount(aggregates: seq<Aggregate>): int
  {
    if aggregates == [] then 0 else aggregates[0].count
  }
}

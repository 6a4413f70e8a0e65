/** The navigation methods of a Comment. */
module CommentImpl {
  import opened Wrappers
  import opened Errors
  import opened Entities
  import Endpoints
  import opened Clients
  import Collect

  /** `Comment::by`: the user named by the stored author. */
  function By(comment: Comment, c: Client): (r: Result<User, HError>)
    ensures Relays(c, Endpoints.User(comment.author), c.json.user, r)
  {
    GetUser(c, comment.author)
  }

  /** `Comment::replies`: one comment per kid in `kids` order, or the first kid's error; none for no kids. */
  function Replies(comment: Comment, c: Client): (r: Result<seq<Comment>, HError>)
    ensures Collect.Strict(comment.kids, CommentFetch(c), r)
    ensures comment.kids == [] ==> r == Ok([])
  {
    Collect.All(comment.kids, CommentFetch(c))
  }
}

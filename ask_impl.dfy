/** The navigation methods of an Ask. */
module AskImpl {
  import opened Wrappers
  import opened Errors
  import opened Entities
  import Endpoints
  import opened Clients
  import Collect

  /** `Ask::by`: the user named by the stored author, fetched from that user's URL and decoded. */
  function By(ask: Ask, c: Client): (r: Result<User, HError>)
    ensures Relays(c, Endpoints.User(ask.author), c.json.user, r)
  {
    GetUser(c, ask.author)
  }

  /** `Ask::comments`: one comment per kid in `kids` order, or the first kid's error; none for no kids. */
  function Comments(ask: Ask, c: Client): (r: Result<seq<Comment>, HError>)
    ensures Collect.Strict(ask.kids, CommentFetch(c), r)
    ensures ask.kids == [] ==> r == Ok([])
  {
    Collect.All(ask.kids, CommentFetch(c))
  }
}

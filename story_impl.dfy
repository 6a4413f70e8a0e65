/** The navigation methods of a Story. The source calls the client without a
    receiver here; the model passes the client explicitly. */
module StoryImpl {
  import opened Wrappers
  import opened Errors
  import opened Entities
  import Endpoints
  import opened Clients
  import Collect

  /** `Story::by`: the user named by the stored author. */
  function By(story: Story, c: Client): (r: Result<User, HError>)
    ensures Relays(c, Endpoints.User(story.author), c.json.user, r)
  {
    GetUser(c, story.author)
  }

  /** `Story::comments`: one comment per kid in `kids` order, or the first kid's error; none for no kids. */
  function Comments(story: Story, c: Client): (r: Result<seq<Comment>, HError>)
    ensures Collect.Strict(story.kids, CommentFetch(c), r)
    ensures story.kids == [] ==> r == Ok([])
  {
    Collect.All(story.kids, CommentFetch(c))
  }
}

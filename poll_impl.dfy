/** The navigation methods of a Poll and of a PollOption. */
module PollImpl {
  import opened Wrappers
  import opened Errors
  import opened Entities
  import opened Items
  import Endpoints
  import opened Clients
  import Collect

  /** `Poll::by`: the user named by the stored author. */
  function By(poll: Poll, c: Client): (r: Result<User, HError>)
    ensures Relays(c, Endpoints.User(poll.author), c.json.user, r)
  {
    GetUser(c, poll.author)
  }

  /** `Poll::comments`: one comment per kid in `kids` order, or the first kid's error; none for no kids. */
  function Comments(poll: Poll, c: Client): (r: Result<seq<Comment>, HError>)
    ensures Collect.Strict(poll.kids, CommentFetch(c), r)
    ensures poll.kids == [] ==> r == Ok([])
  {
    Collect.All(poll.kids, CommentFetch(c))
  }

  /** `Poll::options`: one option per part in `parts` order, or the first part's error; none for no parts. */
  function Options(poll: Poll, c: Client): (r: Result<seq<PollOption>, HError>)
    ensures Collect.Strict(poll.parts, PollOptionFetch(c), r)
    ensures poll.parts == [] ==> r == Ok([])
  {
    Collect.All(poll.parts, PollOptionFetch(c))
  }

  /** `PollOption::by`: the user named by the stored author. */
  function OptionBy(option: PollOption, c: Client): (r: Result<User, HError>)
    ensures Relays(c, Endpoints.User(option.author), c.json.user, r)
  {
    GetUser(c, option.author)
  }

  /** `PollOption::poll`: the item with exactly the stored poll id, resolved as a Poll. */
  function OptionPoll(option: PollOption, c: Client): (r: Result<Poll, HError>)
    ensures Resolves(c, option.poll, PollFromItem, r)
  {
    GetPoll(c, option.poll)
  }
}

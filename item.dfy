/** The wire record every item arrives as, the change-feed envelope, and the
    six conversions from an item to a typed entity. A conversion checks the
    `type` tag against its literal, then reads every field the entity needs;
    any missing field or a different tag is `ConversionFailed`, and a missing
    `kids` list becomes the empty list. */
module Items {
  import opened Wrappers
  import opened Ints
  import opened Errors
  import opened Entities

  /** The flat record of the wire: a mandatory id, every other field optional.
      `kind` is the JSON field `type`, `author` the JSON field `by`. */
  datatype Item = Item(
    id: U64,
    deleted: Option<bool>,
    kind: Option<string>,
    author: Option<string>,
    time: Option<U64>,
    text: Option<string>,
    dead: Option<bool>,
    parent: Option<U64>,
    poll: Option<U64>,
    kids: Option<seq<U64>>,
    url: Option<string>,
    score: Option<I64>,
    title: Option<string>,
    parts: Option<seq<U64>>,
    descendants: Option<U64>)

  /** The change feed: changed item ids and changed user names. */
  datatype Update = Update(items: seq<U64>, profiles: seq<string>)

  // ---- the table of what each entity requires ----

  /** The optional fields of an item, other than its tag. */
  datatype Field = Deleted | By | Time | Text | Dead | Parent | Poll | Kids | Url | Score | Title | Parts | Descendants

  predicate Present(item: Item, f: Field) {
    match f
    case Deleted => item.deleted.Some?
    case By => item.author.Some?
    case Time => item.time.Some?
    case Text => item.text.Some?
    case Dead => item.dead.Some?
    case Parent => item.parent.Some?
    case Poll => item.poll.Some?
    case Kids => item.kids.Some?
    case Url => item.url.Some?
    case Score => item.score.Some?
    case Title => item.title.Some?
    case Parts => item.parts.Some?
    case Descendants => item.descendants.Some?
  }

  const AskFields: set<Field> := {By, Descendants, Score, Text, Time, Title}
  const CommentFields: set<Field> := {By, Parent, Text, Time}
  const JobFields: set<Field> := {By, Score, Time, Title, Url}
  const PollFields: set<Field> := {By, Descendants, Parts, Score, Text, Time, Title}
  const PollOptionFields: set<Field> := {By, Field.Poll, Score, Text, Time}
  const StoryFields: set<Field> := {By, Descendants, Score, Time, Title, Url}

  /** An item resolves to an entity exactly when it carries the entity's tag
      and every field the entity requires. */
  predicate Admits(item: Item, tag: string, required: set<Field>) {
    item.kind == Some(tag) && forall f :: f in required ==> Present(item, f)
  }

  // ---- the conversions (`TryFrom<Item>`) ----

  function AskFromItem(item: Item): (r: Result<Ask, HError>)
    ensures r.Ok? <==> Admits(item, "story", AskFields)
    ensures r.Err? ==> r.error == ConversionFailed
    ensures r.Ok? ==>
              && r.value.id == item.id
              && Some(r.value.author) == item.author
              && Some(r.value.comments) == item.descendants
              && r.value.kids == ConvertDefault(item.kids)
              && Some(r.value.score) == item.score
              && Some(r.value.text) == item.text
              && Some(r.value.time) == item.time
              && Some(r.value.title) == item.title
  {
    var kind :- Convert(item.kind);
    if kind != "story" then Err(ConversionFailed) else
    var author :- Convert(item.author);
    var comments :- Convert(item.descendants);
    var kids := ConvertDefault(item.kids);
    var score :- Convert(item.score);
    var text :- Convert(item.text);
    var time :- Convert(item.time);
    var title :- Convert(item.title);
    Ok(Ask(author, comments, item.id, kids, score, text, time, title))
  }

  function CommentFromItem(item: Item): (r: Result<Comment, HError>)
    ensures r.Ok? <==> Admits(item, "comment", CommentFields)
    ensures r.Err? ==> r.error == ConversionFailed
    ensures r.Ok? ==>
              && r.value.id == item.id
              && Some(r.value.author) == item.author
              && r.value.kids == ConvertDefault(item.kids)
              && Some(r.value.parent) == item.parent
              && Some(r.value.text) == item.text
              && Some(r.value.time) == item.time
  {
    var kind :- Convert(item.kind);
    if kind != "comment" then Err(ConversionFailed) else
    var author :- Convert(item.author);
    var kids := ConvertDefault(item.kids);
    var parent :- Convert(item.parent);
    var text :- Convert(item.text);
    var time :- Convert(item.time);
    Ok(Comment(author, item.id, kids, parent, text, time))
  }

  /** A job carries no `kids`, and its `text` is not read. */
  function JobFromItem(item: Item): (r: Result<Job, HError>)
    ensures r.Ok? <==> Admits(item, "job", JobFields)
    ensures r.Err? ==> r.error == ConversionFailed
    ensures r.Ok? ==>
              && r.value.id == item.id
              && Some(r.value.author) == item.author
              && Some(r.value.score) == item.score
              && Some(r.value.time) == item.time
              && Some(r.value.title) == item.title
              && Some(r.value.url) == item.url
  {
    var kind :- Convert(item.kind);
    if kind != "job" then Err(ConversionFailed) else
    var author :- Convert(item.author);
    var score :- Convert(item.score);
    var time :- Convert(item.time);
    var title :- Convert(item.title);
    var url :- Convert(item.url);
    Ok(Job(author, item.id, score, time, title, url))
  }

  /** Unlike `kids`, a poll's `parts` list is required: there is no default for it. */
  function PollFromItem(item: Item): (r: Result<Poll, HError>)
    ensures r.Ok? <==> Admits(item, "poll", PollFields)
    ensures r.Err? ==> r.error == ConversionFailed
    ensures r.Ok? ==>
              && r.value.id == item.id
              && Some(r.value.author) == item.author
              && Some(r.value.comments) == item.descendants
              && r.value.kids == ConvertDefault(item.kids)
              && Some(r.value.parts) == item.parts
              && Some(r.value.score) == item.score
              && Some(r.value.text) == item.text
              && Some(r.value.time) == item.time
              && Some(r.value.title) == item.title
  {
    var kind :- Convert(item.kind);
    if kind != "poll" then Err(ConversionFailed) else
    var author :- Convert(item.author);
    var comments :- Convert(item.descendants);
    var kids := ConvertDefault(item.kids);
    var parts :- Convert(item.parts);
    var score :- Convert(item.score);
    var text :- Convert(item.text);
    var time :- Convert(item.time);
    var title :- Convert(item.title);
    Ok(Entities.Poll(author, comments, item.id, kids, parts, score, text, time, title))
  }

  function PollOptionFromItem(item: Item): (r: Result<PollOption, HError>)
    ensures r.Ok? <==> Admits(item, "pollopt", PollOptionFields)
    ensures r.Err? ==> r.error == ConversionFailed
    ensures r.Ok? ==>
              && r.value.id == item.id
              && Some(r.value.author) == item.author
              && Some(r.value.poll) == item.poll
              && Some(r.value.score) == item.score
              && Some(r.value.text) == item.text
              && Some(r.value.time) == item.time
  {
    var kind :- Convert(item.kind);
    if kind != "pollopt" then Err(ConversionFailed) else
    var author :- Convert(item.author);
    var poll :- Convert(item.poll);
    var score :- Convert(item.score);
    var text :- Convert(item.text);
    var time :- Convert(item.time);
    Ok(PollOption(author, item.id, poll, score, text, time))
  }

  function StoryFromItem(item: Item): (r: Result<Story, HError>)
    ensures r.Ok? <==> Admits(item, "story", StoryFields)
    ensures r.Err? ==> r.error == ConversionFailed
    ensures r.Ok? ==>
              && r.value.id == item.id
              && Some(r.value.author) == item.author
              && Some(r.value.comments) == item.descendants
              && r.value.kids == ConvertDefault(item.kids)
              && Some(r.value.score) == item.score
              && Some(r.value.time) == item.time
              && Some(r.value.title) == item.title
              && Some(r.value.url) == item.url
  {
    var kind :- Convert(item.kind);
    if kind != "story" then Err(ConversionFailed) else
    var author :- Convert(item.author);
    var comments :- Convert(item.descendants);
    var kids := ConvertDefault(item.kids);
    var score :- Convert(item.score);
    var time :- Convert(item.time);
    var title :- Convert(item.title);
    var url :- Convert(item.url);
    Ok(Story(author, comments, item.id, kids, score, time, title, url))
  }

  // ---- properties of the conversions ----

  /** Tag strictness: without the conversion's own tag, nothing else about the item matters. */
  lemma WrongTagFails(item: Item)
    ensures item.kind != Some("story") ==> AskFromItem(item) == Err(ConversionFailed) && StoryFromItem(item) == Err(ConversionFailed)
    ensures item.kind != Some("comment") ==> CommentFromItem(item) == Err(ConversionFailed)
    ensures item.kind != Some("job") ==> JobFromItem(item) == Err(ConversionFailed)
    ensures item.kind != Some("poll") ==> PollFromItem(item) == Err(ConversionFailed)
    ensures item.kind != Some("pollopt") ==> PollOptionFromItem(item) == Err(ConversionFailed)
  {
  }

  /** An item converts to at most one of the five tags' entities; only Ask and Story share a tag. */
  lemma OneTagOneKind(item: Item)
    ensures CommentFromItem(item).Ok? ==> AskFromItem(item).Err? && JobFromItem(item).Err? && PollFromItem(item).Err? && PollOptionFromItem(item).Err? && StoryFromItem(item).Err?
    ensures JobFromItem(item).Ok? ==> AskFromItem(item).Err? && PollFromItem(item).Err? && PollOptionFromItem(item).Err? && StoryFromItem(item).Err?
    ensures PollFromItem(item).Ok? ==> AskFromItem(item).Err? && PollOptionFromItem(item).Err? && StoryFromItem(item).Err?
    ensures PollOptionFromItem(item).Ok? ==> AskFromItem(item).Err? && StoryFromItem(item).Err?
  {
  }

  /** Default substitution: whether `kids` is present never decides success, and a
      missing list becomes the empty one. A missing `parts` always fails a poll. */
  lemma KidsDefaultPartsRequired(item: Item, kids: Option<seq<U64>>)
    ensures AskFromItem(item.(kids := kids)).Ok? == AskFromItem(item).Ok?
    ensures CommentFromItem(item.(kids := kids)).Ok? == CommentFromItem(item).Ok?
    ensures PollFromItem(item.(kids := kids)).Ok? == PollFromItem(item).Ok?
    ensures StoryFromItem(item.(kids := kids)).Ok? == StoryFromItem(item).Ok?
    ensures item.kids.None? && AskFromItem(item).Ok? ==> AskFromItem(item).value.kids == []
    ensures item.kids.None? && CommentFromItem(item).Ok? ==> CommentFromItem(item).value.kids == []
    ensures item.kids.None? && PollFromItem(item).Ok? ==> PollFromItem(item).value.kids == []
    ensures item.kids.None? && StoryFromItem(item).Ok? ==> StoryFromItem(item).value.kids == []
    ensures item.parts.None? ==> PollFromItem(item) == Err(ConversionFailed)
  {
  }

  /** `deleted` and `dead` are never read: no conversion depends on them. */
  lemma DeletedAndDeadIgnored(item: Item, deleted: Option<bool>, dead: Option<bool>)
    ensures var other := item.(deleted := deleted, dead := dead);
            && AskFromItem(other) == AskFromItem(item)
            && CommentFromItem(other) == CommentFromItem(item)
            && JobFromItem(other) == JobFromItem(item)
            && PollFromItem(other) == PollFromItem(item)
            && PollOptionFromItem(other) == PollOptionFromItem(item)
            && StoryFromItem(other) == StoryFromItem(item)
  {
  }

  /** A "story" item is an Ask exactly when it has text, and a Story exactly when it has a url. */
  lemma AskOrStoryByFields(item: Item)
    requires item.kind == Some("story")
    requires item.author.Some? && item.descendants.Some? && item.score.Some? && item.time.Some? && item.title.Some?
    ensures AskFromItem(item).Ok? <==> item.text.Some?
    ensures StoryFromItem(item).Ok? <==> item.url.Some?
  {
  }

  /** A self-post without a url resolves as an Ask, keeping its kids, and not as a Story. */
  lemma AskExample()
    ensures var item := Item(1, None, Some("story"), Some("a"), Some(100), Some(""), None, None, None,
                             Some([2, 3]), None, Some(10), Some("t"), None, Some(5));
            && AskFromItem(item) == Ok(Ask("a", 5, 1, [2, 3], 10, "", 100, "t"))
            && StoryFromItem(item) == Err(ConversionFailed)
  {
  }
}

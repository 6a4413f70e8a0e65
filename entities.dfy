/** The typed records a resolved item becomes, and the user record. Each is an
    immutable value; relations to other items are ids, never embedded records.
    The source's `by` field (the author's user name) is called `author` here,
    because `by` is a keyword of Dafny. */
module Entities {
  import opened Ints

  /** An Ask HN submission: a "story" item that carries self-text. */
  datatype Ask = Ask(
    author: string,
    comments: U64,
    id: U64,
    kids: seq<U64>,
    score: I64,
    text: string,
    time: U64,
    title: string)

  datatype Comment = Comment(
    author: string,
    id: U64,
    kids: seq<U64>,
    parent: U64,
    text: string,
    time: U64)

  /** A job posting, with the fields the conversion fills. The declared `text`
      field is never set by the conversion, so it is not part of this record. */
  datatype Job = Job(
    author: string,
    id: U64,
    score: I64,
    time: U64,
    title: string,
    url: string)

  datatype Poll = Poll(
    author: string,
    comments: U64,
    id: U64,
    kids: seq<U64>,
    parts: seq<U64>,
    score: I64,
    text: string,
    time: U64,
    title: string)

  datatype PollOption = PollOption(
    author: string,
    id: U64,
    poll: U64,
    score: I64,
    text: string,
    time: U64)

  /** A link submission. Its score is the wire's signed value, copied as the conversion copies it. */
  datatype Story = Story(
    author: string,
    comments: U64,
    id: U64,
    kids: seq<U64>,
    score: I64,
    time: U64,
    title: string,
    url: string)

  datatype User = User(
    id: string,
    created: U64,
    karma: U64,
    about: string,
    submitted: seq<U64>)
}

# hnews in Dafny: item resolution and the fetch pipeline

This project models the core of `hnews`, a small synchronous client for the
Hacker News API. Every API item arrives as one flat record: a mandatory `id`
and fourteen optional fields. The library turns such an `Item` into one of six
typed entities: Ask, Comment, Job, Poll, PollOption or Story. Each conversion
first checks the `type` tag against its own literal. It then requires every
field its entity needs, and it substitutes an empty list when `kids` is
missing. Around that core sit:

- the client, which fetches a body, decodes it and resolves it to a typed entity;
- strict batches (`get_latest_*`, and the `comments`/`replies`/`options` navigation), which
  return every entity in id order or the first error;
- the tolerant traversal of a user's submissions, which keeps the successes and
  skips the failures;
- the URL builder.

Modules, following the crate's files:

- `Wrappers` (wrappers.dfy): Rust's `Option` and `Result`. The `:-` operator stands for `?`.
- `Ints` (ints.dfy): `u64` and `i64` as range-restricted integers.
- `Errors` (errors.dfy): `HError`, its `Display` and `From` impls, and the `convert!` and `convert_default!` macros.
- `Endpoints` (endpoint.dfy): URL construction, including the decimal rendering of an item id.
- `Entities` (entities.dfy): the entity structs of ask.rs, comment.rs, job.rs, poll.rs, story.rs and user.rs.
- `Items` (item.rs → item.dfy): the `Item` record, the `Update` envelope and the six conversions. It also
  holds a table of the fields each entity requires (`Admits`). Every conversion is proved
  against that table.
- `Collect` (collect.dfy): what `iter().map(..).collect::<Result<Vec<_>, _>>()` returns (`Strict`),
  and a recursive implementation proved against it.
- `Clients` (client.dfy): `get_item`, the per-kind `get_*`, `get_user`, the batches, the id lists and the
  change feed. The HTTP agent and the JSON decoder are oracle functions held by the `Client` value.
- `AskImpl`, `CommentImpl`, `PollImpl`, `StoryImpl` (the navigation methods of ask.rs, comment.rs,
  poll.rs and story.rs).
- `UserImpl` (user.rs): the tolerant traversals. A loop method is proved equal to the
  specification function `Successes`, and lemmas prove what `Successes` keeps.

Entity fields keep the source's names. The one exception is `by`, which is a Dafny keyword
and is called `author` here. A navigation method `x.m(client)` of ask.rs, comment.rs, poll.rs or
story.rs becomes a function `M(x, c)` in the module for that file. The traversals of user.rs
loop over `submitted`, so they become methods with a loop. A source method that calls the
client without a receiver takes the client as an added parameter. These are `Client::get_user` and `Client::get_comment` in story.rs, and
`Client::get_comment`, `Client::get_poll` and `Client::get_story` in user.rs.

### Where the declarations and the code disagree

In each case below the model follows the conversion and client code as written.

- `Job` declares a `text` field (src/job.rs:16). The conversion never sets it
  (src/item.rs:75-82), so the modelled `Job` has no `text`.
- `Story.score` and `Job.score` are declared `u64` (src/story.rs:17, src/job.rs:14), but the
  conversion assigns the wire's `i64` score to them (src/item.rs:78, 140). As written, this does
  not type-check in Rust. The model keeps the signed value unchanged.
- The calls made without a receiver (listed above) do not type-check either, because
  `get_user`, `get_comment`, `get_poll` and `get_story` take `&self`. The model passes the
  client explicitly.
- `get_latest_jobs` fetches the `askstories` list (src/client.rs:124), the same list that
  `get_latest_asks` reads. The lemma `Clients.LatestJobsAndAsksExclude` shows what follows when both calls see the
  same askstories list and the same items. No item carries both the "story" and the "job"
  tag, so then the two batches both succeed only when that list is empty.
- "story" is the tag of both Ask and Story. Only the fields tell them apart: Ask needs `text`
  and Story needs `url` (`Items.AskOrStoryByFields`).

## Model

| member | source | states |
|---|---|---|
| Errors.Convert | src/error.rs:55-59 | `convert!` yields the value when it is present. On `None` it yields `Err(ConversionFailed)` and nothing else. |
| Errors.ConvertDefault | src/error.rs:61-65 | `convert_default!` never fails. `None` becomes the empty list and `Some(v)` becomes `v`. |
| Errors.FromIsLossless | src/error.rs:37-53 | Each `From` impl puts its error into its own variant without loss. The variants are pairwise distinct and none is `ConversionFailed`. |
| Errors.Display | src/error.rs:22-35 | Each variant displays its fixed prefix ("UReq Error: ", "Miniserde Error: ", "Io Error: ") followed by the wrapped error's text. `ConversionFailed` displays its fixed message. |
| Errors.DisplayTellsVariants | src/error.rs:22-35 | Errors of different variants never display alike. Only `ConversionFailed` displays its fixed message. Within one variant, two errors display alike exactly when the wrapped errors' texts are equal. |
| Endpoints.Build | src/endpoint.rs:1-9 | The URL is the root "https://hacker-news.firebaseio.com/v0/" followed by the argument verbatim. |
| Endpoints.BuildInjective | src/endpoint.rs:7-9 | Distinct arguments give distinct URLs. |
| Endpoints.Decimal | src/endpoint.rs:11-13 | The id's rendering is a non-empty string of decimal digits with no leading zero; 0 is rendered as the single digit 0. |
| Endpoints.DecimalRoundTrip | src/endpoint.rs:11-13 | Reading the rendered digits back gives the id. |
| Endpoints.Item | src/endpoint.rs:11-13 | The item URL is the root, then "item/", then the id's decimal rendering with no leading zero. Those digits read back to the id. |
| Endpoints.ItemInjective | src/endpoint.rs:11-13 | Distinct ids give distinct item URLs. |
| Endpoints.User | src/endpoint.rs:15-17 | The user URL is the root, then "user/", then the name verbatim, even an empty one. |
| Endpoints.UserInjective | src/endpoint.rs:15-17 | Distinct names give distinct user URLs. |
| Endpoints.ItemIsNotUser | src/endpoint.rs:11-17 | No item URL equals any user URL. |
| Endpoints.ListEndpointsDistinct | src/endpoint.rs:19-45 | The seven list URLs are pairwise distinct, and none equals an item or user URL. |
| Items.AskFromItem | src/item.rs:27-46 | Succeeds exactly when the tag is "story" and by, descendants, score, text, time and title are present. Every failure is `ConversionFailed`. On success the fields are copied verbatim, `descendants` becomes `comments` and a missing `kids` becomes empty. |
| Items.CommentFromItem | src/item.rs:48-65 | Succeeds exactly when the tag is "comment" and by, parent, text and time are present. Every failure is `ConversionFailed`. On success the fields are copied verbatim and `kids` defaults to empty. |
| Items.JobFromItem | src/item.rs:67-84 | Succeeds exactly when the tag is "job" and by, score, time, title and url are present. Every failure is `ConversionFailed`. On success the fields are copied verbatim. |
| Items.PollFromItem | src/item.rs:86-106 | Succeeds exactly when the tag is "poll" and by, descendants, parts, score, text, time and title are present. Every failure is `ConversionFailed`. On success the fields are copied verbatim, `kids` defaults to empty and `parts` is copied. |
| Items.PollOptionFromItem | src/item.rs:108-125 | Succeeds exactly when the tag is "pollopt" and by, poll, score, text and time are present. Every failure is `ConversionFailed`. On success the fields are copied verbatim. |
| Items.StoryFromItem | src/item.rs:127-146 | Succeeds exactly when the tag is "story" and by, descendants, score, time, title and url are present. Every failure is `ConversionFailed`. On success the fields are copied verbatim and `kids` defaults to empty. |
| Items.WrongTagFails | src/item.rs:27-146 | An absent tag, or a tag other than the conversion's literal, gives `Err(ConversionFailed)` whatever the other fields hold. |
| Items.OneTagOneKind | src/item.rs:27-146 | An item converts to at most one of comment, job, poll, poll option and the "story" pair. |
| Items.KidsDefaultPartsRequired | src/item.rs:35-144 | Whether `kids` is present never changes success, and a missing `kids` becomes empty. A missing `parts` always fails a Poll. |
| Items.DeletedAndDeadIgnored | src/item.rs:8-146 | Changing `deleted` or `dead` changes no conversion result. |
| Items.AskOrStoryByFields | src/item.rs:27-146 | Take a "story" item that has every field common to Ask and Story. It is an Ask exactly when it has `text`, and a Story exactly when it has `url`. |
| Items.AskExample | src/item.rs:27-46 | A self-post with text and kids [2, 3] but no url resolves to the expected Ask and fails as a Story. |
| Collect.All | src/ask.rs:33-38 | The strict collection returns one value per id in id order, or the error of the first failing id with no partial list. |
| Collect.StrictIsUnique | src/ask.rs:33-38 | At most one result meets the strict-collection rule, so that rule fixes the outcome of every batch. |
| Collect.AllOfNothing | src/ask.rs:33-38 | An empty id list collects to `Ok` of the empty list. |
| Collect.MiddleFailureFailsAll | src/client.rs:99-107 | If the first of three ids resolves and the second fails, the whole batch fails with the second id's error. |
| Clients.GetBody | src/client.rs:38 | The body succeeds exactly when both the call and the body read succeed. A transport error comes back as `UReq` and a read error as `Io`, each carrying the original error. |
| Clients.Decode | src/client.rs:40 | A decoded value is returned unchanged. A decode error comes back as `Miniserde`. |
| Clients.GetItem | src/client.rs:37-42 | The item URL for the id is fetched and decoded. Transport, read and decode errors pass through unchanged, and none of them is `ConversionFailed`. |
| Clients.GetAsk | src/client.rs:44-49 | `get_item(id)` followed by the Ask conversion. The first error of either stage is returned. |
| Clients.GetComment | src/client.rs:51-56 | `get_item(id)` followed by the Comment conversion. The first error of either stage is returned. |
| Clients.GetJob | src/client.rs:58-63 | `get_item(id)` followed by the Job conversion. The first error of either stage is returned. |
| Clients.GetPoll | src/client.rs:65-70 | `get_item(id)` followed by the Poll conversion. The first error of either stage is returned. |
| Clients.GetPollOption | src/client.rs:72-77 | `get_item(id)` followed by the PollOption conversion. The first error of either stage is returned. |
| Clients.GetStory | src/client.rs:79-84 | `get_item(id)` followed by the Story conversion. The first error of either stage is returned. |
| Clients.ConversionFailedMeansFetched | src/client.rs:44-84 | A typed fetch fails with `ConversionFailed` exactly when the item was fetched and decoded but does not meet its kind's requirements. |
| Clients.GetUser | src/client.rs:86-96 | The user URL for the name is fetched and decoded straight into a User, with no kind check. Errors pass through unchanged. |
| Clients.GetLatestAsks | src/client.rs:98-107 | An error fetching the askstories list is returned unchanged. Otherwise the result is one Ask per listed id in list order, or the first failing id's error. |
| Clients.GetLatestStories | src/client.rs:109-118 | The same rule over the showstories list, resolving each id as a Story. |
| Clients.GetLatestJobs | src/client.rs:120-129 | The same rule over the askstories list, resolving each id as a Job. |
| Clients.LatestJobsAndAsksExclude | src/client.rs:98-129 | If both the asks batch and the jobs batch succeed, both are empty. |
| Clients.GetLatest | src/client.rs:131-140 | Returns the decoded max item id unchanged, or the first stage's error. |
| Clients.GetTop | src/client.rs:142-151 | Returns the decoded topstories id list unchanged, with no filtering or reordering. |
| Clients.GetNew | src/client.rs:153-162 | Returns the decoded newstories id list unchanged. |
| Clients.GetBest | src/client.rs:164-173 | Returns the decoded beststories id list unchanged. |
| Clients.GetUserUpdates | src/client.rs:175-184 | Returns exactly the `profiles` of the decoded updates envelope, or the first stage's error. |
| Clients.GetUpdates | src/client.rs:186-195 | Returns exactly the `items` of the decoded updates envelope, or the first stage's error. |
| AskImpl.By | src/ask.rs:27-30 | Fetches the user URL of exactly the stored author and returns the decoded user. |
| AskImpl.Comments | src/ask.rs:32-38 | One comment per kid in `kids` order, or the first failing kid's error with no partial list. No kids gives `Ok([])`. |
| CommentImpl.By | src/comment.rs:23-26 | Fetches the user URL of exactly the stored author and returns the decoded user. |
| CommentImpl.Replies | src/comment.rs:28-34 | One comment per kid in `kids` order, or the first failing kid's error with no partial list. No kids gives `Ok([])`. |
| StoryImpl.By | src/story.rs:27-30 | Fetches the user URL of exactly the stored author and returns the decoded user. |
| StoryImpl.Comments | src/story.rs:32-35 | One comment per kid in `kids` order, or the first failing kid's error with no partial list. No kids gives `Ok([])`. |
| PollImpl.By | src/poll.rs:28-31 | Fetches the user URL of exactly the stored author and returns the decoded user. |
| PollImpl.Comments | src/poll.rs:33-39 | One comment per kid in `kids` order, or the first failing kid's error with no partial list. No kids gives `Ok([])`. |
| PollImpl.Options | src/poll.rs:41-47 | One poll option per part in `parts` order, or the first failing part's error with no partial list. No parts gives `Ok([])`. |
| PollImpl.OptionBy | src/poll.rs:69-72 | Fetches the user URL of exactly the stored author and returns the decoded user. |
| PollImpl.OptionPoll | src/poll.rs:74-77 | Fetches exactly the stored `poll` id and resolves it as a Poll. |
| UserImpl.Successes | src/user.rs:24-31 | Keeps at most one value per submission. It keeps exactly one per submission iff every fetch succeeds. |
| UserImpl.KeepSuccesses | src/user.rs:24-31 | The push-or-continue loop returns exactly `Successes` of the ids. |
| UserImpl.Comments | src/user.rs:22-32 | Always `Ok`, holding the submissions that resolve as comments. |
| UserImpl.Polls | src/user.rs:34-44 | Always `Ok`, holding the submissions that resolve as polls. |
| UserImpl.Stories | src/user.rs:46-56 | Always `Ok`, holding the submissions that resolve as stories. |
| UserImpl.SuccessesAreTheOkSubsequence | src/user.rs:25-29 | The result is exactly the values of the successful fetches, in the order their ids appear. Every successful id is included. |
| UserImpl.SuccessesIgnoreErrors | src/user.rs:26-29 | A failing id is skipped whatever its error. Two fetchers that agree on which ids succeed, and on their values, give the same result. |
| UserImpl.AllFailuresKeepNothing | src/user.rs:24-31 | When every fetch fails, the result is empty. |
| UserImpl.AllSuccessesKeepEverything | src/user.rs:24-31 | When every fetch succeeds, the result holds one value per id, in id order. |
| UserImpl.TolerantAgreesWithStrict | src/user.rs:23-32 | When the strict collection succeeds, the tolerant traversal returns the same list. When it fails, the tolerant traversal drops at least one id. |
| UserImpl.OnlyResolvingSubmissionKept | src/user.rs:23-32 | Of three submissions where only the middle one resolves, exactly that one is kept. |

## Left out

- The HTTP transport (ureq's `Agent`, `call`, `into_string`) is network I/O. It is the oracle pair `Agent.call`/`Agent.readBody`. Its errors are opaque values that carry only their display text.
- JSON decoding (`miniserde::json::from_str`, the `Serialize`/`Deserialize` derives) is a foreign library. It is the oracle record `Json`, with one decoder per target type. The 200- and 500-entry list sizes come from the server and are not modelled.
- Each fetch is a function of the client value, so every call made on one `Client` value sees one fixed snapshot of the remote data. Separate requests that the server answers differently are not modelled. Lemmas that relate two calls, such as `Clients.LatestJobsAndAsksExclude`, hold for that shared snapshot.
  - A strict batch stops issuing requests after the first failure. This model does not show that; it only shows the first failure's error being returned.
  - Repeated fetches of one id cannot differ here.
- The process-wide `STATIC_INSTANCE`, `Client::instance`, `Client::new` and `Default` depend on global state and concurrency primitives. Callers pass a `Client` value instead.
- The wrapped foreign errors (`ureq::Error`, `miniserde::Error`, `std::io::Error`) are modelled only as the text they display. Their other contents, such as an I/O error's kind, are not modelled. Two such errors that differ only there are one error in the model. In the source they are different errors that display the same text.
- `Job::by` (src/job.rs:27-29) is not modelled. It is a one-line delegation to `get_user`, like the four `by` functions that are modelled. job.rs otherwise contributes only its struct.
- src/lib.rs and src/prelude.rs contain only module declarations and re-exports.
- tests/test.rs reads fixture files from disk, and those fixtures are not part of this model. Its claim is covered instead: an item whose tag matches and which has every required field converts successfully. That follows from the `Admits` clauses of the six conversions.
- Entities are immutable values here, so `submitted` and `kids` cannot be modified by a traversal.

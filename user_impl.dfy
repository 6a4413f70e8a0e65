/** The submission traversals of a User. Each walks `submitted` in order,
    keeps every submission that resolves to the requested kind and silently
    skips every one that does not; the call itself never fails. The source
    calls the client without a receiver here; the model passes it explicitly. */
module UserImpl {
  import opened Wrappers
  import opened Ints
  import opened Errors
  import opened Entities
  import opened Clients
  import Collect

  /** The values of the successful fetches of `ids`, in id order. */
  function Successes<T>(ids: seq<U64>, fetch: U64 -> Result<T, HError>): (kept: seq<T>)
    ensures |kept| <= |ids|
    ensures |kept| == |ids| <==> forall i :: 0 <= i < |ids| ==> fetch(ids[i]).Ok?
    decreases |ids|
  {
    if ids == [] then []
    else
      var init := ids[..|ids| - 1];
      assert forall i :: 0 <= i < |init| ==> init[i] == ids[i];
      var kept := Successes(init, fetch);
      match fetch(ids[|ids| - 1])
      case Ok(v) => kept + [v]
      case Err(_) => kept
  }

  /** The loop of `comments`, `polls` and `stories`: push each success, `continue` past each failure. */
  method KeepSuccesses<T>(ids: seq<U64>, fetch: U64 -> Result<T, HError>) returns (kept: seq<T>)
    ensures kept == Successes(ids, fetch)
  {
    kept := [];
    for i := 0 to |ids|
      invariant kept == Successes(ids[..i], fetch)
    {
      assert ids[..i + 1][..i] == ids[..i];
      match fetch(ids[i]) {
        case Ok(s) => kept := kept + [s];
        case Err(_) => continue;
      }
    }
    assert ids[..|ids|] == ids;
  }

  /** `User::comments`: always `Ok`, holding the submissions that resolve as comments. */
  method Comments(user: User, c: Client) returns (r: Result<seq<Comment>, HError>)
    ensures r == Ok(Successes(user.submitted, CommentFetch(c)))
  {
    var comments := KeepSuccesses(user.submitted, CommentFetch(c));
    r := Ok(comments);
  }

  /** `User::polls`: always `Ok`, holding the submissions that resolve as polls. */
  method Polls(user: User, c: Client) returns (r: Result<seq<Poll>, HError>)
    ensures r == Ok(Successes(user.submitted, PollFetch(c)))
  {
    var polls := KeepSuccesses(user.submitted, PollFetch(c));
    r := Ok(polls);
  }

  /** `User::stories`: always `Ok`, holding the submissions that resolve as stories. */
  method Stories(user: User, c: Client) returns (r: Result<seq<Story>, HError>)
    ensures r == Ok(Successes(user.submitted, StoryFetch(c)))
  {
    var stories := KeepSuccesses(user.submitted, StoryFetch(c));
    r := Ok(stories);
  }

  // ---- what the tolerant traversal keeps ----

  /** The result is exactly the subsequence of successful fetches: `picked` lists, in
      increasing order, the positions whose fetch succeeded, and the result holds
      their values in that order. */
  lemma {:induction false} SuccessesAreTheOkSubsequence<T>(ids: seq<U64>, fetch: U64 -> Result<T, HError>) returns (picked: seq<nat>)
    ensures |picked| == |Successes(ids, fetch)|
    ensures forall m :: 0 <= m < |picked| ==> picked[m] < |ids| && fetch(ids[picked[m]]) == Ok(Successes(ids, fetch)[m])
    ensures forall m, n :: 0 <= m < n < |picked| ==> picked[m] < picked[n]
    ensures forall j :: 0 <= j < |ids| && fetch(ids[j]).Ok? ==> j in picked
    decreases |ids|
  {
    if ids == [] {
      picked := [];
    } else {
      var last := |ids| - 1;
      var init := ids[..last];
      assert forall i :: 0 <= i < |init| ==> init[i] == ids[i];
      var before := SuccessesAreTheOkSubsequence(init, fetch);
      var kept := Successes(init, fetch);
      var all := Successes(ids, fetch);
      match fetch(ids[last]) {
        case Ok(v) =>
          picked := before + [last];
          assert all == kept + [v];
          forall m | 0 <= m < |picked|
            ensures picked[m] < |ids| && fetch(ids[picked[m]]) == Ok(all[m])
          {
            if m < |before| {
              assert picked[m] == before[m] && all[m] == kept[m];
            }
          }
          forall j | 0 <= j < |ids| && fetch(ids[j]).Ok?
            ensures j in picked
          {
            if j < last {
              assert init[j] == ids[j];
            }
          }
        case Err(_) =>
          picked := before;
          assert all == kept;
          forall j | 0 <= j < |ids| && fetch(ids[j]).Ok?
            ensures j in picked
          {
            assert j < last && init[j] == ids[j];
          }
      }
    }
  }

  /** Which error a failing fetch reports never matters: only the successes decide the result. */
  lemma {:induction false} SuccessesIgnoreErrors<T>(ids: seq<U64>, f: U64 -> Result<T, HError>, g: U64 -> Result<T, HError>)
    requires forall i :: 0 <= i < |ids| ==> (f(ids[i]).Ok? <==> g(ids[i]).Ok?)
    requires forall i :: 0 <= i < |ids| && f(ids[i]).Ok? ==> f(ids[i]).value == g(ids[i]).value
    ensures Successes(ids, f) == Successes(ids, g)
    decreases |ids|
  {
    if ids != [] {
      var init := ids[..|ids| - 1];
      assert forall i :: 0 <= i < |init| ==> init[i] == ids[i];
      SuccessesIgnoreErrors(init, f, g);
    }
  }

  /** When every fetch fails the result is empty. */
  lemma AllFailuresKeepNothing<T>(ids: seq<U64>, fetch: U64 -> Result<T, HError>)
    requires forall i :: 0 <= i < |ids| ==> fetch(ids[i]).Err?
    ensures Successes(ids, fetch) == []
  {
    var picked := SuccessesAreTheOkSubsequence(ids, fetch);
    if picked != [] {
      assert false;
    }
  }

  /** When every fetch succeeds, the tolerant traversal keeps everything, as the strict one does. */
  lemma AllSuccessesKeepEverything<T>(ids: seq<U64>, fetch: U64 -> Result<T, HError>)
    requires forall i :: 0 <= i < |ids| ==> fetch(ids[i]).Ok?
    ensures |Successes(ids, fetch)| == |ids|
    ensures forall i :: 0 <= i < |ids| ==> fetch(ids[i]) == Ok(Successes(ids, fetch)[i])
  {
    var picked := SuccessesAreTheOkSubsequence(ids, fetch);
    var n := |ids|;
    // `picked` is strictly increasing inside [0, n) and has n entries, so picked[m] == m.
    forall m | 0 <= m < n
      ensures picked[m] == m
    {
      PickedIsIdentity(picked, n, m);
    }
  }

  /** A strictly increasing sequence of n naturals below n is 0, 1, ..., n - 1. */
  lemma {:induction false} PickedIsIdentity(picked: seq<nat>, n: nat, m: nat)
    requires |picked| == n && m < n
    requires forall k :: 0 <= k < n ==> picked[k] < n
    requires forall k, l :: 0 <= k < l < n ==> picked[k] < picked[l]
    ensures picked[m] == m
  {
    LowerBound(picked, n, m);
    UpperBound(picked, n, m);
  }

  lemma {:induction false} LowerBound(picked: seq<nat>, n: nat, m: nat)
    requires |picked| == n && m < n
    requires forall k, l :: 0 <= k < l < n ==> picked[k] < picked[l]
    ensures picked[m] >= m
    decreases m
  {
    if m > 0 {
      LowerBound(picked, n, m - 1);
    }
  }

  lemma {:induction false} UpperBound(picked: seq<nat>, n: nat, m: nat)
    requires |picked| == n && m < n
    requires forall k :: 0 <= k < n ==> picked[k] < n
    requires forall k, l :: 0 <= k < l < n ==> picked[k] < picked[l]
    ensures picked[m] <= m
    decreases n - m
  {
    if m < n - 1 {
      UpperBound(picked, n, m + 1);
    }
  }

  /** The two aggregation policies over the same ids: when the strict one succeeds the
      tolerant one returns the same list, and when the strict one fails the tolerant
      one still succeeds but drops at least one id. */
  lemma TolerantAgreesWithStrict<T>(ids: seq<U64>, fetch: U64 -> Result<T, HError>)
    ensures Collect.All(ids, fetch).Ok? ==> Successes(ids, fetch) == Collect.All(ids, fetch).value
    ensures Collect.All(ids, fetch).Err? ==> |Successes(ids, fetch)| < |ids|
  {
    var r := Collect.All(ids, fetch);
    if r.Ok? {
      AllSuccessesKeepEverything(ids, fetch);
      assert Successes(ids, fetch) == r.value;
    }
  }

  /** The tolerant scenario: of three submissions only the middle one resolves, and only it is kept. */
  lemma OnlyResolvingSubmissionKept<T>(a: U64, b: U64, c: U64, fetch: U64 -> Result<T, HError>)
    requires fetch(a).Err? && fetch(b).Ok? && fetch(c).Err?
    ensures Successes([a, b, c], fetch) == [fetch(b).value]
  {
    assert [a][..0] == [];
    assert Successes([a], fetch) == [];
    assert [a, b][..1] == [a];
    assert Successes([a, b], fetch) == [fetch(b).value];
    assert [a, b, c][..2] == [a, b];
  }
}

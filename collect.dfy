/** Strict aggregation: `ids.iter().map(fetch).collect::<Result<Vec<_>, _>>()`.
    The result is every fetched value in id order, or the error of the first id
    whose fetch fails, with no partial list. */
module Collect {
  import opened Wrappers
  import opened Ints
  import opened Errors

  /** `ids[k]` is the first id whose fetch fails, and it fails with `e`. */
  ghost predicate FailsFirstAt<T>(ids: seq<U64>, fetch: U64 -> Result<T, HError>, k: int, e: HError) {
    && 0 <= k < |ids|
    && fetch(ids[k]) == Err(e)
    && forall j :: 0 <= j < k ==> fetch(ids[j]).Ok?
  }

  /** What a strict aggregation may return for `ids`. */
  ghost predicate Strict<T>(ids: seq<U64>, fetch: U64 -> Result<T, HError>, r: Result<seq<T>, HError>) {
    match r
    case Ok(xs) => |xs| == |ids| && forall i :: 0 <= i < |ids| ==> fetch(ids[i]) == Ok(xs[i])
    case Err(e) => exists k :: FailsFirstAt(ids, fetch, k, e)
  }

  /** `Strict` pins the result down: at most one result satisfies it. */
  lemma StrictIsUnique<T>(ids: seq<U64>, fetch: U64 -> Result<T, HError>, r1: Result<seq<T>, HError>, r2: Result<seq<T>, HError>)
    requires Strict(ids, fetch, r1) && Strict(ids, fetch, r2)
    ensures r1 == r2
  {
    match r1 {
      case Ok(xs) =>
        match r2 {
          case Ok(ys) =>
            forall i | 0 <= i < |xs| ensures xs[i] == ys[i] {
              assert fetch(ids[i]) == Ok(xs[i]);
            }
            assert xs == ys;
          case Err(e) =>
            assert false;
        }
      case Err(e1) =>
        match r2 {
          case Ok(ys) =>
            assert false;
          case Err(e2) =>
            var k1 :| FailsFirstAt(ids, fetch, k1, e1);
            var k2 :| FailsFirstAt(ids, fetch, k2, e2);
            if k1 < k2 {
              assert false;
            } else if k2 < k1 {
              assert false;
            }
        }
    }
  }

  /** The collection, one id at a time from the front; it stops at the first failure. */
  function All<T>(ids: seq<U64>, fetch: U64 -> Result<T, HError>): (r: Result<seq<T>, HError>)
    ensures Strict(ids, fetch, r)
    decreases |ids|
  {
    if ids == [] then Ok([])
    else
      match fetch(ids[0]) {
        case Err(e) =>
          assert FailsFirstAt(ids, fetch, 0, e);
          Err(e)
        case Ok(head) =>
          match All(ids[1..], fetch) {
            case Err(e) =>
              assert Strict(ids, fetch, Err(e)) by {
                var k :| FailsFirstAt(ids[1..], fetch, k, e);
                assert FailsFirstAt(ids, fetch, k + 1, e);
              }
              Err(e)
            case Ok(tail) =>
              Ok([head] + tail)
          }
      }
  }

  /** An empty id list collects to the empty list. */
  lemma AllOfNothing<T>(fetch: U64 -> Result<T, HError>)
    ensures All([], fetch) == Ok([])
  {
  }

  /** The batch scenario: three ids where the second fails and the first does not. */
  lemma MiddleFailureFailsAll<T>(a: U64, b: U64, c: U64, fetch: U64 -> Result<T, HError>)
    requires fetch(a).Ok? && fetch(b).Err?
    ensures All([a, b, c], fetch) == Err(fetch(b).error)
  {
    var r := All([a, b, c], fetch);
    StrictIsUnique([a, b, c], fetch, r, Err(fetch(b).error)) by {
      assert FailsFirstAt([a, b, c], fetch, 1, fetch(b).error);
    }
  }
}

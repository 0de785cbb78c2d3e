/**
 * The report service's plain objects used as dictionaries (`obj[key]`,
 * `obj[key] = …`, `Object.values(obj)`) are sequences of entries in key
 * insertion order; an entry's key is read through a projection.
 */
module Dictionaries {

  /** The position of the entry whose key is `x`, or -1 when there is none. */
  function IndexOf<E>(entries: seq<E>, key: E -> string, x: string): (k: int)
    ensures -1 <= k < |entries|
    ensures k >= 0 ==> key(entries[k]) == x
    ensures k < 0 <==> forall j :: 0 <= j < |entries| ==> key(entries[j]) != x
  {
    if entries == [] then -1
    else if key(entries[|entries| - 1]) == x then |entries| - 1
    else IndexOf(entries[..|entries| - 1], key, x)
  }

  /** The sum of a projection over the entries (`Object.values(obj)` summed field by field). */
  function SumOf<E>(entries: seq<E>, f: E -> int): int
  {
    if entries == [] then 0 else SumOf(entries[..|entries| - 1], f) + f(entries[|entries| - 1])
  }

  /** Replacing one entry changes the sum by the difference of its projections. */
  lemma {:induction false} SumOfUpdate<E>(entries: seq<E>, f: E -> int, k: nat, e: E)
    requires k < |entries|
    ensures SumOf(entries[k := e], f) == SumOf(entries, f) - f(entries[k]) + f(e)
    decreases |entries|
  {
    var n := |entries|;
    if k < n - 1 {
      assert entries[k := e][..n - 1] == entries[..n - 1][k := e];
      SumOfUpdate(entries[..n - 1], f, k, e);
    } else {
      assert entries[k := e][..n - 1] == entries[..n - 1];
    }
  }
}

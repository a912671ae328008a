/**
 * Arrays of records keyed by their `id` string: the lookups `findIndex((x) => x.id === id)`
 * and `filter((x) => x.id !== id)` that every update and delete performs.
 */
module Ids {
  import Seqs

  /** `(x) => x.id === id` for the record type whose id is read by `key`. */
  function IdIs<T>(key: T -> string, id: string): T -> bool {
    x => key(x) == id
  }

  /** `(x) => x.id !== id`. */
  function IdIsNot<T>(key: T -> string, id: string): T -> bool {
    x => key(x) != id
  }

  /** The ids of `s`, in order. */
  function Keys<T>(s: seq<T>, key: T -> string): (r: seq<string>)
    ensures |r| == |s|
    ensures forall i :: 0 <= i < |s| ==> r[i] == key(s[i])
  {
    if s == [] then [] else Keys(s[..|s| - 1], key) + [key(s[|s| - 1])]
  }

  /** No id occurs twice in `s`. */
  ghost predicate UniqueKeys<T>(s: seq<T>, key: T -> string) {
    forall i, j :: 0 <= i < j < |s| ==> key(s[i]) != key(s[j])
  }

  /** `s.findIndex((x) => x.id === id)`. */
  function IndexOfId<T>(s: seq<T>, key: T -> string, id: string): int {
    Seqs.FindIndex(s, IdIs(key, id))
  }

  /** `s.filter((x) => x.id !== id)`. */
  function WithoutId<T>(s: seq<T>, key: T -> string, id: string): seq<T> {
    Seqs.Filter(s, IdIsNot(key, id))
  }

  /**
   * Deleting by id removes every record carrying that id and nothing else, keeps the
   * survivors in their relative order, and leaves an array without that id as it was.
   */
  lemma DeleteById<T>(s: seq<T>, key: T -> string, id: string, x: T, a: seq<T>, b: seq<T>)
    ensures x in WithoutId(s, key, id) <==> x in s && key(x) != id
    ensures forall i :: 0 <= i < |WithoutId(s, key, id)| ==> key(WithoutId(s, key, id)[i]) != id
    ensures (forall i :: 0 <= i < |s| ==> key(s[i]) != id) ==> WithoutId(s, key, id) == s
    ensures WithoutId(a + b, key, id) == WithoutId(a, key, id) + WithoutId(b, key, id)
  {
    Seqs.FilterMember(s, IdIsNot(key, id), x);
    Seqs.FilterAppend(a, b, IdIsNot(key, id));
  }

  /** The first index carrying `id`, or -1 exactly when no record carries it. */
  lemma FindById<T>(s: seq<T>, key: T -> string, id: string)
    ensures var i := IndexOfId(s, key, id);
      (i == -1 <==> id !in Keys(s, key)) &&
      (0 <= i ==> i < |s| && key(s[i]) == id && id !in Keys(s[..i], key))
  {
  }
}

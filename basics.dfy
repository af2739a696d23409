/**
 * Small value types shared by the whole model: an optional value standing
 * for a JavaScript value that may be `null`, the outcome of one read from
 * the realtime database, and the few string predicates the server uses.
 */
module Basics {

  /** A value that may be absent (`null` or `undefined` in the server). */
  datatype Option<+T> = None | Some(value: T) {

    /** JavaScript's `a || b` on a value that is either a truthy string or null. */
    function Or(other: Option<T>): (r: Option<T>)
      ensures r.Some? <==> Some? || other.Some?
      ensures Some? ==> r == this
    {
      if Some? then this else other
    }
  }

  /** The outcome of a one-off read (`ref.once("value")`) from the database. */
  datatype Read<+T> = Found(value: T) | Missing | Failed

  /** JavaScript's `s || fallback` on a string: the empty string is falsy. */
  function OrElse(s: string, fallback: string): (r: string)
    ensures s != "" ==> r == s
    ensures s == "" ==> r == fallback
  {
    if s != "" then s else fallback
  }

  /** `s.includes(sub)`: `sub` occurs in `s` at some position. */
  predicate Contains(s: string, sub: string) {
    exists i | 0 <= i <= |s| :: sub <= s[i..]
  }

  /** `sub` occurs in `s` at position `i`; a convenient way to show `Contains`. */
  lemma ContainsAt(s: string, sub: string, i: nat)
    requires i <= |s| && sub <= s[i..]
    ensures Contains(s, sub)
  {
  }

  /** No element occurs twice: a sequence that stands for a JavaScript `Set`
      kept in insertion order. */
  predicate NoDup<T(==)>(s: seq<T>) {
    forall i, j | 0 <= i < j < |s| :: s[i] != s[j]
  }
}

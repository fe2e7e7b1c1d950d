/** Optional values, words of bits, and lists without repetition. */
module Lists {

  datatype Option<+T> = None | Some(value: T)

  /** A word, as the numbers of the bits that are one in it. */
  type Bits = set<nat>

  predicate Distinct<T(==)>(s: seq<T>) { forall i, j :: 0 <= i < j < |s| ==> s[i] != s[j] }

  /** The list with every `t` taken out. */
  function Without<T(==,!new)>(list: seq<T>, t: T): (r: seq<T>)
    ensures forall x :: x in r <==> x in list && x != t
  {
    if list == [] then []
    else
      assert list == [list[0]] + list[1..];
      if list[0] == t then Without(list[1..], t) else [list[0]] + Without(list[1..], t)
  }
}

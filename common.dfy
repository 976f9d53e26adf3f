/** Small shared vocabulary: an optional value and insertion-ordered key lists. */
module Common {

  datatype Option<+T> = None | Some(value: T)

  function Min(a: int, b: int): (m: int)
    ensures m <= a && m <= b && (m == a || m == b)
  {
    if a <= b then a else b
  }

  /** No key occurs twice in an insertion-ordered key list. */
  predicate Distinct<T(==)>(keys: seq<T>)
  {
    forall i, j :: 0 <= i < j < |keys| ==> keys[i] != keys[j]
  }

  /**
   * The key order of a JavaScript object after `{ ...obj, [k]: v }`:
   * a new key goes to the end, an existing key keeps its place.
   */
  function AddKey(keys: seq<string>, k: string): (r: seq<string>)
    ensures k in r
    ensures forall x :: x in r <==> x in keys || x == k
    ensures Distinct(keys) ==> Distinct(r)
    ensures k in keys ==> r == keys
    ensures k !in keys ==> r == keys + [k]
  {
    if k in keys then keys else keys + [k]
  }
}

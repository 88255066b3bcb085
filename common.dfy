/** Small value types shared by the editor and theme models. */
module Common {

  /** A value that may be absent: a TypeScript `T | undefined`, or a key missing from an object. */
  datatype Option<+T> = None | Some(value: T)

  /** A signed-in user's id. */
  type UserId = string

  /** An instant read from the clock (`new Date()`). */
  type Time = nat

  /** `s` with the element at index `k` taken out, the others kept in order. */
  function RemoveAt<T>(s: seq<T>, k: nat): (r: seq<T>)
    requires k < |s|
    ensures |r| == |s| - 1
    ensures forall i :: 0 <= i < k ==> r[i] == s[i]
    ensures forall i :: k <= i < |r| ==> r[i] == s[i + 1]
  {
    s[..k] + s[k + 1..]
  }
}

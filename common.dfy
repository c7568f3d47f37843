/** Small shared vocabulary: an optional value (JavaScript's `undefined`/`null`
    versus a value) and the first-occurrence search that `Array.prototype.indexOf`
    and `Array.prototype.find` perform. */
module Common {

  datatype Option<+T> = None | Some(value: T)

  /** Index of the first element equal to `x`, or None (`indexOf` returning -1). */
  function FirstIndexOf<T(==)>(s: seq<T>, x: T): (r: Option<nat>)
    ensures r.None? <==> x !in s
    ensures r.Some? ==> r.value < |s| && s[r.value] == x && x !in s[..r.value]
  {
    if s == [] then None
    else if s[0] == x then Some(0)
    else match FirstIndexOf(s[1..], x)
      case None => None
      case Some(i) =>
        assert s[1..][..i] == s[1..i + 1];
        assert s[..i + 1] == [s[0]] + s[1..i + 1];
        Some(i + 1)
  }

  /** `x` occurs at most once in `s`: the convention a training's exercise list follows. */
  predicate NoDuplicates<T(==)>(s: seq<T>) {
    forall i, j | 0 <= i < j < |s| :: s[i] != s[j]
  }
}

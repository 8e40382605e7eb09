/** What every model here uses. */
module Common {
  datatype Option<+T> = None | Some(value: T)

  ghost predicate NoDup<T(!new)>(q: seq<T>) {
    forall i, j :: 0 <= i < j < |q| ==> q[i] != q[j]
  }
}

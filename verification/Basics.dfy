/** Types shared by every module of the model. */
module Basics {

  /** A value that may be absent: a Go nil pointer or a missing map entry or file. */
  datatype Option<+T> = None | Some(value: T)

  newtype byte = i: int | 0 <= i < 256

  /** A configuration document, as the bytes it was submitted with. */
  datatype Document = Document(data: seq<byte>)

  const EMPTY_DOCUMENT := Document([])

  lemma SubsetSize<T>(a: set<T>, b: set<T>)
    requires a <= b
    ensures |a| <= |b|
  {
    assert b == a + (b - a);
  }
}

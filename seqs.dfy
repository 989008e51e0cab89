/** Facts about sequences shared by the dict and the category selector. */
module Seqs {

  /** Each element of `s` occurs once. */
  predicate Distinct<T(==)>(s: seq<T>)
  {
    forall i, j :: 0 <= i < j < |s| ==> s[i] != s[j]
  }
}

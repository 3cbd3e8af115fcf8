/** Notions that several parts of the model share. */
module Basics {

  newtype Byte = b: int | 0 <= b < 256

  datatype Size = Size(width: nat, height: nat)

  predicate NoDup<T(==)>(s: seq<T>) {
    forall i, j :: 0 <= i < j < |s| ==> s[i] != s[j]
  }

  function Elements<T>(s: seq<T>): set<T> {
    set x | x in s
  }

  lemma NoDupCons<T>(x: T, rest: seq<T>)
    ensures NoDup([x] + rest) <==> x !in rest && NoDup(rest)
  {
    var all := [x] + rest;
    if NoDup(all) {
      forall i, j | 0 <= i < j < |rest| ensures rest[i] != rest[j] {
        assert all[i + 1] != all[j + 1];
      }
      forall i | 0 <= i < |rest| ensures rest[i] != x {
        assert all[0] != all[i + 1];
      }
    }
  }
}

/** The optional value used for nullable columns, missing properties and missing rows. */
module Wrappers {
  datatype Option<+T> = None | Some(value: T) {
    /** SQL's COALESCE(this, default). */
    function GetOr(default: T): T {
      match this
      case Some(v) => v
      case None => default
    }
  }
}

/** Finite sets. */
module Sets {
  ghost function Least(s: set<nat>): (m: nat)
    requires s != {}
    ensures m in s && forall i :: i in s ==> m <= i
  {
    var m :| m in s;
    var rest := s - {m};
    assert forall i :: i in s ==> i == m || i in rest;
    if rest == {} then m
    else
      var r := Least(rest);
      if r < m then r else m
  }

  lemma SubsetSize<T>(a: set<T>, b: set<T>)
    requires a <= b
    ensures |a| <= |b|
  {
    assert b == a + (b - a);
  }
}

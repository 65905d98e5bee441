/** Listing the rows of a table, as the repositories' `findAll` and `findBy...` queries do. */
module Tables {

  predicate Distinct(ks: seq<int>) {
    forall i, j :: 0 <= i < j < |ks| ==> ks[i] != ks[j]
  }

  /** A set with no members is the empty set. */
  lemma NoMemberIsEmpty(s: set<int>)
    ensures (forall x :: x !in s) ==> s == {}
  {
    if forall x :: x !in s {
      assert s == {};
    }
  }

  /**
   * A repository query (`findAll`, `findByUser_Id`): the ids of the rows
   * of `table` that satisfy `keep`, each exactly once, in no particular order.
   */
  method Select<R>(table: map<int, R>, keep: R -> bool) returns (ks: seq<int>)
    ensures Distinct(ks)
    ensures forall k :: k in ks <==> k in table && keep(table[k])
  {
    ks := [];
    var rest := table.Keys;
    while rest != {}
      invariant rest <= table.Keys
      invariant Distinct(ks)
      invariant forall k :: k in ks <==> k in table && k !in rest && keep(table[k])
      decreases rest
    {
      NoMemberIsEmpty(rest);
      var id :| id in rest;
      if keep(table[id]) {
        ks := ks + [id];
      }
      rest := rest - {id};
    }
  }
}

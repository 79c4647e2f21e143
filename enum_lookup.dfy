/** The `REVERSE_LOOKUP` tables that `Strategy` and `ImageFormat` fill in their static
    initialisers: every constant, in declaration order, put under its token. */
module EnumLookup {

  /** The map after putting the constants of `values` one by one, in order. */
  function Table<E>(values: seq<E>, token: E -> string): map<string, E> {
    if values == [] then map[]
    else Table(values[..|values| - 1], token)[token(values[|values| - 1]) := values[|values| - 1]]
  }

  /** The static initialiser's loop: `REVERSE_LOOKUP.put(c.getValue(), c)` for each constant. */
  method Build<E>(values: seq<E>, token: E -> string) returns (lookup: map<string, E>)
    ensures lookup == Table(values, token)
  {
    lookup := map[];
    for i := 0 to |values|
      invariant lookup == Table(values[..i], token)
    {
      assert values[..i + 1][..i] == values[..i];
      lookup := lookup[token(values[i]) := values[i]];
    }
    assert values[..|values|] == values;
  }

  predicate DistinctTokens<E>(values: seq<E>, token: E -> string) {
    forall i, j :: 0 <= i < j < |values| ==> token(values[i]) != token(values[j])
  }

  /** The table's keys are exactly the tokens of the constants. */
  lemma {:induction false} TableKeys<E>(values: seq<E>, token: E -> string, key: string)
    ensures key in Table(values, token) <==> exists i :: 0 <= i < |values| && token(values[i]) == key
  {
    if values != [] {
      var init := values[..|values| - 1];
      TableKeys(init, token, key);
      if key in Table(init, token) {
        var i :| 0 <= i < |init| && token(init[i]) == key;
        assert token(values[i]) == key;
      }
    }
  }

  /** With distinct tokens, each constant's token leads back to that constant. */
  lemma {:induction false} TableFinds<E>(values: seq<E>, token: E -> string, i: nat)
    requires i < |values|
    requires DistinctTokens(values, token)
    ensures token(values[i]) in Table(values, token)
    ensures Table(values, token)[token(values[i])] == values[i]
  {
    var last := |values| - 1;
    if i < last {
      var init := values[..last];
      assert init[i] == values[i];
      assert DistinctTokens(init, token);
      TableFinds(init, token, i);
      assert token(values[i]) != token(values[last]);
    }
  }
}

/** Keys that are not in use. */
module UnusedKeys {

  lemma {:induction false} LargestOf(keys: set<nat>) returns (largest: nat)
    ensures forall k :: k in keys ==> k <= largest
    decreases keys
  {
    if keys == {} {
      largest := 0;
    } else {
      var k :| k in keys;
      var rest := LargestOf(keys - {k});
      assert keys == keys - {k} + {k};
      largest := if k <= rest then rest else k;
    }
  }

  lemma UnusedKey(keys: set<nat>) returns (key: nat)
    ensures key !in keys
  {
    var largest := LargestOf(keys);
    key := largest + 1;
  }
}

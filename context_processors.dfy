/** The template context processor of restaurant/context_processors.py: the
    item count shown in the navigation bar, read from the session's 'cart'
    dict. */
module ContextProcessors {
  import opened Wrappers
  import opened Dicts

  /** A value of the 'cart' dict: itself a dict that may lack 'quantity'. */
  datatype CartValue = CartValue(quantity: Option<int>)

  /** `item.get('quantity', 0)` */
  function QuantityOf(v: CartValue): (q: int)
    ensures v.quantity.None? ==> q == 0
    ensures v.quantity.Some? ==> q == v.quantity.value
  {
    v.quantity.GetOr(0)
  }

  /** `cart_count`: the sum of the entries' quantities, 0 when the session
      has no 'cart' key. */
  method CartCount(cart: Option<Dict<CartValue>>) returns (count: int)
    requires cart.Some? ==> Valid(cart.value)
    ensures cart.None? ==> count == 0
    ensures cart.Some? ==> count == SumValues(cart.value, QuantityOf)
    ensures cart.Some? && (forall k :: k in cart.value.items ==> QuantityOf(cart.value.items[k]) >= 0) ==>
      count >= 0
  {
    count := 0;
    if cart.Some? {
      var c := cart.value;
      var i := 0;
      while i < |c.keys|
        invariant 0 <= i <= |c.keys|
        invariant count == Sum(c.keys[..i], c.items, QuantityOf)
      {
        count := count + QuantityOf(c.items[c.keys[i]]);
        assert c.keys[..i + 1][..i] == c.keys[..i];
        i := i + 1;
      }
      assert c.keys[..i] == c.keys;
      if forall k :: k in c.items ==> QuantityOf(c.items[k]) >= 0 {
        SumNonNegative(c.keys, c.items, QuantityOf);
      }
    }
  }

  /** The cart {'1': {'quantity': 2}, '2': {'quantity': 3}} counts 5. */
  lemma TwoEntryCartCountsFive(cart: Dict<CartValue>)
    requires cart == Dict(["1", "2"], map["1" := CartValue(Some(2)), "2" := CartValue(Some(3))])
    ensures Valid(cart) && SumValues(cart, QuantityOf) == 5
  {
    assert cart.keys[..1] == ["1"];
    assert cart.keys[..1][..0] == [];
    assert Sum(cart.keys[..1], cart.items, QuantityOf) == 2;
  }

  /** An entry without a 'quantity' field adds nothing to the count. */
  lemma MissingQuantityCountsZero(cart: Dict<CartValue>, k: string)
    requires Valid(cart) && k !in cart.items
    ensures SumValues(Put(cart, k, CartValue(None)), QuantityOf) == SumValues(cart, QuantityOf)
  {
    SumValuesPut(cart, k, CartValue(None), QuantityOf);
  }

  /** Storing a quantity at a key changes the count by the difference with
      what was counted there before. */
  lemma PutQuantityCount(cart: Dict<CartValue>, k: string, q: int)
    requires Valid(cart)
    ensures SumValues(Put(cart, k, CartValue(Some(q))), QuantityOf)
            == SumValues(cart, QuantityOf) + q - (if k in cart.items then QuantityOf(cart.items[k]) else 0)
  {
    SumValuesPut(cart, k, CartValue(Some(q)), QuantityOf);
  }
}

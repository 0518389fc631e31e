/** The pricing rule of the item-configuration modal. */
module Pricing {
  import opened Catalog

  /** The price charged per unit for `item` configured with `modifier`:
      a chosen modifier's price replaces the item's base price. */
  function EffectivePrice(item: Item, modifier: Option<Modifier>): (r: int)
    ensures modifier.Some? ==> r == modifier.value.price
    ensures modifier.None? ==> r == item.price
  {
    match modifier
    case Some(m) => m.price
    case None => item.price
  }

  /** Once a modifier is chosen the base price no longer matters at all, and the
      modifier's price is not a surcharge: base + modifier is charged only in the
      degenerate case of a zero base price. */
  lemma ModifierReplacesBase(item: Item, other: Item, m: Modifier)
    ensures EffectivePrice(item, Some(m)) == EffectivePrice(other, Some(m))
    ensures EffectivePrice(item, Some(m)) == item.price + m.price <==> item.price == 0
  {
  }

  /** The add-order button is offered exactly when the chosen modifier, or the
      item itself when none is chosen, has a positive price. */
  lemma PurchasableIff(item: Item, modifier: Option<Modifier>)
    ensures EffectivePrice(item, modifier) > 0 <==>
      (match modifier case Some(m) => m.price > 0 case None => item.price > 0)
  {
  }
}

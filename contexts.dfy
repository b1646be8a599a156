/** The value objects an event carries: the item of a cart or order, and the user. */
module Contexts {
  import opened JavaLang
  import opened Decimals

  /** `ItemContext`; only `quantity` is ever rewritten, by AddToCartEvent. */
  datatype ItemContext = ItemContext(
    itemId: NString,
    itemType: NString,
    category: NString,
    sku: NString,
    name: NString,
    price: Decimal,
    currency: NString,
    quantity: int)

  /** `UserContext`. */
  datatype UserContext = UserContext(
    userId: NString,
    sessionId: NString,
    userAgent: NString,
    ipAddress: NString,
    country: NString,
    city: NString,
    deviceType: NString,
    os: NString,
    browser: NString)

  /** `price.multiply(BigDecimal.valueOf(quantity))`. */
  function LineTotal(item: ItemContext): (r: Decimal)
    ensures Real(r) == LineAmount(item)
  {
    Multiply(item.price, OfInt(item.quantity))
  }

  /** The exact value of price × quantity. */
  ghost function LineAmount(item: ItemContext): real {
    Real(item.price) * item.quantity as real
  }

  /** The exact sum of price × quantity over the items, first item first. */
  ghost function Amount(items: seq<ItemContext>): real {
    if |items| == 0 then 0.0
    else LineAmount(items[0]) + Amount(items[1..])
  }

  lemma {:induction false} AmountAppend(items: seq<ItemContext>, item: ItemContext)
    ensures Amount(items + [item]) == Amount(items) + LineAmount(item)
  {
    if |items| > 0 {
      assert (items + [item])[1..] == items[1..] + [item];
      AmountAppend(items[1..], item);
    }
  }

  /**
   * `items.stream().map(line total).reduce(BigDecimal.ZERO, BigDecimal::add)`:
   * the left fold of the line totals, whose value is the sum of prices times
   * quantities.
   */
  function Total(items: seq<ItemContext>): (r: Decimal)
    ensures Real(r) == Amount(items)
  {
    if |items| == 0 then Zero
    else
      var init, last := items[..|items| - 1], items[|items| - 1];
      AmountAppend(init, last);
      assert init + [last] == items;
      var sum, line := Total(init), LineTotal(last);
      assert Real(sum) == Amount(init) && Real(line) == LineAmount(last);
      Add(sum, line)
  }

  lemma TotalOfNone()
    ensures Total([]) == Zero
  {
  }
}

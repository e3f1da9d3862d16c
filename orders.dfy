/**
 * The order record as the invoice code reads it. A Python dictionary key that
 * may be missing is an `Option` (`None` = key absent); money is a whole number
 * of pesos. `customer` and `shipping_address` are read through `.get(key, '')`
 * only, so they are kept as string-valued dictionaries.
 */
module Orders {
  import opened Wrappers

  /** A JSON object whose values the invoice only reads as text. */
  type Dict = map<string, string>

  /** `d.get(key, default)`. */
  function Get(d: Dict, key: string, default: string): string {
    if key in d then d[key] else default
  }

  /** Python truth of a string: non-empty. */
  predicate Truthy(s: string) {
    s != ""
  }

  /** `if x:` for an optional string value (`d.get(key)`). */
  predicate OptTruthy(s: Option<string>) {
    s.Some? && Truthy(s.value)
  }

  /** `if d:` for an optional dictionary: present and non-empty. */
  predicate DictTruthy(d: Option<Dict>) {
    d.Some? && |d.value| > 0
  }

  datatype LineItem = LineItem(
    title: Option<string>,
    variantTitle: Option<string>,
    sku: Option<string>,
    quantity: Option<int>,
    price: Option<int>)

  /** `shop_money` inside `total_shipping_price_set`. */
  datatype Money = Money(amount: Option<int>)

  datatype PriceSet = PriceSet(shopMoney: Option<Money>)

  datatype Order = Order(
    orderNumber: Option<string>,
    createdAt: Option<string>,
    customer: Option<Dict>,
    shippingAddress: Option<Dict>,
    lineItems: Option<seq<LineItem>>,
    subtotalPrice: Option<int>,
    totalTax: Option<int>,
    totalShippingPriceSet: Option<PriceSet>,
    totalPrice: Option<int>)

  /** `str(KeyError(key))`: the key in single quotes. */
  function KeyError(key: string): (msg: string)
    ensures |msg| == |key| + 2 && msg[0] == '\'' && msg[|msg| - 1] == '\'' && msg[1..|msg| - 1] == key
  {
    "'" + key + "'"
  }

  /** The message names its key: different missing keys give different messages. */
  lemma KeyErrorNamesKey(a: string, b: string)
    requires KeyError(a) == KeyError(b)
    ensures a == b
  {
    assert a == KeyError(a)[1..|KeyError(a)| - 1];
  }

  /**
   * `order_data.get('total_shipping_price_set', {}).get('shop_money', {}).get('amount', 0)`:
   * a missing level anywhere on the path counts as zero.
   */
  function ShippingAmount(o: Order): (amount: int)
    ensures o.totalShippingPriceSet.None? ==> amount == 0
    ensures o.totalShippingPriceSet.Some? && o.totalShippingPriceSet.value.shopMoney.None? ==> amount == 0
    ensures o.totalShippingPriceSet.Some? && o.totalShippingPriceSet.value.shopMoney.Some? ==>
      amount == o.totalShippingPriceSet.value.shopMoney.value.amount.GetOr(0)
  {
    match o.totalShippingPriceSet
    case None => 0
    case Some(priceSet) =>
      match priceSet.shopMoney
      case None => 0
      case Some(money) => money.amount.GetOr(0)
  }
}

/** The values the order flow passes around: the catalog, the item entries
    kept in a session, their daily total, and the per-date order rows written
    when an order is completed. */
module Order {

  datatype Option<+T> = None | Some(value: T) {
    /** `dict.get(key, default)` on a key this option stands for. */
    function GetOr(default: T): T
    {
      if Some? then value else default
    }
  }

  /** Category name to item name to price, loaded once at start-up. */
  type Catalog = map<string, map<string, int>>

  /** One entry of `selected_items`: `{"name": ..., "price": ...}`. */
  datatype Item = Item(name: string, price: int)

  /** `sum(item['price'] for item in items)`: the daily total. */
  function Sum(items: seq<Item>): int
  {
    if items == [] then 0 else items[0].price + Sum(items[1..])
  }

  /** Appending an entry adds its price to the daily total. */
  lemma {:induction false} SumAppend(items: seq<Item>, x: Item)
    ensures Sum(items + [x]) == Sum(items) + x.price
  {
    if items == [] {
      assert items + [x] == [x];
    } else {
      assert (items + [x])[1..] == items[1..] + [x];
      SumAppend(items[1..], x);
    }
  }

  /** No date appears twice. */
  predicate Distinct(dates: seq<string>)
  {
    forall i, j :: 0 <= i < j < |dates| ==> dates[i] != dates[j]
  }

  /** One row of the `orders` table: client id, delivery date, item list and
      the price charged for that date. */
  datatype OrderRow = OrderRow(client: int, date: string, items: seq<Item>, price: real)

  /** The rows written for a completed order, one per delivery date in list
      order, each priced `finalPrice / len(dates)` (true division). */
  function OrderRowsFor(client: int, dates: seq<string>, items: seq<Item>, finalPrice: int): seq<OrderRow>
  {
    seq(|dates|, k requires 0 <= k < |dates| =>
      OrderRow(client, dates[k], items, (finalPrice as real) / (|dates| as real)))
  }

  /** The sum of the prices of `rows`. */
  function TotalPrice(rows: seq<OrderRow>): real
  {
    if rows == [] then 0.0 else rows[0].price + TotalPrice(rows[1..])
  }

  lemma {:induction false} TotalPriceUniform(rows: seq<OrderRow>, p: real)
    requires forall k :: 0 <= k < |rows| ==> rows[k].price == p
    ensures TotalPrice(rows) == (|rows| as real) * p
  {
    if rows != [] {
      TotalPriceUniform(rows[1..], p);
    }
  }

  /** The rows of a completed order carry, in order, the session's dates, the
      client id and the same item list; their prices add up to the final
      price (nothing is written when there is no date). */
  lemma OrderRowsForTotal(client: int, dates: seq<string>, items: seq<Item>, finalPrice: int)
    ensures var rows := OrderRowsFor(client, dates, items, finalPrice);
      && |rows| == |dates|
      && (forall k :: 0 <= k < |rows| ==>
            rows[k].client == client && rows[k].date == dates[k] && rows[k].items == items
            && rows[k].price == rows[0].price)
      && TotalPrice(rows) == if dates == [] then 0.0 else finalPrice as real
  {
    var rows := OrderRowsFor(client, dates, items, finalPrice);
    if dates != [] {
      var n := |dates| as real;
      var p := (finalPrice as real) / n;
      TotalPriceUniform(rows, p);
      assert n * p == finalPrice as real;
    }
  }
}

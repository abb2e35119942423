/** The persistence calls of the completion path, as a sink that keeps the
    `clients` table (email to id) and the rows inserted into `orders`. The
    connection pool is not modelled. */
module Persistence {
  import opened Order

  class OrderSink {
    /** `clients`: email to id. */
    var clients: map<string, int>
    /** The id the next new client receives. */
    var nextId: int
    /** The rows of `orders`, in insertion order. */
    var orders: seq<OrderRow>

    /** Client ids are positive, below `nextId`, and no two emails share one. */
    ghost predicate Valid()
      reads this
    {
      && 1 <= nextId
      && (forall e :: e in clients ==> 1 <= clients[e] < nextId)
      && (forall e1, e2 :: e1 in clients && e2 in clients && e1 != e2 ==> clients[e1] != clients[e2])
    }

    constructor ()
      ensures Valid() && clients == map[] && orders == []
    {
      clients := map[];
      nextId := 1;
      orders := [];
    }

    /** `save_client`: insert the email, or on conflict keep the existing row,
        and return the row's id. */
    method SaveClient(email: string) returns (id: int)
      requires Valid()
      modifies this
      ensures Valid()
      ensures clients == old(clients)[email := id]
      ensures email in old(clients) ==> id == old(clients)[email]
      ensures email !in old(clients) ==> id !in old(clients).Values
      ensures orders == old(orders)
    {
      if email in clients {
        id := clients[email];
      } else {
        id := nextId;
        clients := clients[email := id];
        nextId := nextId + 1;
      }
    }

    /** `save_order`: append one row to `orders`. */
    method SaveOrder(client: int, date: string, items: seq<Item>, price: real)
      modifies this
      ensures orders == old(orders) + [OrderRow(client, date, items, price)]
      ensures clients == old(clients) && nextId == old(nextId)
    {
      orders := orders + [OrderRow(client, date, items, price)];
    }
  }

  /** The loop of the completion path: one `save_order` per delivery date,
      in list order, each priced `finalPrice / len(dates)`. */
  method SaveOrderRows(sink: OrderSink, client: int, dates: seq<string>, items: seq<Item>, finalPrice: int)
    modifies sink
    ensures sink.orders == old(sink.orders) + OrderRowsFor(client, dates, items, finalPrice)
    ensures sink.clients == old(sink.clients) && sink.nextId == old(sink.nextId)
  {
    ghost var rows := OrderRowsFor(client, dates, items, finalPrice);
    var i := 0;
    while i < |dates|
      invariant 0 <= i <= |dates|
      invariant sink.clients == old(sink.clients) && sink.nextId == old(sink.nextId)
      invariant sink.orders == old(sink.orders) + rows[..i]
    {
      sink.SaveOrder(client, dates[i], items, (finalPrice as real) / (|dates| as real));
      assert rows[..i + 1] == rows[..i] + [rows[i]];
      i := i + 1;
    }
    assert rows[..i] == rows;
  }
}

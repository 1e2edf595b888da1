/** The orders view: its own order table, fetched once when it mounts. */
module OrdersView {
  import opened Types
  import opened Api
  import Stats

  /** A displayed order; the date is shown through the locale, which the model leaves out. */
  datatype OrderRow = OrderRow(
    id: string,
    customer: string,
    date: OrderDate,
    total: int,
    status: string,
    items: nat)

  /** One order's row: the customer is the user's id and the item count the number of products. */
  function FormatOrder(o: Order): (row: OrderRow)
    ensures row.items == |o.products| && row.total == o.total && row.status == o.status
  {
    OrderRow(o.id, o.user.id, o.date, o.total, o.status, |o.products|)
  }

  /** One row per fetched order, in the same order. */
  function FormatOrders(os: seq<Order>): (rows: seq<OrderRow>)
    ensures |rows| == |os|
    ensures forall i :: 0 <= i < |os| ==> rows[i] == FormatOrder(os[i])
    decreases |os|
  {
    if os == [] then [] else [FormatOrder(os[0])] + FormatOrders(os[1..])
  }

  class OrdersView {
    var orders: seq<OrderRow>

    /**
     * Mounting: the list starts empty and the one fetch, given how it
     * settled, fills it; a failed fetch leaves it empty.
     */
    constructor Mount(fetched: Settled<seq<Order>>)
      ensures orders == if fetched.Fulfilled? then FormatOrders(fetched.value) else []
    {
      orders := [];
      if fetched.Fulfilled? {
        orders := FormatOrders(fetched.value);
      }
    }
  }

  /** The sum of the rows' totals, folded left as the statistics view folds the orders. */
  function RowTotal(rows: seq<OrderRow>): int
    decreases |rows|
  {
    if rows == [] then 0 else RowTotal(rows[..|rows| - 1]) + rows[|rows| - 1].total
  }

  /** The rows add up to the same total revenue as the fetched orders. */
  lemma {:induction false} RowsKeepTotals(os: seq<Order>)
    ensures RowTotal(FormatOrders(os)) == Stats.SumTotals(os)
    decreases |os|
  {
    if os != [] {
      var n := |os| - 1;
      RowsKeepTotals(os[..n]);
      assert FormatOrders(os)[..n] == FormatOrders(os[..n]);
    }
  }
}

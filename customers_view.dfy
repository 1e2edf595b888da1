/** The customers view: one row per customer in the store. */
module CustomersView {
  import opened Wrappers
  import opened Types
  import opened Rendering
  import opened AdminContext

  datatype CustomerRow = CustomerRow(
    id: string,
    name: string,
    email: string,
    carts: nat,
    createdAt: string,
    avatar: string)

  /** One customer's row: the cart count is 0 when the customer has no cart list. */
  function FormatCustomer(c: Customer): (row: CustomerRow)
    ensures row.carts == if c.carts.Some? then |c.carts.value| else 0
  {
    CustomerRow(c.id, c.username, c.email, if c.carts.Some? then |c.carts.value| else 0,
                c.createAt, Avatar(c.username))
  }

  /** One row per customer, in the same order. */
  function FormatCustomers(cs: seq<Customer>): (rows: seq<CustomerRow>)
    ensures |rows| == |cs|
    ensures forall i :: 0 <= i < |cs| ==> rows[i] == FormatCustomer(cs[i])
    decreases |cs|
  {
    if cs == [] then [] else [FormatCustomer(cs[0])] + FormatCustomers(cs[1..])
  }

  function EffectRows(previous: seq<CustomerRow>, customers: seq<Customer>): seq<CustomerRow> {
    if |customers| > 0 then FormatCustomers(customers) else previous
  }

  class CustomersView {
    var formattedCustomers: seq<CustomerRow>

    constructor ()
      ensures formattedCustomers == []
    {
      formattedCustomers := [];
    }

    /** The effect that runs whenever the store's customer list changes; an empty list leaves the rows stale. */
    method OnCustomersChanged(customers: seq<Customer>)
      modifies this
      ensures formattedCustomers == EffectRows(old(formattedCustomers), customers)
    {
      if |customers| > 0 {
        formattedCustomers := FormatCustomers(customers);
      }
    }
  }

  function Render(s: StoreState, rows: seq<CustomerRow>): Screen<CustomerRow> {
    ScreenOf(s.loading, s.error, rows)
  }

  /** Rows keep the customer's identity: id, name from the username, email, and an avatar for that name. */
  lemma RowsKeepIdentity(cs: seq<Customer>, i: int)
    requires 0 <= i < |cs|
    ensures FormatCustomers(cs)[i].id == cs[i].id && FormatCustomers(cs)[i].name == cs[i].username
    ensures FormatCustomers(cs)[i].email == cs[i].email
    ensures FormatCustomers(cs)[i].avatar[|AvatarPrefix|..] == cs[i].username
  {
  }
}

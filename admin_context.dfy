/**
 * The shared admin store (`AdminProvider`): seven resource collections, a
 * loading flag, an error message and the active view identifier, refreshed
 * all-or-nothing by `fetchData`.
 */
module AdminContext {
  import opened Wrappers
  import opened Types
  import opened Api

  /** The message recorded when a read rejects with something that is not an `Error`. */
  const GenericError: string := "An error occurred"

  /** The view the store starts on. */
  const InitialView: string := "dashboard"

  /** How the seven reads of one refresh cycle settled, in the order `Promise.all` lists them. */
  datatype Reads = Reads(
    products: Settled<seq<Product>>,
    categories: Settled<seq<Category>>,
    suppliers: Settled<seq<Supplier>>,
    customers: Settled<seq<Customer>>,
    feedbacks: Settled<seq<Feedback>>,
    orders: Settled<seq<Order>>,
    vouchers: Settled<seq<Voucher>>)

  predicate AllFulfilled(r: Reads) {
    && r.products.Fulfilled? && r.categories.Fulfilled? && r.suppliers.Fulfilled?
    && r.customers.Fulfilled? && r.feedbacks.Fulfilled? && r.orders.Fulfilled?
    && r.vouchers.Fulfilled?
  }

  /** The reason `Promise.all` rejects with: the first rejected read, in list order. */
  function FirstFailure(r: Reads): (t: Thrown)
    requires !AllFulfilled(r)
  {
    if r.products.Rejected? then r.products.reason
    else if r.categories.Rejected? then r.categories.reason
    else if r.suppliers.Rejected? then r.suppliers.reason
    else if r.customers.Rejected? then r.customers.reason
    else if r.feedbacks.Rejected? then r.feedbacks.reason
    else if r.orders.Rejected? then r.orders.reason
    else r.vouchers.reason
  }

  /** `err instanceof Error ? err.message : 'An error occurred'`. */
  function ErrorMessage(t: Thrown): string {
    match t
    case ErrorObject(m) => m
    case OtherValue => GenericError
  }

  /** A snapshot of everything the store holds. */
  datatype StoreState = StoreState(
    activeView: string,
    products: seq<Product>,
    categories: seq<Category>,
    suppliers: seq<Supplier>,
    customers: seq<Customer>,
    feedbacks: seq<Feedback>,
    orders: seq<Order>,
    vouchers: seq<Voucher>,
    loading: bool,
    error: Option<string>)

  /** All seven collections are empty. */
  predicate Cleared(s: StoreState) {
    && s.products == [] && s.categories == [] && s.suppliers == [] && s.customers == []
    && s.feedbacks == [] && s.orders == [] && s.vouchers == []
  }

  /** Each collection is exactly what its read delivered. */
  predicate HoldsReads(s: StoreState, r: Reads)
    requires AllFulfilled(r)
  {
    && s.products == r.products.value && s.categories == r.categories.value
    && s.suppliers == r.suppliers.value && s.customers == r.customers.value
    && s.feedbacks == r.feedbacks.value && s.orders == r.orders.value
    && s.vouchers == r.vouchers.value
  }

  function InitialState(): StoreState {
    StoreState(InitialView, [], [], [], [], [], [], [], true, None)
  }

  /** The state `fetchData` leaves once its seven reads have settled as `r`. */
  function Refreshed(s: StoreState, r: Reads): StoreState {
    if AllFulfilled(r) then
      StoreState(s.activeView, r.products.value, r.categories.value, r.suppliers.value,
                 r.customers.value, r.feedbacks.value, r.orders.value, r.vouchers.value,
                 false, None)
    else
      StoreState(s.activeView, [], [], [], [], [], [], [], false, Some(ErrorMessage(FirstFailure(r))))
  }

  /** The provider's state, updated in place by its setters. */
  class AdminStore {
    var activeView: string
    var products: seq<Product>
    var categories: seq<Category>
    var suppliers: seq<Supplier>
    var customers: seq<Customer>
    var feedbacks: seq<Feedback>
    var orders: seq<Order>
    var vouchers: seq<Voucher>
    var loading: bool
    var error: Option<string>

    function State(): StoreState
      reads this
    {
      StoreState(activeView, products, categories, suppliers, customers, feedbacks, orders,
                 vouchers, loading, error)
    }

    /** The `useState` initial values. */
    constructor ()
      ensures State() == InitialState()
    {
      activeView := InitialView;
      products, categories, suppliers, customers := [], [], [], [];
      feedbacks, orders, vouchers := [], [], [];
      loading := true;
      error := None;
    }

    /** The part of `fetchData` that runs before the reads are awaited. */
    method BeginRefresh()
      modifies this
      ensures loading
      ensures State() == old(State()).(loading := true)
    {
      loading := true;
    }

    /** The part of `fetchData` that runs once all seven reads have settled. */
    method CompleteRefresh(r: Reads)
      modifies this
      ensures !loading && activeView == old(activeView)
      ensures AllFulfilled(r) ==> HoldsReads(State(), r) && error == None
      ensures !AllFulfilled(r) ==> Cleared(State()) && error == Some(ErrorMessage(FirstFailure(r)))
      ensures State() == Refreshed(old(State()), r)
    {
      if AllFulfilled(r) {
        products := r.products.value;
        categories := r.categories.value;
        suppliers := r.suppliers.value;
        customers := r.customers.value;
        feedbacks := r.feedbacks.value;
        orders := r.orders.value;
        vouchers := r.vouchers.value;
        error := None;
      } else {
        error := Some(ErrorMessage(FirstFailure(r)));
        products := [];
        categories := [];
        suppliers := [];
        customers := [];
        feedbacks := [];
        orders := [];
        vouchers := [];
      }
      loading := false;
    }

    /** `refreshData`: one whole refresh cycle whose reads settle as `r`. */
    method Refresh(r: Reads)
      modifies this
      ensures State() == Refreshed(old(State()), r)
    {
      BeginRefresh();
      CompleteRefresh(r);
    }

    method SetActiveView(view: string)
      modifies this
      ensures State() == old(State()).(activeView := view)
    {
      activeView := view;
    }
  }

  /**
   * All or nothing: after a refresh either every collection is exactly what
   * its read delivered, in order, and there is no error, or every collection
   * is empty and an error is recorded; the view is untouched and loading is over.
   */
  lemma RefreshAllOrNothing(s: StoreState, r: Reads)
    ensures Refreshed(s, r).activeView == s.activeView && !Refreshed(s, r).loading
    ensures AllFulfilled(r) <==> Refreshed(s, r).error == None
    ensures AllFulfilled(r) ==> HoldsReads(Refreshed(s, r), r)
    ensures !AllFulfilled(r) ==> Cleared(Refreshed(s, r))
  {
  }

  /** A refresh replaces the collections wholesale: nothing of the previous data survives it. */
  lemma RefreshForgetsPrevious(s: StoreState, t: StoreState, r: Reads)
    requires s.activeView == t.activeView
    ensures Refreshed(s, r) == Refreshed(t, r)
  {
  }

  /** Of two overlapping refreshes, the one that completes last decides the state. */
  lemma LastCompletionWins(s: StoreState, first: Reads, last: Reads)
    ensures Refreshed(Refreshed(s, first), last) == Refreshed(s, last)
  {
    RefreshForgetsPrevious(Refreshed(s, first), s, last);
  }

  /** Refreshing twice with the same outcomes leaves the same state as refreshing once. */
  lemma RefreshIdempotent(s: StoreState, r: Reads)
    ensures Refreshed(Refreshed(s, r), r) == Refreshed(s, r)
  {
    LastCompletionWins(s, r, r);
  }

  /** The raw responses of the seven list reads of one cycle. */
  datatype Responses = Responses(
    products: Settled<Body<seq<Product>>>,
    categories: Settled<Body<seq<Category>>>,
    suppliers: Settled<Body<seq<Supplier>>>,
    customers: Settled<Body<seq<Customer>>>,
    feedbacks: Settled<Body<seq<Feedback>>>,
    orders: Settled<Body<seq<Order>>>,
    vouchers: Settled<Body<seq<Voucher>>>)

  /** What the seven client calls hand to `Promise.all`. */
  function ReadsOf(x: Responses): Reads {
    Reads(ReadList(x.products), ReadList(x.categories), ReadList(x.suppliers),
          ReadList(x.customers), ReadList(x.feedbacks), ReadList(x.orders), ReadList(x.vouchers))
  }

  /**
   * Because every read goes through `handleApiResponse`, a failed refresh
   * always records the client's fixed message, whichever read failed and why.
   */
  lemma FailedRefreshMessage(s: StoreState, x: Responses)
    requires !AllFulfilled(ReadsOf(x))
    ensures Refreshed(s, ReadsOf(x)).error == Some(FetchFailure)
    ensures Cleared(Refreshed(s, ReadsOf(x)))
  {
  }

  /** The outcome of `useAdmin()`: the store, or the error it throws outside a provider. */
  datatype HookResult = Provided(store: StoreState) | Throws(message: string)

  const OutsideProvider: string := "useAdmin must be used within an AdminProvider"

  /** `useAdmin`: fails exactly when no provider is present. */
  function UseAdmin(context: Option<StoreState>): (r: HookResult)
    ensures r.Throws? <==> context.None?
    ensures r.Throws? ==> r.message == OutsideProvider
    ensures r.Provided? ==> r.store == context.value
  {
    match context
    case None => Throws(OutsideProvider)
    case Some(s) => Provided(s)
  }
}

/** The dashboard: which view the active view identifier selects. */
module Dashboard {
  import AdminContext

  datatype View = StatsView | CustomersView | ProductsView | FeedbackView | OrdersView | VoucherView | CategorySupplierView

  /** `renderView`: one case per menu identifier, and the statistics view for anything else. */
  function RenderView(id: string): View {
    if id == "dashboard" then StatsView
    else if id == "customers" then CustomersView
    else if id == "products" then ProductsView
    else if id == "feedback" then FeedbackView
    else if id == "orders" then OrdersView
    else if id == "vouchers" then VoucherView
    else if id == "categories-suppliers" then CategorySupplierView
    else StatsView
  }

  /** The sidebar's menu identifiers, in menu order. */
  const MenuIds: seq<string> :=
    ["dashboard", "customers", "products", "feedback", "orders", "vouchers", "categories-suppliers"]

  /** The view each menu entry is meant to open, in the same order. */
  const MenuViews: seq<View> :=
    [StatsView, CustomersView, ProductsView, FeedbackView, OrdersView, VoucherView, CategorySupplierView]

  /**
   * Every menu identifier has its own case: entry `i` opens view `i`, so the
   * seven entries open seven different views, and every view is reachable.
   */
  lemma MenuSelectsOwnView()
    ensures |MenuIds| == |MenuViews| == 7
    ensures forall i :: 0 <= i < 7 ==> RenderView(MenuIds[i]) == MenuViews[i]
    ensures forall i, j :: 0 <= i < j < 7 ==> MenuViews[i] != MenuViews[j]
    ensures forall v: View :: v in MenuViews
  {
    forall v: View ensures v in MenuViews {
      match v
      case StatsView => assert MenuViews[0] == v;
      case CustomersView => assert MenuViews[1] == v;
      case ProductsView => assert MenuViews[2] == v;
      case FeedbackView => assert MenuViews[3] == v;
      case OrdersView => assert MenuViews[4] == v;
      case VoucherView => assert MenuViews[5] == v;
      case CategorySupplierView => assert MenuViews[6] == v;
    }
  }

  /** Any identifier outside the menu falls back to the statistics view, so the dispatch is total. */
  lemma UnknownIdShowsStats(id: string)
    requires id !in MenuIds
    ensures RenderView(id) == StatsView
  {
  }

  /** The store starts on the statistics view. */
  lemma InitialViewIsStats()
    ensures RenderView(AdminContext.InitialState().activeView) == StatsView
  {
  }
}

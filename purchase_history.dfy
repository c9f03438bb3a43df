/**
 * src/screens/purchase_history_screen.py: two tabs, "all" and "mobile",
 * one of which is highlighted according to `order_type`. The colours are
 * abstracted to active (bright green) and inactive (dark grey).
 */
module PurchaseHistory {

  datatype TabLook = Active | Inactive

  const AllOrders: string := "all"

  /** The looks of (tab_all, tab_mobile) for an order type. */
  function TabLooks(orderType: string): (TabLook, TabLook) {
    if orderType == AllOrders then (Active, Inactive) else (Inactive, Active)
  }

  /** Exactly one tab is active: "all" for the type "all", "mobile" for any other value. */
  lemma ExactlyOneTabActive(orderType: string)
    ensures (TabLooks(orderType).0 == Active) != (TabLooks(orderType).1 == Active)
    ensures TabLooks(orderType).0 == Active <==> orderType == AllOrders
  {
  }

  class PurchaseHistoryScreen {
    /** The `order_type` property. */
    var orderType: string
    /** Whether the kv layout gives ids `tab_all` and `tab_mobile`. */
    const hasTabs: bool
    /** `bg_color` of tab_all and of tab_mobile. */
    var tabAll: TabLook
    var tabMobile: TabLook

    /** Both tab buttons start with the default `bg_color`, which is the active green. */
    constructor (hasTabs: bool)
      ensures this.hasTabs == hasTabs
      ensures orderType == AllOrders && tabAll == Active && tabMobile == Active
    {
      this.hasTabs := hasTabs;
      orderType := AllOrders;
      tabAll := Active;
      tabMobile := Active;
    }

    /** `_update_tab_colors`: nothing without both tab ids; otherwise highlight by order type. */
    method UpdateTabColors()
      modifies this`tabAll, this`tabMobile
      ensures hasTabs ==> (tabAll, tabMobile) == TabLooks(orderType)
      ensures !hasTabs ==> tabAll == old(tabAll) && tabMobile == old(tabMobile)
    {
      if !hasTabs {
        return;
      }
      if orderType == AllOrders {
        tabAll, tabMobile := Active, Inactive;
      } else {
        tabAll, tabMobile := Inactive, Active;
      }
    }

    /**
     * `switch_order_type`: set the order type; the property observer
     * repaints the tabs only when the value actually changes.
     */
    method SwitchOrderType(t: string)
      modifies this`orderType, this`tabAll, this`tabMobile
      ensures orderType == t
      ensures t != old(orderType) && hasTabs ==> (tabAll, tabMobile) == TabLooks(t)
      ensures t == old(orderType) || !hasTabs ==> tabAll == old(tabAll) && tabMobile == old(tabMobile)
    {
      var changed := t != orderType;
      orderType := t;
      if changed {
        UpdateTabColors();
      }
    }
  }
}

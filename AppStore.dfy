/** The global UI store (src/store/appStore.ts): one mutable record whose
    actions each overwrite specific fields. */
module AppStore {
  import opened Wrappers
  import opened Types

  datatype NavItem = AppsNav | FlowsNav | DataNav | MonitoringNav

  /** A snapshot of the store's fields. */
  datatype StoreState = StoreState(
    selectedAppId: Option<string>,
    selectedNodeId: Option<string>,
    isMobilePanelOpen: bool,
    activeInspectorTab: InspectorTab,
    activeNavItem: NavItem)

  /** Nothing selected, the mobile panel closed, the config tab and the
      apps navigation item active. */
  const InitialState := StoreState(None, None, false, ConfigTab, AppsNav)

  class Store {
    var selectedAppId: Option<string>
    var selectedNodeId: Option<string>
    var isMobilePanelOpen: bool
    var activeInspectorTab: InspectorTab
    var activeNavItem: NavItem

    function State(): StoreState
      reads this
    {
      StoreState(selectedAppId, selectedNodeId, isMobilePanelOpen, activeInspectorTab, activeNavItem)
    }

    constructor ()
      ensures State() == InitialState
    {
      selectedAppId := None;
      selectedNodeId := None;
      isMobilePanelOpen := false;
      activeInspectorTab := ConfigTab;
      activeNavItem := AppsNav;
    }

    /** Choosing an app always clears the node selection. */
    method SetSelectedAppId(id: Option<string>)
      modifies this`selectedAppId, this`selectedNodeId
      ensures State() == old(State()).(selectedAppId := id, selectedNodeId := None)
    {
      selectedAppId := id;
      selectedNodeId := None;
    }

    method SetSelectedNodeId(id: Option<string>)
      modifies this`selectedNodeId
      ensures State() == old(State()).(selectedNodeId := id)
    {
      selectedNodeId := id;
    }

    method SetMobilePanelOpen(open: bool)
      modifies this`isMobilePanelOpen
      ensures State() == old(State()).(isMobilePanelOpen := open)
    {
      isMobilePanelOpen := open;
    }

    method SetActiveInspectorTab(tab: InspectorTab)
      modifies this`activeInspectorTab
      ensures State() == old(State()).(activeInspectorTab := tab)
    {
      activeInspectorTab := tab;
    }

    method SetActiveNavItem(nav: NavItem)
      modifies this`activeNavItem
      ensures State() == old(State()).(activeNavItem := nav)
    {
      activeNavItem := nav;
    }

    /** Reads the flag, then writes its negation. */
    method ToggleMobilePanel()
      modifies this`isMobilePanelOpen
      ensures State() == old(State()).(isMobilePanelOpen := !old(isMobilePanelOpen))
    {
      isMobilePanelOpen := !isMobilePanelOpen;
    }
  }

  /** Toggling the mobile panel twice restores the whole store. */
  method ToggleTwiceRestores(s: Store)
    modifies s
    ensures s.State() == old(s.State())
  {
    s.ToggleMobilePanel();
    s.ToggleMobilePanel();
  }

  /** Opening (or closing) the mobile panel twice is the same as once. */
  method SetMobilePanelOpenIdempotent(s: Store, open: bool)
    modifies s
    ensures s.State() == old(s.State()).(isMobilePanelOpen := open)
  {
    s.SetMobilePanelOpen(open);
    ghost var once := s.State();
    s.SetMobilePanelOpen(open);
    assert s.State() == once;
  }
}

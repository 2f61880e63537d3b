/** The client dashboard shell (src/component/dashboards/ClientDashboard.jsx):
    the navigation state (active tab, current view, selected project), the
    sidebar rules, the greeting, and the conditions under which the profile
    is re-fetched and the content store panel is rendered. The window width
    and the hour of the day are parameters. */
module ClientDashboard {
  import opened Common

  /** The buttons of the main and the bottom navigation, in order. */
  const MainNavItems: seq<string> := ["Overview", "Business Profile", "Datastore", "Chats", "Enquiry", "History"]
  const BottomNavItems: seq<string> := ["Support", "Help", "Settings"]
  const NavItems: seq<string> := MainNavItems + BottomNavItems

  /** Widths below this many pixels are mobile. */
  const MobileBreakpoint := 768

  /** The greeting of the overview for an hour of the day. */
  function Greeting(hour: int): (g: string)
    ensures g in {"Good morning", "Good afternoon", "Good evening"}
    ensures g == "Good morning" <==> hour < 12
    ensures g == "Good afternoon" <==> 12 <= hour < 18
    ensures g == "Good evening" <==> 18 <= hour
  {
    if hour < 12 then "Good morning"
    else if hour < 18 then "Good afternoon"
    else "Good evening"
  }

  /** The view a tab click selects. */
  function ViewForTab(tab: string): (v: string)
    ensures v == "datastore" <==> tab == "Datastore"
    ensures v in {"datastore", "overview"}
  {
    if tab == "Datastore" then "datastore" else "overview"
  }

  /** The condition of the effect that re-fetches the profile when the
      active tab changes. Its second literal carries two trailing spaces, so
      of the navigation items only "Business Profile" triggers it. */
  function TriggersProfileFetch(tab: string): (b: bool)
    ensures tab in NavItems ==> (b <==> tab == "Business Profile")
    ensures b && tab != "Business Profile" ==> tab == "Tax Information  " && tab !in NavItems
  {
    tab == "Business Profile" || tab == "Tax Information  "
  }

  /** The content store panel is rendered exactly on its own tab. */
  predicate DatastoreRendered(activeTab: string)
    ensures DatastoreRendered(activeTab) <==> ViewForTab(activeTab) == "datastore"
  {
    activeTab == "Datastore"
  }

  /** The state hooks of the dashboard that navigation touches.
      `profileFetches` counts calls of `fetchClientProfile`;
      `datastoreMounts` counts how often the content store panel has been
      mounted, which starts a fresh panel with its own fetch. */
  class DashboardState {
    var isSidebarOpen: bool
    var activeTab: string
    var isMobile: bool
    var selectedProjectId: Option<string>
    var currentView: string
    var profileFetches: nat
    var datastoreMounts: nat

    /** The view always follows the tab. */
    ghost predicate Valid()
      reads this`currentView, this`activeTab
    {
      currentView == ViewForTab(activeTab)
    }

    /** The initial hooks after the mount effects: the profile fetch, the
        active-tab effect (which does not fire on "Overview") and the first
        `checkIfMobile` at the given width. */
    constructor (width: int)
      ensures Valid()
      ensures activeTab == "Overview" && currentView == "overview" && selectedProjectId == None
      ensures isMobile == (width < MobileBreakpoint) && isSidebarOpen == !isMobile
      ensures profileFetches == 1 && datastoreMounts == 0
    {
      activeTab := "Overview";
      currentView := "overview";
      selectedProjectId := None;
      isMobile := width < MobileBreakpoint;
      isSidebarOpen := !(width < MobileBreakpoint);
      profileFetches := 1;
      datastoreMounts := 0;
    }

    /** `setActiveTab` together with what follows the next render: the
        active-tab effect runs only if the tab really changed, and the
        content store panel mounts when its tab newly appears. */
    method SetActiveTab(tab: string)
      modifies this`activeTab, this`profileFetches, this`datastoreMounts
      ensures activeTab == tab
      ensures profileFetches == old(profileFetches) + (if tab != old(activeTab) && TriggersProfileFetch(tab) then 1 else 0)
      ensures datastoreMounts == old(datastoreMounts) + (if tab != old(activeTab) && DatastoreRendered(tab) then 1 else 0)
    {
      var changed := tab != activeTab;
      activeTab := tab;
      if changed && TriggersProfileFetch(tab) {
        profileFetches := profileFetches + 1;
      }
      if changed && DatastoreRendered(tab) {
        datastoreMounts := datastoreMounts + 1;
      }
    }

    /** `handleTabClick`: switches tab and view, closes the sidebar on
        mobile only, and keeps the selected project. */
    method HandleTabClick(tab: string)
      requires Valid()
      modifies this`activeTab, this`profileFetches, this`datastoreMounts, this`isSidebarOpen, this`currentView
      ensures Valid()
      ensures activeTab == tab
      ensures currentView == (if tab == "Datastore" then "datastore" else "overview")
      ensures isSidebarOpen == (if isMobile then false else old(isSidebarOpen))
      ensures profileFetches == old(profileFetches) + (if tab != old(activeTab) && TriggersProfileFetch(tab) then 1 else 0)
      ensures datastoreMounts == old(datastoreMounts) + (if tab != old(activeTab) && DatastoreRendered(tab) then 1 else 0)
    {
      SetActiveTab(tab);
      if isMobile {
        isSidebarOpen := false;
      }
      currentView := ViewForTab(tab);
    }

    /** `handleProjectSelect`: a truthy id selects it and opens the content
        store; null (or the empty string) only sets the selection. */
    method HandleProjectSelect(projectId: Option<string>)
      requires Valid()
      modifies this`selectedProjectId, this`currentView, this`activeTab, this`profileFetches, this`datastoreMounts
      ensures Valid()
      ensures selectedProjectId == projectId
      ensures Truthy(projectId) ==>
                && activeTab == "Datastore" && currentView == "datastore"
                && datastoreMounts == old(datastoreMounts) + (if old(activeTab) != "Datastore" then 1 else 0)
      ensures !Truthy(projectId) ==>
                activeTab == old(activeTab) && currentView == old(currentView) && datastoreMounts == old(datastoreMounts)
      ensures profileFetches == old(profileFetches)
    {
      selectedProjectId := projectId;
      if Truthy(projectId) {
        currentView := "datastore";
        SetActiveTab("Datastore");
      }
    }

    /** `handleProjectCreated`: always selects the id and opens the content store. */
    method HandleProjectCreated(projectId: Option<string>)
      requires Valid()
      modifies this`selectedProjectId, this`currentView, this`activeTab, this`profileFetches, this`datastoreMounts
      ensures Valid()
      ensures selectedProjectId == projectId
      ensures activeTab == "Datastore" && currentView == "datastore"
      ensures datastoreMounts == old(datastoreMounts) + (if old(activeTab) != "Datastore" then 1 else 0)
      ensures profileFetches == old(profileFetches)
    {
      selectedProjectId := projectId;
      currentView := "datastore";
      SetActiveTab("Datastore");
    }

    method ToggleSidebar()
      modifies this`isSidebarOpen
      ensures isSidebarOpen == !old(isSidebarOpen)
    {
      isSidebarOpen := !isSidebarOpen;
    }

    /** `checkIfMobile`, run at mount and on every resize. */
    method CheckIfMobile(width: int)
      modifies this`isMobile, this`isSidebarOpen
      ensures isMobile <==> width < MobileBreakpoint
      ensures isSidebarOpen <==> !isMobile
    {
      isMobile := width < MobileBreakpoint;
      if width < MobileBreakpoint {
        isSidebarOpen := false;
      } else {
        isSidebarOpen := true;
      }
    }
  }

  /** Selecting a project by any route and then switching tabs keeps the
      selection, and coming back to the content store shows it again. */
  method SelectionSurvivesTabSwitch(d: DashboardState, projectId: string, other: string)
    requires d.Valid() && projectId != ""
    modifies d
    ensures d.Valid()
    ensures d.selectedProjectId == Some(projectId)
    ensures d.activeTab == "Datastore" && d.currentView == "datastore"
  {
    d.HandleProjectSelect(Some(projectId));
    d.HandleTabClick(other);
    d.HandleTabClick("Datastore");
  }
}

/** The dashboard frame: what it renders for the session's loading and
    authentication flags, and the sidebar's open and collapsed toggles. */
module DashboardLayout {

  datatype View = LoadingView | RedirectTo(path: string) | Shell

  /** The three outcomes, loading first. */
  function Gate(isLoading: bool, isAuthenticated: bool): View
  {
    if isLoading then LoadingView
    else if !isAuthenticated then RedirectTo("/login")
    else Shell
  }

  /** Loading wins over everything; otherwise an anonymous visitor is sent to
      the sign-in page; the shell is rendered exactly for a loaded, signed-in
      session. */
  lemma GateOutcomes(isLoading: bool, isAuthenticated: bool)
    ensures isLoading ==> Gate(isLoading, isAuthenticated) == LoadingView
    ensures Gate(isLoading, isAuthenticated) == RedirectTo("/login") <==> !isLoading && !isAuthenticated
    ensures Gate(isLoading, isAuthenticated) == Shell <==> !isLoading && isAuthenticated
    ensures Gate(isLoading, isAuthenticated).RedirectTo? ==> Gate(isLoading, isAuthenticated).path == "/login"
  {
  }

  class Layout {
    var sidebarOpen: bool
    var sidebarCollapsed: bool

    constructor()
      ensures !sidebarOpen && !sidebarCollapsed
    {
      sidebarOpen, sidebarCollapsed := false, false;
    }

    /** The header's menu button. */
    method MenuClick()
      modifies this
      ensures sidebarOpen && sidebarCollapsed == old(sidebarCollapsed)
    {
      sidebarOpen := true;
    }

    /** The sidebar's close control. */
    method Close()
      modifies this
      ensures !sidebarOpen && sidebarCollapsed == old(sidebarCollapsed)
    {
      sidebarOpen := false;
    }

    /** The sidebar's collapse control. */
    method ToggleCollapse()
      modifies this
      ensures sidebarCollapsed == !old(sidebarCollapsed) && sidebarOpen == old(sidebarOpen)
    {
      sidebarCollapsed := !sidebarCollapsed;
    }
  }
}

/** The navigation store: the current route, the one before it and the mini-player flag. */
module Navigation {

  const Root: string := "/"

  class NavigationStore {
    var currentRoute: string
    var previousRoute: string
    var isMiniPlayerVisible: bool

    /** Both routes start at the root and the mini player is hidden. */
    constructor ()
      ensures currentRoute == Root && previousRoute == Root && !isMiniPlayerVisible
    {
      currentRoute := Root;
      previousRoute := Root;
      isMiniPlayerVisible := false;
    }

    /** setCurrentRoute: the old current route becomes the previous one. */
    method SetCurrentRoute(route: string)
      modifies this`currentRoute, this`previousRoute
      ensures currentRoute == route
      ensures previousRoute == old(currentRoute)
    {
      var prevRoute := currentRoute;
      currentRoute := route;
      previousRoute := prevRoute;
    }

    /** setMiniPlayerVisible. */
    method SetMiniPlayerVisible(visible: bool)
      modifies this`isMiniPlayerVisible
      ensures isMiniPlayerVisible == visible
    {
      isMiniPlayerVisible := visible;
    }
  }

  /** Navigating to the same route twice leaves no other route in the history. */
  method NavigateTwice(store: NavigationStore, route: string)
    modifies store
    ensures store.currentRoute == route && store.previousRoute == route
    ensures store.isMiniPlayerVisible == old(store.isMiniPlayerVisible)
  {
    store.SetCurrentRoute(route);
    store.SetCurrentRoute(route);
  }
}

/** The client's router (frontend App.tsx): the app is served under a base
    path, the route is the rest of the URL path, and five routes have pages of
    their own. Browser history is a sequence of pushed paths, and the page
    location is a field that `navigate`, a reload and the back button change. */
module Routing {

  const BasePath := "/sonicres"

  /** The route for a location path: what follows the base path, or "/" when
      nothing follows it or the path does not start with it. The test is a
      plain string prefix, so "/sonicresx" yields "x". */
  function ExtractRoute(pathname: string): (route: string)
    ensures route != ""
    ensures !(BasePath <= pathname) ==> route == "/"
    ensures BasePath <= pathname && |pathname| == |BasePath| ==> route == "/"
    ensures BasePath <= pathname && |pathname| > |BasePath| ==> pathname == BasePath + route
  {
    if BasePath <= pathname then
      var rest := pathname[|BasePath|..];
      if rest == "" then "/" else rest
    else "/"
  }

  /** The location path `navigate` pushes for a route. */
  function FullPath(route: string): (path: string)
    ensures BasePath <= path && path[|BasePath|..] == route
  {
    BasePath + route
  }

  /** Any non-empty route survives the trip through the address bar. */
  lemma RouteRoundTrip(route: string)
    requires route != ""
    ensures ExtractRoute(FullPath(route)) == route
  {
  }

  /** The empty route comes back as "/". */
  lemma EmptyRouteReadsAsRoot()
    ensures ExtractRoute(FullPath("")) == "/"
  {
  }

  /** Extracting is a fixed point of the trip: a route read from any location
      reads the same after it is pushed again. */
  lemma ExtractThenPushIsStable(pathname: string)
    ensures ExtractRoute(FullPath(ExtractRoute(pathname))) == ExtractRoute(pathname)
  {
    RouteRoundTrip(ExtractRoute(pathname));
  }

  datatype Page = HomePage | ListeningPage | MatchesPage | NoMatchPage | LibraryPage

  /** `renderPage()`: the four named routes have their own pages; "/" and
      every other route show the home page. */
  function RenderPage(route: string): (page: Page)
    ensures page == ListeningPage <==> route == "/listening"
    ensures page == MatchesPage <==> route == "/matches"
    ensures page == NoMatchPage <==> route == "/no-match"
    ensures page == LibraryPage <==> route == "/library"
    ensures page == HomePage <==> route !in {"/listening", "/matches", "/no-match", "/library"}
  {
    match route
    case "/" => HomePage
    case "/listening" => ListeningPage
    case "/matches" => MatchesPage
    case "/no-match" => NoMatchPage
    case "/library" => LibraryPage
    case _ => HomePage
  }

  /** Reloading after `navigate(route)` shows the page `navigate` showed, for
      every route, the empty one included. */
  lemma RenderAfterReload(route: string)
    ensures RenderPage(ExtractRoute(FullPath(route))) == RenderPage(route)
  {
    if route != "" {
      RouteRoundTrip(route);
    }
  }

  class App {
    var currentRoute: string
    /** `window.location.pathname`. */
    var location: string
    /** The paths pushed with `history.pushState`, oldest first. */
    var history: seq<string>

    /** The page on screen is the one the location names. */
    ghost predicate ShowsLocation()
      reads this
    {
      RenderPage(currentRoute) == RenderPage(ExtractRoute(location))
    }

    /** The first render, before the mount effect: route "/" whatever the
        location is. */
    constructor (location: string)
      ensures currentRoute == "/" && this.location == location && history == []
    {
      currentRoute, this.location, history := "/", location, [];
    }

    /** `navigate(path)`: shows `path` and pushes the base path joined with it. */
    method Navigate(path: string)
      modifies this
      ensures currentRoute == path
      ensures location == FullPath(path) && history == old(history) + [FullPath(path)]
      ensures path != "" ==> ExtractRoute(location) == currentRoute
      ensures ShowsLocation()
    {
      var fullPath := BasePath + path;
      currentRoute := path;
      history := history + [fullPath];
      location := fullPath;
      RenderAfterReload(path);
      if path != "" {
        RouteRoundTrip(path);
      }
    }

    /** The mount effect: the route read from the location. */
    method LoadInitialRoute()
      modifies this
      ensures currentRoute == ExtractRoute(location)
      ensures location == old(location) && history == old(history)
      ensures ShowsLocation()
    {
      currentRoute := ExtractRoute(location);
    }

    /** The `popstate` listener: the location has changed to `pathname`, and
        the route is read from it exactly as on mount. */
    method HandlePopState(pathname: string)
      modifies this
      ensures location == pathname && currentRoute == ExtractRoute(pathname)
      ensures history == old(history)
      ensures ShowsLocation()
    {
      location := pathname;
      currentRoute := ExtractRoute(location);
    }
  }
}

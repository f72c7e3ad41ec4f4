/** The client's route table and its three guards (frontend/src/App.js).
    A guard either renders its page or redirects; redirect targets are
    themselves paths of the table. */
module Routes {
  import opened Common

  /** The two facts the guards read from the auth slice of the store. */
  datatype AuthState = AuthState(isAuth: bool, activated: bool)

  datatype Element = Render | Redirect(to: string)

  datatype Guard = Guest | SemiProtected | Protected

  datatype Page = Home | Authenticate | Activate | Rooms | Room(id: string)

  /** `GuestRoute`: for visitors who have not signed in. */
  function GuestRoute(s: AuthState): (e: Element)
    ensures e == Render <==> !s.isAuth
    ensures s.isAuth ==> e == Redirect("/rooms")
  {
    if s.isAuth then Redirect("/rooms") else Render
  }

  /** `SemiProtectedRoute`: for signed-in users who are not yet activated. */
  function SemiProtectedRoute(s: AuthState): (e: Element)
    ensures e == Render <==> s.isAuth && !s.activated
    ensures !s.isAuth ==> e == Redirect("/")
    ensures s.isAuth && s.activated ==> e == Redirect("/rooms")
  {
    if !s.isAuth then Redirect("/")
    else if s.isAuth && !s.activated then Render
    else Redirect("/rooms")
  }

  /** `ProtectedRoute`: for signed-in, activated users. */
  function ProtectedRoute(s: AuthState): (e: Element)
    ensures e == Render <==> s.isAuth && s.activated
    ensures !s.isAuth ==> e == Redirect("/")
    ensures s.isAuth && !s.activated ==> e == Redirect("/activate")
  {
    if !s.isAuth then Redirect("/")
    else if s.isAuth && !s.activated then Redirect("/activate")
    else Render
  }

  function ApplyGuard(g: Guard, s: AuthState): Element {
    match g
    case Guest => GuestRoute(s)
    case SemiProtected => SemiProtectedRoute(s)
    case Protected => ProtectedRoute(s)
  }

  /** In every auth state exactly one of the three guards renders. */
  lemma ExactlyOneGuardRenders(s: AuthState)
    ensures |set g: Guard | g in {Guest, SemiProtected, Protected} && ApplyGuard(g, s) == Render| == 1
  {
    var rendering := set g: Guard | g in {Guest, SemiProtected, Protected} && ApplyGuard(g, s) == Render;
    if !s.isAuth {
      assert rendering == {Guest};
    } else if !s.activated {
      assert rendering == {SemiProtected};
    } else {
      assert rendering == {Protected};
    }
  }

  function GuardOf(p: Page): (g: Guard)
    ensures g == Guest <==> p == Home || p == Authenticate
    ensures g == SemiProtected <==> p == Activate
    ensures g == Protected <==> p == Rooms || p.Room?
  {
    match p
    case Home => Guest
    case Authenticate => Guest
    case Activate => SemiProtected
    case Rooms => Protected
    case Room(_) => Protected
  }

  /** The path each `<Route>` of the table is declared with, `:id` filled in. */
  function PathOf(p: Page): (path: string)
    ensures |path| >= 1 && path[0] == '/'
    ensures p.Room? <==> |path| >= 6 && path[..6] == "/room/"
    ensures p.Room? ==> path[6..] == p.id
  {
    match p
    case Home => "/"
    case Authenticate => assert "/authenticate"[1] != "/room/"[1]; "/authenticate"
    case Activate => assert "/activate"[1] != "/room/"[1]; "/activate"
    case Rooms => assert "/rooms"[5] != "/room/"[5]; "/rooms"
    case Room(id) =>
      assert ("/room/" + id)[..6] == "/room/";
      "/room/" + id
  }

  /** A room id the `:id` segment can match: non-empty and without a slash. */
  predicate SegmentId(id: string) {
    id != [] && '/' !in id
  }

  /** The `<Routes>` table: which page, if any, a path selects. A selected
      page is the one declared with that path, and a room's id is one segment. */
  function Match(path: string): (p: Option<Page>)
    ensures p.Some? ==> path == PathOf(p.value)
    ensures p.Some? && p.value.Room? ==> SegmentId(p.value.id)
  {
    if path == "/" then Some(Home)
    else if path == "/authenticate" then Some(Authenticate)
    else if path == "/activate" then Some(Activate)
    else if path == "/rooms" then Some(Rooms)
    else if |path| > 6 && path[..6] == "/room/" && '/' !in path[6..] then
      assert path == "/room/" + path[6..];
      Some(Room(path[6..]))
    else None
  }

  /** Conversely, every declared path selects its own page: each fixed path
      its page, and `/room/` followed by any one segment that room. */
  lemma MatchPathOf(p: Page)
    requires p.Room? ==> SegmentId(p.id)
    ensures Match(PathOf(p)) == Some(p)
  {
    if p.Room? {
      var path := PathOf(p);
      assert path[..6] == "/room/" && path[6..] == p.id;
      assert path[1] == 'r' && path[2] == 'o' && |path| >= 7;
    }
  }

  /** What the router shows for `path`: None for a path outside the table.
      Every redirect a guard makes leads to a path of the table. */
  function Resolve(path: string, s: AuthState): (r: Option<Element>)
    ensures r.Some? <==> Match(path).Some?
    ensures r.Some? && r.value.Redirect? ==> Match(r.value.to).Some?
  {
    assert Match("/") == Some(Home);
    assert Match("/rooms") == Some(Rooms);
    assert Match("/activate") == Some(Activate);
    match Match(path)
    case None => None
    case Some(p) => Some(ApplyGuard(GuardOf(p), s))
  }

  /** Follows redirects for at most `hops` steps; the page finally rendered,
      if any, admits the auth state: a visitor only ever sees guest pages, an
      activated user only protected ones. */
  function Settle(path: string, s: AuthState, hops: nat): (r: Option<Page>)
    ensures r.Some? ==> ApplyGuard(GuardOf(r.value), s) == Render
    decreases hops
  {
    match Resolve(path, s)
    case None => None
    case Some(Render) => Match(path)
    case Some(Redirect(to)) => if hops == 0 then None else Settle(to, s, hops - 1)
  }

  /** Every path of the table reaches a rendered page within two redirects,
      and that page is the landing page of the auth state when a redirect
      happened: so no redirect loop exists. */
  lemma NoRedirectLoop(path: string, s: AuthState)
    requires Match(path).Some?
    ensures Settle(path, s, 2).Some?
    ensures Resolve(path, s) != Some(Render) ==>
      Settle(path, s, 2) == Some(if !s.isAuth then Home else if !s.activated then Activate else Rooms)
  {
    assert Match("/") == Some(Home);
    assert Match("/rooms") == Some(Rooms);
    assert Match("/activate") == Some(Activate);
  }

  datatype View = Loader(message: string) | Router(element: Option<Element>)

  /** `App`: the loader while the initial refresh is pending, the router otherwise. */
  function App(loading: bool, path: string, s: AuthState): (v: View)
    ensures v.Loader? <==> loading
    ensures v.Loader? ==> v.message == "Loading, please wait..."
    ensures v.Router? ==> v.element == Resolve(path, s)
  {
    if loading then Loader("Loading, please wait...") else Router(Resolve(path, s))
  }
}

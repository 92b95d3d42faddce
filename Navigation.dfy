/** Navigation: the four route templates, the concrete routes built from
    them, and what each destination composes. */
module Navigation {
  import opened Wrappers
  import opened Text

  datatype Screen = UserList | UserDetail | UserCreate | UserEdit

  const Placeholder := "{userId}"

  /** The route template of each screen. Every route starts with "user_";
      exactly the two screens that take an id end in the placeholder. */
  function Route(s: Screen): (r: string)
    ensures StartsWith(r, "user_")
    ensures (s == UserDetail || s == UserEdit)
      <==> |r| > |Placeholder| && r[|r| - |Placeholder|..] == Placeholder
  {
    match s
    case UserList => "user_list"
    case UserDetail => "user_detail/" + Placeholder
    case UserCreate => "user_create"
    case UserEdit => "user_edit/" + Placeholder
  }

  /** `Screen.UserDetail.createRoute(userId)`: the detail prefix followed by
      text that reads back as the id. */
  function DetailRoute(userId: int): (r: string)
    ensures StartsWith(r, "user_detail/") && ParseInt(r[12..]) == Some(userId)
  {
    ParseIntToString(userId);
    var r := "user_detail/" + IntToString(userId);
    assert r[12..] == IntToString(userId);
    r
  }

  /** `Screen.UserEdit.createRoute(userId)`: the edit prefix followed by text
      that reads back as the id. */
  function EditRoute(userId: int): (r: string)
    ensures StartsWith(r, "user_edit/") && ParseInt(r[10..]) == Some(userId)
  {
    ParseIntToString(userId);
    var r := "user_edit/" + IntToString(userId);
    assert r[10..] == IntToString(userId);
    r
  }

  /** Every occurrence of `pat` in `s` replaced by `rep`, left to right. */
  function ReplaceAll(s: string, pat: string, rep: string): string
    requires |pat| > 0
    decreases |s|
  {
    if |s| < |pat| then s
    else if s[..|pat|] == pat then rep + ReplaceAll(s[|pat|..], pat, rep)
    else [s[0]] + ReplaceAll(s[1..], pat, rep)
  }

  lemma {:induction false} ReplaceAllAfterPrefix(p: string, s: string, pat: string, rep: string)
    requires |pat| > 0 && pat[0] !in p
    ensures ReplaceAll(p + s, pat, rep) == p + ReplaceAll(s, pat, rep)
  {
    var t := p + s;
    if p == [] {
      assert t == s;
    } else if |t| < |pat| {
      assert ReplaceAll(s, pat, rep) == s;
    } else {
      assert t[..|pat|] != pat by { assert t[..|pat|][0] == p[0]; }
      assert t[1..] == p[1..] + s;
      ReplaceAllAfterPrefix(p[1..], s, pat, rep);
      calc {
        ReplaceAll(t, pat, rep);
        [t[0]] + ReplaceAll(p[1..] + s, pat, rep);
        [p[0]] + (p[1..] + ReplaceAll(s, pat, rep));
        { assert [p[0]] + p[1..] == p; }
        p + ReplaceAll(s, pat, rep);
      }
    }
  }

  /** Each `createRoute` is its template with the placeholder replaced by the
      decimal id. */
  lemma CreateRouteFillsTemplate(userId: int)
    ensures DetailRoute(userId) == ReplaceAll(Route(UserDetail), Placeholder, IntToString(userId))
    ensures EditRoute(userId) == ReplaceAll(Route(UserEdit), Placeholder, IntToString(userId))
  {
    var n := IntToString(userId);
    assert ReplaceAll(Placeholder, Placeholder, n) == n + ReplaceAll("", Placeholder, n);
    ReplaceAllAfterPrefix("user_detail/", Placeholder, Placeholder, n);
    ReplaceAllAfterPrefix("user_edit/", Placeholder, Placeholder, n);
  }

  /** A place in the app, with its argument. */
  datatype Destination = ListDest | DetailDest(userId: int) | CreateDest | EditDest(userId: int)

  /** The route the app navigates to for each destination. */
  function RouteOf(d: Destination): string {
    match d
    case ListDest => Route(UserList)
    case DetailDest(id) => DetailRoute(id)
    case CreateDest => Route(UserCreate)
    case EditDest(id) => EditRoute(id)
  }

  /** A reading of a concrete route against the four templates, with the
      argument taken as a decimal integer. */
  function ParseRoute(route: string): Option<Destination> {
    if route == Route(UserList) then Some(ListDest)
    else if route == Route(UserCreate) then Some(CreateDest)
    else if StartsWith(route, "user_detail/") then
      match ParseInt(route[12..])
      case Some(id) => Some(DetailDest(id))
      case None => None
    else if StartsWith(route, "user_edit/") then
      match ParseInt(route[10..])
      case Some(id) => Some(EditDest(id))
      case None => None
    else None
  }

  /** Every route the app builds reads back as the destination it was built
      for. */
  lemma ParseRouteOf(d: Destination)
    ensures ParseRoute(RouteOf(d)) == Some(d)
  {
    match d
    case DetailDest(id) => DetailRouteParses(id);
    case EditDest(id) => EditRouteParses(id);
    case _ =>
  }

  lemma DetailRouteParses(id: int)
    ensures ParseRoute(DetailRoute(id)) == Some(DetailDest(id))
  {
    var r := DetailRoute(id);
    assert r[5] == 'd';
    assert r != Route(UserList) by { assert Route(UserList)[5] == 'l'; }
    assert r != Route(UserCreate) by { assert Route(UserCreate)[5] == 'c'; }
  }

  lemma EditRouteParses(id: int)
    ensures ParseRoute(EditRoute(id)) == Some(EditDest(id))
  {
    var r := EditRoute(id);
    assert r[5] == 'e';
    assert r != Route(UserList) by { assert Route(UserList)[5] == 'l'; }
    assert r != Route(UserCreate) by { assert Route(UserCreate)[5] == 'c'; }
    assert !StartsWith(r, "user_detail/") by { assert "user_detail/"[5] == 'd'; }
  }

  /** So no two destinations share a route: detail and edit routes differ
      from each other for all ids and from "user_list" and "user_create". */
  lemma RoutesDistinct(d1: Destination, d2: Destination)
    ensures RouteOf(d1) == RouteOf(d2) ==> d1 == d2
  {
    ParseRouteOf(d1);
    ParseRouteOf(d2);
  }

  /** `backStackEntry.arguments?.getInt("userId") ?: 0`. */
  function UserIdArgument(arg: Option<int>): (id: int)
    ensures arg.Some? ==> id == arg.value
    ensures arg.None? ==> id == 0
  {
    arg.GetOr(0)
  }

  /** The screen a destination composes; a form with no id is in create mode. */
  datatype Composed = ListScreen | DetailScreen(userId: int) | FormScreen(editing: Option<int>)

  /** The `composable` blocks of the navigation host. */
  function Compose(screen: Screen, arg: Option<int>): (c: Composed)
    ensures c.ListScreen? <==> screen == UserList
    ensures c.DetailScreen? <==> screen == UserDetail
    ensures c.DetailScreen? ==> c.userId == UserIdArgument(arg)
    ensures c.FormScreen? ==> (c.editing.Some? <==> screen == UserEdit)
    ensures c.FormScreen? && screen == UserEdit ==> c.editing == Some(UserIdArgument(arg))
  {
    match screen
    case UserList => ListScreen
    case UserDetail => DetailScreen(UserIdArgument(arg))
    case UserCreate => FormScreen(None)
    case UserEdit => FormScreen(Some(UserIdArgument(arg)))
  }

  function ScreenOf(d: Destination): Screen {
    match d
    case ListDest => UserList
    case DetailDest(_) => UserDetail
    case CreateDest => UserCreate
    case EditDest(_) => UserEdit
  }

  function ArgumentOf(d: Destination): Option<int> {
    match d
    case DetailDest(id) => Some(id)
    case EditDest(id) => Some(id)
    case _ => None
  }

  /** Following a route: read it, then compose its screen. */
  function Open(route: string): Option<Composed> {
    match ParseRoute(route)
    case Some(d) => Some(Compose(ScreenOf(d), ArgumentOf(d)))
    case None => None
  }

  /** Navigating to a built route opens the intended screen with the intended
      id: detail shows that user, edit opens the form in edit mode for it,
      create opens the form in create mode. */
  lemma NavigationDeliversId(userId: int)
    ensures Open(DetailRoute(userId)) == Some(DetailScreen(userId))
    ensures Open(EditRoute(userId)) == Some(FormScreen(Some(userId)))
    ensures Open(Route(UserCreate)) == Some(FormScreen(None))
    ensures Open(Route(UserList)) == Some(ListScreen)
  {
    ParseRouteOf(DetailDest(userId));
    ParseRouteOf(EditDest(userId));
    ParseRouteOf(CreateDest);
    ParseRouteOf(ListDest);
  }
}

/** The session of src/App.jsx: the browser's local storage, the stored
    credential and profile, and the route table with its two guards. */
module Session {
  import opened Wrappers

  /** A value inside the stored user profile (a JSON object). */
  datatype Field = Num(n: int) | Text(s: string)

  /** The user profile `{ name, email, budgetLimit, phoneNumber? }` as a JSON
      object. The dashboard's `user` state is `null` until a profile is read;
      since it is only ever read through `user?.x`, `null` is the empty profile. */
  type Profile = map<string, Field>

  /** What one local-storage key holds: a plain string, or the serialised
      profile (serialisation itself is abstracted away). */
  datatype Stored = Str(s: string) | Json(profile: Profile)

  const TokenKey: string := "et_token"
  const UserKey: string := "et_user"
  const FilterKey: string := "et_categoryFilter"

  /** `window.localStorage`, shared by every page. */
  class LocalStorage {
    var entries: map<string, Stored>

    constructor ()
      ensures entries == map[]
    {
      entries := map[];
    }

    method SetItem(key: string, value: Stored)
      modifies this
      ensures entries == old(entries)[key := value]
    {
      entries := entries[key := value];
    }

    method RemoveItem(key: string)
      modifies this
      ensures entries == old(entries) - {key}
    {
      entries := entries - {key};
    }
  }

  /** `user?.budgetLimit`: the limit when the profile holds a number there. */
  function LimitOf(user: Profile): (r: Option<int>)
    ensures r.Some? <==> "budgetLimit" in user && user["budgetLimit"].Num?
    ensures r.Some? ==> user["budgetLimit"] == Num(r.value)
  {
    if "budgetLimit" in user && user["budgetLimit"].Num? then Some(user["budgetLimit"].n) else None
  }

  /** `!!localStorage.getItem("et_token")`: a token is stored and is not the
      empty string. */
  predicate IsAuthed(entries: map<string, Stored>)
  {
    TokenKey in entries && entries[TokenKey] != Str("")
  }

  /** The credential and the profile are stored together or not at all. */
  predicate Paired(entries: map<string, Stored>)
  {
    TokenKey in entries <==> UserKey in entries
  }

  /** The two writes of a successful sign-in or sign-up, in order. */
  function StoreSession(entries: map<string, Stored>, token: string, user: Profile): (r: map<string, Stored>)
    ensures TokenKey in r && UserKey in r && r[TokenKey] == Str(token) && r[UserKey] == Json(user)
    ensures IsAuthed(r) <==> token != ""
    ensures forall k :: k in entries && k != TokenKey && k != UserKey ==> k in r && r[k] == entries[k]
    ensures r.Keys == entries.Keys + {TokenKey, UserKey}
  {
    entries[TokenKey := Str(token)][UserKey := Json(user)]
  }

  /** The two removals of a logout. */
  function ClearSession(entries: map<string, Stored>): (r: map<string, Stored>)
    ensures Paired(r) && !IsAuthed(r)
    ensures r.Keys == entries.Keys - {TokenKey, UserKey}
    ensures forall k :: k in r ==> r[k] == entries[k]
  {
    entries - {TokenKey} - {UserKey}
  }

  datatype Page = LandingPage | SigninPage | SignupPage | DashboardPage

  /** What the router shows for a path: a page, or a `<Navigate replace>`. */
  datatype View = Render(page: Page) | Redirect(to: string)

  /** `GuestRoute`: the sign-in and sign-up pages are for visitors only. */
  function GuestRoute(authed: bool, page: Page): (v: View)
    ensures authed ==> v == Redirect("/dashboard")
    ensures !authed ==> v == Render(page)
  {
    if authed then Redirect("/dashboard") else Render(page)
  }

  /** `ProtectedRoute`: the dashboard is for signed-in users only. */
  function ProtectedRoute(authed: bool, page: Page): (v: View)
    ensures authed ==> v == Render(page)
    ensures !authed ==> v == Redirect("/auth/signin")
  {
    if authed then Render(page) else Redirect("/auth/signin")
  }

  /** `s` with every ASCII letter in lower case. */
  function Lower(s: string): (r: string)
    ensures |r| == |s| && forall i :: 0 <= i < |s| ==> r[i] == Fold(s[i])
  {
    seq(|s|, i requires 0 <= i < |s| => Fold(s[i]))
  }

  /** `s` without the slashes it ends with. */
  function DropTrailingSlashes(s: string): (r: string)
    ensures |r| <= |s| && r == s[..|r|]
    ensures r == [] || r[|r| - 1] != '/'
    ensures forall i :: |r| <= i < |s| ==> s[i] == '/'
  {
    if s != [] && s[|s| - 1] == '/' then DropTrailingSlashes(s[..|s| - 1]) else s
  }

  /** The path as the router compares it with the table: the table's patterns
      are matched without regard to ASCII case and allow any number of
      trailing slashes, and the root is the path with nothing but slashes. */
  function RoutePath(path: string): (p: string)
    ensures p != ""
  {
    var t := DropTrailingSlashes(Lower(path));
    if t == "" then "/" else t
  }

  /** The route table of `App`, with its catch-all entry. */
  function Route(path: string, entries: map<string, Stored>): View
  {
    var authed := IsAuthed(entries);
    var p := RoutePath(path);
    if p == "/" then Render(LandingPage)
    else if p == "/auth/signin" then GuestRoute(authed, SigninPage)
    else if p == "/auth/signup" then GuestRoute(authed, SignupPage)
    else if p == "/dashboard" then ProtectedRoute(authed, DashboardPage)
    else Redirect("/")
  }

  /** A path in lower case that does not end in a slash is compared as it is. */
  lemma {:induction false} RoutePathOfCanonical(path: string)
    requires path != "" && path[|path| - 1] != '/'
    requires forall i :: 0 <= i < |path| ==> !('A' <= path[i] <= 'Z')
    ensures RoutePath(path) == path
  {
    assert Lower(path) == path;
  }

  /** The table's own paths are compared as they are written. */
  lemma TablePathsAreCanonical()
    ensures RoutePath("/") == "/"
    ensures RoutePath("/auth/signin") == "/auth/signin"
    ensures RoutePath("/auth/signup") == "/auth/signup"
    ensures RoutePath("/dashboard") == "/dashboard"
  {
    assert Lower("/") == "/";
    RoutePathOfCanonical("/auth/signin");
    RoutePathOfCanonical("/auth/signup");
    RoutePathOfCanonical("/dashboard");
  }

  /** A trailing slash and the case of ASCII letters change nothing: the router
      shows the same view for `path`, `path + "/"` and `path` in lower case. */
  lemma {:induction false} RouteIgnoresCaseAndTrailingSlash(path: string, entries: map<string, Stored>)
    ensures Route(path + "/", entries) == Route(path, entries)
    ensures Route(Lower(path), entries) == Route(path, entries)
  {
    var l := Lower(path);
    assert Lower(path + "/") == l + "/";
    assert (l + "/")[..|l|] == l;
    assert Lower(l) == l;
  }

  /** Follows at most `hops` redirects from `path`. */
  function Settle(path: string, entries: map<string, Stored>, hops: nat): View
    decreases hops
  {
    match Route(path, entries)
    case Render(p) => Render(p)
    case Redirect(to) => if hops == 0 then Redirect(to) else Settle(to, entries, hops - 1)
  }

  /** For any stored state, exactly one side is reachable: the two visitor
      pages render when the dashboard does not, and the other way round. */
  lemma {:induction false} ExactlyOneSide(entries: map<string, Stored>)
    ensures Route("/auth/signin", entries).Render? == Route("/auth/signup", entries).Render?
    ensures Route("/auth/signin", entries).Render? == !Route("/dashboard", entries).Render?
    ensures Route("/dashboard", entries).Render? == IsAuthed(entries)
  {
    TablePathsAreCanonical();
  }

  /** The landing page is unguarded, and every unknown path leads to it. */
  lemma {:induction false} UnknownPathsGoHome(path: string, entries: map<string, Stored>)
    ensures Route("/", entries) == Render(LandingPage)
    ensures RoutePath(path) !in {"/", "/auth/signin", "/auth/signup", "/dashboard"} ==> Route(path, entries) == Redirect("/")
    ensures RoutePath(path) !in {"/", "/auth/signin", "/auth/signup", "/dashboard"} ==> Settle(path, entries, 1) == Render(LandingPage)
  {
    TablePathsAreCanonical();
  }

  /** No redirect chain loops: from any path at most one redirect is followed
      before a page renders, and that page agrees with the session. */
  lemma {:induction false} NavigationSettles(path: string, entries: map<string, Stored>)
    ensures Settle(path, entries, 1).Render?
    ensures Settle(path, entries, 1) == Render(DashboardPage) ==> IsAuthed(entries)
    ensures Settle(path, entries, 1) in {Render(SigninPage), Render(SignupPage)} ==> !IsAuthed(entries)
  {
    var authed := IsAuthed(entries);
    TablePathsAreCanonical();
    assert Route("/", entries) == Render(LandingPage);
    assert Route("/dashboard", entries) == ProtectedRoute(authed, DashboardPage);
    assert Route("/auth/signin", entries) == GuestRoute(authed, SigninPage);
  }

  /** A stored token that is the empty string does not count as a session. */
  lemma EmptyTokenIsNoSession(entries: map<string, Stored>)
    requires TokenKey in entries && entries[TokenKey] == Str("")
    ensures !IsAuthed(entries) && Route("/dashboard", entries) == Redirect("/auth/signin")
  {
    TablePathsAreCanonical();
  }
}

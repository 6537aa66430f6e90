/** The route guard: which of three things a protected route renders for a session snapshot. */
module ProtectedRoute {
  import opened AuthContext
  import AuthApi

  /** Where the browser is when the guard runs (React Router's location object). */
  datatype Location = Location(pathname: string, search: string, hash: string)

  /** What the guard renders: the loader, a redirect, or the guarded children. */
  datatype Outcome<C> =
    | ShowLoader
    | Redirect(to: string, from: Location, replace: bool)
    | Render(children: C)

  function Guard<C>(s: AuthState, location: Location, children: C): (r: Outcome<C>)
    ensures r.ShowLoader? <==> s.loading
    ensures r.Redirect? <==> !s.loading && !s.isAuthenticated
    ensures r.Render? <==> !s.loading && s.isAuthenticated
    ensures r.Redirect? ==> r.to == AuthApi.LoginPath && r.from == location && r.replace
    ensures r.Render? ==> r.children == children
  {
    if s.loading then ShowLoader
    else if !s.isAuthenticated then Redirect(AuthApi.LoginPath, location, true)
    else Render(children)
  }

  /** Exactly one of the three outcomes, for every snapshot. */
  lemma OutcomesPartition<C>(s: AuthState, location: Location, children: C)
    ensures var r := Guard(s, location, children);
      (r.ShowLoader? || r.Redirect? || r.Render?) &&
      !(r.ShowLoader? && r.Redirect?) && !(r.ShowLoader? && r.Render?) && !(r.Redirect? && r.Render?)
  {
  }

  /** Before the start-up restore has run, every protected route shows the loader. */
  lemma InitialShowsLoader<C>(location: Location, children: C)
    ensures Guard(InitialState, location, children) == ShowLoader
  {
  }

  /** After a remembered login and a reload, protected routes render their children. */
  lemma RememberedSessionRenders<C>(items: map<string, string>, user: UserJson.User, token: string, location: Location, children: C)
    requires token != ""
    ensures Guard(RestoreEffect(InitialState, Remember(items, user, token)).0, location, children) == Render(children)
  {
    RememberedLoginRestores(InitialState, items, user, token);
  }

  /** With no persisted session, the restore ends at a redirect to the login route. */
  lemma NoSessionRedirects<C>(items: map<string, string>, location: Location, children: C)
    requires !LocalStorage.Truthy(LocalStorage.Get(items, LocalStorage.AuthTokenKey))
    ensures Guard(RestoreEffect(InitialState, items).0, location, children) == Redirect(AuthApi.LoginPath, location, true)
  {
  }

  /** A corrupt persisted identity leaves `loading` set, so protected routes keep showing the
      loader: the restore dispatches nothing that would end it. */
  lemma CorruptSessionKeepsLoader<C>(items: map<string, string>, location: Location, children: C)
    requires LocalStorage.Truthy(LocalStorage.Get(items, LocalStorage.AuthTokenKey))
    requires LocalStorage.Truthy(LocalStorage.Get(items, LocalStorage.UserKey))
    requires UserJson.Parse(items[LocalStorage.UserKey]).None?
    ensures Guard(RestoreEffect(InitialState, items).0, location, children) == ShowLoader
  {
  }
}

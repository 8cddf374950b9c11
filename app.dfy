/** The root component: it reads the `code` query parameter and the stored
    `accessToken` once, when the module loads, and shows the Dashboard (with
    the code) when either is truthy and the Login page otherwise. The methods
    after `Route` follow whole page loads through the session hook. */
module App {
  import opened Common
  import opened Numbers
  import opened Browser
  import opened Session
  import opened Dashboard

  datatype Screen = LoginScreen | DashboardScreen(code: Option<string>)

  /** The choice of lines 4-9, for the two values read at module load. */
  function Route(code: Option<string>, storedToken: Option<string>): (s: Screen)
    ensures s.DashboardScreen? <==> Truthy(code) || Truthy(storedToken)
    ensures s.DashboardScreen? ==> s.code == code
  {
    if Truthy(code) || Truthy(storedToken) then DashboardScreen(code) else LoginScreen
  }

  /** A page load with query parameters `query` and storage `store`. */
  function Boot(query: map<string, string>, store: map<string, string>): (s: Screen)
    ensures s == LoginScreen <==> !Truthy(Get(query, "code")) && !Truthy(Get(store, AccessTokenKey))
  {
    Route(Get(query, "code"), Get(store, AccessTokenKey))
  }

  /** Only the access token entry decides the route: storage holding it
      without the other two entries mounts the Dashboard, whose hook then
      finds no session to restore, sends no exchange without a code and arms
      no timer. */
  method PartialSessionStrandsDashboard(store: map<string, string>)
    returns (screen: Screen, token: Option<string>, armed: bool, sent: bool)
    requires Truthy(Get(store, AccessTokenKey)) && !RestoreAccepts(store)
    ensures screen == DashboardScreen(None)
    ensures token == None && !armed && !sent
  {
    screen := Boot(map[], store);
    var window := new Window(store);
    var hook := new AuthHook(screen.code, window);
    sent := hook.Mount();
    token := hook.accessToken;
    armed := hook.interval.Some?;
  }

  /** After logout the browser loads `/` without a code on storage without the
      session entries, so the Login page shows. */
  method LogoutShowsLogin(store: map<string, string>) returns (screen: Screen)
    ensures screen == LoginScreen
  {
    var window := new Window(store);
    var view := new DashboardView(window);
    view.HandleLogout();
    assert window.location == Some("/");
    screen := Boot(map[], window.storage);
  }

  /** A refresh rejected by the server sends the browser to `/` with the
      session still stored, so the next load shows the Dashboard again and
      the hook restores the same session, with the same expired access
      token. */
  method FailedRefreshComesBack(store: map<string, string>, status: int)
    returns (screen: Screen, sameSession: bool)
    requires RestoreAccepts(store) && NumTruthy(Restored(store).expiresIn)
    ensures screen == DashboardScreen(None) && sameSession
  {
    var window := new Window(store);
    var hook := new AuthHook(None, window);
    var _ := hook.Mount();
    var _ := hook.Tick();
    hook.RefreshSettled(HttpError(status));
    assert window.location == Some(EntryPoint) && window.storage == store;
    screen := Boot(map[], window.storage);
    var reloaded := new AuthHook(None, window);
    var _ := reloaded.Mount();
    sameSession := Cells(reloaded.accessToken, reloaded.refreshToken, reloaded.expiresIn)
                   == Cells(hook.accessToken, hook.refreshToken, hook.expiresIn);
  }
}

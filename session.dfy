/** The session manager of the browser client: the `useAuth(code)` hook. It
    holds three state cells (`accessToken`, `refreshToken`, `expiresIn`),
    mirrors them into `localStorage` under fixed keys, and keeps at most one
    `setInterval` timer that renews the access token a minute before the
    declared TTL runs out. Replies of the token-exchange service arrive as
    method arguments; time is reduced to the timer's `Tick` events. */
module Session {
  import opened Common
  import opened Numbers
  import opened Browser
  import opened Server

  const AccessTokenKey := "accessToken"
  const RefreshTokenKey := "refreshToken"
  const ExpiresInKey := "expiresIn"

  /** Where a failed exchange or refresh sends the browser. */
  const EntryPoint := "/"

  /** A live `setInterval` timer: an identity, its period in milliseconds and
      the refresh token its callback closed over. */
  datatype Interval = Interval(id: nat, period: int, refreshToken: string)

  /** Line 14's test: all three stored entries are present and non-empty. */
  predicate RestoreAccepts(store: map<string, string>)
  {
    Truthy(Get(store, AccessTokenKey)) && Truthy(Get(store, RefreshTokenKey)) && Truthy(Get(store, ExpiresInKey))
  }

  /** The state cells a successful restore sets: both tokens verbatim and the
      integer parse of the stored TTL text. */
  datatype Cells = Cells(accessToken: Option<string>, refreshToken: Option<string>, expiresIn: Option<JsNum>)

  function Restored(store: map<string, string>): Cells
    requires RestoreAccepts(store)
  {
    Cells(Some(store[AccessTokenKey]), Some(store[RefreshTokenKey]), Some(ParseInt(store[ExpiresInKey])))
  }

  /** Line 49's test and line 67's period: the refresh effect arms a timer of
      `(expiresIn - 60) * 1000` ms only when both cells are truthy. */
  function RefreshPeriod(refreshToken: Option<string>, expiresIn: Option<JsNum>): Option<int>
  {
    if Truthy(refreshToken) && NumTruthy(expiresIn) then Some((expiresIn.value.n - 60) * 1000) else None
  }

  /** The timer the refresh effect leaves behind for the given cells when it
      runs and names its timer `id`. */
  function Armed(refreshToken: Option<string>, expiresIn: Option<JsNum>, id: nat): (iv: Option<Interval>)
    ensures iv.Some? <==> Truthy(refreshToken) && NumTruthy(expiresIn)
    ensures iv.Some? ==> iv.value.period + 60000 == expiresIn.value.n * 1000
                         && Some(iv.value.refreshToken) == refreshToken && iv.value.id == id
  {
    match RefreshPeriod(refreshToken, expiresIn)
    case None => None
    case Some(p) => Some(Interval(id, p, refreshToken.value))
  }

  /** Lines 23-24: the exchange effect sends the code only when the access
      token it sees is falsy and the code is truthy. */
  predicate ExchangeGuardPasses(seenAccessToken: Option<string>, code: Option<string>)
  {
    !Truthy(seenAccessToken) && Truthy(code)
  }

  /** Storage after a successful exchange, lines 36-38; the TTL is stored as
      its decimal text. */
  function StoreLogin(store: map<string, string>, body: LoginBody): map<string, string>
  {
    store[AccessTokenKey := body.accessToken][RefreshTokenKey := body.refreshToken][ExpiresInKey := ShowInt(body.expiresIn)]
  }

  /** Storage after a successful refresh, lines 61-62. */
  function StoreRefresh(store: map<string, string>, body: RefreshBody): map<string, string>
  {
    store[AccessTokenKey := body.accessToken][ExpiresInKey := ShowInt(body.expiresIn)]
  }

  /** A login persisted with non-empty tokens is restored,
      after a reload, to exactly the cells the exchange set. */
  lemma LoginSurvivesReload(store: map<string, string>, body: LoginBody)
    requires body.accessToken != "" && body.refreshToken != ""
    ensures RestoreAccepts(StoreLogin(store, body))
    ensures Restored(StoreLogin(store, body))
            == Cells(Some(body.accessToken), Some(body.refreshToken), Some(Num(body.expiresIn)))
  {
    ParseShowInt(body.expiresIn);
    var s := ShowInt(body.expiresIn);
    assert s != "" by {
      if body.expiresIn < 0 { assert s[0] == '-'; } else { assert |ShowNat(body.expiresIn)| > 0; }
    }
  }

  /** A refresh persists the new access token and TTL beside the refresh token
      that was stored before; a reload restores that combination. */
  lemma RefreshSurvivesReload(store: map<string, string>, body: RefreshBody)
    requires RestoreAccepts(store) && body.accessToken != ""
    ensures RestoreAccepts(StoreRefresh(store, body))
    ensures Restored(StoreRefresh(store, body))
            == Cells(Some(body.accessToken), Some(store[RefreshTokenKey]), Some(Num(body.expiresIn)))
  {
    ParseShowInt(body.expiresIn);
    var s := ShowInt(body.expiresIn);
    assert s != "" by {
      if body.expiresIn < 0 { assert s[0] == '-'; } else { assert |ShowNat(body.expiresIn)| > 0; }
    }
  }

  class AuthHook {
    /** The `code` argument: the `code` query parameter, read once. */
    const code: Option<string>
    const window: Window

    var accessToken: Option<string>
    var refreshToken: Option<string>
    var expiresIn: Option<JsNum>

    /** The one timer left armed by the refresh effect's last run, if any. */
    var interval: Option<Interval>
    var nextIntervalId: nat

    /** Requests sent to `/login` and `/refresh` whose replies are pending. */
    var exchangesInFlight: nat
    var refreshesInFlight: nat

    /** The armed timer is the one the refresh effect arms for the current
        cells: there is at most one, with the current period, closed over the
        current refresh token. */
    ghost predicate Valid()
      reads this
    {
      match interval
      case None => RefreshPeriod(refreshToken, expiresIn).None?
      case Some(iv) => interval == Armed(refreshToken, expiresIn, iv.id) && iv.id < nextIntervalId
    }

    /** The first render: every cell `undefined`, no effect run yet. */
    constructor (code: Option<string>, window: Window)
      ensures this.code == code && this.window == window
      ensures accessToken == None && refreshToken == None && expiresIn == None
      ensures interval == None && exchangesInFlight == 0 && refreshesInFlight == 0
      ensures Valid()
    {
      this.code := code;
      this.window := window;
      accessToken, refreshToken, expiresIn := None, None, None;
      interval := None;
      nextIntervalId := 0;
      exchangesInFlight, refreshesInFlight := 0, 0;
    }

    /** The refresh effect (lines 48-70) after a commit: React re-runs it only
        when `refreshToken` or `expiresIn` differ from the values of its last
        run; then the old timer is cleared before a new one may be armed. */
    method RunRefreshEffect(lastRefreshToken: Option<string>, lastExpiresIn: Option<JsNum>)
      requires match interval
               case None => RefreshPeriod(lastRefreshToken, lastExpiresIn).None?
               case Some(iv) => interval == Armed(lastRefreshToken, lastExpiresIn, iv.id) && iv.id < nextIntervalId
      modifies this
      ensures Valid()
      ensures accessToken == old(accessToken) && refreshToken == old(refreshToken) && expiresIn == old(expiresIn)
      ensures exchangesInFlight == old(exchangesInFlight) && refreshesInFlight == old(refreshesInFlight)
      ensures refreshToken == lastRefreshToken && expiresIn == lastExpiresIn ==>
                interval == old(interval) && nextIntervalId == old(nextIntervalId)
      ensures refreshToken != lastRefreshToken || expiresIn != lastExpiresIn ==>
                interval == Armed(refreshToken, expiresIn, old(nextIntervalId))
                && nextIntervalId == old(nextIntervalId) + 1
    {
      if refreshToken != lastRefreshToken || expiresIn != lastExpiresIn {
        interval := Armed(refreshToken, expiresIn, nextIntervalId);
        nextIntervalId := nextIntervalId + 1;
      }
    }

    /** The restore effect (lines 9-19): seeds the cells from storage when all
        three entries are truthy and leaves them alone otherwise. */
    method RestoreEffect()
      requires Valid()
      modifies this
      ensures Valid()
      ensures RestoreAccepts(window.storage) ==>
                Cells(accessToken, refreshToken, expiresIn) == Restored(window.storage)
      ensures !RestoreAccepts(window.storage) ==>
                accessToken == old(accessToken) && refreshToken == old(refreshToken)
                && expiresIn == old(expiresIn) && interval == old(interval)
      ensures exchangesInFlight == old(exchangesInFlight) && refreshesInFlight == old(refreshesInFlight)
    {
      if RestoreAccepts(window.storage) {
        var restored := Restored(window.storage);
        var lastRefreshToken, lastExpiresIn := refreshToken, expiresIn;
        accessToken, refreshToken, expiresIn := restored.accessToken, restored.refreshToken, restored.expiresIn;
        RunRefreshEffect(lastRefreshToken, lastExpiresIn);
      }
    }

    /** The exchange effect (lines 21-45) for the access token `seen` of the
        render that scheduled it: sends `code` to `/login` when the guard
        passes and changes nothing else. */
    method ExchangeEffect(seen: Option<string>) returns (sent: bool)
      requires Valid()
      modifies this
      ensures Valid()
      ensures sent <==> ExchangeGuardPasses(seen, code)
      ensures exchangesInFlight == old(exchangesInFlight) + (if sent then 1 else 0)
      ensures accessToken == old(accessToken) && refreshToken == old(refreshToken) && expiresIn == old(expiresIn)
      ensures interval == old(interval) && refreshesInFlight == old(refreshesInFlight)
    {
      sent := ExchangeGuardPasses(seen, code);
      if sent {
        exchangesInFlight := exchangesInFlight + 1;
      }
    }

    /** The effects after the first render, in declaration order. The exchange
        effect tests the access token of that render, which is `undefined`
        even when the restore effect has just found a stored session. */
    method Mount() returns (exchangeSent: bool)
      requires Valid()
      modifies this
      ensures Valid()
      ensures RestoreAccepts(window.storage) ==>
                Cells(accessToken, refreshToken, expiresIn) == Restored(window.storage)
      ensures !RestoreAccepts(window.storage) ==>
                accessToken == old(accessToken) && refreshToken == old(refreshToken)
                && expiresIn == old(expiresIn) && interval == old(interval)
      ensures exchangeSent <==> ExchangeGuardPasses(old(accessToken), code)
      ensures exchangesInFlight == old(exchangesInFlight) + (if exchangeSent then 1 else 0)
      ensures refreshesInFlight == old(refreshesInFlight)
    {
      var seen := accessToken;
      RestoreEffect();
      exchangeSent := ExchangeEffect(seen);
    }

    /** The reply to `/login` (lines 29-44). Success sets the three cells and
        writes the three storage entries; failure only navigates to `/`. */
    method ExchangeSettled(reply: Reply<LoginBody>)
      requires Valid() && exchangesInFlight > 0
      modifies this, window
      ensures Valid()
      ensures exchangesInFlight == old(exchangesInFlight) - 1 && refreshesInFlight == old(refreshesInFlight)
      ensures reply.Ok? ==>
                && accessToken == Some(reply.body.accessToken)
                && refreshToken == Some(reply.body.refreshToken)
                && expiresIn == Some(Num(reply.body.expiresIn))
                && window.storage == StoreLogin(old(window.storage), reply.body)
                && window.location == old(window.location)
      ensures !reply.Ok? ==>
                && accessToken == old(accessToken) && refreshToken == old(refreshToken)
                && expiresIn == old(expiresIn) && interval == old(interval)
                && window.storage == old(window.storage)
                && window.location == Some(EntryPoint)
    {
      exchangesInFlight := exchangesInFlight - 1;
      match reply
      case Ok(body) =>
        var lastRefreshToken, lastExpiresIn := refreshToken, expiresIn;
        accessToken := Some(body.accessToken);
        refreshToken := Some(body.refreshToken);
        expiresIn := Some(Num(body.expiresIn));
        window.SetItem(AccessTokenKey, body.accessToken);
        window.SetItem(RefreshTokenKey, body.refreshToken);
        window.SetItem(ExpiresInKey, ShowInt(body.expiresIn));
        RunRefreshEffect(lastRefreshToken, lastExpiresIn);
      case _ =>
        window.Navigate(EntryPoint);
    }

    /** The armed timer fires (lines 51-54): its callback posts the refresh
        token it closed over, which is the current one. The timer stays armed:
        `setInterval` repeats. */
    method Tick() returns (sent: string)
      requires Valid() && interval.Some?
      modifies this
      ensures Valid()
      ensures accessToken == old(accessToken) && refreshToken == old(refreshToken) && expiresIn == old(expiresIn)
      ensures interval == old(interval) && exchangesInFlight == old(exchangesInFlight)
      ensures refreshToken == Some(sent) && sent == interval.value.refreshToken
      ensures refreshesInFlight == old(refreshesInFlight) + 1
    {
      sent := interval.value.refreshToken;
      refreshesInFlight := refreshesInFlight + 1;
    }

    /** The reply to `/refresh` (lines 55-66). Success replaces the access
        token and the TTL in the cells and in storage and keeps the refresh
        token in both; failure only navigates to `/`. */
    method RefreshSettled(reply: Reply<RefreshBody>)
      requires Valid() && refreshesInFlight > 0
      modifies this, window
      ensures Valid()
      ensures refreshesInFlight == old(refreshesInFlight) - 1 && exchangesInFlight == old(exchangesInFlight)
      ensures refreshToken == old(refreshToken)
      ensures reply.Ok? ==>
                && accessToken == Some(reply.body.accessToken)
                && expiresIn == Some(Num(reply.body.expiresIn))
                && window.storage == StoreRefresh(old(window.storage), reply.body)
                && window.location == old(window.location)
                && (expiresIn == old(expiresIn) ==> interval == old(interval))
                && (expiresIn != old(expiresIn) ==> interval == Armed(refreshToken, expiresIn, old(nextIntervalId)))
      ensures !reply.Ok? ==>
                && accessToken == old(accessToken) && expiresIn == old(expiresIn)
                && interval == old(interval)
                && window.storage == old(window.storage)
                && window.location == Some(EntryPoint)
    {
      refreshesInFlight := refreshesInFlight - 1;
      match reply
      case Ok(body) =>
        var lastRefreshToken, lastExpiresIn := refreshToken, expiresIn;
        accessToken := Some(body.accessToken);
        expiresIn := Some(Num(body.expiresIn));
        window.SetItem(AccessTokenKey, body.accessToken);
        window.SetItem(ExpiresInKey, ShowInt(body.expiresIn));
        RunRefreshEffect(lastRefreshToken, lastExpiresIn);
      case _ =>
        window.Navigate(EntryPoint);
    }
  }

  /** Reloading the redirect URL after a completed login: storage holds a whole
      session and the URL still carries the authorization code. The restore
      effect accepts the stored session, and the already used code is sent to
      `/login` all the same. */
  method ReloadResendsCode(stored: map<string, string>, code: string) returns (restored: bool, sent: bool)
    requires RestoreAccepts(stored) && code != ""
    ensures restored && sent
  {
    var window := new Window(stored);
    var hook := new AuthHook(Some(code), window);
    sent := hook.Mount();
    restored := hook.accessToken == Get(stored, AccessTokenKey) && hook.interval.Some? == NumTruthy(hook.expiresIn);
  }
}

/**
 * The Google Drive token lifecycle of the backup feature: the in-memory
 * token holder `DriveTokenManager` and the `localStorage`-backed
 * `LocalStorageDriveTokenStore` it persists to.
 *
 * Each step of the two classes is specified by a pure function over
 * values (a `Storage` map, a `TokenState` record); the lemmas relate those
 * functions: store/retrieve round trips, "persist then re-hydrate gives
 * back the in-memory state", and the latest complete update winning.
 */
module GoogleDriveTokens {
  import opened Wrappers
  import opened JsBuiltins

  // =====================================================================
  // LocalStorageDriveTokenStore
  // =====================================================================

  /** The browser's `localStorage`: `getItem` on a missing key gives null (`None`). */
  type Storage = map<string, string>

  function GetItem(m: Storage, key: string): Option<string> {
    if key in m then Some(m[key]) else None
  }

  function AccessKey(prefix: string): string { prefix + "access" }
  function ExpiryKey(prefix: string): string { prefix + "access-expiry" }
  function RefreshKey(prefix: string): string { prefix + "refresh" }

  /** The three keys of one store never collide, whatever the prefix. */
  lemma StoreKeysDistinct(prefix: string)
    ensures AccessKey(prefix) != ExpiryKey(prefix)
    ensures AccessKey(prefix) != RefreshKey(prefix)
    ensures ExpiryKey(prefix) != RefreshKey(prefix)
  {
    assert |AccessKey(prefix)| != |ExpiryKey(prefix)|;
    assert AccessKey(prefix)[|prefix|] == 'a' && ExpiryKey(prefix)[|prefix|] == 'a';
    assert RefreshKey(prefix)[|prefix|] == 'r';
  }

  /** What `retrieveAccessToken` resolves to. */
  datatype AccessRecord = AccessRecord(token: Option<string>, expiryDate: Option<JsDate>)

  /** `localStorage` after `storeAccessToken(token, expiryDate)`. */
  function StoreAccess(m: Storage, prefix: string, token: string, expiryDate: JsDate): Storage {
    m[AccessKey(prefix) := token][ExpiryKey(prefix) := DateToString(expiryDate)]
  }

  /** `localStorage` after `storeRefreshToken(token)`. */
  function StoreRefresh(m: Storage, prefix: string, token: string): Storage {
    m[RefreshKey(prefix) := token]
  }

  /**
   * `retrieveAccessToken`: the expiry is parsed only when its stored string
   * is truthy; a null or empty string reads as no expiry date at all.
   */
  function RetrieveAccess(m: Storage, prefix: string): AccessRecord {
    var expiryString := GetItem(m, ExpiryKey(prefix));
    AccessRecord(
      GetItem(m, AccessKey(prefix)),
      if Truthy(expiryString) then Some(NewDate(ParseFloat(expiryString.value))) else None)
  }

  /** `retrieveRefreshToken`. */
  function RetrieveRefresh(m: Storage, prefix: string): Option<string> {
    GetItem(m, RefreshKey(prefix))
  }

  /** Storing an access token and its expiry, then retrieving, gives both back unchanged. */
  lemma AccessRoundTrip(m: Storage, prefix: string, token: string, expiryDate: JsDate)
    ensures RetrieveAccess(StoreAccess(m, prefix, token, expiryDate), prefix)
            == AccessRecord(Some(token), Some(expiryDate))
  {
    StoreKeysDistinct(prefix);
    DateStringRoundTrip(expiryDate);
  }

  /** Storing a refresh token, then retrieving, gives it back. */
  lemma RefreshRoundTrip(m: Storage, prefix: string, token: string)
    ensures RetrieveRefresh(StoreRefresh(m, prefix, token), prefix) == Some(token)
  {
  }

  /** Storing an access token writes its two keys only; the refresh token is untouched. */
  lemma StoreAccessKeepsOtherKeys(m: Storage, prefix: string, token: string, expiryDate: JsDate)
    ensures RetrieveRefresh(StoreAccess(m, prefix, token, expiryDate), prefix) == RetrieveRefresh(m, prefix)
    ensures forall k :: k != AccessKey(prefix) && k != ExpiryKey(prefix) ==>
              GetItem(StoreAccess(m, prefix, token, expiryDate), k) == GetItem(m, k)
  {
    StoreKeysDistinct(prefix);
  }

  /** Storing a refresh token writes its key only; the access token and expiry are untouched. */
  lemma StoreRefreshKeepsOtherKeys(m: Storage, prefix: string, token: string)
    ensures RetrieveAccess(StoreRefresh(m, prefix, token), prefix) == RetrieveAccess(m, prefix)
    ensures forall k :: k != RefreshKey(prefix) ==> GetItem(StoreRefresh(m, prefix, token), k) == GetItem(m, k)
  {
    StoreKeysDistinct(prefix);
  }

  class LocalStorageDriveTokenStore {
    const prefix: string
    /** The contents of `localStorage`. */
    var storage: Storage

    constructor (prefix: string, storage: Storage)
      ensures this.prefix == prefix && this.storage == storage
    {
      this.prefix := prefix;
      this.storage := storage;
    }

    method StoreAccessToken(token: string, expiryDate: JsDate)
      modifies this
      ensures storage == StoreAccess(old(storage), prefix, token, expiryDate)
    {
      storage := storage[AccessKey(prefix) := token];
      storage := storage[ExpiryKey(prefix) := DateToString(expiryDate)];
    }

    method RetrieveAccessToken() returns (r: AccessRecord)
      ensures r == RetrieveAccess(storage, prefix)
    {
      var expiryString := GetItem(storage, ExpiryKey(prefix));
      var expiryDate := None;
      if Truthy(expiryString) {
        expiryDate := Some(NewDate(ParseFloat(expiryString.value)));
      }
      r := AccessRecord(GetItem(storage, AccessKey(prefix)), expiryDate);
    }

    method StoreRefreshToken(token: string)
      modifies this
      ensures storage == StoreRefresh(old(storage), prefix, token)
    {
      storage := storage[RefreshKey(prefix) := token];
    }

    method RetrieveRefreshToken() returns (r: Option<string>)
      ensures r == RetrieveRefresh(storage, prefix)
    {
      r := GetItem(storage, RefreshKey(prefix));
    }
  }

  // =====================================================================
  // DriveTokenManager
  // =====================================================================

  /** The manager's three private fields; `None` is `undefined`. */
  datatype TokenState = TokenState(accessToken: Option<string>, refreshToken: Option<string>, expiryDate: Option<JsDate>)

  /** The fields before hydration. */
  const Unset := TokenState(None, None, None)

  /**
   * The constructor's hydration: the access token and its expiry are copied
   * only when the stored access token is truthy, the refresh token only
   * when it is truthy; otherwise a field keeps its initial value.
   */
  function Hydrate(m: Storage, prefix: string): (s: TokenState)
    ensures s.expiryDate.Some? ==> Truthy(s.accessToken)
    ensures Truthy(GetItem(m, AccessKey(prefix))) ==>
              s.accessToken == GetItem(m, AccessKey(prefix)) && s.expiryDate == RetrieveAccess(m, prefix).expiryDate
    ensures !Truthy(GetItem(m, AccessKey(prefix))) ==> s.accessToken == None && s.expiryDate == None
    ensures Truthy(RetrieveRefresh(m, prefix)) ==> s.refreshToken == RetrieveRefresh(m, prefix)
    ensures !Truthy(RetrieveRefresh(m, prefix)) ==> s.refreshToken == None
  {
    var access := RetrieveAccess(m, prefix);
    var refresh := RetrieveRefresh(m, prefix);
    var withAccess := if Truthy(access.token) then Unset.(accessToken := access.token, expiryDate := access.expiryDate) else Unset;
    if Truthy(refresh) then withAccess.(refreshToken := refresh) else withAccess
  }

  /** The argument of `handleNewTokens`. */
  datatype NewTokens = NewTokens(accessToken: Option<string>, refreshToken: Option<string>, expiresInSeconds: Option<int>)

  /** Both `accessToken` and `expiresInSeconds` are truthy. */
  predicate CarriesAccessToken(t: NewTokens) {
    Truthy(t.accessToken) && TruthyNumber(t.expiresInSeconds)
  }

  /** `new Date(now + expiresInSeconds * 1000)`. */
  function ExpiryFor(now: int, expiresInSeconds: int): JsDate {
    NewDate(Some(now + expiresInSeconds * 1000))
  }

  /**
   * The in-memory effect of `handleNewTokens` at time `now`: the access
   * update and the refresh update are independent.
   */
  function AfterNewTokens(s: TokenState, now: int, t: NewTokens): (r: TokenState)
    ensures CarriesAccessToken(t) ==>
              r.accessToken == t.accessToken && r.expiryDate == Some(ExpiryFor(now, t.expiresInSeconds.value))
    ensures !CarriesAccessToken(t) ==> r.accessToken == s.accessToken && r.expiryDate == s.expiryDate
    ensures Truthy(t.refreshToken) ==> r.refreshToken == t.refreshToken
    ensures !Truthy(t.refreshToken) ==> r.refreshToken == s.refreshToken
  {
    var withAccess :=
      if CarriesAccessToken(t)
      then s.(accessToken := t.accessToken, expiryDate := Some(ExpiryFor(now, t.expiresInSeconds.value)))
      else s;
    if Truthy(t.refreshToken) then withAccess.(refreshToken := t.refreshToken) else withAccess
  }

  /** What `handleNewTokens` writes to `localStorage` at time `now`. */
  function PersistNewTokens(m: Storage, prefix: string, now: int, t: NewTokens): (r: Storage)
    ensures CarriesAccessToken(t) ==>
              RetrieveAccess(r, prefix) == AccessRecord(t.accessToken, Some(ExpiryFor(now, t.expiresInSeconds.value)))
    ensures !CarriesAccessToken(t) ==> RetrieveAccess(r, prefix) == RetrieveAccess(m, prefix)
    ensures RetrieveRefresh(r, prefix) == if Truthy(t.refreshToken) then t.refreshToken else RetrieveRefresh(m, prefix)
  {
    var withAccess :=
      if CarriesAccessToken(t) then
        var expiry := ExpiryFor(now, t.expiresInSeconds.value);
        AccessRoundTrip(m, prefix, t.accessToken.value, expiry);
        StoreAccessKeepsOtherKeys(m, prefix, t.accessToken.value, expiry);
        StoreAccess(m, prefix, t.accessToken.value, expiry)
      else m;
    if Truthy(t.refreshToken) then
      StoreRefreshKeepsOtherKeys(withAccess, prefix, t.refreshToken.value);
      StoreRefresh(withAccess, prefix, t.refreshToken.value)
    else
      withAccess
  }

  /**
   * Memory and storage stay in step: if hydrating from `m` gives the current
   * state, hydrating from what `handleNewTokens` persisted gives the state
   * `handleNewTokens` leaves in memory.
   */
  lemma PersistThenHydrate(m: Storage, prefix: string, now: int, t: NewTokens)
    ensures Hydrate(PersistNewTokens(m, prefix, now, t), prefix) == AfterNewTokens(Hydrate(m, prefix), now, t)
  {
    var m' := PersistNewTokens(m, prefix, now, t);
    var access' := RetrieveAccess(m', prefix);
    assert access'.token == GetItem(m', AccessKey(prefix));
  }

  /** One timed call of `handleNewTokens`. */
  datatype TokenUpdate = TokenUpdate(now: int, tokens: NewTokens)

  /** The state after a sequence of `handleNewTokens` calls, oldest first. */
  function AfterUpdates(s: TokenState, updates: seq<TokenUpdate>): TokenState
    decreases |updates|
  {
    if updates == [] then s
    else
      var last := updates[|updates| - 1];
      AfterNewTokens(AfterUpdates(s, updates[..|updates| - 1]), last.now, last.tokens)
  }

  /**
   * The most recent update that carries both an access token and an expiry
   * decides the access token and the expiry date.
   */
  lemma {:induction false} LatestAccessUpdateWins(s: TokenState, updates: seq<TokenUpdate>, i: nat)
    requires i < |updates| && CarriesAccessToken(updates[i].tokens)
    requires forall j :: i < j < |updates| ==> !CarriesAccessToken(updates[j].tokens)
    ensures AfterUpdates(s, updates).accessToken == updates[i].tokens.accessToken
    ensures AfterUpdates(s, updates).expiryDate
            == Some(ExpiryFor(updates[i].now, updates[i].tokens.expiresInSeconds.value))
    decreases |updates|
  {
    if i < |updates| - 1 {
      LatestAccessUpdateWins(s, updates[..|updates| - 1], i);
    }
  }

  /** Without any update carrying both fields, the access token and expiry never change. */
  lemma {:induction false} AccessUnchangedWithoutCompleteUpdate(s: TokenState, updates: seq<TokenUpdate>)
    requires forall j :: 0 <= j < |updates| ==> !CarriesAccessToken(updates[j].tokens)
    ensures AfterUpdates(s, updates).accessToken == s.accessToken
    ensures AfterUpdates(s, updates).expiryDate == s.expiryDate
    decreases |updates|
  {
    if updates != [] {
      AccessUnchangedWithoutCompleteUpdate(s, updates[..|updates| - 1]);
    }
  }

  /** The default safety margin of `isAccessTokenExpired`: ten minutes. */
  const DefaultMarginMs: int := 1000 * 60 * 10

  /**
   * `isAccessTokenExpired` as written: `None` stands for the TypeError that
   * `.getTime()` throws when no expiry date was ever set. An Invalid Date
   * gives NaN, and `now >= NaN` is false.
   */
  function ExpiredAsWritten(s: TokenState, now: int, margin: int): (r: Option<bool>)
    ensures r.None? <==> s.expiryDate.None?
    ensures r == Some(true) <==>
              s.expiryDate.Some? && s.expiryDate.value.DateAt? && now >= s.expiryDate.value.ms - margin
  {
    match s.expiryDate
    case None => None
    case Some(InvalidDate) => Some(false)
    case Some(DateAt(ms)) => Some(now >= ms - margin)
  }

  /**
   * `isAccessTokenExpired` with an unset expiry date counted as expired; it
   * agrees with the source wherever the source does not throw.
   */
  function Expired(s: TokenState, now: int, margin: int): (b: bool)
    ensures s.expiryDate.None? ==> b
    ensures s.expiryDate.Some? && s.expiryDate.value.DateAt? ==> (b <==> now >= s.expiryDate.value.ms - margin)
    ensures ExpiredAsWritten(s, now, margin).Some? ==> b == ExpiredAsWritten(s, now, margin).value
  {
    ExpiredAsWritten(s, now, margin).GetOr(true)
  }

  /** A token expiring in five minutes counts as expired under the default ten-minute margin. */
  lemma ExpiresInFiveMinutesIsExpired(s: TokenState, now: int)
    requires -MaxTimeMs <= now + 300000 <= MaxTimeMs
    requires s.expiryDate == Some(DateAt(now + 300000))
    ensures Expired(s, now, DefaultMarginMs)
  {
  }

  /** Once expired, a token stays expired as time passes and under any larger margin. */
  lemma ExpiredIsMonotone(s: TokenState, now: int, margin: int, later: int, wider: int)
    requires Expired(s, now, margin) && now <= later && margin <= wider
    ensures Expired(s, later, wider)
  {
  }

  /**
   * On a fresh install (nothing stored) the source's `isAccessTokenExpired`
   * throws instead of reporting an expired token.
   */
  lemma ExpiredAsWrittenThrowsOnFreshInstall(prefix: string, now: int, margin: int)
    ensures ExpiredAsWritten(Hydrate(map[], prefix), now, margin) == None
    ensures Expired(Hydrate(map[], prefix), now, margin)
  {
  }

  /** `getRefreshToken` as written: it hands back the access token. */
  function RefreshTokenAsWritten(s: TokenState): Option<string> {
    s.accessToken
  }

  /** With distinct stored tokens, the source's `getRefreshToken` returns the wrong one. */
  lemma RefreshTokenAsWrittenReturnsAccessToken()
    ensures var m := map[AccessKey("drive-") := "a", RefreshKey("drive-") := "r"];
            RefreshTokenAsWritten(Hydrate(m, "drive-")) == Some("a") &&
            Hydrate(m, "drive-").refreshToken == Some("r")
  {
    StoreKeysDistinct("drive-");
  }

  /** The request `refreshAccessToken` sends: the URL and the refresh token in the body. */
  datatype RefreshRequest = RefreshRequest(url: string, refreshToken: Option<string>)

  /** The fields read from the refresh endpoint's JSON response. */
  datatype RefreshResponse = RefreshResponse(accessToken: Option<string>, expiresInSeconds: Option<int>)

  /** How `refreshAccessToken` ended. */
  datatype RefreshOutcome = StillValid | Refreshed | NoTokenFromServer

  /** `refreshAccessToken` goes to the network unless not forced and not yet (nearly) expired. */
  predicate NeedsRefresh(s: TokenState, force: bool, now: int) {
    force || Expired(s, now, DefaultMarginMs)
  }

  function RefreshRequestFor(origin: string, s: TokenState): RefreshRequest {
    RefreshRequest(origin + "/auth/google/refresh", s.refreshToken)
  }

  /** The tokens passed on to `handleNewTokens`: never a refresh token. */
  function ResponseTokens(response: RefreshResponse): NewTokens {
    NewTokens(response.accessToken, None, response.expiresInSeconds)
  }

  predicate ResponseComplete(response: RefreshResponse) {
    Truthy(response.accessToken) && TruthyNumber(response.expiresInSeconds)
  }

  /**
   * The state after `refreshAccessToken(force)` decided at `now` and, if a
   * request went out, answered by `response` at `appliedAt`.
   */
  function AfterRefresh(s: TokenState, force: bool, now: int, response: RefreshResponse, appliedAt: int): (r: TokenState)
    ensures r.refreshToken == s.refreshToken
    ensures !NeedsRefresh(s, force, now) ==> r == s
    ensures !ResponseComplete(response) ==> r == s
    ensures NeedsRefresh(s, force, now) && ResponseComplete(response) ==>
              r.accessToken == response.accessToken &&
              r.expiryDate == Some(ExpiryFor(appliedAt, response.expiresInSeconds.value))
  {
    if !NeedsRefresh(s, force, now) then s
    else if ResponseComplete(response) then AfterNewTokens(s, appliedAt, ResponseTokens(response))
    else s
  }

  class DriveTokenManager {
    const tokenStore: LocalStorageDriveTokenStore
    const memexCloudOrigin: string
    var accessToken: Option<string>
    var refreshToken: Option<string>
    var tokenExpiryDate: Option<JsDate>

    function State(): TokenState
      reads this
    {
      TokenState(accessToken, refreshToken, tokenExpiryDate)
    }

    /** The in-memory tokens are what hydrating from the store would give. */
    ghost predicate Valid()
      reads this, tokenStore
    {
      Hydrate(tokenStore.storage, tokenStore.prefix) == State()
    }

    /** Construction followed by the (here synchronous) hydration from the store. */
    constructor (tokenStore: LocalStorageDriveTokenStore, memexCloudOrigin: string)
      ensures this.tokenStore == tokenStore && this.memexCloudOrigin == memexCloudOrigin
      ensures State() == Hydrate(tokenStore.storage, tokenStore.prefix)
      ensures Valid()
    {
      this.tokenStore := tokenStore;
      this.memexCloudOrigin := memexCloudOrigin;
      accessToken, refreshToken, tokenExpiryDate := None, None, None;
      new;
      var access := tokenStore.RetrieveAccessToken();
      if Truthy(access.token) {
        accessToken := access.token;
        tokenExpiryDate := access.expiryDate;
      }
      var refresh := tokenStore.RetrieveRefreshToken();
      if Truthy(refresh) {
        refreshToken := refresh;
      }
    }

    /** The current access token: the stored one if it is truthy, else unset. */
    method GetAccessToken() returns (t: Option<string>)
      requires Valid()
      ensures t == accessToken
      ensures Truthy(GetItem(tokenStore.storage, AccessKey(tokenStore.prefix))) ==>
                t == GetItem(tokenStore.storage, AccessKey(tokenStore.prefix))
      ensures !Truthy(GetItem(tokenStore.storage, AccessKey(tokenStore.prefix))) ==> t == None
    {
      t := accessToken;
    }

    /** `getRefreshToken` as the source has it: the access token comes back. */
    method GetRefreshTokenAsWritten() returns (t: Option<string>)
      ensures t == RefreshTokenAsWritten(State())
    {
      t := accessToken;
    }

    /** `getRefreshToken` as intended: the refresh token, i.e. the stored one if it is truthy. */
    method GetRefreshToken() returns (t: Option<string>)
      requires Valid()
      ensures t == refreshToken
      ensures Truthy(RetrieveRefresh(tokenStore.storage, tokenStore.prefix)) ==>
                t == RetrieveRefresh(tokenStore.storage, tokenStore.prefix)
      ensures !Truthy(RetrieveRefresh(tokenStore.storage, tokenStore.prefix)) ==> t == None
    {
      t := refreshToken;
    }

    method HandleNewTokens(now: int, t: NewTokens)
      requires Valid()
      modifies this, tokenStore
      ensures Valid()
      ensures State() == AfterNewTokens(old(State()), now, t)
      ensures tokenStore.storage == PersistNewTokens(old(tokenStore.storage), tokenStore.prefix, now, t)
    {
      ghost var m := tokenStore.storage;
      PersistThenHydrate(m, tokenStore.prefix, now, t);
      if Truthy(t.accessToken) && TruthyNumber(t.expiresInSeconds) {
        tokenExpiryDate := Some(ExpiryFor(now, t.expiresInSeconds.value));
        accessToken := t.accessToken;
        tokenStore.StoreAccessToken(accessToken.value, tokenExpiryDate.value);
      }
      if Truthy(t.refreshToken) {
        refreshToken := t.refreshToken;
        tokenStore.StoreRefreshToken(refreshToken.value);
      }
    }

    /**
     * `refreshAccessToken({force})` decided at `now`; `response` is what the
     * endpoint answers if asked, applied at `appliedAt`. Returns the request
     * sent, if any.
     */
    method RefreshAccessToken(force: bool, now: int, response: RefreshResponse, appliedAt: int)
      returns (request: Option<RefreshRequest>, outcome: RefreshOutcome)
      requires Valid()
      modifies this, tokenStore
      ensures Valid()
      ensures request == if NeedsRefresh(old(State()), force, now)
                         then Some(RefreshRequestFor(memexCloudOrigin, old(State()))) else None
      ensures outcome == if !NeedsRefresh(old(State()), force, now) then StillValid
                         else if ResponseComplete(response) then Refreshed
                         else NoTokenFromServer
      ensures State() == AfterRefresh(old(State()), force, now, response, appliedAt)
      ensures tokenStore.storage ==
                if NeedsRefresh(old(State()), force, now) && ResponseComplete(response)
                then PersistNewTokens(old(tokenStore.storage), tokenStore.prefix, appliedAt, ResponseTokens(response))
                else old(tokenStore.storage)
    {
      var expired := IsAccessTokenExpired(now, DefaultMarginMs);
      if !force && !expired {
        return None, StillValid;
      }
      request := Some(RefreshRequest(memexCloudOrigin + "/auth/google/refresh", refreshToken));
      if Truthy(response.accessToken) && TruthyNumber(response.expiresInSeconds) {
        HandleNewTokens(appliedAt, ResponseTokens(response));
        outcome := Refreshed;
      } else {
        outcome := NoTokenFromServer;
      }
    }

    /** `isAccessTokenExpired({margin})` at `now`, with an unset expiry date counted as expired. */
    method IsAccessTokenExpired(now: int, margin: int) returns (expired: bool)
      ensures expired == Expired(State(), now, margin)
    {
      match tokenExpiryDate {
        case None => expired := true;
        case Some(InvalidDate) => expired := false;
        case Some(DateAt(ms)) => expired := now >= ms - margin;
      }
    }
  }
}

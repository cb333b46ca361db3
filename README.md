# Credential lifecycle, import coordination and custom-list selectors

A Dafny model of three pieces of sequential logic in the browser extension:

- **Google Drive tokens** (`google_drive_tokens.dfy`, module `GoogleDriveTokens`).
  `LocalStorageDriveTokenStore` is a class over a `map<string, string>` that stands for `localStorage`.
  It writes the keys `prefix + "access"`, `prefix + "access-expiry"` and `prefix + "refresh"`.
  `DriveTokenManager` is a class with the three private fields: access token, refresh token and expiry date.
  Hydration from the store runs inside the constructor.
  `handleNewTokens`, `refreshAccessToken` and `isAccessTokenExpired` are methods proved against pure functions (`AfterNewTokens`, `PersistNewTokens`, `AfterRefresh`, `Expired`).
  Lemmas relate those functions to each other: store/retrieve round trips, "persist then re-hydrate gives the in-memory state", and the latest complete update winning.
- **Import connection handler** (`import_connection.dfy`, module `ImportConnection`).
  `ImportConnectionHandler` is a class holding the following:
  - the persisted "is-imports-in-progress" flag;
  - the importer's run bit and concurrency;
  - the import state manager's `allowTypes` and `options`, plus a log of the calls made on it;
  - `_includeErrs`;
  - the sequence of messages posted on the port.

  Each handler method is proved equal to a pure transition function.
  `Dispatch` routes each inbound `{cmd, payload}` to exactly one transition.
  Lemmas about runs (`Run` over a sequence of events) state how the flag, the outbox and the concurrency evolve.
- **Custom-list selectors** (`custom_list_selectors.dfy`, module `CustomListSelectors`).
  These are pure functions: the comparator, `getSortedLists`, `results` and `activeCollectionName`.
  `Array.prototype.sort` is modelled as a stable insertion sort that returns a new sequence.
  Lowercasing is a parameter (any total function on strings).

Two support modules hold shared pieces.
`Wrappers` holds `Option`, which stands for `undefined`/`null`.
`JsBuiltins` holds the JavaScript built-ins the code relies on:
- truthiness;
- string `<`, compared by UTF-16 code units as JavaScript does;
- `Number(...)` on strings;
- `Number#toString` and `parseFloat` on integers;
- `Date` construction with its ±8.64e15 ms time-value range, where Invalid Date stands for NaN.

Inputs from outside the program become parameters:
- The current time `Date.now()` is an integer in milliseconds.
- The refresh endpoint's JSON response is a `RefreshResponse` record.
- The estimates `fetchEsts` answers are an opaque `Estimates` value.
- The default concurrency is a constructor argument.

## Model

| member | source | states |
|---|---|---|
| JsBuiltins.Utf16Injective | src/custom-lists/selectors.js:19-25 | Different strings have different UTF-16 encodings, so code-unit order decides equality too |
| JsBuiltins.StringLessTotal | src/custom-lists/selectors.js:19-25 | Any two strings are equal or one is `<` the other, so the comparator's three branches cover every case |
| JsBuiltins.StringLessTransitive | src/custom-lists/selectors.js:19-25 | String `<` is transitive |
| JsBuiltins.AstralCharSortsBySurrogate | src/custom-lists/selectors.js:19-25 | `<` compares UTF-16 code units: U+1F600 sorts before U+FF21 although its code point is larger |
| JsBuiltins.NumberOfNumberString | src/custom-lists/selectors.js:66 | `Number(n.toString())` gives back every integer `n` |
| JsBuiltins.NumberStringRoundTrip | src/backup-restore/background/backend/google-drive/token-manager.ts:131 | `parseFloat(n.toString())` gives back every integer `n` |
| JsBuiltins.DateStringRoundTrip | src/backup-restore/background/backend/google-drive/token-manager.ts:129-139 | The stored expiry string of any Date is non-empty, and parsing it rebuilds the same Date, Invalid Date included |
| GoogleDriveTokens.StoreKeysDistinct | src/backup-restore/background/backend/google-drive/token-manager.ts:128-148 | The access, access-expiry and refresh keys are pairwise distinct for every prefix |
| GoogleDriveTokens.AccessRoundTrip | src/backup-restore/background/backend/google-drive/token-manager.ts:127-141 | After storing an access token and expiry, retrieving gives back the same token and the same expiry date |
| GoogleDriveTokens.RefreshRoundTrip | src/backup-restore/background/backend/google-drive/token-manager.ts:143-149 | After storing a refresh token, retrieving gives it back |
| GoogleDriveTokens.StoreAccessKeepsOtherKeys | src/backup-restore/background/backend/google-drive/token-manager.ts:127-133 | Storing an access token changes only its two keys, so the refresh token read back is unchanged |
| GoogleDriveTokens.StoreRefreshKeepsOtherKeys | src/backup-restore/background/backend/google-drive/token-manager.ts:143-145 | Storing a refresh token changes only its key, so the access record read back is unchanged |
| GoogleDriveTokens.LocalStorageDriveTokenStore.constructor | src/backup-restore/background/backend/google-drive/token-manager.ts:123-125 | The store keeps its prefix and its storage map |
| GoogleDriveTokens.LocalStorageDriveTokenStore.StoreAccessToken | src/backup-restore/background/backend/google-drive/token-manager.ts:127-133 | The new storage is the old one with the token and the expiry's decimal time written under their keys |
| GoogleDriveTokens.LocalStorageDriveTokenStore.RetrieveAccessToken | src/backup-restore/background/backend/google-drive/token-manager.ts:135-141 | Reads the token and parses the expiry only when the stored expiry string is truthy |
| GoogleDriveTokens.LocalStorageDriveTokenStore.StoreRefreshToken | src/backup-restore/background/backend/google-drive/token-manager.ts:143-145 | The new storage is the old one with the refresh token under its key |
| GoogleDriveTokens.LocalStorageDriveTokenStore.RetrieveRefreshToken | src/backup-restore/background/backend/google-drive/token-manager.ts:147-149 | Returns the value under the refresh key, or null |
| GoogleDriveTokens.Hydrate | src/backup-restore/background/backend/google-drive/token-manager.ts:20-32 | When the stored access token is truthy, it and the retrieved expiry are copied; otherwise both stay unset. When the stored refresh token is truthy it is copied; otherwise it stays unset. An expiry is only ever set together with a truthy access token |
| GoogleDriveTokens.AfterNewTokens | src/backup-restore/background/backend/google-drive/token-manager.ts:60-73 | If both the access token and `expiresInSeconds` are truthy, the access token is set and the expiry becomes `now + expiresInSeconds*1000`; otherwise both are unchanged. The refresh token is set iff the new one is truthy |
| GoogleDriveTokens.PersistNewTokens | src/backup-restore/background/backend/google-drive/token-manager.ts:60-73 | `handleNewTokens` persists exactly the new access token and expiry when both are truthy, and otherwise leaves the stored access record alone; the refresh token is persisted independently, and only when it is truthy |
| GoogleDriveTokens.PersistThenHydrate | src/backup-restore/background/backend/google-drive/token-manager.ts:20-73 | Hydrating from what `handleNewTokens` persisted gives the state `handleNewTokens` leaves in memory |
| GoogleDriveTokens.LatestAccessUpdateWins | src/backup-restore/background/backend/google-drive/token-manager.ts:60-69 | After any sequence of `handleNewTokens` calls, the last one carrying both fields decides the access token and the expiry |
| GoogleDriveTokens.AccessUnchangedWithoutCompleteUpdate | src/backup-restore/background/backend/google-drive/token-manager.ts:60-69 | A sequence of calls in which none carries both fields never changes the access token or the expiry |
| GoogleDriveTokens.ExpiredAsWritten | src/backup-restore/background/backend/google-drive/token-manager.ts:105-108 | As written: fails (TypeError) exactly when no expiry date is set; reports expired exactly when `now >= expiry - margin` on a valid date |
| GoogleDriveTokens.Expired | src/backup-restore/background/backend/google-drive/token-manager.ts:105-108 | Expired iff `now >= expiry - margin` for a set, valid expiry; an unset expiry counts as expired; agrees with the source wherever the source does not throw |
| GoogleDriveTokens.ExpiresInFiveMinutesIsExpired | src/backup-restore/background/backend/google-drive/token-manager.ts:104-108 | With the default 600000 ms margin, a token expiring 300000 ms from now is expired |
| GoogleDriveTokens.ExpiredIsMonotone | src/backup-restore/background/backend/google-drive/token-manager.ts:105-108 | Once expired, the token stays expired at any later time and under any wider margin |
| GoogleDriveTokens.ExpiredAsWrittenThrowsOnFreshInstall | src/backup-restore/background/backend/google-drive/token-manager.ts:105-106 | With nothing stored, the source's check throws, while the corrected check reports expired |
| GoogleDriveTokens.RefreshTokenAsWrittenReturnsAccessToken | src/backup-restore/background/backend/google-drive/token-manager.ts:46-49 | With distinct stored tokens, the source's `getRefreshToken` returns the access token and not the hydrated refresh token |
| GoogleDriveTokens.AfterRefresh | src/backup-restore/background/backend/google-drive/token-manager.ts:76-101 | Never changes the refresh token. A token that needs no refresh is left unchanged, and so is the state after an incomplete response. A complete response sets the access token and the expiry |
| GoogleDriveTokens.DriveTokenManager.constructor | src/backup-restore/background/backend/google-drive/token-manager.ts:9-39 | The fields are exactly what hydrating from the store gives |
| GoogleDriveTokens.DriveTokenManager.GetAccessToken | src/backup-restore/background/backend/google-drive/token-manager.ts:41-44 | Returns the access token: the stored one if truthy, else unset |
| GoogleDriveTokens.DriveTokenManager.GetRefreshTokenAsWritten | src/backup-restore/background/backend/google-drive/token-manager.ts:46-49 | As written: returns the access token |
| GoogleDriveTokens.DriveTokenManager.GetRefreshToken | src/backup-restore/background/backend/google-drive/token-manager.ts:46-49 | Corrected: returns the refresh token, which is the stored one if truthy and otherwise unset |
| GoogleDriveTokens.DriveTokenManager.HandleNewTokens | src/backup-restore/background/backend/google-drive/token-manager.ts:51-74 | The new in-memory state is `AfterNewTokens` and the new storage is `PersistNewTokens`; memory and storage stay in step |
| GoogleDriveTokens.DriveTokenManager.RefreshAccessToken | src/backup-restore/background/backend/google-drive/token-manager.ts:76-102 | A request carrying the refresh token goes out iff forced or expired. The outcome is one of: still valid, refreshed, or no token from the server. State and storage change only when a request went out and the response was complete |
| GoogleDriveTokens.DriveTokenManager.IsAccessTokenExpired | src/backup-restore/background/backend/google-drive/token-manager.ts:105-108 | Returns `Expired` for the current state |
| ImportConnection.Rehydrate | src/imports/background/connection-handler.ts:61-76 | Posts exactly one message: PAUSE if the flag is set, otherwise INIT with freshly fetched estimates. Nothing else changes, and the importer is not started |
| ImportConnection.Initial | src/imports/background/connection-handler.ts:29-59 | A new handler has a stopped importer at the default concurrency and `_includeErrs` false, keeps the persisted flag, and has posted only PAUSE or only INIT |
| ImportConnection.ObserverNext | src/imports/background/connection-handler.ts:84 | Posts NEXT with the item and changes nothing else |
| ImportConnection.ObserverComplete | src/imports/background/connection-handler.ts:85-88 | Posts COMPLETE and clears the flag, nothing else |
| ImportConnection.Disconnected | src/imports/background/connection-handler.ts:56 | Stops the importer and leaves everything else, including the flag, as it was |
| ImportConnection.Started | src/imports/background/connection-handler.ts:143-155 | Sets `allowTypes` and `options` (default `{}`). Fetches estimates only when the flag was clear. Posts START, sets the flag and starts the importer. The concurrency and error policy are untouched |
| ImportConnection.Finished | src/imports/background/connection-handler.ts:161-170 | Clears the flag and fetches estimates with a null blob. Posts INIT with them and leaves the run state untouched |
| ImportConnection.Cancelled | src/imports/background/connection-handler.ts:172-178 | Stops the importer, clears the flag and posts COMPLETE, with no state-manager call |
| ImportConnection.Recalculated | src/imports/background/connection-handler.ts:126-137 | Dirties the estimate cache, then sets `allowTypes`. Fetches with the current error policy and posts INIT. The flag and run state are untouched |
| ImportConnection.ProcessErrsSet | src/imports/background/connection-handler.ts:121-124 | Sets `_includeErrs`, then recalculates with `allowTypes` undefined and a null blob, so the fetch uses the new policy |
| ImportConnection.Dispatch | src/imports/background/connection-handler.ts:94-118 | An unknown command changes nothing. RESUME starts and PAUSE stops the importer, and SET_CONCURRENCY sets the concurrency to the payload, each changing nothing else. Only START, RECALC and SET_PROCESS_ERRS change `allowTypes`, and state-manager calls are only appended. Only START, CANCEL and FINISH change the flag, and only START, RESUME, PAUSE and CANCEL change the run state. Only SET_CONCURRENCY changes the concurrency, and only SET_PROCESS_ERRS the error policy. Exactly START, CANCEL, FINISH, RECALC and SET_PROCESS_ERRS post one message; the rest post none |
| ImportConnection.FlagStaysClearUntilStart | src/imports/background/connection-handler.ts:94-118 | Along any run without START, a clear flag stays clear |
| ImportConnection.CancelClearsFlagForGood | src/imports/background/connection-handler.ts:172-178 | After CANCEL the flag is clear, and it stays clear until the next START |
| ImportConnection.OutboxOnlyGrows | src/imports/background/connection-handler.ts:94-118 | Along any run, earlier messages are kept and each event posts at most one message |
| ImportConnection.ConcurrencyOnlyBySetConcurrency | src/imports/background/connection-handler.ts:112-113 | Along any run without SET_CONCURRENCY, the importer's concurrency is unchanged |
| ImportConnection.PauseThenResume | src/imports/background/connection-handler.ts:102-105 | PAUSE then RESUME leaves the state as before except that the importer runs |
| ImportConnection.DisconnectThenReconnectShowsPaused | src/imports/background/connection-handler.ts:56-76 | START then disconnect leaves the importer stopped with the flag set. A handler built on that flag posts only PAUSE |
| ImportConnection.ImportConnectionHandler.constructor | src/imports/background/connection-handler.ts:29-59 | The state is `Initial`: construction followed by rehydration |
| ImportConnection.ImportConnectionHandler.GetImportInProgressFlag | src/imports/background/connection-handler.ts:180-186 | Returns the persisted flag |
| ImportConnection.ImportConnectionHandler.SetImportInProgressFlag | src/imports/background/connection-handler.ts:188-192 | Sets the persisted flag and nothing else |
| ImportConnection.ImportConnectionHandler.FetchEsts | src/imports/background/connection-handler.ts:130-134 | Logs one `fetchEsts` call with the handler's quick mode and returns the estimates given |
| ImportConnection.ImportConnectionHandler.AttemptRehydrate | src/imports/background/connection-handler.ts:61-76 | The new state is `Rehydrate` of the old one |
| ImportConnection.ImportConnectionHandler.ObserveNext | src/imports/background/connection-handler.ts:84 | The new state is `ObserverNext` of the old one |
| ImportConnection.ImportConnectionHandler.ObserveComplete | src/imports/background/connection-handler.ts:85-88 | The new state is `ObserverComplete` of the old one |
| ImportConnection.ImportConnectionHandler.OnDisconnect | src/imports/background/connection-handler.ts:56 | The new state is `Disconnected` of the old one |
| ImportConnection.ImportConnectionHandler.MessageListener | src/imports/background/connection-handler.ts:94-118 | The new state is `Dispatch` of the old one |
| ImportConnection.ImportConnectionHandler.SetProcessErrs | src/imports/background/connection-handler.ts:121-124 | The new state is `ProcessErrsSet` of the old one |
| ImportConnection.ImportConnectionHandler.RecalcState | src/imports/background/connection-handler.ts:126-137 | The new state is `Recalculated` of the old one |
| ImportConnection.ImportConnectionHandler.StartImport | src/imports/background/connection-handler.ts:143-155 | The new state is `Started` of the old one |
| ImportConnection.ImportConnectionHandler.FinishImport | src/imports/background/connection-handler.ts:161-170 | The new state is `Finished` of the old one |
| ImportConnection.ImportConnectionHandler.CancelImport | src/imports/background/connection-handler.ts:172-178 | The new state is `Cancelled` of the old one |
| CustomListSelectors.SortAlphabetically | src/custom-lists/selectors.js:10-26 | Negative when `a` is the mobile list, positive when only `b` is. Otherwise the result is -1, 0 or 1: negative iff `a`'s lowercased name is less, positive iff it is greater, and 0 iff the lowercased names are equal |
| CustomListSelectors.ComparatorMatchesOrder | src/custom-lists/selectors.js:10-26 | The comparator agrees with the order "mobile lists first, then by lowercased name" on every pair except two mobile lists |
| CustomListSelectors.SortedBeforeTransitive | src/custom-lists/selectors.js:10-26 | That order is transitive |
| CustomListSelectors.InsertSorted | src/custom-lists/selectors.js:50 | Inserting into a sorted sequence keeps it sorted |
| CustomListSelectors.SortLists | src/custom-lists/selectors.js:50 | The sort returns a permutation of its input |
| CustomListSelectors.SortListsSorted | src/custom-lists/selectors.js:50 | The sort returns a sorted sequence |
| CustomListSelectors.CountMobileSort | src/custom-lists/selectors.js:50 | Sorting keeps the number of mobile lists |
| CustomListSelectors.FindMobileIndex | src/custom-lists/selectors.js:42-44 | The index of the first mobile list, or -1 iff there is none |
| CustomListSelectors.WithMobileList | src/custom-lists/selectors.js:42-48 | Appends `{MOBILE_LIST_NAME, -1}` iff no mobile list exists, and otherwise leaves the lists as they are. The result always holds a mobile list |
| CustomListSelectors.GetSortedLists | src/custom-lists/selectors.js:41-51 | The result is a sorted permutation of the lists, extended with the mobile list when it was missing, and it holds at least one mobile list |
| CustomListSelectors.MobileListsComeFirst | src/custom-lists/selectors.js:10-17 | In a sorted view, nothing but a mobile list precedes a mobile list |
| CustomListSelectors.MobileListFirstThenAlphabetical | src/custom-lists/selectors.js:10-26 | With at most one mobile list stored, the sorted view starts with the mobile list, has no other, and the rest are in nondecreasing lowercased-name order |
| CustomListSelectors.Decorate | src/custom-lists/selectors.js:63-68 | Same length. Entry i keeps list i's name and id. `isEditing` iff `i == activeListIndex`, `isFilterIndex` iff the id equals `Number(listFilter)`, and `isMobileList` iff the name is the mobile list name |
| CustomListSelectors.Results | src/custom-lists/selectors.js:58-70 | Entry i carries the name and id of sorted list i. At most one entry is being edited and some entry is the mobile list. With at most one mobile list stored, that entry is the first |
| CustomListSelectors.WithId | src/custom-lists/selectors.js:121 | Holds every list with the id and no other. It is empty iff no list has the id, and otherwise begins with the first such list |
| CustomListSelectors.ActiveCollectionName | src/custom-lists/selectors.js:115-124 | Undefined for a falsy filter. Otherwise it is the name of the first list whose id equals `Number(listFilter)`, and undefined iff there is none |
| CustomListSelectors.FalsyFilterFlagsListZero | src/custom-lists/selectors.js:66-124 | A null or empty-string filter flags every list with id 0 in `results`, while `activeCollectionName` names no list |

## Left out

- `ProgressManager` and the import state manager are not part of this model. The importer is a run bit plus a concurrency value, and `fetchEsts`/`dirtyEstsCache` are logged calls whose answers are parameters. The worker pool, item processing, per-item errors and the "N items give N NEXT events then one COMPLETE" behaviour are therefore not modelled.
- The `fetch` call, `response.json()`, `browser.storage.local` and `localStorage` are not modelled as I/O. The response is a record argument, the persisted flag is a boolean field, and `localStorage` is a map field of the store.
- Asynchrony is not modelled. The initialization promise is an explicit hydration step inside the constructor, so a store that fails to read (which rejects the promise) is not modelled. Un-awaited writes (`setImportInProgressFlag` in `startImport`, `finishImport`, `cancelImport` and the observer) take effect immediately, and interleavings of concurrent handler calls are not modelled.
- `console.error` logging on an unknown command and on a failed refresh is not modelled. The refresh outcome `NoTokenFromServer` stands for the latter.
- `memexCloudOrigin` and the request body are kept only as the `RefreshRequest` value (URL and refresh token). Headers and credentials are left out.
- `expiresInSeconds` and time values are integers. Fractional milliseconds and exponent notation in `Number#toString`/`parseFloat` are not modelled.
- `String.prototype.toLowerCase` is an arbitrary total function. Each property holds for every choice of it.
- `MOBILE_LIST_NAME` comes from an external package that is not part of this model. The constant used is "Saved from Mobile".
- The list filter is undefined, null, an integral number or a string. The selector that produces it is not part of this model, and the `false` value is not modelled.
- `Number(...)` on a string is modelled for integral decimal numerals with an optional sign; the empty string is 0. Surrounding whitespace, hexadecimal, exponent and fractional notation read as NaN in the model, whereas JavaScript may give a number (`Number(" 5 ")` is 5).
- CustomListSelectors.SortLists: models `Array.prototype.sort` as a stable insertion sort. With at most one mobile list the comparator is a consistent total preorder, so every stable sort gives this order. With two or more mobile lists the comparator is inconsistent (each of two mobile lists sorts before the other), and JavaScript leaves the order implementation-defined. For that case the model proves only that the result is a permutation, has mobile lists first and orders the rest by name.
- The rest of `selectors.js` (plain field accessors such as `deleteConfirmProps` and `showAddToList`) is not modelled.
- The sort is modelled on values: `lists.sort` mutates the selector's input array in place, and that aliasing is not captured.

## Findings

| source | as written | input that shows it | evidently intended | confidence | as-written member | corrected member |
|---|---|---|---|---|---|---|
| src/backup-restore/background/backend/google-drive/token-manager.ts:46-49 | `getRefreshToken` returns `this.accessToken` | store `access` = "a" and `refresh` = "r" under prefix "drive-"; `getRefreshToken()` gives "a" | return the refresh token ("r") | high (not executed) | GoogleDriveTokens.RefreshTokenAsWrittenReturnsAccessToken | GoogleDriveTokens.DriveTokenManager.GetRefreshToken |
| src/backup-restore/background/backend/google-drive/token-manager.ts:105-108 | `this.tokenExpiryDate.getTime()` with no expiry date ever set | empty `localStorage` (fresh install); `isAccessTokenExpired()` throws a TypeError | an unset expiry reads as expired, so `refreshAccessToken` refreshes | high (not executed) | GoogleDriveTokens.ExpiredAsWrittenThrowsOnFreshInstall | GoogleDriveTokens.Expired |

The rest of the model uses the corrected members. `RefreshAccessToken` decides by `Expired`, and `GetRefreshToken` returns the refresh token. An expiry date that is set but invalid (NaN) is modelled as the source behaves: `now >= NaN` is false, so the token is never reported expired.

# Group-buying mini-app: bootstrap, session and tab bar

This project is a Dafny model of the two stateful pieces at the start of a group-buying
mini-program for parent-child activities. It covers:

- **The application controller** (`app.js`). At launch it resets `globalData` to a
  logged-out session, records the subpackage manager, restores the login session from host
  storage and preloads the core subpackage. Restore checks the stored token expiry on the
  spot and clears the login state when the expiry has passed. When the app comes to the
  foreground, the controller preloads the common subpackages according to the network type.
- **The custom tab bar** (`custom-tab-bar/index.js`). It has a fixed list of four tabs and a
  `selected` index. A tap requests a tab switch, and the index follows only a confirmed
  switch. Re-syncing (on attach, or through `init`) selects the first tab whose path matches
  the route of the page on top of the stack.

Files:

- `options.dfy`: `Option`. A host callback that failed, or a page stack with no top page, is
  `None`.
- `js_value.dfy` (module `JsValue`): the JavaScript semantics the controller relies on:
  - values (`undefined`, `null`, booleans, integer numbers, strings, objects as maps);
  - truthiness and `a || b`;
  - reading a property;
  - what `...v` copies into an object literal;
  - `now > v` with JavaScript's number conversion.
- `app.dfy` (module `Application`):
  - pure step functions over `Globals`, which holds storage, `globalData.userInfo`,
    `globalData.userToken`, whether the manager is set, and the preload requests issued;
  - the lemmas about those functions;
  - class `App`, which runs the same steps field by field. Each method ensures
    `State() == Step(old(State()), ...)`.
- `tab_bar.dfy` (module `TabBar`):
  - `indexOf` and `String.prototype.replace` with a string pattern;
  - the `findIndex` match;
  - lemmas for concrete routes;
  - class `CustomTabBar` with `SwitchTab`, `SetSelected`, `Init` and `Attached`.

Host callbacks become explicit inputs:

- `Date.now()` is the parameter `now`.
- The `wx.getNetworkType` outcome is `Option<string>`: `None` is the `fail` callback.
- The `wx.switchTab` outcome is a `NavOutcome`.
- `getCurrentPages()` gives an `Option<string>`: the route of the top page, or `None`.
- The `require('./utils/subpackageManager')` result is a boolean: present or not.
- The subpackage manager's `preloadSubpackage` calls are recorded as a sequence of
  `(bundle, priority)` requests.

Behaviour of the code that is easy to misread:

- Route matching strips the first `"/index"` anywhere in the string.
  `TabBar.ResolveInnerIndexRoute` shows the consequence: the route
  `pages/course/index-list` resolves to tab 1.
- Restore spreads the whole stored profile last, so stored keys include `isLogin`,
  `isTeacher`, `nickname`, `avatar` and `userId`, and each overrides the derived field. A
  stored `isLogin: false` therefore yields a logged-out "restored" session
  (`Application.RestoredFromObject`).
- Restore without credentials only sets `isLogin` to false. The session equals the default
  logged-out session only because `onLaunch` has just reset it
  (`Application.RestoreWithoutCredentials` against `Application.LaunchWithoutCredentials`).
- The token expiry check is called synchronously from restore (app.js:190), so its effect is
  part of the restore step.
- A network type other than `wifi`, `4g` or `5g` preloads nothing.

## Model

| member | source | states |
|---|---|---|
| JsValue.Or | app.js:180-182 | JavaScript `or` (`a` or `b`) is `a` when `a` is truthy and `b` otherwise; it is truthy iff either operand is |
| JsValue.Spread | app.js:183 | spreading an object copies exactly its fields; spreading a non-string primitive copies nothing |
| JsValue.ToNumber | app.js:207 | a number converts to itself; `undefined` and an object convert to NaN, so `now > expiry` is false for them |
| JsValue.Truthy | app.js:171 | defines JavaScript truthiness: `undefined`, `null`, `false`, `0` and `""` are falsy, every object is truthy |
| JsValue.Prop | app.js:179-182 | reading `v.key`: an object's own field when present, otherwise `undefined` |
| JsValue.GreaterThan | app.js:207 | defines `now > v`: `v` is converted to a number, and the comparison is false when it converts to NaN |
| Application.StorageGet | app.js:168-169 | `wx.getStorageSync(key)`: the stored value, and a falsy value for a missing key |
| Application.Expired | app.js:206-207 | the expiry has passed only if a `tokenExpiry` entry is stored, is truthy, converts to a number, and `now` is strictly greater |
| Application.MarkedLoggedOut | app.js:191-197 | the restore fallback: `isLogin` becomes falsy, every other session key, the token, storage, manager and requests are unchanged |
| Application.Restored | app.js:163-199 | restore never touches the manager or the requests, leaves storage either unchanged or without the credential keys, always defines `isLogin`, and leaves the token as it was, null or the stored token |
| Application.Validated | app.js:202-221 | validation either changes nothing or is the logout; it never adds a storage key and never touches the manager or the requests |
| Application.Launched | app.js:10-47 | after launch the manager flag is the one supplied, the core tier is appended to the requests, all five session keys are defined, and the token is undefined, null or the stored token |
| Application.Shown | app.js:49-54 | foregrounding leaves storage and `globalData` untouched and appends at most three requests after the ones already issued |
| Application.RestoredSession | app.js:177-184 | the restored session has the five derived keys plus every stored key; every stored key keeps its stored value; each derived key the profile lacks is `isLogin = true`, `isTeacher = (user_type === 'teacher')`, `nickname`/`avatar` = stored value or `""`, `userId` = the first truthy of `id`, `userId`, else `""` |
| Application.RestoredFromObject | app.js:177-184 | for a stored profile object, each of the five fields is the profile's own value when present, otherwise `true`, the role test, `""`, `""` and the truthy `id` or `""` |
| Application.RestoreWithCredentials | app.js:168-190 | with a truthy string token, a truthy profile and no passed expiry, the session is the restored one, the token is the stored token, and storage, manager and requests are unchanged |
| Application.RestoreExpired | app.js:185-190 | with valid credentials whose expiry has passed, restore ends in exactly the cleared state |
| Application.RestoreWithoutCredentials | app.js:171-194 | when either the stored token or the stored profile is falsy, only `isLogin` becomes false; the other session fields, the token and storage are unchanged |
| Application.RestoreNonStringToken | app.js:171-197 | a truthy token that is not a string throws at `substring`, and the catch leaves only `isLogin = false` |
| Application.ValidateClearsIffExpired | app.js:206-213 | validation changes the state iff the expiry is truthy and `now > expiry`, and the change is then exactly the logout |
| Application.ValidateAtExpiryInstantKeeps | app.js:207 | the comparison is strict: an expiry equal to `now` keeps the session |
| Application.ValidateAfterClearUnchanged | app.js:206-211 | after a clear there is no expiry, so validating again changes nothing |
| Application.ValidateIdempotent | app.js:202-221 | validating twice with the same clock equals validating once |
| Application.Cleared | app.js:224-238 | logout removes exactly `userToken`, `userInfo`, `tokenExpiry` and `isNewUser`; every other key keeps its value; the session is the logged-out default; the token is null; manager and requests are untouched |
| Application.ClearIdempotent | app.js:224-244 | clearing twice equals clearing once |
| Application.CoreTier | app.js:67-73 | the core tier issues a request iff the manager is present, and then exactly one: `("user", high)` |
| Application.CommonTier | app.js:80-105 | no manager gives no requests; at most three requests; bundles only `courses`, `group`, `components`; never high priority; `courses` first; a medium request iff the network is `wifi` |
| Application.CommonTierWifi | app.js:89-94 | on `wifi`: `courses` medium, `group` medium, `components` low, in that order |
| Application.CommonTierFailureLikeCellular | app.js:95-105 | a failed network query issues the same single `("courses", low)` request as `4g` and `5g` |
| Application.CommonTierOtherNetwork | app.js:86-100 | any other reported network type issues nothing |
| Application.LaunchWithoutCredentials | app.js:10-47 | launch without credentials ends with the default logged-out session, an undefined token, storage unchanged and the core tier appended |
| Application.LaunchWithCredentials | app.js:10-47 | launch with valid, unexpired credentials ends with the restored session and stored token, storage unchanged and the core tier appended |
| Application.LaunchExpired | app.js:10-47 | launch with expired credentials ends logged out, with a null token, the four credential keys removed and the core tier appended |
| Application.LaunchKeepsTokenOnlyWithValidCredentials | app.js:10-47 | a string token after launch implies it is the stored token, the stored token and profile were truthy, the expiry had not passed, and storage is unchanged |
| Application.App.constructor | app.js:9-29 | the registered app starts with the persisted storage, an empty `globalData`, no manager and no requests |
| Application.App.OnLaunch | app.js:10-47 | the new state is the launch step of the old state: defaults, manager, restore, core preload |
| Application.App.OnShow | app.js:49-54 | the new state is the old one with the common tier appended |
| Application.App.InitSubpackageManager | app.js:57-64 | only the manager flag changes |
| Application.App.PreloadCoreSubpackages | app.js:67-77 | only the request log changes, by the core tier |
| Application.App.PreloadCommonSubpackages | app.js:80-110 | only the request log changes, by the common tier for the reported network |
| Application.App.CheckAndRestoreLoginState | app.js:163-199 | the new state is the restore step of the old state |
| Application.App.ValidateTokenAsync | app.js:202-221 | the new state is the validation step of the old state |
| Application.App.ClearLoginState | app.js:224-244 | the new state is the cleared state; none of the four credential keys remains in storage |
| TabBar.TabsConfiguration | custom-tab-bar/index.js:8-33 | four tabs, with paths `pages/home/home_new`, `pages/course-list/index`, `pages/discover/index`, `pages/usercenter/index` |
| TabBar.CustomTabBar.constructor | custom-tab-bar/index.js:2-34 | a new bar has the four configured tabs and `selected = 0` |
| TabBar.IndexFromSpec | custom-tab-bar/index.js:79 | the search from `from` returns an occurrence with none before it, or -1 only when no occurrence exists at or after `from` |
| TabBar.IndexOf | custom-tab-bar/index.js:79 | -1 iff the pattern occurs nowhere; otherwise the leftmost occurrence |
| TabBar.ReplaceFirst | custom-tab-bar/index.js:79 | without an occurrence the string is unchanged; otherwise exactly the leftmost occurrence is replaced, wherever it stands |
| TabBar.Normalized | custom-tab-bar/index.js:79 | defines `s.replace('/index', '')`: `ReplaceFirst` with the pattern `/index` and an empty replacement |
| TabBar.Matches | custom-tab-bar/index.js:78-79 | defines the `findIndex` callback: exact equality, or equality after both are normalized |
| TabBar.MatchesIffNormalizedEqual | custom-tab-bar/index.js:78-79 | the match holds iff both strings are equal after stripping `/index`; the exact-equality disjunct adds nothing |
| TabBar.FirstMatchFrom | custom-tab-bar/index.js:75-80 | the result is the smallest matching index at or after `from`, or -1 when none matches |
| TabBar.FirstMatch | custom-tab-bar/index.js:75-80 | `findIndex`: -1 iff no tab matches; otherwise a matching index in `[0, n)` with no matching index before it |
| TabBar.Resynced | custom-tab-bar/index.js:66-89 | no top page keeps the selection; a changed selection names a matching tab; if some tab matches, the result is the first matching tab |
| TabBar.ResyncIdempotent | custom-tab-bar/index.js:66-89 | re-syncing twice against the same page equals re-syncing once |
| TabBar.TabPathsNormalized | custom-tab-bar/index.js:8-33 | the four paths after stripping `/index`: `pages/home/home_new`, `pages/course-list`, `pages/discover`, `pages/usercenter` |
| TabBar.TabsResolveToThemselves | custom-tab-bar/index.js:75-80 | each tab's own path resolves to that tab |
| TabBar.ResolveHomeRoute | custom-tab-bar/index.js:75-80 | route `pages/home/home_new` resolves to 0 |
| TabBar.ResolveCourseListRoute | custom-tab-bar/index.js:75-80 | route `pages/course-list/index` resolves to 1 |
| TabBar.ResolveDiscoverRoute | custom-tab-bar/index.js:75-80 | route `pages/discover/index` resolves to 2 |
| TabBar.ResolveUserCenterIndexRoute | custom-tab-bar/index.js:75-80 | route `pages/usercenter/index` resolves to 3 |
| TabBar.ResolveUserCenterRoute | custom-tab-bar/index.js:75-80 | route `pages/usercenter` resolves to 3 through stripping, although it equals no tab path |
| TabBar.ResolveInnerIndexRoute | custom-tab-bar/index.js:75-80 | route `pages/course/index-list` resolves to 1, because the first `/index` is stripped even in the middle of the route |
| TabBar.CustomTabBar.SwitchTab | custom-tab-bar/index.js:41-64 | tapping the selected tab issues no request and changes nothing; otherwise the request is `"/" + path`, and `selected` becomes `index` iff the switch succeeds; a valid selection stays valid for an in-range index |
| TabBar.CustomTabBar.SetSelected | custom-tab-bar/index.js:66-89 | `selected` becomes the resync of the old selection against the top page; a valid selection stays valid |
| TabBar.CustomTabBar.Init | custom-tab-bar/index.js:91-93 | exactly the effect of `SetSelected` |
| TabBar.CustomTabBar.Attached | custom-tab-bar/index.js:36-38 | exactly the effect of `SetSelected` |

## Left out

- backend/main.go (server start-up wiring: flags, `.env`, logger, configuration, database,
  router, task manager) is all I/O and calls into packages that are not part of this model.
- `getSystemInfo` (app.js:113-142) and the `systemInfo`/`location` fields of `globalData`:
  host device and window queries and their fallback, with no logic to verify.
- `updateManager()` in `onShow` and the `util`, `serviceManager` and map SDK modules
  (app.js:1-7, 50): foreign modules whose code is not part of this model.
- The commented-out `getUserLocation` (app.js:145-160).
- All console output, including the token-prefix log (app.js:174). Its only effect is in the
  model: a truthy token that is not a string throws there.
- Failures of the host storage calls and of `preloadSubpackage` are not modelled. Storage
  reads and removals always succeed here, and every preload request is recorded. In the
  source a `try`/`catch` absorbs a failure in restore, logout and the core tier. The common
  tier's calls (app.js:91-93, 97, 104) run inside the `wx.getNetworkType` callbacks, after
  the `try` at app.js:83-109 has exited. A throw there reaches the host, and on `wifi` it
  also skips the remaining `preloadSubpackage` calls.
- The asynchronous timing of `wx.getNetworkType`, `wx.switchTab` and `Date.now()`. Their
  results are inputs, and a callback that never fires is not modelled.
- `validateTokenAsync` receives the token and profile but never reads them, so the model's
  `ValidateTokenAsync` takes only the clock.
- JavaScript numbers are integers here, so NaN, fractions and float rounding are not
  modelled.
- JsValue.ToNumber: a stored array is represented as an `Obj` and converts to NaN here.
  JavaScript converts `[]` to 0 and `[5]` to 5, so an array `tokenExpiry` such as `[5]`
  expires in JavaScript but never in the model.
- JsValue.ToNumber: it converts a string only when the string is a non-empty run of decimal
  digits. Whitespace, signs, fractions, exponents and hex strings convert to NaN here,
  though `Number` accepts them.
- JsValue.Prop: it does not model built-in properties of primitives such as a string's
  `length`. The core reads none of them.
- JsValue.Spread: its contract does not describe the string case. The string case is
  defined: keys `"0"`, `"1"`, ... map to one-character strings. Dafny characters are
  Unicode scalar values, not UTF-16 code units.
- A missing storage key reads as `undefined`. The host returns `""`, which is falsy too, so
  every branch of the core behaves the same.
- Before `onLaunch` runs, the model's `globalData.userInfo` is an empty map. The source has
  no `userInfo` at all at that point, but the host runs `onLaunch` before anything reads it.
- TabBar.CustomTabBar.SwitchTab: the tapped index is assumed to be an integer. The page
  template that sets `data-index` is not part of this model. A string index, for which
  `===` never holds, is not modelled.
- TabBar.ReplaceFirst: it models `replace` only for a replacement without `$` patterns
  (`$&`, `$$` and the like), which JavaScript expands. The core passes only `""`.
- The tab bar's colours, icons and border style carry no behaviour; the labels are kept with
  the paths.

/**
 * The application controller: start-up, session restore from host storage, local token
 * expiry check, logout, and the two tiers of subpackage preloading.
 *
 * The pure functions over `Globals` say what each lifecycle step does to the controller's
 * state; the class `App` performs the same steps in place, field by field, and each of its
 * methods is proved to produce exactly the state its function describes.
 */
module Application {
  import opened Options
  import opened JsValue

  datatype Priority = High | Medium | Low

  /** One call `preloadSubpackage(bundle, priority)` into the subpackage manager. */
  datatype PreloadRequest = PreloadRequest(bundle: string, priority: Priority)

  /**
   * Everything the controller reads or writes: host storage, `globalData.userInfo`,
   * `globalData.userToken`, whether `globalData.subpackageManager` is set, and the
   * preload requests handed to the manager so far.
   */
  datatype Globals = Globals(
    storage: map<string, Value>,
    userInfo: map<string, Value>,
    userToken: Value,
    hasManager: bool,
    issued: seq<PreloadRequest>)

  /** The storage keys logout removes. */
  const CredentialKeys: set<string> := {"userToken", "userInfo", "tokenExpiry", "isNewUser"}

  /** The session fields the controller derives itself. */
  const SessionKeys: set<string> := {"isLogin", "isTeacher", "nickname", "avatar", "userId"}

  /** The logged-out session written at start-up and by logout. */
  const LoggedOut: map<string, Value> := map[
    "isLogin" := Bool(false),
    "isTeacher" := Bool(false),
    "nickname" := Str(""),
    "avatar" := Str(""),
    "userId" := Str("")]

  /** `wx.getStorageSync(key)`; a missing key reads as a falsy value. */
  function StorageGet(storage: map<string, Value>, key: string): (r: Value)
    ensures key !in storage ==> !Truthy(r)
    ensures key in storage ==> r == storage[key]
  {
    if key in storage then storage[key] else Undefined
  }

  /** The session fields computed from the stored profile before it is spread over them. */
  function DerivedSession(info: Value): map<string, Value>
    requires Truthy(info)
  {
    map[
      "isLogin" := Bool(true),
      "isTeacher" := Bool(Prop(info, "user_type") == Str("teacher")),
      "nickname" := Or(Prop(info, "nickname"), Str("")),
      "avatar" := Or(Prop(info, "avatar"), Str("")),
      "userId" := Or(Or(Prop(info, "id"), Prop(info, "userId")), Str(""))]
  }

  /**
   * `{isLogin: true, isTeacher: ..., nickname: ..., avatar: ..., userId: ..., ...userInfo}`:
   * the stored profile is spread last, so each of its keys overrides the derived field.
   */
  function RestoredSession(info: Value): (r: map<string, Value>)
    requires Truthy(info)
    ensures r.Keys == SessionKeys + Spread(info).Keys
    ensures forall k :: k in Spread(info) ==> r[k] == Spread(info)[k]
    ensures "isLogin" !in Spread(info) ==> r["isLogin"] == Bool(true)
    ensures "isTeacher" !in Spread(info) ==>
      r["isTeacher"] == Bool(Prop(info, "user_type") == Str("teacher"))
    ensures "nickname" !in Spread(info) ==>
      r["nickname"] == (if Truthy(Prop(info, "nickname")) then Prop(info, "nickname") else Str(""))
    ensures "avatar" !in Spread(info) ==>
      r["avatar"] == (if Truthy(Prop(info, "avatar")) then Prop(info, "avatar") else Str(""))
    ensures "userId" !in Spread(info) ==>
      r["userId"] == (if Truthy(Prop(info, "id")) then Prop(info, "id")
                      else if Truthy(Prop(info, "userId")) then Prop(info, "userId")
                      else Str(""))
  {
    DerivedSession(info) + Spread(info)
  }

  /** The stored expiry is truthy and the clock is strictly past it. */
  predicate Expired(storage: map<string, Value>, now: int)
    ensures Expired(storage, now) ==> "tokenExpiry" in storage && ToNumber(storage["tokenExpiry"]).Some?
  {
    var expiry := StorageGet(storage, "tokenExpiry");
    Truthy(expiry) && GreaterThan(now, expiry)
  }

  /**
   * `clearLoginState`: exactly the four credential keys leave storage, every other key keeps
   * its value, the session is the logged-out default and the token is null.
   */
  function Cleared(g: Globals): (r: Globals)
    ensures forall k :: k in r.storage <==> k in g.storage && k !in CredentialKeys
    ensures forall k :: k in r.storage ==> r.storage[k] == g.storage[k]
    ensures r.userInfo == LoggedOut && r.userToken == Null
    ensures r.hasManager == g.hasManager && r.issued == g.issued
  {
    g.(storage := g.storage - CredentialKeys, userInfo := LoggedOut, userToken := Null)
  }

  /**
   * `validateTokenAsync`: clear the session when the stored expiry has passed. It never
   * adds a storage key and never touches the manager or the preload requests.
   */
  function Validated(g: Globals, now: int): (r: Globals)
    ensures r == g || r == Cleared(g)
    ensures r.storage.Keys <= g.storage.Keys
    ensures r.hasManager == g.hasManager && r.issued == g.issued
  {
    if Expired(g.storage, now) then Cleared(g) else g
  }

  /** The restore's fallback: `isLogin` becomes false and nothing else changes. */
  function MarkedLoggedOut(g: Globals): (r: Globals)
    ensures r.userInfo.Keys == g.userInfo.Keys + {"isLogin"}
    ensures !Truthy(r.userInfo["isLogin"])
    ensures forall k :: k in g.userInfo && k != "isLogin" ==> r.userInfo[k] == g.userInfo[k]
    ensures r.storage == g.storage && r.userToken == g.userToken
    ensures r.hasManager == g.hasManager && r.issued == g.issued
  {
    g.(userInfo := g.userInfo["isLogin" := Bool(false)])
  }

  /**
   * `checkAndRestoreLoginState`, including the expiry check it calls synchronously. A
   * truthy token that is not a string makes `userToken.substring` throw before anything is
   * written, and the catch marks the session logged out.
   */
  function Restored(g: Globals, now: int): (r: Globals)
    ensures r.hasManager == g.hasManager && r.issued == g.issued
    ensures r.storage == g.storage || r.storage == g.storage - CredentialKeys
    ensures "isLogin" in r.userInfo
    ensures r.userToken == g.userToken || r.userToken == Null || r.userToken == StorageGet(g.storage, "userToken")
  {
    var token := StorageGet(g.storage, "userToken");
    var info := StorageGet(g.storage, "userInfo");
    if Truthy(token) && Truthy(info) then
      if token.Str? then Validated(g.(userInfo := RestoredSession(info), userToken := token), now)
      else MarkedLoggedOut(g)
    else MarkedLoggedOut(g)
  }

  /** The requests `preloadCoreSubpackages` issues. */
  function CoreTier(hasManager: bool): (r: seq<PreloadRequest>)
    ensures hasManager <==> r != []
    ensures forall i :: 0 <= i < |r| ==> r[i] == PreloadRequest("user", High)
    ensures |r| <= 1
  {
    if hasManager then [PreloadRequest("user", High)] else []
  }

  /**
   * The requests `preloadCommonSubpackages` issues once the network query has answered:
   * `network` is the reported network type, or `None` when the query failed.
   */
  function CommonTier(hasManager: bool, network: Option<string>): (r: seq<PreloadRequest>)
    ensures !hasManager ==> r == []
    ensures |r| <= 3
    ensures forall i :: 0 <= i < |r| ==> r[i].bundle in {"courses", "group", "components"}
    ensures forall i :: 0 <= i < |r| ==> r[i].priority != High
    ensures r != [] ==> r[0].bundle == "courses"
    ensures (exists i :: 0 <= i < |r| && r[i].priority == Medium) <==> hasManager && network == Some("wifi")
  {
    if !hasManager then []
    else match network
      case None => [PreloadRequest("courses", Low)]
      case Some(t) =>
        if t == "wifi" then
          [PreloadRequest("courses", Medium), PreloadRequest("group", Medium), PreloadRequest("components", Low)]
        else if t == "4g" || t == "5g" then [PreloadRequest("courses", Low)]
        else []
  }

  /**
   * `onLaunch`: replace `globalData` with the logged-out defaults (which drops any
   * `userToken`), record the subpackage manager, restore the session, preload the core tier.
   */
  function Launched(g: Globals, managerAvailable: bool, now: int): (r: Globals)
    ensures r.hasManager == managerAvailable
    ensures r.issued == g.issued + CoreTier(managerAvailable)
    ensures SessionKeys <= r.userInfo.Keys
    ensures r.userToken == Undefined || r.userToken == Null || r.userToken == StorageGet(g.storage, "userToken")
  {
    var reset := g.(userInfo := LoggedOut, userToken := Undefined, hasManager := managerAvailable);
    var restored := Restored(reset, now);
    restored.(issued := restored.issued + CoreTier(restored.hasManager))
  }

  /**
   * `onShow`: preload the common tier for the reported network. Storage and `globalData`
   * are untouched; the requests already issued stay as they were, and at most three follow.
   */
  function Shown(g: Globals, network: Option<string>): (r: Globals)
    ensures r.storage == g.storage && r.userInfo == g.userInfo && r.userToken == g.userToken
    ensures r.hasManager == g.hasManager
    ensures |g.issued| <= |r.issued| <= |g.issued| + 3 && r.issued[..|g.issued|] == g.issued
  {
    g.(issued := g.issued + CommonTier(g.hasManager, network))
  }

  // ---------------------------------------------------------------------------------------
  // Logout

  lemma ClearIdempotent(g: Globals)
    ensures Cleared(Cleared(g)) == Cleared(g)
  {
    assert Cleared(g).storage - CredentialKeys == g.storage - CredentialKeys;
  }

  // ---------------------------------------------------------------------------------------
  // Expiry check

  /**
   * Validation changes the state exactly when the expiry is truthy and strictly in the past,
   * and the change is then the logout.
   */
  lemma ValidateClearsIffExpired(g: Globals, now: int)
    ensures Validated(g, now) != g <==> Expired(g.storage, now)
    ensures Expired(g.storage, now) ==> Validated(g, now) == Cleared(g)
  {
    if Expired(g.storage, now) {
      assert "tokenExpiry" !in Validated(g, now).storage;
    }
  }

  /** An expiry equal to the clock does not count as expired: the comparison is strict. */
  lemma ValidateAtExpiryInstantKeeps(g: Globals, now: int)
    requires StorageGet(g.storage, "tokenExpiry") == Num(now)
    ensures Validated(g, now) == g
  {
  }

  /** Once cleared there is no expiry left, so validating again changes nothing. */
  lemma ValidateAfterClearUnchanged(g: Globals, now: int)
    ensures !Expired(Cleared(g).storage, now)
    ensures Validated(Cleared(g), now) == Cleared(g)
  {
    assert "tokenExpiry" !in Cleared(g).storage;
  }

  lemma ValidateIdempotent(g: Globals, now: int)
    ensures Validated(Validated(g, now), now) == Validated(g, now)
  {
    if Expired(g.storage, now) {
      ValidateAfterClearUnchanged(g, now);
    }
  }

  // ---------------------------------------------------------------------------------------
  // Restore

  /** Without a truthy token and a truthy profile only `isLogin` changes, to false. */
  lemma RestoreWithoutCredentials(g: Globals, now: int)
    requires !Truthy(StorageGet(g.storage, "userToken")) || !Truthy(StorageGet(g.storage, "userInfo"))
    ensures Restored(g, now).userInfo == g.userInfo["isLogin" := Bool(false)]
    ensures Restored(g, now).storage == g.storage
    ensures Restored(g, now).userToken == g.userToken
    ensures forall k :: k in g.userInfo && k != "isLogin" ==> Restored(g, now).userInfo[k] == g.userInfo[k]
  {
  }

  /** A truthy non-string token throws before the session is written; the catch logs out. */
  lemma RestoreNonStringToken(g: Globals, now: int)
    requires Truthy(StorageGet(g.storage, "userToken")) && !StorageGet(g.storage, "userToken").Str?
    ensures Restored(g, now) == MarkedLoggedOut(g)
  {
  }

  /** Valid, unexpired credentials: the session is the restored one and storage is untouched. */
  lemma RestoreWithCredentials(g: Globals, now: int)
    requires StorageGet(g.storage, "userToken").Str? && Truthy(StorageGet(g.storage, "userToken"))
    requires Truthy(StorageGet(g.storage, "userInfo"))
    requires !Expired(g.storage, now)
    ensures Restored(g, now).userInfo == RestoredSession(StorageGet(g.storage, "userInfo"))
    ensures Restored(g, now).userToken == StorageGet(g.storage, "userToken")
    ensures Restored(g, now).storage == g.storage
    ensures Restored(g, now).hasManager == g.hasManager && Restored(g, now).issued == g.issued
  {
  }

  /** Valid but expired credentials: restore ends in the cleared state. */
  lemma RestoreExpired(g: Globals, now: int)
    requires StorageGet(g.storage, "userToken").Str? && Truthy(StorageGet(g.storage, "userToken"))
    requires Truthy(StorageGet(g.storage, "userInfo"))
    requires Expired(g.storage, now)
    ensures Restored(g, now) == Cleared(g)
  {
  }

  /**
   * For a stored profile object the derived defaults only show where the profile lacks the
   * key: a profile carrying `isLogin: false` yields a logged-out "restored" session, and
   * `userId` falls back to `id` only when the profile has no `userId` at all.
   */
  lemma RestoredFromObject(m: map<string, Value>)
    ensures var r := RestoredSession(Obj(m));
      && r["isLogin"] == (if "isLogin" in m then m["isLogin"] else Bool(true))
      && r["isTeacher"] == (if "isTeacher" in m then m["isTeacher"]
                            else Bool("user_type" in m && m["user_type"] == Str("teacher")))
      && r["nickname"] == (if "nickname" in m then m["nickname"] else Str(""))
      && r["avatar"] == (if "avatar" in m then m["avatar"] else Str(""))
      && r["userId"] == (if "userId" in m then m["userId"]
                         else if "id" in m && Truthy(m["id"]) then m["id"] else Str(""))
  {
  }

  // ---------------------------------------------------------------------------------------
  // Preloading

  /** A failed network query falls back to the cellular plan. */
  lemma CommonTierFailureLikeCellular(hasManager: bool)
    ensures CommonTier(hasManager, None) == CommonTier(hasManager, Some("4g"))
    ensures CommonTier(hasManager, Some("4g")) == CommonTier(hasManager, Some("5g"))
    ensures hasManager ==> CommonTier(hasManager, None) == [PreloadRequest("courses", Low)]
  {
  }

  lemma CommonTierWifi()
    ensures CommonTier(true, Some("wifi")) ==
      [PreloadRequest("courses", Medium), PreloadRequest("group", Medium), PreloadRequest("components", Low)]
  {
  }

  /** Any other reported network type preloads nothing. */
  lemma CommonTierOtherNetwork(t: string)
    requires t != "wifi" && t != "4g" && t != "5g"
    ensures CommonTier(true, Some(t)) == []
  {
  }

  // ---------------------------------------------------------------------------------------
  // Start-up, end to end

  /** Without stored credentials start-up ends logged out with the default session. */
  lemma LaunchWithoutCredentials(g: Globals, managerAvailable: bool, now: int)
    requires !Truthy(StorageGet(g.storage, "userToken")) || !Truthy(StorageGet(g.storage, "userInfo"))
    ensures Launched(g, managerAvailable, now).userInfo == LoggedOut
    ensures Launched(g, managerAvailable, now).userToken == Undefined
    ensures Launched(g, managerAvailable, now).storage == g.storage
    ensures Launched(g, managerAvailable, now).issued == g.issued + CoreTier(managerAvailable)
  {
    assert LoggedOut["isLogin" := Bool(false)] == LoggedOut;
  }

  /** With valid, unexpired credentials start-up restores the session and keeps storage. */
  lemma LaunchWithCredentials(g: Globals, managerAvailable: bool, now: int)
    requires StorageGet(g.storage, "userToken").Str? && Truthy(StorageGet(g.storage, "userToken"))
    requires Truthy(StorageGet(g.storage, "userInfo"))
    requires !Expired(g.storage, now)
    ensures Launched(g, managerAvailable, now).userInfo == RestoredSession(StorageGet(g.storage, "userInfo"))
    ensures Launched(g, managerAvailable, now).userToken == StorageGet(g.storage, "userToken")
    ensures Launched(g, managerAvailable, now).storage == g.storage
    ensures Launched(g, managerAvailable, now).issued == g.issued + CoreTier(managerAvailable)
  {
    var reset := g.(userInfo := LoggedOut, userToken := Undefined, hasManager := managerAvailable);
    RestoreWithCredentials(reset, now);
  }

  /** With expired credentials start-up ends cleared: no credential keys, null token. */
  lemma LaunchExpired(g: Globals, managerAvailable: bool, now: int)
    requires StorageGet(g.storage, "userToken").Str? && Truthy(StorageGet(g.storage, "userToken"))
    requires Truthy(StorageGet(g.storage, "userInfo"))
    requires Expired(g.storage, now)
    ensures Launched(g, managerAvailable, now).userInfo == LoggedOut
    ensures Launched(g, managerAvailable, now).userToken == Null
    ensures Launched(g, managerAvailable, now).storage == g.storage - CredentialKeys
    ensures Launched(g, managerAvailable, now).issued == g.issued + CoreTier(managerAvailable)
  {
    var reset := g.(userInfo := LoggedOut, userToken := Undefined, hasManager := managerAvailable);
    RestoreExpired(reset, now);
  }

  /**
   * After start-up the session holds the stored token and the storage is unchanged only if
   * a truthy string token and a truthy profile were stored and had not expired.
   */
  lemma {:induction false} LaunchKeepsTokenOnlyWithValidCredentials(g: Globals, managerAvailable: bool, now: int)
    requires Launched(g, managerAvailable, now).userToken.Str?
    ensures StorageGet(g.storage, "userToken") == Launched(g, managerAvailable, now).userToken
    ensures Truthy(StorageGet(g.storage, "userToken")) && Truthy(StorageGet(g.storage, "userInfo"))
    ensures !Expired(g.storage, now)
    ensures Launched(g, managerAvailable, now).storage == g.storage
  {
    var token := StorageGet(g.storage, "userToken");
    var info := StorageGet(g.storage, "userInfo");
    var reset := g.(userInfo := LoggedOut, userToken := Undefined, hasManager := managerAvailable);
    if !(Truthy(token) && Truthy(info)) {
      RestoreWithoutCredentials(reset, now);
      assert false;
    } else if !token.Str? {
      RestoreNonStringToken(reset, now);
      assert false;
    } else if Expired(g.storage, now) {
      RestoreExpired(reset, now);
      assert false;
    } else {
      RestoreWithCredentials(reset, now);
    }
  }

  // ---------------------------------------------------------------------------------------
  // The controller object

  /** The `App({...})` instance: host storage plus `globalData`, updated in place. */
  class App {
    var storage: map<string, Value>
    var userInfo: map<string, Value>
    var userToken: Value
    var hasManager: bool
    var issued: seq<PreloadRequest>

    function State(): Globals
      reads this
    {
      Globals(storage, userInfo, userToken, hasManager, issued)
    }

    /** The instance the host registers: `globalData` is still empty, storage is whatever persisted. */
    constructor (persisted: map<string, Value>)
      ensures State() == Globals(persisted, map[], Undefined, false, [])
    {
      storage := persisted;
      userInfo := map[];
      userToken := Undefined;
      hasManager := false;
      issued := [];
    }

    method OnLaunch(managerAvailable: bool, now: int)
      modifies this
      ensures State() == Launched(old(State()), managerAvailable, now)
    {
      userInfo := LoggedOut;
      userToken := Undefined;
      hasManager := false;
      InitSubpackageManager(managerAvailable);
      CheckAndRestoreLoginState(now);
      PreloadCoreSubpackages();
    }

    /** `onShow`; the update check it starts first is not part of this model. */
    method OnShow(network: Option<string>)
      modifies this
      ensures State() == Shown(old(State()), network)
    {
      PreloadCommonSubpackages(network);
    }

    method InitSubpackageManager(managerAvailable: bool)
      modifies this
      ensures State() == old(State()).(hasManager := managerAvailable)
    {
      hasManager := managerAvailable;
    }

    method PreloadCoreSubpackages()
      modifies this
      ensures State() == old(State()).(issued := old(issued) + CoreTier(old(hasManager)))
    {
      if !hasManager {
        return;
      }
      issued := issued + [PreloadRequest("user", High)];
    }

    method PreloadCommonSubpackages(network: Option<string>)
      modifies this
      ensures State() == Shown(old(State()), network)
    {
      if !hasManager {
        return;
      }
      match network {
        case None =>
          issued := issued + [PreloadRequest("courses", Low)];
        case Some(t) =>
          if t == "wifi" {
            issued := issued + [PreloadRequest("courses", Medium)];
            issued := issued + [PreloadRequest("group", Medium)];
            issued := issued + [PreloadRequest("components", Low)];
          } else if t == "4g" || t == "5g" {
            issued := issued + [PreloadRequest("courses", Low)];
          }
      }
    }

    method CheckAndRestoreLoginState(now: int)
      modifies this
      ensures State() == Restored(old(State()), now)
    {
      var token := StorageGet(storage, "userToken");
      var info := StorageGet(storage, "userInfo");
      if Truthy(token) && Truthy(info) {
        if !token.Str? {
          // `userToken.substring` throws; the catch marks the session logged out
          userInfo := userInfo["isLogin" := Bool(false)];
          return;
        }
        userInfo := RestoredSession(info);
        userToken := token;
        ValidateTokenAsync(now);
      } else {
        userInfo := userInfo["isLogin" := Bool(false)];
      }
    }

    method ValidateTokenAsync(now: int)
      modifies this
      ensures State() == Validated(old(State()), now)
    {
      var expiry := StorageGet(storage, "tokenExpiry");
      if Truthy(expiry) && GreaterThan(now, expiry) {
        ClearLoginState();
        return;
      }
    }

    method ClearLoginState()
      modifies this
      ensures State() == Cleared(old(State()))
      ensures forall k :: k in CredentialKeys ==> k !in storage
    {
      storage := storage - {"userToken"};
      storage := storage - {"userInfo"};
      storage := storage - {"tokenExpiry"};
      storage := storage - {"isNewUser"};
      assert storage == old(storage) - CredentialKeys;
      userInfo := LoggedOut;
      userToken := Null;
    }
  }
}

/**
 * The custom tab bar: a fixed list of four tab descriptors and a selected index that is
 * updated on a confirmed tab switch or on re-sync against the page on top of the stack.
 */
module TabBar {
  import opened Options

  /** A tab descriptor; its icons and the bar's colours carry no behaviour and are not modelled. */
  datatype TabItem = TabItem(pagePath: string, text: string)

  /** The bar's tabs, in display order. */
  const Tabs: seq<TabItem> := [
    TabItem("pages/home/home_new", "首页"),
    TabItem("pages/course-list/index", "拼团"),
    TabItem("pages/discover/index", "活动"),
    TabItem("pages/usercenter/index", "我的")]

  /** The bar has four tabs: home, group-buy listing, discovery and user centre. */
  lemma TabsConfiguration()
    ensures |Tabs| == 4
    ensures Tabs[0].pagePath == "pages/home/home_new"
    ensures Tabs[1].pagePath == "pages/course-list/index"
    ensures Tabs[2].pagePath == "pages/discover/index"
    ensures Tabs[3].pagePath == "pages/usercenter/index"
  {
  }

  /** The pattern that route matching strips once. */
  const IndexSegment: string := "/index"

  /** `pat` occurs in `s` starting at index `i`. */
  predicate OccursAt(s: string, pat: string, i: int) {
    0 <= i && i + |pat| <= |s| && s[i..i + |pat|] == pat
  }

  /** `i` is the leftmost occurrence of `pat` in `s`. */
  predicate FirstOccurrence(s: string, pat: string, i: int) {
    OccursAt(s, pat, i) && forall j :: 0 <= j < i ==> !OccursAt(s, pat, j)
  }

  /** The leftmost occurrence of `pat` in `s` at or after `from`, or -1 (see `IndexFromSpec`). */
  function IndexFrom(s: string, pat: string, from: nat): int
    decreases |s| - from
  {
    if from + |pat| > |s| then -1
    else if s[from..from + |pat|] == pat then from
    else IndexFrom(s, pat, from + 1)
  }

  /** The search finds the leftmost occurrence at or after `from`, and -1 only when there is none. */
  lemma {:induction false} IndexFromSpec(s: string, pat: string, from: nat)
    ensures var r := IndexFrom(s, pat, from);
      && (r == -1 || (from <= r && OccursAt(s, pat, r)))
      && (r == -1 ==> forall i :: from <= i ==> !OccursAt(s, pat, i))
      && (r != -1 ==> forall i :: from <= i < r ==> !OccursAt(s, pat, i))
    decreases |s| - from
  {
    if from + |pat| <= |s| && s[from..from + |pat|] != pat {
      IndexFromSpec(s, pat, from + 1);
    }
  }

  /** `s.indexOf(pat)`: the leftmost occurrence of `pat`, or -1 when there is none. */
  function IndexOf(s: string, pat: string): (r: int)
    ensures r == -1 <==> forall i :: !OccursAt(s, pat, i)
    ensures r != -1 ==> FirstOccurrence(s, pat, r)
  {
    IndexFromSpec(s, pat, 0);
    IndexFrom(s, pat, 0)
  }

  /**
   * `s.replace(pat, rep)` with a string pattern and a replacement free of `$` patterns
   * (the core passes `""`): only the leftmost occurrence of `pat`, wherever it stands, is
   * replaced; without one the string is returned as it is.
   */
  function ReplaceFirst(s: string, pat: string, rep: string): (r: string)
    ensures (forall i :: !OccursAt(s, pat, i)) ==> r == s
    ensures forall i :: FirstOccurrence(s, pat, i) ==> r == s[..i] + rep + s[i + |pat|..]
    ensures (exists i :: OccursAt(s, pat, i)) ==> |r| == |s| - |pat| + |rep|
  {
    var i := IndexOf(s, pat);
    if i == -1 then s else s[..i] + rep + s[i + |pat|..]
  }

  /** `s.replace('/index', '')`. */
  function Normalized(s: string): string {
    ReplaceFirst(s, IndexSegment, "")
  }

  /** The `findIndex` callback: exact equality, or equality once `/index` is stripped from both. */
  predicate Matches(route: string, path: string) {
    route == path || Normalized(route) == Normalized(path)
  }

  /** The smallest index at or after `from` whose descriptor matches `route`, or -1. */
  function FirstMatchFrom(items: seq<TabItem>, route: string, from: nat): (r: int)
    requires from <= |items|
    ensures r == -1 || from <= r < |items|
    ensures r != -1 ==> Matches(route, items[r].pagePath)
    ensures r != -1 ==> forall j :: from <= j < r ==> !Matches(route, items[j].pagePath)
    ensures r == -1 ==> forall j :: from <= j < |items| ==> !Matches(route, items[j].pagePath)
    decreases |items| - from
  {
    if from == |items| then -1
    else if Matches(route, items[from].pagePath) then from
    else FirstMatchFrom(items, route, from + 1)
  }

  /** `list.findIndex(item => Matches(route, item.pagePath))`. */
  function FirstMatch(items: seq<TabItem>, route: string): (r: int)
    ensures -1 <= r < |items|
    ensures r != -1 ==> Matches(route, items[r].pagePath)
    ensures r != -1 ==> forall j :: 0 <= j < r ==> !Matches(route, items[j].pagePath)
    ensures r == -1 <==> forall j :: 0 <= j < |items| ==> !Matches(route, items[j].pagePath)
  {
    FirstMatchFrom(items, route, 0)
  }

  /** The tab `setSelected` selects for the top page, or `selected` when nothing matches. */
  function Resynced(items: seq<TabItem>, selected: int, currentRoute: Option<string>): (r: int)
    ensures currentRoute.None? ==> r == selected
    ensures r == selected || 0 <= r < |items|
    ensures currentRoute.Some? && r != selected ==> Matches(currentRoute.value, items[r].pagePath)
    ensures currentRoute.Some? && (exists j :: 0 <= j < |items| && Matches(currentRoute.value, items[j].pagePath)) ==>
      0 <= r < |items| && Matches(currentRoute.value, items[r].pagePath)
    ensures currentRoute.Some? && (exists j :: 0 <= j < |items| && Matches(currentRoute.value, items[j].pagePath)) ==>
      forall j :: 0 <= j < r ==> !Matches(currentRoute.value, items[j].pagePath)
  {
    match currentRoute
    case None => selected
    case Some(route) =>
      var i := FirstMatch(items, route);
      if i != -1 then i else selected
  }

  /** Exact equality adds nothing to the match: equal strings normalize equally. */
  lemma MatchesIffNormalizedEqual(route: string, path: string)
    ensures Matches(route, path) <==> Normalized(route) == Normalized(path)
  {
  }

  // ---------------------------------------------------------------------------------------
  // Evaluating `/index` stripping on concrete routes

  /** The search moves past `from` when some character of the window differs from `pat`. */
  lemma SkipMismatch(s: string, pat: string, from: nat, k: nat)
    requires k < |pat| && from + |pat| <= |s| && s[from + k] != pat[k]
    ensures IndexFrom(s, pat, from) == IndexFrom(s, pat, from + 1)
  {
    assert s[from..from + |pat|][k] == s[from + k];
  }

  /** The search moves past a run of characters none of which starts `pat`. */
  lemma {:induction false} SkipSegment(s: string, pat: string, from: nat, to: nat)
    requires |pat| > 0 && from <= to && to + |pat| <= |s| + 1
    requires pat[0] !in s[from..to]
    ensures IndexFrom(s, pat, from) == IndexFrom(s, pat, to)
    decreases (to as int) - (from as int)
  {
    if from < to {
      assert s[from..to][0] == s[from];
      if from + |pat| <= |s| {
        SkipMismatch(s, pat, from, 0);
      }
      assert s[from + 1..to] == s[from..to][1..];
      SkipSegment(s, pat, from + 1, to);
    }
  }

  /** The search stops at `from` when the window there is `pat`. */
  lemma HitAt(s: string, pat: string, from: nat)
    requires from + |pat| <= |s| && s[from..from + |pat|] == pat
    ensures IndexFrom(s, pat, from) == from
  {
  }

  /** Stripping removes the six characters of the first `/index` the search finds. */
  lemma NormalizedFound(s: string, i: nat)
    requires IndexFrom(s, IndexSegment, 0) == i
    ensures i + |IndexSegment| <= |s| && Normalized(s) == s[..i] + s[i + |IndexSegment|..]
  {
    IndexFromSpec(s, IndexSegment, 0);
  }

  /** Stripping leaves a string without `/index` as it is. */
  lemma NormalizedNotFound(s: string)
    requires IndexFrom(s, IndexSegment, 0) == -1
    ensures Normalized(s) == s
  {
  }

  /** `"pages/home/home_new"` has no `/index`. */
  lemma SearchHomePath(s: string)
    requires s == "pages/home/home_new"
    ensures IndexFrom(s, IndexSegment, 0) == -1
  {
    assert IndexSegment[0] !in s[0..5];
    assert s[6] != IndexSegment[1];
    assert IndexSegment[0] !in s[6..10];
    assert s[11] != IndexSegment[1];
    assert IndexSegment[0] !in s[11..14];
    SkipSegment(s, IndexSegment, 0, 5); SkipMismatch(s, IndexSegment, 5, 1);
    SkipSegment(s, IndexSegment, 6, 10); SkipMismatch(s, IndexSegment, 10, 1);
    SkipSegment(s, IndexSegment, 11, 14);
  }

  lemma NormalizedHomePath(s: string)
    requires s == "pages/home/home_new"
    ensures Normalized(s) == "pages/home/home_new"
  {
    SearchHomePath(s);
    NormalizedNotFound(s);
  }

  /** `"pages/course-list/index"` has its first `/index` at 17. */
  lemma SearchCourseListPath(s: string)
    requires s == "pages/course-list/index"
    ensures IndexFrom(s, IndexSegment, 0) == 17
  {
    assert IndexSegment[0] !in s[0..5];
    assert s[6] != IndexSegment[1];
    assert IndexSegment[0] !in s[6..17];
    assert s[17..23] == IndexSegment;
    SkipSegment(s, IndexSegment, 0, 5); SkipMismatch(s, IndexSegment, 5, 1);
    SkipSegment(s, IndexSegment, 6, 17); HitAt(s, IndexSegment, 17);
  }

  lemma NormalizedCourseListPath(s: string)
    requires s == "pages/course-list/index"
    ensures Normalized(s) == "pages/course-list"
  {
    assert s[..17] + s[23..] == "pages/course-list";
    SearchCourseListPath(s);
    NormalizedFound(s, 17);
  }

  /** `"pages/discover/index"` has its first `/index` at 14. */
  lemma SearchDiscoverPath(s: string)
    requires s == "pages/discover/index"
    ensures IndexFrom(s, IndexSegment, 0) == 14
  {
    assert IndexSegment[0] !in s[0..5];
    assert s[6] != IndexSegment[1];
    assert IndexSegment[0] !in s[6..14];
    assert s[14..20] == IndexSegment;
    SkipSegment(s, IndexSegment, 0, 5); SkipMismatch(s, IndexSegment, 5, 1);
    SkipSegment(s, IndexSegment, 6, 14); HitAt(s, IndexSegment, 14);
  }

  lemma NormalizedDiscoverPath(s: string)
    requires s == "pages/discover/index"
    ensures Normalized(s) == "pages/discover"
  {
    assert s[..14] + s[20..] == "pages/discover";
    SearchDiscoverPath(s);
    NormalizedFound(s, 14);
  }

  /** `"pages/usercenter/index"` has its first `/index` at 16. */
  lemma SearchUserCenterPath(s: string)
    requires s == "pages/usercenter/index"
    ensures IndexFrom(s, IndexSegment, 0) == 16
  {
    assert IndexSegment[0] !in s[0..5];
    assert s[6] != IndexSegment[1];
    assert IndexSegment[0] !in s[6..16];
    assert s[16..22] == IndexSegment;
    SkipSegment(s, IndexSegment, 0, 5); SkipMismatch(s, IndexSegment, 5, 1);
    SkipSegment(s, IndexSegment, 6, 16); HitAt(s, IndexSegment, 16);
  }

  lemma NormalizedUserCenterPath(s: string)
    requires s == "pages/usercenter/index"
    ensures Normalized(s) == "pages/usercenter"
  {
    assert s[..16] + s[22..] == "pages/usercenter";
    SearchUserCenterPath(s);
    NormalizedFound(s, 16);
  }

  /** `"pages/usercenter"` has no `/index`. */
  lemma SearchUserCenterRoute(s: string)
    requires s == "pages/usercenter"
    ensures IndexFrom(s, IndexSegment, 0) == -1
  {
    assert IndexSegment[0] !in s[0..5];
    assert s[6] != IndexSegment[1];
    assert IndexSegment[0] !in s[6..11];
    SkipSegment(s, IndexSegment, 0, 5); SkipMismatch(s, IndexSegment, 5, 1);
    SkipSegment(s, IndexSegment, 6, 11);
  }

  lemma NormalizedUserCenterRoute(s: string)
    requires s == "pages/usercenter"
    ensures Normalized(s) == "pages/usercenter"
  {
    SearchUserCenterRoute(s);
    NormalizedNotFound(s);
  }

  /** `"pages/course/index-list"` has its first `/index` at 12. */
  lemma SearchCourseIndexListRoute(s: string)
    requires s == "pages/course/index-list"
    ensures IndexFrom(s, IndexSegment, 0) == 12
  {
    assert IndexSegment[0] !in s[0..5];
    assert s[6] != IndexSegment[1];
    assert IndexSegment[0] !in s[6..12];
    assert s[12..18] == IndexSegment;
    SkipSegment(s, IndexSegment, 0, 5); SkipMismatch(s, IndexSegment, 5, 1);
    SkipSegment(s, IndexSegment, 6, 12); HitAt(s, IndexSegment, 12);
  }

  lemma NormalizedCourseIndexListRoute(s: string)
    requires s == "pages/course/index-list"
    ensures Normalized(s) == "pages/course-list"
  {
    assert s[..12] + s[18..] == "pages/course-list";
    SearchCourseIndexListRoute(s);
    NormalizedFound(s, 12);
  }
  // ---------------------------------------------------------------------------------------
  // Resolving concrete routes against the bar's tabs

  /** The four tab paths stay pairwise different once `/index` is stripped. */
  lemma TabPathsNormalized()
    ensures Normalized(Tabs[0].pagePath) == "pages/home/home_new"
    ensures Normalized(Tabs[1].pagePath) == "pages/course-list"
    ensures Normalized(Tabs[2].pagePath) == "pages/discover"
    ensures Normalized(Tabs[3].pagePath) == "pages/usercenter"
  {
    NormalizedHomePath(Tabs[0].pagePath);
    NormalizedCourseListPath(Tabs[1].pagePath);
    NormalizedDiscoverPath(Tabs[2].pagePath);
    NormalizedUserCenterPath(Tabs[3].pagePath);
  }

  lemma ResolveHomeRoute(route: string)
    requires route == "pages/home/home_new"
    ensures FirstMatch(Tabs, route) == 0
  {
    assert Matches(route, Tabs[0].pagePath);
  }

  lemma ResolveCourseListRoute(route: string)
    requires route == "pages/course-list/index"
    ensures FirstMatch(Tabs, route) == 1
  {
    TabPathsNormalized();
    assert Matches(route, Tabs[1].pagePath);
    assert FirstMatch(Tabs, route) != -1;
  }

  lemma ResolveDiscoverRoute(route: string)
    requires route == "pages/discover/index"
    ensures FirstMatch(Tabs, route) == 2
  {
    TabPathsNormalized();
    assert Matches(route, Tabs[2].pagePath);
    assert FirstMatch(Tabs, route) != -1;
  }

  lemma ResolveUserCenterIndexRoute(route: string)
    requires route == "pages/usercenter/index"
    ensures FirstMatch(Tabs, route) == 3
  {
    TabPathsNormalized();
    assert Matches(route, Tabs[3].pagePath);
    assert FirstMatch(Tabs, route) != -1;
  }

  /** Each tab's own path resolves to that tab. */
  lemma TabsResolveToThemselves(i: nat)
    requires i < |Tabs|
    ensures FirstMatch(Tabs, Tabs[i].pagePath) == i
  {
    if i == 0 {
      ResolveHomeRoute(Tabs[0].pagePath);
    } else if i == 1 {
      ResolveCourseListRoute(Tabs[1].pagePath);
    } else if i == 2 {
      ResolveDiscoverRoute(Tabs[2].pagePath);
    } else {
      ResolveUserCenterIndexRoute(Tabs[3].pagePath);
    }
  }

  /** `pages/usercenter` matches tab 3 only because `/index` is stripped from its path. */
  lemma ResolveUserCenterRoute(route: string)
    requires route == "pages/usercenter"
    ensures FirstMatch(Tabs, route) == 3
    ensures route != Tabs[3].pagePath
  {
    TabPathsNormalized();
    NormalizedUserCenterRoute(route);
    var r := FirstMatch(Tabs, route);
    assert Matches(route, Tabs[3].pagePath);
    assert r != -1;
  }

  /**
   * The replacement is not tied to the end of the route: `pages/course/index-list` loses
   * its inner `/index` and then equals the stripped path of tab 1.
   */
  lemma ResolveInnerIndexRoute(route: string)
    requires route == "pages/course/index-list"
    ensures FirstMatch(Tabs, route) == 1
  {
    TabPathsNormalized();
    NormalizedCourseIndexListRoute(route);
    var r := FirstMatch(Tabs, route);
    assert Matches(route, Tabs[1].pagePath);
    assert r != -1;
  }

  /** Re-syncing twice against the same top page is the same as re-syncing once. */
  lemma ResyncIdempotent(items: seq<TabItem>, selected: int, currentRoute: Option<string>)
    ensures Resynced(items, Resynced(items, selected, currentRoute), currentRoute)
         == Resynced(items, selected, currentRoute)
  {
  }

  // ---------------------------------------------------------------------------------------
  // The component

  /** What the host reports for a `wx.switchTab` request. */
  datatype NavOutcome = NavSuccess | NavFail

  /** A tab-bar component instance: the fixed `list` and the highlighted `selected` index. */
  class CustomTabBar {
    const list: seq<TabItem>
    var selected: int

    /** The selection indexes the list. */
    ghost predicate Valid()
      reads this
    {
      0 <= selected < |list|
    }

    constructor ()
      ensures list == Tabs && selected == 0
      ensures Valid()
    {
      list := Tabs;
      selected := 0;
    }

    /**
     * A tap on tab `index` with page `path`. Returns the navigation request issued, if
     * any; `outcome` is what the host reports for it. The selection follows only a
     * confirmed switch.
     */
    method SwitchTab(index: int, path: string, outcome: NavOutcome) returns (request: Option<string>)
      modifies this`selected
      ensures index == old(selected) ==> request == None
      ensures index != old(selected) ==> request == Some("/" + path)
      ensures selected == (if index != old(selected) && outcome == NavSuccess then index else old(selected))
      ensures old(Valid()) && 0 <= index < |list| ==> Valid()
    {
      if selected == index {
        return None;
      }
      request := Some("/" + path);
      if outcome == NavSuccess {
        selected := index;
      }
    }

    /** Re-sync against the page on top of the stack (`None` when the stack is empty). */
    method SetSelected(currentRoute: Option<string>)
      modifies this`selected
      ensures selected == Resynced(list, old(selected), currentRoute)
      ensures old(Valid()) ==> Valid()
    {
      if currentRoute.None? {
        return;
      }
      var i := FirstMatch(list, currentRoute.value);
      if i != -1 {
        selected := i;
      }
    }

    method Init(currentRoute: Option<string>)
      modifies this`selected
      ensures selected == Resynced(list, old(selected), currentRoute)
      ensures old(Valid()) ==> Valid()
    {
      SetSelected(currentRoute);
    }

    method Attached(currentRoute: Option<string>)
      modifies this`selected
      ensures selected == Resynced(list, old(selected), currentRoute)
      ensures old(Valid()) ==> Valid()
    {
      SetSelected(currentRoute);
    }
  }
}

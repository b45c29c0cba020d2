/**
 * The navigation bar: the fixed, ordered list of page items each role is
 * offered, and which item is highlighted as active.
 */
module Navigation {
  import opened Wrappers
  import opened Types
  import App

  /** One entry of the bar; its icon is presentation and is not kept. */
  datatype NavItem = NavItem(id: string, caption: string)

  /** The ids of the items, in order. */
  function ItemIds(items: seq<NavItem>): (ids: seq<string>)
    ensures |ids| == |items|
    ensures forall i :: 0 <= i < |items| ==> ids[i] == items[i].id
  {
    seq(|items|, i requires 0 <= i < |items| => items[i].id)
  }

  /** No two items share an id. */
  predicate DistinctIds(items: seq<NavItem>) {
    forall i, j :: 0 <= i < j < |items| ==> items[i].id != items[j].id
  }

  /**
   * `getNavigationItems`, switching on `user?.role`: `None` stands for an
   * absent user. Every list is empty or starts with the dashboard, and never
   * repeats an id.
   */
  function NavigationItems(role: Option<string>): (items: seq<NavItem>)
    ensures items == [] || items[0].id == "dashboard"
    ensures DistinctIds(items)
  {
    if role == Some("student") then
      [NavItem("dashboard", "Dashboard"), NavItem("challenges", "Challenges"),
       NavItem("quizzes", "Quizzes"), NavItem("profile", "Profile")]
    else if role == Some("school") then
      [NavItem("dashboard", "Dashboard"), NavItem("activities", "Manage Activities"),
       NavItem("reports", "Reports")]
    else if role == Some("ngo") then
      [NavItem("dashboard", "Dashboard"), NavItem("campaigns", "Campaigns"),
       NavItem("resources", "Resources")]
    else []
  }

  /** An item is highlighted when the current page key is its id. */
  predicate IsActive(currentPage: string, item: NavItem) {
    currentPage == item.id
  }

  /** The ids offered to each role, in order. */
  lemma ItemsPerRole()
    ensures ItemIds(NavigationItems(Some("student"))) == ["dashboard", "challenges", "quizzes", "profile"]
    ensures ItemIds(NavigationItems(Some("school"))) == ["dashboard", "activities", "reports"]
    ensures ItemIds(NavigationItems(Some("ngo"))) == ["dashboard", "campaigns", "resources"]
  {
  }

  /** No user, or a role text that is not a role: an empty bar. */
  lemma NoItemsWithoutRole(role: Option<string>)
    requires role.None? || RoleOf(role.value).None?
    ensures NavigationItems(role) == []
  {
  }

  /** Whatever the current page key, at most one item of the bar is active. */
  lemma AtMostOneActive(role: Option<string>, currentPage: string, i: nat, j: nat)
    requires i < |NavigationItems(role)| && j < |NavigationItems(role)|
    requires IsActive(currentPage, NavigationItems(role)[i])
    requires IsActive(currentPage, NavigationItems(role)[j])
    ensures i == j
  {
  }

  /**
   * The bar offers exactly the page keys the router has a case of its own
   * for, in the same order, for every role text.
   */
  lemma OfferedIdsAreRoutedPages(role: string)
    ensures ItemIds(NavigationItems(Some(role))) == App.RoutedPages(role)
  {
  }

  /**
   * Every offered id other than the dashboard reaches a page of its own, not
   * the dashboard fallback; an id that is not offered reaches the fallback.
   */
  lemma OfferedIdsReachOwnPages(role: string, page: string)
    ensures page in ItemIds(NavigationItems(Some(role))) && page != "dashboard" ==>
              App.RenderPage(role, page) != App.DashboardFor(role)
    ensures page !in ItemIds(NavigationItems(Some(role))) ==>
              App.RenderPage(role, page) == App.DashboardFor(role)
  {
    OfferedIdsAreRoutedPages(role);
    var pages := App.RoutedPages(role);
    if page in pages && page != "dashboard" {
      var j :| 0 <= j < |pages| && pages[j] == page;
      assert j != 0;
      App.RoutedPagesDistinctViews(role, 0, j);
    }
    if page !in pages {
      App.RouterFallback(role, page);
    }
  }
}

/**
 * The navigation bar: which tab is highlighted is decided from the current
 * URL path alone, by looking for the tabs' keywords in a fixed order; the
 * bar links to four of the five tabs (the basket models tab has no entry).
 * On a phone the links sit in a menu that a button toggles and that a click
 * on any link closes. The path and whether the screen is a phone's are
 * parameters.
 */
module Navbar {
  import opened Common

  datatype Tab = Dashboard | Items | Baskets | Models | Finance

  /** The tabs that are looked for in the path, in the order they are tried. */
  const Checked: seq<Tab> := [Items, Baskets, Models, Finance]

  /** The word a path must contain for the tab to be active. */
  function Keyword(t: Tab): string
  {
    match t
    case Dashboard => ""
    case Items => "items"
    case Baskets => "baskets"
    case Models => "models"
    case Finance => "finance"
  }

  /** The position of a tab in `Checked`; the dashboard, the fallback, comes after all of them. */
  function Rank(t: Tab): (n: nat)
    ensures n <= |Checked| && (n < |Checked| ==> Checked[n] == t)
    ensures n == |Checked| <==> t == Dashboard
  {
    match t
    case Items => 0
    case Baskets => 1
    case Models => 2
    case Finance => 3
    case Dashboard => 4
  }

  /**
   * The highlighted tab: the first tab of `Checked` whose keyword occurs
   * anywhere in the path, or the dashboard when none does.
   */
  function ActiveTab(path: string): Tab
  {
    if Contains(path, "items") then Items
    else if Contains(path, "baskets") then Baskets
    else if Contains(path, "models") then Models
    else if Contains(path, "finance") then Finance
    else Dashboard
  }

  datatype NavItem = NavItem(id: Tab, text: string, path: string)

  /** The links of the bar, in display order. */
  const NavItems: seq<NavItem> := [
    NavItem(Dashboard, "Dashboard", "/"),
    NavItem(Items, "Itens", "/items"),
    NavItem(Baskets, "Cestas", "/baskets"),
    NavItem(Finance, "Financeiro", "/finance")
  ]

  /** A link is drawn as active when its tab is the highlighted one. */
  predicate IsActive(item: NavItem, path: string)
  {
    ActiveTab(path) == item.id
  }

  // ---------------------------------------------------------------------
  // What the highlighting guarantees

  /** A path lacking one letter of a keyword does not contain the keyword. */
  lemma MissingLetter(path: string, word: string, j: nat)
    requires j < |word| && word[j] !in path
    ensures !Contains(path, word)
  {
    ContainsChars(path, word);
  }

  /** The highlighted tab is the first of `Checked` whose keyword the path contains; the dashboard when there is none. */
  lemma ActiveTabFirstKeyword(path: string)
    ensures var t := ActiveTab(path);
      (t == Dashboard || Contains(path, Keyword(t)))
      && forall k :: 0 <= k < Rank(t) ==> !Contains(path, Keyword(Checked[k]))
  {
  }

  lemma DashboardLinkActive()
    ensures ActiveTab("/") == Dashboard
  {
    MissingLetter("/", "items", 0);
    MissingLetter("/", "baskets", 0);
    MissingLetter("/", "models", 0);
    MissingLetter("/", "finance", 0);
  }

  lemma ItemsLinkActive()
    ensures ActiveTab("/items") == Items
  {
    assert "items" <= "/items"[1..];
  }

  lemma BasketsLinkActive()
    ensures ActiveTab("/baskets") == Baskets
  {
    MissingLetter("/baskets", "items", 0);
    assert "baskets" <= "/baskets"[1..];
  }

  lemma FinanceLinkActive()
    ensures ActiveTab("/finance") == Finance
  {
    MissingLetter("/finance", "items", 1);
    MissingLetter("/finance", "baskets", 0);
    MissingLetter("/finance", "models", 0);
    assert "finance" <= "/finance"[1..];
  }

  /** Following any link of the bar highlights that link's own tab. */
  lemma NavRoundTrip()
    ensures forall i :: 0 <= i < |NavItems| ==> IsActive(NavItems[i], NavItems[i].path)
  {
    forall i | 0 <= i < |NavItems| ensures IsActive(NavItems[i], NavItems[i].path) {
      if i == 0 {
        DashboardLinkActive();
      } else if i == 1 {
        ItemsLinkActive();
      } else if i == 2 {
        BasketsLinkActive();
      } else {
        FinanceLinkActive();
      }
    }
  }

  /** The links have distinct tabs, so at most one link is highlighted for any path. */
  lemma AtMostOneActive(path: string)
    ensures forall i, j :: 0 <= i < j < |NavItems| ==> NavItems[i].id != NavItems[j].id
    ensures forall i, j ::
      (0 <= i < |NavItems| && 0 <= j < |NavItems| && IsActive(NavItems[i], path) && IsActive(NavItems[j], path)) ==> i == j
  {
  }

  /** Some link is highlighted exactly when the path does not select the basket models tab, which has no link. */
  lemma SomeLinkActive(path: string)
    ensures (exists i :: 0 <= i < |NavItems| && IsActive(NavItems[i], path)) <==> ActiveTab(path) != Models
  {
    var t := ActiveTab(path);
    if t != Models {
      var i := if t == Dashboard then 0 else if t == Items then 1 else if t == Baskets then 2 else 3;
      assert IsActive(NavItems[i], path);
    }
  }

  /** "items" wins over every other keyword, wherever it occurs in the path. */
  lemma ItemsFirst(path: string)
    requires Contains(path, "items")
    ensures ActiveTab(path) == Items
  {
  }

  lemma ModelsRouteSelectsModels()
    ensures ActiveTab("/models") == Models
  {
    MissingLetter("/models", "items", 0);
    MissingLetter("/models", "baskets", 0);
    assert "models" <= "/models"[1..];
  }

  /** No link of the bar leads to the basket models tab. */
  lemma NoModelsLink()
    ensures forall i :: 0 <= i < |NavItems| ==> NavItems[i].id != Models
  {
  }

  /** A path under the basket models route highlights no link at all. */
  lemma ModelsRouteUnhighlighted()
    ensures forall i :: 0 <= i < |NavItems| ==> !IsActive(NavItems[i], "/models")
  {
    ModelsRouteSelectsModels();
    NoModelsLink();
  }

  // ---------------------------------------------------------------------
  // The phone menu

  class NavbarState {
    const isMobile: bool
    var menuOpen: bool

    constructor(isMobile: bool)
      ensures this.isMobile == isMobile && !menuOpen
    {
      this.isMobile := isMobile;
      menuOpen := false;
    }

    /** The menu button flips the menu. */
    method ToggleMenu()
      modifies this
      ensures menuOpen == !old(menuOpen)
    {
      menuOpen := !menuOpen;
    }

    /** A click on a link closes the menu on a phone and changes nothing otherwise. */
    method HandleTabChange()
      modifies this
      ensures menuOpen == (old(menuOpen) && !isMobile)
    {
      if isMobile {
        menuOpen := false;
      }
    }
  }
}

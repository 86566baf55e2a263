/** The navigation bar: the logo, the seven section items (drawn once for
    the desktop bar and once in the mobile menu), the highlight of the
    current item, and the mobile menu's open flag. */
module Navigation {
  import Router
  import Seqs

  datatype NavItem = NavItem(id: string, caption: string)

  function NavItems(): seq<NavItem> {
    [NavItem("home", "Home"), NavItem("dashboard", "Dashboard"), NavItem("upload", "Upload"),
     NavItem("kyc", "KYC"), NavItem("wallet", "Wallet"), NavItem("explorer", "Explorer"),
     NavItem("market", "Market")]
  }

  function Ids(items: seq<NavItem>): (r: seq<string>)
    ensures |r| == |items|
    ensures forall i :: 0 <= i < |items| ==> r[i] == items[i].id
  {
    if items == [] then [] else [items[0].id] + Ids(items[1..])
  }

  predicate DistinctIds(items: seq<NavItem>) {
    forall i, j :: 0 <= i < j < |items| ==> items[i].id != items[j].id
  }

  /** The highlight of each item: lit when the current section is its id. */
  function Highlighted(items: seq<NavItem>, currentSection: string): (r: seq<bool>)
    ensures |r| == |items|
    ensures forall i :: 0 <= i < |items| ==> (r[i] <==> items[i].id == currentSection)
  {
    if items == [] then [] else [items[0].id == currentSection] + Highlighted(items[1..], currentSection)
  }

  /** With distinct ids, one item is lit when the current section is an item
      id and none otherwise. */
  lemma {:induction false} AtMostOneHighlighted(items: seq<NavItem>, currentSection: string)
    requires DistinctIds(items)
    ensures currentSection in Ids(items) ==> Seqs.Count(Highlighted(items, currentSection), true) == 1
    ensures currentSection !in Ids(items) ==> Seqs.Count(Highlighted(items, currentSection), true) == 0
    decreases |items|
  {
    if items != [] {
      var h := Highlighted(items, currentSection);
      assert h[1..] == Highlighted(items[1..], currentSection);
      AtMostOneHighlighted(items[1..], currentSection);
      var ids := Ids(items);
      assert ids[1..] == Ids(items[1..]);
      if items[0].id == currentSection {
        forall k | 0 <= k < |items| - 1 ensures Ids(items[1..])[k] != currentSection {
          assert items[k + 1].id != items[0].id;
        }
      } else {
        assert currentSection in ids <==> currentSection in ids[1..] by {
          assert ids == [ids[0]] + ids[1..];
        }
      }
    }
  }

  /** The item ids, in order. */
  lemma NavItemIds(items: seq<NavItem>)
    requires items == NavItems()
    ensures Ids(items) == ["home", "dashboard", "upload", "kyc", "wallet", "explorer", "market"]
  {
  }

  /** Ids that start with distinct characters are distinct. */
  lemma DistinctByFirstChar(items: seq<NavItem>)
    requires forall i :: 0 <= i < |items| ==> items[i].id != []
    requires forall i, j :: 0 <= i < j < |items| ==> items[i].id[0] != items[j].id[0]
    ensures DistinctIds(items)
  {
  }

  lemma ItemIdsDistinct(items: seq<NavItem>, ids: seq<string>)
    requires ids == Ids(items)
    requires ids == ["home", "dashboard", "upload", "kyc", "wallet", "explorer", "market"]
    ensures DistinctIds(items)
  {
    assert ids[0][0] == 'h' && ids[1][0] == 'd' && ids[2][0] == 'u' && ids[3][0] == 'k';
    assert ids[4][0] == 'w' && ids[5][0] == 'e' && ids[6][0] == 'm';
    DistinctByFirstChar(items);
  }

  lemma ItemIdsNameViews(ids: seq<string>)
    requires ids == ["home", "dashboard", "upload", "kyc", "wallet", "explorer", "market"]
    ensures ids[0] == Router.Home
    ensures forall i :: 1 <= i < |ids| ==> exists v :: Router.Name(v) == ids[i]
    ensures Router.Name(Router.DeFiHub) !in ids && Router.Name(Router.RwaPortfolio) !in ids
  {
    assert ids[1] == Router.Name(Router.Dashboard);
    assert ids[2] == Router.Name(Router.DocumentUpload);
    assert ids[3] == Router.Name(Router.KycProcess);
    assert ids[4] == Router.Name(Router.WalletInterface);
    assert ids[5] == Router.Name(Router.TokenExplorer);
    assert ids[6] == Router.Name(Router.MarketPlace);
  }

  /** The item ids are distinct, every one but home names a view, and the
      DeFi hub and the RWA portfolio have no item, so nothing in the bar
      selects them. */
  lemma ItemsCoverSections(items: seq<NavItem>)
    requires items == NavItems()
    ensures DistinctIds(items)
    ensures items[0].id == Router.Home
    ensures forall i :: 1 <= i < |items| ==> exists v :: Router.Name(v) == items[i].id
    ensures Router.Name(Router.DeFiHub) !in Ids(items) && Router.Name(Router.RwaPortfolio) !in Ids(items)
  {
    NavItemIds(items);
    ItemIdsDistinct(items, Ids(items));
    ItemIdsNameViews(Ids(items));
  }

  class NavBar {
    /** The shell whose section setter the bar was handed. */
    const app: Router.App
    var mobileMenuOpen: bool

    constructor (app: Router.App)
      ensures this.app == app && !mobileMenuOpen
    {
      this.app := app;
      mobileMenuOpen := false;
    }

    method ClickLogo()
      modifies app`currentSection
      ensures app.currentSection == Router.Home
    {
      app.SetCurrentSection(Router.Home);
    }

    /** A desktop item selects its id; the menu flag is untouched. */
    method ClickDesktopItem(item: NavItem)
      modifies app`currentSection
      ensures app.currentSection == item.id
    {
      app.SetCurrentSection(item.id);
    }

    /** A mobile item selects its id and closes the menu. */
    method ClickMobileItem(item: NavItem)
      modifies app`currentSection, this`mobileMenuOpen
      ensures app.currentSection == item.id && !mobileMenuOpen
    {
      app.SetCurrentSection(item.id);
      mobileMenuOpen := false;
    }

    method OpenMenu()
      modifies this`mobileMenuOpen
      ensures mobileMenuOpen
    {
      mobileMenuOpen := true;
    }

    /** The backdrop and the X button; a click inside the panel is stopped
        before it reaches the backdrop and changes nothing. */
    method CloseMenu()
      modifies this`mobileMenuOpen
      ensures !mobileMenuOpen
    {
      mobileMenuOpen := false;
    }

    function Highlights(): seq<bool>
      reads app
    {
      Highlighted(NavItems(), app.currentSection)
    }
  }

  /** Choosing an item from the mobile menu lights exactly that item and
      leaves the menu closed. */
  method PickFromMobileMenu(bar: NavBar, i: int)
    requires 0 <= i < |NavItems()|
    modifies bar, bar.app
    ensures !bar.mobileMenuOpen
    ensures forall j :: 0 <= j < |NavItems()| ==> (bar.Highlights()[j] <==> j == i)
  {
    bar.OpenMenu();
    var items := NavItems();
    ItemsCoverSections(items);
    bar.ClickMobileItem(items[i]);
  }
}

/** The application shell: the current section chooses between the landing
    page and an inner screen that mounts the section's view, with the AI
    assistant panel beside it. */
module Router {

  /** The eight views an inner screen can mount. */
  datatype View = Dashboard | DocumentUpload | KycProcess | WalletInterface
                | TokenExplorer | MarketPlace | DeFiHub | RwaPortfolio

  /** The section name whose guard mounts each view. */
  function Name(v: View): string {
    match v
    case Dashboard => "dashboard"
    case DocumentUpload => "upload"
    case KycProcess => "kyc"
    case WalletInterface => "wallet"
    case TokenExplorer => "explorer"
    case MarketPlace => "market"
    case DeFiHub => "defi"
    case RwaPortfolio => "rwa"
  }

  const Home: string := "home"

  /** One `section === name && <View/>` guard. */
  function Guard(section: string, v: View): seq<View> {
    if section == Name(v) then [v] else []
  }

  /** The eight guards in the order they are written. */
  function MountedViews(section: string): seq<View> {
    Guard(section, Dashboard) + Guard(section, DocumentUpload) + Guard(section, KycProcess) +
    Guard(section, WalletInterface) + Guard(section, TokenExplorer) + Guard(section, MarketPlace) +
    Guard(section, DeFiHub) + Guard(section, RwaPortfolio)
  }

  /** No two views answer to the same section name. */
  lemma NamesDistinct(v: View, w: View)
    ensures Name(v) == Name(w) ==> v == w
    ensures Name(v) != Home
  {
  }

  /** The guards are exclusive: a section mounts exactly the view named by
      it, so at most one view is mounted, and a name that no view carries
      mounts none. */
  lemma MountsOnlyItsOwnView(section: string)
    ensures forall v :: v in MountedViews(section) <==> Name(v) == section
    ensures |MountedViews(section)| <= 1
    ensures forall v :: Name(v) == section ==> MountedViews(section) == [v]
    ensures (forall v :: Name(v) != section) ==> MountedViews(section) == []
  {
    forall v, w | Name(v) == section && Name(w) == section ensures v == w {
      NamesDistinct(v, w);
    }
  }

  /** What the shell renders. The landing page carries its own navigation
      bar and no assistant; an inner screen has the navigation bar, the
      mounted views and the assistant panel. */
  datatype Screen = Landing | Inner(views: seq<View>, assistantOpen: bool)

  function Render(section: string, isAIOpen: bool): (r: Screen)
    ensures r.Landing? <==> section == Home
    ensures section != Home ==> r.Inner? && r.assistantOpen == isAIOpen && |r.views| <= 1
    ensures section != Home ==> forall v :: v in r.views <==> Name(v) == section
  {
    MountsOnlyItsOwnView(section);
    if section != Home then Inner(MountedViews(section), isAIOpen) else Landing
  }

  /** Every view is reachable, and only through its own section; the landing
      page shows no view and no assistant. */
  lemma RenderShowsSection(section: string, isAIOpen: bool)
    ensures forall v :: Render(Name(v), isAIOpen) == Inner([v], isAIOpen)
    ensures section != Home && (forall v :: Name(v) != section) ==> Render(section, isAIOpen) == Inner([], isAIOpen)
    ensures Render(Home, isAIOpen) == Landing
  {
    forall v ensures Render(Name(v), isAIOpen) == Inner([v], isAIOpen) {
      NamesDistinct(v, v);
      MountsOnlyItsOwnView(Name(v));
    }
    MountsOnlyItsOwnView(section);
  }

  class App {
    var currentSection: string
    var isAIOpen: bool

    constructor ()
      ensures currentSection == Home && !isAIOpen
    {
      currentSection := Home;
      isAIOpen := false;
    }

    /** The setter handed to the navigation bar. */
    method SetCurrentSection(section: string)
      modifies this`currentSection
      ensures currentSection == section
    {
      currentSection := section;
    }

    /** The assistant's toggle. */
    method ToggleAI()
      modifies this`isAIOpen
      ensures isAIOpen == !old(isAIOpen)
    {
      isAIOpen := !isAIOpen;
    }

    /** "Get Started" on the landing page. */
    method GetStarted()
      modifies this`currentSection
      ensures currentSection == Name(Dashboard)
    {
      currentSection := "dashboard";
    }

    /** "Start Your Journey" on the landing page. */
    method StartJourney()
      modifies this`currentSection
      ensures currentSection == Name(Dashboard)
    {
      currentSection := "dashboard";
    }

    function Screen(): Screen
      reads this
    {
      Render(currentSection, isAIOpen)
    }
  }

  /** A fresh app shows the landing page; either call to action then shows
      the dashboard alone, with the assistant closed. */
  method LandingToDashboard() returns (app: App)
    ensures fresh(app)
    ensures app.Screen() == Inner([Dashboard], false)
  {
    app := new App();
    assert app.Screen() == Landing;
    app.GetStarted();
    RenderShowsSection(app.currentSection, app.isAIOpen);
  }
}

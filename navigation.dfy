/** The application shell: which page is shown, the back-stack of page ids
    and the transition flag, with the two-phase protocol of `navigateToPage`
    and `goBack` (src/App.js). The deferred `setTimeout` step of each
    operation is an explicit completion method that receives what the first
    phase captured. */
module Navigation {
  import Dashboard

  type PageId = string

  /** The page the application starts on and falls back to. */
  const Home: PageId := "dashboard"

  /** The pages `renderCurrentPage` can produce. */
  datatype Page =
    | DashboardPage | GridPage | FlexPage | AnimationsPage | GradientsPage
    | ShadowsPage | TypographyPage | ResponsivePage | ReactHooksPage

  /** The id under which each page is selected. */
  function IdOf(p: Page): PageId
  {
    match p
    case DashboardPage => "dashboard"
    case GridPage => "grid"
    case FlexPage => "flex"
    case AnimationsPage => "animations"
    case GradientsPage => "gradients"
    case ShadowsPage => "shadows"
    case TypographyPage => "typography"
    case ResponsivePage => "responsive"
    case ReactHooksPage => "reacthooks"
  }

  /** The ids the page switch knows. */
  const KnownIds: set<PageId> :=
    {"dashboard", "grid", "flex", "animations", "gradients", "shadows", "typography", "responsive", "reacthooks"}

  /** The page switch of `renderCurrentPage`: each known id selects its own
      page and every other id falls back to the dashboard. */
  function Render(id: PageId): (p: Page)
    ensures id in KnownIds ==> IdOf(p) == id
    ensures id !in KnownIds ==> p == DashboardPage
  {
    match id
    case "dashboard" => DashboardPage
    case "grid" => GridPage
    case "flex" => FlexPage
    case "animations" => AnimationsPage
    case "gradients" => GradientsPage
    case "shadows" => ShadowsPage
    case "typography" => TypographyPage
    case "responsive" => ResponsivePage
    case "reacthooks" => ReactHooksPage
    case _ => DashboardPage
  }

  /** Every page is reached from its own id, and only from it (besides the
      fallback for unknown ids, which lands on the dashboard). */
  lemma RenderIdOf(p: Page, id: PageId)
    ensures IdOf(p) in KnownIds && Render(IdOf(p)) == p
    ensures Render(id) == p && p != DashboardPage ==> id == IdOf(p)
  {
  }

  /** What the first phase of `goBack` captures for its deferred step: the
      shortened history and the page it ends with. */
  datatype BackTicket = BackTicket(previousPage: PageId, newHistory: seq<PageId>)

  /** A ticket taken from a valid history: it still holds the home page at
      the bottom and names the new top as its target. */
  predicate ValidTicket(t: BackTicket)
  {
    |t.newHistory| >= 1 && t.newHistory[0] == Home &&
    t.previousPage == t.newHistory[|t.newHistory| - 1]
  }

  class Navigator {
    var currentPage: PageId
    var history: seq<PageId>
    var transitioning: bool

    /** The back-stack is never empty and keeps the home page at the bottom. */
    ghost predicate Valid()
      reads this
    {
      |history| >= 1 && history[0] == Home
    }

    /** No transition is pending and the page shown is the top of the
        history. */
    ghost predicate Settled()
      reads this
      requires Valid()
    {
      !transitioning && currentPage == history[|history| - 1]
    }

    /** `canGoBack`: there is an entry below the top, so popping one leaves
        the stack non-empty. */
    predicate CanGoBack()
      reads this
      requires Valid()
      ensures CanGoBack() <==> history != [Home]
    {
      |history| > 1
    }

    /** The initial state: the dashboard, a history of just the dashboard,
        no transition. */
    constructor ()
      ensures Valid()
      ensures currentPage == Home && history == [Home] && !transitioning
      ensures Settled() && !CanGoBack()
    {
      currentPage := Home;
      history := [Home];
      transitioning := false;
    }

    /** Phase 1 of `navigateToPage` as called through the closure of a
        render in which `seen` was the current page: the self-navigation
        guard compares with `seen`, not with the page committed since. When
        `pageId` is `seen` nothing happens; otherwise the id is pushed, the
        flag is raised and the current page is left for `CompleteNavigate`. */
    method NavigateFromRender(seen: PageId, pageId: PageId) returns (started: bool)
      requires Valid()
      modifies this
      ensures Valid()
      ensures started <==> pageId != seen
      ensures !started ==>
        history == old(history) && currentPage == old(currentPage) && transitioning == old(transitioning)
      ensures started ==>
        history == old(history) + [pageId] && transitioning && currentPage == old(currentPage)
      ensures started ==> CanGoBack()
    {
      if pageId == seen {
        return false;
      }
      transitioning := true;
      history := history + [pageId];
      started := true;
    }

    /** Phase 1 of `navigateToPage` called from an up-to-date render.
        Navigating to the current page does nothing; otherwise the id is
        pushed and the flag raised. */
    method Navigate(pageId: PageId) returns (started: bool)
      requires Valid()
      modifies this
      ensures Valid()
      ensures started <==> pageId != old(currentPage)
      ensures !started ==>
        history == old(history) && currentPage == old(currentPage) && transitioning == old(transitioning)
      ensures started ==>
        history == old(history) + [pageId] && transitioning && currentPage == old(currentPage)
      ensures started ==> CanGoBack()
    {
      started := NavigateFromRender(currentPage, pageId);
    }

    /** Phase 2 of `navigateToPage`, once the delay has elapsed: the page is
        committed and the flag lowered; the history is not touched. */
    method CompleteNavigate(pageId: PageId)
      requires Valid()
      modifies this
      ensures Valid()
      ensures currentPage == pageId && !transitioning && history == old(history)
    {
      currentPage := pageId;
      transitioning := false;
    }

    /** Phase 1 of `goBack`. With a single entry nothing happens and no
        ticket is issued; otherwise the flag is raised and the ticket holds
        the history without its top and the page below the top. The history
        itself is not changed until `CompleteBack`. */
    method GoBack() returns (ticket: Option<BackTicket>)
      requires Valid()
      modifies this
      ensures Valid()
      ensures ticket.Some? <==> old(CanGoBack())
      ensures ticket.None? ==>
        history == old(history) && currentPage == old(currentPage) && transitioning == old(transitioning)
      ensures ticket.Some? ==>
        && ValidTicket(ticket.value)
        && ticket.value.newHistory == old(history)[..|old(history)| - 1]
        && transitioning && history == old(history) && currentPage == old(currentPage)
    {
      if |history| > 1 {
        transitioning := true;
        var newHistory := history[..|history| - 1];
        var previousPage := newHistory[|newHistory| - 1];
        ticket := Some(BackTicket(previousPage, newHistory));
      } else {
        ticket := None;
      }
    }

    /** Phase 2 of `goBack`: the captured history replaces the current one
        and its top becomes the current page. */
    method CompleteBack(ticket: BackTicket)
      requires Valid()
      requires ValidTicket(ticket)
      modifies this
      ensures Valid()
      ensures history == ticket.newHistory && currentPage == ticket.previousPage && !transitioning
      ensures currentPage == history[|history| - 1]
    {
      currentPage := ticket.previousPage;
      history := ticket.newHistory;
      transitioning := false;
    }

    /** Both phases of `navigateToPage` with the delay elapsing in between. */
    method NavigateAndSettle(pageId: PageId)
      requires Valid()
      modifies this
      ensures Valid()
      ensures old(Settled()) ==> Settled()
      ensures currentPage == pageId
      ensures pageId != old(currentPage) ==> history == old(history) + [pageId] && !transitioning
      ensures pageId == old(currentPage) ==> history == old(history) && transitioning == old(transitioning)
    {
      var started := Navigate(pageId);
      if started {
        CompleteNavigate(pageId);
      }
    }

    /** Both phases of `goBack` with the delay elapsing in between: exactly
        the top entry is removed when there is one below it. */
    method GoBackAndSettle()
      requires Valid()
      modifies this
      ensures Valid()
      ensures old(Settled()) ==> Settled()
      ensures old(CanGoBack()) ==>
        && history == old(history)[..|old(history)| - 1]
        && currentPage == history[|history| - 1]
        && !transitioning
      ensures !old(CanGoBack()) ==>
        history == old(history) && currentPage == old(currentPage) && transitioning == old(transitioning)
    {
      var ticket := GoBack();
      if ticket.Some? {
        CompleteBack(ticket.value);
      }
    }
  }

  datatype Option<T> = None | Some(value: T)

  /** From a fresh start, navigating to `a`, then to `b`, then going back,
      each transition settling before the next, leaves `a` shown with
      history [home, a]. */
  method BackStackScenario(a: PageId, b: PageId) returns (page: PageId, history: seq<PageId>, transitioning: bool)
    requires a != Home && b != a
    ensures page == a && history == [Home, a] && !transitioning
  {
    var nav := new Navigator();
    nav.NavigateAndSettle(a);
    nav.NavigateAndSettle(b);
    nav.GoBackAndSettle();
    page, history, transitioning := nav.currentPage, nav.history, nav.transitioning;
  }

  /** Between the two phases the flag is up and the old page still shown;
      afterwards the flag is down and the new page shown. */
  method TransitionTiming(target: PageId) returns (during: (PageId, bool), after: (PageId, bool))
    requires target != Home
    ensures during == (Home, true)
    ensures after == (target, false)
  {
    var nav := new Navigator();
    var started := nav.Navigate(target);
    during := (nav.currentPage, nav.transitioning);
    nav.CompleteNavigate(target);
    after := (nav.currentPage, nav.transitioning);
  }

  /** Going back at the root changes nothing. */
  method BackAtRoot() returns (page: PageId, history: seq<PageId>, transitioning: bool)
    ensures page == Home && history == [Home] && !transitioning
  {
    var nav := new Navigator();
    var ticket := nav.GoBack();
    page, history, transitioning := nav.currentPage, nav.history, nav.transitioning;
  }

  /** Overlapping transitions, which nothing in the shell prevents: going
      back and then navigating before either delay has elapsed. The timers
      fire in the order they were set, so the stale navigate completion runs
      last and leaves a page shown that is not the top of the history. */
  method OverlapScenario(a: PageId, b: PageId) returns (page: PageId, history: seq<PageId>, transitioning: bool)
    requires a != Home && b != a && b != Home
    ensures page == b && history == [Home] && !transitioning
    ensures page != history[|history| - 1]
  {
    var nav := new Navigator();
    nav.NavigateAndSettle(a);
    var ticket := nav.GoBack();
    var started := nav.Navigate(b);
    nav.CompleteBack(ticket.value);
    nav.CompleteNavigate(b);
    page, history, transitioning := nav.currentPage, nav.history, nav.transitioning;
  }

  /** Clicking the "CSS Grid" card twice, the second click 200 ms after the
      first. Each click calls navigate 150 ms later through the closure of
      the render it was made in, and each navigate commits 150 ms after it
      starts. The second click's render still showed the dashboard, so its
      navigate passes the self-navigation guard after "grid" was committed
      and pushes "grid" a second time. */
  method StaleCardClickScenario() returns (page: PageId, history: seq<PageId>, transitioning: bool)
    ensures page == "grid" && history == [Home, "grid", "grid"] && !transitioning
  {
    var nav := new Navigator();
    var firstSeen := nav.currentPage;                         // click at 0 ms
    var started := nav.NavigateFromRender(firstSeen, "grid");  // 150 ms
    var secondSeen := nav.currentPage;                        // click at 200 ms
    nav.CompleteNavigate("grid");                              // 300 ms
    started := nav.NavigateFromRender(secondSeen, "grid");     // 350 ms
    nav.CompleteNavigate("grid");                              // 500 ms
    page, history, transitioning := nav.currentPage, nav.history, nav.transitioning;
  }

  /** Clicking a dashboard card navigates to the card's id. Every card but
      "Card in Row" names a page of its own; "cardinrow" is not a known id,
      so that card renders the dashboard again. */
  lemma CatalogueCardsRender(i: nat)
    requires i < |Dashboard.Catalogue()|
    ensures var id := Dashboard.Catalogue()[i].id;
      if id == "cardinrow" then Render(id) == DashboardPage else id in KnownIds && IdOf(Render(id)) == id
  {
  }
}

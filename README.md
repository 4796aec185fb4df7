# React DevLab tutorial: navigation shell, catalogue filter, todo reducer, breakpoints

The site is a catalogue of CSS and React demonstration pages. Four parts of
it hold logic rather than markup, and this project models those four in Dafny
and proves what they promise:

- **Navigator** (`navigation.dfy`, module `Navigation`). This is the shell in
  `src/App.js`. It holds the page shown (`currentPage`), the back-stack of page
  ids (`pageHistory`) and the transition flag (`isTransitioning`).
  - `navigateToPage` and `goBack` each run in two phases, separated by a
    150 ms timer. The class `Navigator` models phase 1 as `Navigate` / `GoBack`.
    It models the timer callback as `CompleteNavigate` / `CompleteBack`, which
    receive what phase 1 captured: the page id, or a `BackTicket` with the
    shortened history and the page below the top.
  - `Valid()` says the history is never empty and keeps `"dashboard"` at the
    bottom. Every method preserves it.
  - `Settled()` says no transition is pending and the page shown is the top of
    the history. It is preserved when each transition completes before the next
    one starts.
  - `Render` is the id→page switch of `renderCurrentPage`, which falls back to
    the dashboard for unknown ids.
- **Dashboard** (`dashboard.dfy`, module `Dashboard`). This is the catalogue in
  `src/components/Dashboard.js`.
  - The search-and-category filter keeps an example when the lower-cased term
    occurs in its lower-cased title, description or one of its tags, and its
    category is the selected one or `"All"` is selected.
  - The category list is `"All"` followed by the distinct categories in
    first-appearance order.
  - A card shows at most three of its tags.
  - The view-mode and dark-mode switches belong to the class `DashboardState`.
- **Hooks demonstrations** (`react_hooks.dfy`, module `ReactHooks`). These come
  from `src/components/ReactHooks.js`.
  - `todoReducer` handles ADD_TODO, TOGGLE_TODO, DELETE_TODO, and returns the
    state unchanged for any other action.
  - `addTodo` only adds when the trimmed input is non-empty. The trim uses the
    ECMAScript whitespace set.
  - The `ExpensiveCalculation` loop sums `0 … number*1000000 - 1`. It is proved
    equal to Gauss's closed form.
- **Breakpoints** (`responsive.dfy`, module `Responsive`). `getBreakpoint` of
  `src/components/Responsive.js` classifies a window width into five bands at
  576, 768, 992 and 1200 pixels.
- **Shared list operations** (`sequences.dfy`, module `Sequences`).
  - `Filter` is `Array.prototype.filter`. It is specified as an
    order-preserving subsequence with exact multiplicities.
  - `Distinct` is `[...new Set(xs)]`. It is specified as duplicate-free and
    covering the same values, in first-occurrence order.

Inputs that come from the browser become parameters:
- the clock reading `Date.now()` that becomes a new todo's id (`now`);
- the window width;
- the search term and the selected category.

Points where the code behaves differently from what one might expect:
- `navigateToPage` does not check page ids against the known pages. Any id is
  pushed, and only the render step falls back to the dashboard.
- The dashboard card "Card in Row" has id `cardinrow`, which no page answers
  to, so clicking it shows the dashboard again (`CatalogueCardsRender`).
- The self-navigation guard of `navigateToPage` compares with the page of
  the render whose closure made the call. A dashboard card calls navigate
  150 ms after the click, so a second click on the same card can land after
  the first navigation committed and push the page a second time
  (`StaleCardClickScenario`).
- The shell does nothing to stop two transitions from overlapping. A navigate
  completion that fires after a back completion leaves a page shown that is
  not the top of the history (`OverlapScenario`). The "page shown is the top
  of the history" invariant is therefore proved only for transitions that
  settle one at a time.

## Model

| member | source | states |
|---|---|---|
| `Navigation.Render` | src/App.js:63-197 | each of the nine known ids selects its own page; every other id renders the dashboard |
| `Navigation.RenderIdOf` | src/App.js:63-197 | every page is reached from its own id, and a non-dashboard page only from that id |
| `Navigation.Navigator.constructor` | src/App.js:19-25 | starts on "dashboard" with history ["dashboard"], no transition, settled, cannot go back |
| `Navigation.Navigator.CanGoBack` | src/App.js:54 | `canGoBack` holds exactly when the history is longer than one entry, i.e. is not just ["dashboard"] |
| `Navigation.Navigator.NavigateFromRender` | src/App.js:27-31 | when `pageId` is the page of the calling render nothing changes; otherwise exactly `pageId` is appended to history and the flag is raised, while the current page is unchanged; the history stays non-empty with home at the bottom |
| `Navigation.Navigator.Navigate` | src/App.js:27-31 | self-navigation changes nothing; otherwise exactly `pageId` is appended to history and the flag is raised, while the current page is unchanged; the history stays non-empty with home at the bottom |
| `Navigation.Navigator.CompleteNavigate` | src/App.js:33-36 | the deferred step sets the current page to `pageId` and lowers the flag, leaving history alone |
| `Navigation.Navigator.GoBack` | src/App.js:39-45 | with one entry nothing changes and no ticket is issued; otherwise the flag is raised and the ticket holds the history minus its last entry and that prefix's last page; the history is not yet changed |
| `Navigation.Navigator.CompleteBack` | src/App.js:46-50 | the deferred step installs the captured history and its top as current page and lowers the flag; the history stays non-empty |
| `Navigation.Navigator.NavigateAndSettle` | src/App.js:27-37 | both phases of navigate: current page is `pageId`; history grows by exactly `pageId` unless it was already current; a settled shell stays settled |
| `Navigation.Navigator.GoBackAndSettle` | src/App.js:39-52 | both phases of goBack: exactly the last entry is removed and the new top is shown when going back is possible; otherwise nothing changes; a settled shell stays settled |
| `Navigation.BackStackScenario` | src/App.js:27-52 | navigate to A, navigate to B, go back (each settling) shows A with history ["dashboard", A] |
| `Navigation.TransitionTiming` | src/App.js:27-37 | between the phases the flag is up and the old page is still shown; afterwards the flag is down and the target is shown |
| `Navigation.BackAtRoot` | src/App.js:39-52 | going back from the initial state leaves it unchanged |
| `Navigation.OverlapScenario` | src/App.js:27-52 | going back and then navigating before either timer fires ends with a page shown that is not the top of the history |
| `Navigation.StaleCardClickScenario` | src/components/Dashboard.js:145-159 | clicking the "CSS Grid" card twice 200 ms apart ends on "grid" with history ["dashboard", "grid", "grid"] |
| `Navigation.CatalogueCardsRender` | src/components/Dashboard.js:15-97 | every catalogue card id except "cardinrow" is a known page id; "cardinrow" renders the dashboard |
| `Sequences.Filter` | src/components/Dashboard.js:124-143 | `filter` returns an order-preserving subsequence whose elements satisfy the predicate, with each kept value's multiplicity unchanged and every other value dropped |
| `Sequences.Distinct` | src/components/Dashboard.js:99-104 | the Set spread has no duplicates, has exactly the input's values, and lists them in first-occurrence order |
| `Sequences.DistinctCardinality` | src/components/Dashboard.js:341 | the de-duplicated list is as long as the set of input values |
| `Dashboard.LowerChar` | src/components/Dashboard.js:126-137 | ASCII upper-case letters map to their lower-case letters, all other characters are kept, and no upper-case letter remains |
| `Dashboard.Lower` | src/components/Dashboard.js:126-137 | the lower-cased string has the same length, no upper-case letter, and differs from the input only in letter case |
| `Dashboard.LowerEqualIff` | src/components/Dashboard.js:126-137 | two strings lower to the same string exactly when they differ only in the case of their letters |
| `Dashboard.LowerIdempotent` | src/components/Dashboard.js:126-137 | lowering twice equals lowering once |
| `Dashboard.Includes` | src/components/Dashboard.js:126-137 | `includes` holds exactly when the term occurs at some index, so the empty term occurs in every string |
| `Dashboard.Catalogue` | src/components/Dashboard.js:15-97 | the catalogue has nine examples with distinct ids, each with three tags |
| `Dashboard.MatchesSearch` | src/components/Dashboard.js:126-137 | the empty term matches every example; a term longer than the title, the description and every tag matches nothing |
| `Dashboard.Keeps` | src/components/Dashboard.js:125-142 | an empty term with "All" keeps every example; a kept example has the selected category unless "All" is selected |
| `Dashboard.FilterExamples` | src/components/Dashboard.js:124-143 | the result is an order-preserving subsequence of the examples holding exactly the examples that match search and category, with their multiplicities; with a real category selected every result has that category |
| `Dashboard.FilterShowsAllInitially` | src/components/Dashboard.js:124-143 | with an empty term and "All" selected every example is returned, in order |
| `Dashboard.FilterIgnoresCase` | src/components/Dashboard.js:126-137 | terms that differ only in letter case select the same examples |
| `Dashboard.TitleHitIsShown` | src/components/Dashboard.js:126-141 | an example whose title contains the term up to letter case is shown under its own category and under "All" |
| `Dashboard.Categories` | src/components/Dashboard.js:99-104 | the list starts with "All"; the rest is duplicate-free, holds exactly the categories that occur, in first-occurrence order; it is wholly duplicate-free unless a category is itself named "All" |
| `Dashboard.CategoryButtonShowsCards` | src/components/Dashboard.js:99-143 | every category button but "All" shows at least one card of that category while the search is empty |
| `Dashboard.CategoryCount` | src/components/Dashboard.js:340-342 | `categories.length - 1` equals the number of distinct categories |
| `Dashboard.VisibleTags` | src/components/Dashboard.js:306-307 | at most three tags are shown, they are a prefix of the tags, and all tags are shown when there are at most three |
| `Dashboard.NextViewMode` | src/components/Dashboard.js:173-175 | the result is always "grid" or "list", and it is "list" exactly when the mode was "grid" |
| `Dashboard.ViewModeToggleTwice` | src/components/Dashboard.js:173-175 | toggling twice from "grid" or "list" gives the mode back |
| `Dashboard.DashboardState.constructor` | src/components/Dashboard.js:7-13 | empty search, "All" selected, light mode, grid view |
| `Dashboard.DashboardState.Visible` | src/components/Dashboard.js:124-143 | the cards shown are an order-preserving subsequence of the examples holding exactly those kept by the current search and category, each with its multiplicity; with an empty search and "All" every example is shown |
| `Dashboard.DashboardState.ToggleDarkMode` | src/components/Dashboard.js:169-171 | dark mode is negated and nothing else changes |
| `Dashboard.DashboardState.ToggleViewMode` | src/components/Dashboard.js:173-175 | the view mode advances by `NextViewMode` and nothing else changes |
| `Dashboard.DashboardState.ToggleBothTwice` | src/components/Dashboard.js:169-175 | pressing both switches twice restores both settings, leaves search term and category alone, and never changes the cards shown |
| `Dashboard.InitialView` | src/components/Dashboard.js:7-143 | a fresh dashboard shows the whole catalogue |
| `ReactHooks.ToggleItems` | src/components/ReactHooks.js:30-35 | length, order, ids and texts are kept; `completed` flips exactly on the items whose id matches |
| `ReactHooks.ToggleTwice` | src/components/ReactHooks.js:30-35 | toggling the same id twice returns the original list |
| `ReactHooks.DeleteItems` | src/components/ReactHooks.js:36-39 | the result is an order-preserving subsequence holding exactly the items whose id differs, with their multiplicities |
| `ReactHooks.DeleteAbsent` | src/components/ReactHooks.js:36-39 | deleting an id no item carries leaves the list unchanged |
| `ReactHooks.Reduce` | src/components/ReactHooks.js:19-43 | ADD appends one incomplete item with the payload text and the clock id after the unchanged old items; TOGGLE keeps length, ids and texts and flips exactly the matching items; DELETE keeps exactly the non-matching items in order, each with its multiplicity; any other action returns the state |
| `ReactHooks.IsWhitespace` | src/components/ReactHooks.js:658 | space, tab, line feed and carriage return are whitespace; no ASCII letter or digit is |
| `ReactHooks.TrimStart` | src/components/ReactHooks.js:658 | the result is a suffix, everything dropped is whitespace, and it does not start with whitespace |
| `ReactHooks.TrimEnd` | src/components/ReactHooks.js:658 | the result is a prefix, everything dropped is whitespace, and it does not end with whitespace |
| `ReactHooks.Trim` | src/components/ReactHooks.js:658 | the result is a slice with only whitespace outside it and no whitespace at its ends; it is empty exactly when the input is all whitespace |
| `ReactHooks.TodoList.constructor` | src/components/ReactHooks.js:650-655 | the list and the input start empty |
| `ReactHooks.TodoList.SetInput` | src/components/ReactHooks.js:670 | the input takes the typed text; the list is unchanged |
| `ReactHooks.TodoList.Dispatch` | src/components/ReactHooks.js:684-702 | the list becomes the reducer's result; the input is unchanged |
| `ReactHooks.TodoList.AddTodo` | src/components/ReactHooks.js:657-662 | when the trimmed input is non-empty, the untrimmed input is appended as an incomplete item and the input cleared; otherwise nothing changes |
| `ReactHooks.SumBelowClosedForm` | src/components/ReactHooks.js:756-760 | the sum of 0 … n-1 is n(n-1)/2 |
| `ReactHooks.ExpensiveResult` | src/components/ReactHooks.js:754-761 | the loop returns the sum of 0 … m-1 for m = number*1000000, which is m(m-1)/2 when number is positive and 0 otherwise |
| `Responsive.Classify` | src/components/Responsive.js:32-42 | the band's rank is the number of thresholds (576, 768, 992, 1200) the width reaches |
| `Responsive.GetBreakpoint` | src/components/Responsive.js:32-42 | width ≥ 1200 gives "Extra Large (≥1200px)"; [992,1200) "Large (≥992px)"; [768,992) "Medium (≥768px)"; [576,768) "Small (≥576px)"; below 576 "Extra Small (<576px)" |
| `Responsive.LabelInjective` | src/components/Responsive.js:32-42 | different bands have different labels |
| `Responsive.ClassifyMonotone` | src/components/Responsive.js:32-42 | a wider window never gets a narrower band |
| `Responsive.ThresholdsOpenBands` | src/components/Responsive.js:32-42 | each threshold belongs to the band above it, and one pixel less belongs to the band below |

## Left out

- Timers are not modelled as time. The 150 ms delays of `navigateToPage` and `goBack` are the explicit completion methods. The 150 ms card-click delay is modelled only through the page a delayed call compares with (`NavigateFromRender`); which render's closure a call uses is chosen by the caller. The 800 ms loading spinner of the dashboard is not modelled. Nothing constrains when a completion runs relative to other calls; only the overlap and double-click examples above are worked out.
- Navigation.Navigator.Navigate: assumes an up-to-date render, so its self-navigation check reads the committed page. A delayed card click that lands after a commit reads an outdated page instead; that case is `NavigateFromRender` with the outdated page.
- DOM and browser effects are not modelled: the card-click scale animation through `document.querySelector`, the `dark-mode` class on the body, the scroll listener of the navigation header, the resize listener that feeds the width, and the home button's `window.location.reload`.
- Hover state (`hoveredCard`) and the `transitioning` CSS class are not modelled, because they only affect presentation. The same goes for the icons of the catalogue entries and the titles in the navigation header.
- Dashboard.LowerChar: only ASCII letters are lower-cased. `toLowerCase` follows full Unicode case mapping, which is not modelled.
- ReactHooks.Reduce: actions are typed. A TOGGLE or DELETE payload of another type than the numeric ids (which `===` would never match) is not modelled. Todo ids come from the `now` parameter, and their uniqueness is not claimed, since two adds within one millisecond share an id.
- ReactHooks.ExpensiveResult: the sum is computed over mathematical integers. JavaScript computes it in double-precision floating point. The `parseInt(...) || 1` parsing of the number field is not modelled.
- The other hooks demonstrations in `src/components/ReactHooks.js` are not modelled: `useLocalStorage` with its JSON handling, `useWindowSize`, `ObjectMemoization` with `Date.now()` and `Math.random()`, the counters, the greeting and the simulated API call. Neither are the `useMemo`/`useCallback`/`useContext` mechanics.
- The other pages are static JSX catalogues whose only logic is choosing an active section: grid, flexbox, animations, gradients, shadows and typography. They are not part of this model.

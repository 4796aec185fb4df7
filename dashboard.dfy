/** The dashboard catalogue (src/components/Dashboard.js): the example
    cards, the search-and-category filter, the category list of the
    drop-down and the view-mode and dark-mode switches. */
module Dashboard {
  import opened Sequences

  datatype Example = Example(
    id: string,
    title: string,
    description: string,
    category: string,
    tags: seq<string>)

  /** The category entry that selects every example. */
  const AllCategories: string := "All"

  /** The catalogue the dashboard shows (icons left out). */
  function Catalogue(): (r: seq<Example>)
    ensures |r| == 9
    ensures forall i, j :: 0 <= i < j < |r| ==> r[i].id != r[j].id
    ensures forall i :: 0 <= i < |r| ==> |r[i].tags| == 3
  {
    [ Example("cardinrow", "Card in Row", "Bootstrap card layout examples in rows", "Layout",
              ["bootstrap", "cards", "layout"]),
      Example("grid", "CSS Grid", "Various CSS Grid layout examples and techniques", "CSS Grid",
              ["grid", "layout", "css"]),
      Example("flex", "CSS Flexbox", "Flexbox layout examples and properties", "CSS Flexbox",
              ["flexbox", "layout", "css"]),
      Example("animations", "CSS Animations", "Keyframes, transitions, and transform examples", "Animations",
              ["animations", "keyframes", "transitions"]),
      Example("gradients", "CSS Gradients", "Linear, radial, and conic gradient examples", "Styling",
              ["gradients", "colors", "css"]),
      Example("shadows", "CSS Shadows", "Box-shadow and text-shadow examples", "Styling",
              ["shadows", "depth", "css"]),
      Example("responsive", "Responsive Design", "Media queries and responsive layout examples", "Responsive",
              ["responsive", "media-queries", "mobile"]),
      Example("typography", "Typography", "Font styling, sizing, and text effects", "Typography",
              ["fonts", "text", "typography"]),
      Example("reacthooks", "React Hooks", "useState, useEffect, useContext, and custom hooks", "React",
              ["react", "hooks", "javascript"]) ]
  }

  // ---------------------------------------------------------------------
  // Case folding and substring search

  /** An ASCII upper-case letter. */
  predicate IsUpper(c: char)
  {
    'A' <= c <= 'Z'
  }

  /** Two characters are the same letter in either case, or equal. */
  ghost predicate SameCharUpToCase(c: char, d: char)
  {
    c == d ||
    (IsUpper(c) && d as int == c as int + 32) ||
    (IsUpper(d) && c as int == d as int + 32)
  }

  /** Two strings differ at most in the case of ASCII letters. */
  ghost predicate SameUpToCase(a: string, b: string)
  {
    |a| == |b| && forall i :: 0 <= i < |a| ==> SameCharUpToCase(a[i], b[i])
  }

  /** `toLowerCase` on one character, restricted to ASCII letters. */
  function LowerChar(c: char): (d: char)
    ensures IsUpper(c) ==> 'a' <= d <= 'z' && d as int - c as int == 32
    ensures !IsUpper(c) ==> d == c
    ensures !IsUpper(d)
  {
    if IsUpper(c) then (c as int + 32) as char else c
  }

  /** `toLowerCase` on a string: the string that differs from `s` only in
      letter case and has no upper-case letter left. These two facts
      determine the result. */
  function Lower(s: string): (r: string)
    ensures |r| == |s|
    ensures forall i :: 0 <= i < |r| ==> !IsUpper(r[i])
    ensures SameUpToCase(s, r)
  {
    seq(|s|, i requires 0 <= i < |s| => LowerChar(s[i]))
  }

  /** Lowering twice is lowering once. */
  lemma LowerIdempotent(s: string)
    ensures Lower(Lower(s)) == Lower(s)
  {
  }

  /** Two strings lower to the same string exactly when they differ only in
      letter case. */
  lemma LowerEqualIff(a: string, b: string)
    ensures Lower(a) == Lower(b) <==> SameUpToCase(a, b)
  {
  }

  /** `sub` occurs in `s` starting at index `i`. */
  ghost predicate OccursAt(s: string, sub: string, i: int)
  {
    0 <= i && i + |sub| <= |s| && s[i..i + |sub|] == sub
  }

  /** `s.includes(sub)`: `sub` occurs somewhere in `s`; the empty string
      occurs in every string. */
  function Includes(s: string, sub: string): (b: bool)
    ensures b <==> exists i :: OccursAt(s, sub, i)
    decreases |s|
  {
    if |sub| > |s| then
      assert forall i :: !OccursAt(s, sub, i);
      false
    else if s[..|sub|] == sub then
      assert OccursAt(s, sub, 0);
      true
    else
      var b := Includes(s[1..], sub);
      IncludesShift(s, sub);
      b
  }

  /** An occurrence past the first character is an occurrence in the tail,
      one index earlier. */
  lemma IncludesShift(s: string, sub: string)
    requires |s| > 0 && !OccursAt(s, sub, 0)
    ensures (exists i :: OccursAt(s, sub, i)) <==> (exists i :: OccursAt(s[1..], sub, i))
  {
    forall i | OccursAt(s, sub, i) ensures OccursAt(s[1..], sub, i - 1) {
      assert s[1..][i - 1..i - 1 + |sub|] == s[i..i + |sub|];
    }
    forall i | OccursAt(s[1..], sub, i) ensures OccursAt(s, sub, i + 1) {
      assert s[1..][i..i + |sub|] == s[i + 1..i + 1 + |sub|];
    }
  }

  // ---------------------------------------------------------------------
  // The filter

  /** The search part of the filter: the lower-cased term occurs in the
      lower-cased title, description or one of the tags. */
  predicate MatchesSearch(e: Example, term: string)
    ensures term == [] ==> MatchesSearch(e, term)
    ensures (|term| > |e.title| && |term| > |e.description| &&
             forall k :: 0 <= k < |e.tags| ==> |term| > |e.tags[k]|) ==> !MatchesSearch(e, term)
  {
    assert term == [] ==> OccursAt(Lower(e.title), Lower(term), 0);
    var t := Lower(term);
    Includes(Lower(e.title), t) ||
    Includes(Lower(e.description), t) ||
    exists k :: 0 <= k < |e.tags| && Includes(Lower(e.tags[k]), t)
  }

  /** Whether the card of `e` stays on screen: it matches the search, and
      "All" or its own category is selected. */
  predicate Keeps(e: Example, term: string, selected: string)
    ensures term == [] && selected == AllCategories ==> Keeps(e, term, selected)
    ensures Keeps(e, term, selected) ==> selected == AllCategories || e.category == selected
  {
    MatchesSearch(e, term) && (selected == AllCategories || e.category == selected)
  }

  /** `filteredExamples`: the examples that match the search and the
      category, in catalogue order. */
  function FilterExamples(examples: seq<Example>, term: string, selected: string): (r: seq<Example>)
    ensures IsSubsequence(r, examples)
    ensures forall e :: e in r <==> e in examples && Keeps(e, term, selected)
    ensures forall e :: multiset(r)[e] == if Keeps(e, term, selected) then multiset(examples)[e] else 0
    ensures selected != AllCategories ==> forall i :: 0 <= i < |r| ==> r[i].category == selected
  {
    Filter(examples, e => Keeps(e, term, selected))
  }

  /** With an empty search and "All" selected, every example is shown. */
  lemma FilterShowsAllInitially(examples: seq<Example>)
    ensures FilterExamples(examples, "", AllCategories) == examples
  {
    FilterKeepsAll(examples, e => Keeps(e, "", AllCategories));
  }

  /** The search ignores letter case: terms that differ only in the case of
      their letters select the same examples. */
  lemma FilterIgnoresCase(examples: seq<Example>, term1: string, term2: string, selected: string)
    requires SameUpToCase(term1, term2)
    ensures FilterExamples(examples, term1, selected) == FilterExamples(examples, term2, selected)
  {
    LowerEqualIff(term1, term2);
    FilterCongruent(examples, e => Keeps(e, term1, selected), e => Keeps(e, term2, selected));
  }

  /** An example whose title contains the term, whatever the case, is shown
      when its category is selected. */
  lemma TitleHitIsShown(examples: seq<Example>, e: Example, term: string, i: nat)
    requires e in examples
    requires i + |term| <= |e.title| && Lower(e.title[i..i + |term|]) == Lower(term)
    ensures e in FilterExamples(examples, term, e.category)
    ensures e in FilterExamples(examples, term, AllCategories)
  {
    var lt := Lower(e.title);
    assert lt[i..i + |term|] == Lower(e.title[i..i + |term|]);
    assert OccursAt(lt, Lower(term), i);
  }

  // ---------------------------------------------------------------------
  // Categories and card details

  /** The category of every example, in catalogue order. */
  function CategoryColumn(examples: seq<Example>): (r: seq<string>)
    ensures |r| == |examples|
    ensures forall i :: 0 <= i < |examples| ==> r[i] == examples[i].category
  {
    seq(|examples|, i requires 0 <= i < |examples| => examples[i].category)
  }

  /** `categories`: "All", then each distinct category once, in order of
      first appearance in the catalogue. */
  function Categories(examples: seq<Example>): (r: seq<string>)
    ensures |r| >= 1 && r[0] == AllCategories
    ensures NoDup(r[1..])
    ensures forall c :: c in r[1..] <==> exists i :: 0 <= i < |examples| && examples[i].category == c
    ensures forall i, j :: 1 <= i < j < |r| ==>
      && r[i] in CategoryColumn(examples) && r[j] in CategoryColumn(examples)
      && FirstIndex(CategoryColumn(examples), r[i]) < FirstIndex(CategoryColumn(examples), r[j])
    ensures (forall i :: 0 <= i < |examples| ==> examples[i].category != AllCategories) ==> NoDup(r)
  {
    var column := CategoryColumn(examples);
    var distinct := Distinct(column);
    var r := [AllCategories] + distinct;
    assert r[1..] == distinct;
    assert forall i :: 1 <= i < |r| ==> r[i] == distinct[i - 1];
    assert (forall i :: 0 <= i < |examples| ==> examples[i].category != AllCategories) ==>
      AllCategories !in distinct;
    r
  }

  /** The footer's category count `categories.length - 1` is the number of
      distinct categories in the catalogue. */
  lemma CategoryCount(examples: seq<Example>)
    ensures |Categories(examples)| - 1 == |set i | 0 <= i < |examples| :: examples[i].category|
  {
    var column := CategoryColumn(examples);
    DistinctCardinality(column);
    assert (set x | x in column) == (set i | 0 <= i < |examples| :: examples[i].category);
  }

  /** Every category button but "All" shows at least one card of its
      category while the search is empty. */
  lemma CategoryButtonShowsCards(examples: seq<Example>, c: string)
    requires c in Categories(examples)[1..]
    ensures exists e :: e in FilterExamples(examples, "", c) && e.category == c
  {
  }

  /** `tags.slice(0, 3)`: at most the first three tags appear on a card. */
  function VisibleTags(tags: seq<string>): (r: seq<string>)
    ensures |r| <= 3 && r <= tags
    ensures |tags| <= 3 ==> r == tags
    ensures |tags| > 3 ==> |r| == 3
  {
    if |tags| <= 3 then tags else tags[..3]
  }

  // ---------------------------------------------------------------------
  // View switches

  /** The mode `toggleViewMode` switches to: grid becomes list, anything
      else becomes grid. */
  function NextViewMode(mode: string): (r: string)
    ensures r == "grid" || r == "list"
    ensures r == "list" <==> mode == "grid"
  {
    if mode == "grid" then "list" else "grid"
  }

  /** From either valid mode, toggling twice gives the mode back. */
  lemma ViewModeToggleTwice(mode: string)
    requires mode == "grid" || mode == "list"
    ensures NextViewMode(NextViewMode(mode)) == mode
  {
  }

  /** The state of the dashboard that the controls change. */
  class DashboardState {
    var searchTerm: string
    var selectedCategory: string
    var darkMode: bool
    var viewMode: string

    /** Empty search, every category, light mode, grid view. */
    constructor ()
      ensures searchTerm == "" && selectedCategory == AllCategories
      ensures !darkMode && viewMode == "grid"
    {
      searchTerm := "";
      selectedCategory := AllCategories;
      darkMode := false;
      viewMode := "grid";
    }

    /** The cards on screen. */
    function Visible(examples: seq<Example>): (r: seq<Example>)
      reads this
      ensures IsSubsequence(r, examples)
      ensures forall e :: e in r <==> e in examples && Keeps(e, searchTerm, selectedCategory)
      ensures forall e ::
                multiset(r)[e] == if Keeps(e, searchTerm, selectedCategory) then multiset(examples)[e] else 0
      ensures searchTerm == [] && selectedCategory == AllCategories ==> r == examples
    {
      FilterShowsAllInitially(examples);
      FilterExamples(examples, searchTerm, selectedCategory)
    }

    method ToggleDarkMode()
      modifies this
      ensures darkMode == !old(darkMode)
      ensures viewMode == old(viewMode)
      ensures searchTerm == old(searchTerm) && selectedCategory == old(selectedCategory)
    {
      darkMode := !darkMode;
    }

    method ToggleViewMode()
      modifies this
      ensures viewMode == NextViewMode(old(viewMode))
      ensures darkMode == old(darkMode)
      ensures searchTerm == old(searchTerm) && selectedCategory == old(selectedCategory)
    {
      viewMode := NextViewMode(viewMode);
    }

    /** Pressing both switches twice restores the display settings and never
        changes which cards are shown. */
    method ToggleBothTwice(examples: seq<Example>)
      requires viewMode == "grid" || viewMode == "list"
      modifies this
      ensures darkMode == old(darkMode) && viewMode == old(viewMode)
      ensures searchTerm == old(searchTerm) && selectedCategory == old(selectedCategory)
      ensures Visible(examples) == old(Visible(examples))
    {
      ToggleDarkMode();
      ToggleViewMode();
      ToggleDarkMode();
      ToggleViewMode();
    }
  }

  /** On a fresh dashboard every card of the catalogue is shown. */
  method InitialView() returns (shown: seq<Example>)
    ensures shown == Catalogue()
  {
    var d := new DashboardState();
    shown := d.Visible(Catalogue());
    FilterShowsAllInitially(Catalogue());
  }
}

/** The breakpoint read-out of the responsive-design page
    (src/components/Responsive.js): the window width classified into the
    five bands of the grid system. */
module Responsive {

  /** The bands, from narrowest to widest. */
  datatype Breakpoint = ExtraSmall | Small | Medium | Large | ExtraLarge

  /** The position of a band, 0 for the narrowest. */
  function Rank(b: Breakpoint): nat
  {
    match b
    case ExtraSmall => 0
    case Small => 1
    case Medium => 2
    case Large => 3
    case ExtraLarge => 4
  }

  /** The lower edges of the bands above the narrowest, in pixels. */
  const Thresholds: seq<int> := [576, 768, 992, 1200]

  /** The band of `getBreakpoint`: the rank of the band is the number of
      thresholds the width reaches, so a threshold itself belongs to the
      band above it. */
  function Classify(width: int): (b: Breakpoint)
    ensures forall k :: 0 <= k < |Thresholds| ==> (Thresholds[k] <= width <==> k < Rank(b))
  {
    if width >= 1200 then ExtraLarge
    else if width >= 992 then Large
    else if width >= 768 then Medium
    else if width >= 576 then Small
    else ExtraSmall
  }

  /** The text `getBreakpoint` shows for each band. */
  function Label(b: Breakpoint): string
  {
    match b
    case ExtraLarge => "Extra Large (\U{2265}1200px)"
    case Large => "Large (\U{2265}992px)"
    case Medium => "Medium (\U{2265}768px)"
    case Small => "Small (\U{2265}576px)"
    case ExtraSmall => "Extra Small (<576px)"
  }

  /** `getBreakpoint` on the current window width. */
  function GetBreakpoint(width: int): (text: string)
    ensures width >= 1200 ==> text == "Extra Large (\U{2265}1200px)"
    ensures 992 <= width < 1200 ==> text == "Large (\U{2265}992px)"
    ensures 768 <= width < 992 ==> text == "Medium (\U{2265}768px)"
    ensures 576 <= width < 768 ==> text == "Small (\U{2265}576px)"
    ensures width < 576 ==> text == "Extra Small (<576px)"
  {
    Label(Classify(width))
  }

  /** Different bands carry different labels, so the label tells the band. */
  lemma LabelInjective(b1: Breakpoint, b2: Breakpoint)
    requires Label(b1) == Label(b2)
    ensures b1 == b2
  {
  }

  /** A wider window never gets a narrower band. */
  lemma ClassifyMonotone(w1: int, w2: int)
    requires w1 <= w2
    ensures Rank(Classify(w1)) <= Rank(Classify(w2))
  {
  }

  /** Each threshold opens its band: the width at the threshold is in the
      band above, one pixel less is in the band below. */
  lemma ThresholdsOpenBands(k: nat)
    requires k < |Thresholds|
    ensures Rank(Classify(Thresholds[k])) == k + 1
    ensures Rank(Classify(Thresholds[k] - 1)) == k
  {
  }
}

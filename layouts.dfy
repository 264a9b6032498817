/**
 * The three layout modes and the readiness rule of the preview gate.
 */
module Layouts {

  /** The value of `currentLayout`; the buttons only ever offer these three. */
  datatype Layout = Single | Vertical | Horizontal

  /** The layout's name as the buttons' `data-layout` attribute spells it. */
  function Name(l: Layout): string
  {
    match l
    case Single => "single"
    case Vertical => "vertical"
    case Horizontal => "horizontal"
  }

  /** The panels (image slots) a layout needs before its preview may be shown. */
  function RequiredPanels(l: Layout): (panels: set<int>)
    ensures 1 in panels
    ensures (2 in panels) <==> l != Single
    ensures panels <= {1, 2}
  {
    if l == Single then {1} else {1, 2}
  }

  /** The panels whose slot currently holds an image. */
  function PresentPanels(has1: bool, has2: bool): (panels: set<int>)
    ensures (1 in panels) <==> has1
    ensures (2 in panels) <==> has2
    ensures panels <= {1, 2}
  {
    (if has1 then {1} else {}) + (if has2 then {2} else {})
  }

  /**
   * The test of the preview gate: a single layout needs image 1, a split
   * layout needs both images. It holds exactly when every panel the layout
   * requires is present.
   */
  predicate Ready(l: Layout, has1: bool, has2: bool)
    ensures Ready(l, has1, has2) <==> RequiredPanels(l) <= PresentPanels(has1, has2)
  {
    || (l == Single && has1)
    || ((l == Vertical || l == Horizontal) && has1 && has2)
  }
}

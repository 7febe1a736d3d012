/** The panel's configuration value, reconstructed from the cases the demo host
    uses: a pinned position, a size mode, four margins and the set of corners
    that are drawn rounded. Equality is structural, as for any datatype. */
module Panel {

  /** The discrete size states of the panel. */
  datatype Mode = Compact | Expanded | FullHeight

  /** The edge(s) of the host the panel is pinned to. */
  datatype Position = LeadingBottom | TrailingBottom | Bottom

  /** The corners of a layer's corner mask (minimum/maximum x and y). */
  datatype Corner = MinXMinY | MaxXMinY | MinXMaxY | MaxXMaxY

  /** Insets from the host's safe area, in points. */
  datatype EdgeInsets = EdgeInsets(top: int, left: int, bottom: int, right: int)

  /** A size in points; a width of 0 asks the panel to fill the available width. */
  datatype Size = Size(width: int, height: int)

  datatype Configuration = Configuration(
    position: Position,
    mode: Mode,
    margins: EdgeInsets,
    maskedCorners: set<Corner>)

  const AllModes: set<Mode> := {Compact, Expanded, FullHeight}

  const AllCorners: set<Corner> := {MinXMinY, MaxXMinY, MinXMaxY, MaxXMaxY}

  /** The two corners on the panel's top (minimum y) edge. */
  const TopCorners: set<Corner> := {MinXMinY, MaxXMinY}

  predicate NonNegative(m: EdgeInsets) {
    m.top >= 0 && m.left >= 0 && m.bottom >= 0 && m.right >= 0
  }
}

/** The demo host's layout policy: the pure rules that pick the panel's
    position, width, margins and per-mode size from the device's traits, and
    the three rewrites the host applies to the panel's configuration. */
module Policy {
  import opened Panel

  /** The device idiom, reduced to what the host tests for. */
  datatype Idiom = Pad | Other

  datatype SizeClass = Unspecified | Compact | Regular

  /** The two fields of a trait collection the host reads. */
  datatype TraitCollection = TraitCollection(idiom: Idiom, verticalSizeClass: SizeClass)

  /** Width of the panel for a pinned position; 0 means "fill the width". */
  function PanelWidth(traits: TraitCollection, position: Position): (width: int)
    ensures width >= 0
    ensures width == 0 <==> position == Bottom
    ensures position != Bottom && traits.idiom == Pad ==> width == 320
    ensures position != Bottom && traits.idiom != Pad ==> width == 270
  {
    if position == Bottom then 0
    else if traits.idiom == Pad then 320 else 270
  }

  /** Edge the panel is pinned to: trailing on a pad, otherwise leading when
      the vertical size class is compact and the full bottom edge when not. */
  function PanelPosition(traits: TraitCollection): (position: Position)
    ensures position == TrailingBottom <==> traits.idiom == Pad
    ensures position == LeadingBottom <==>
              traits.idiom != Pad && traits.verticalSizeClass == SizeClass.Compact
    ensures position == Bottom <==>
              traits.idiom != Pad && traits.verticalSizeClass != SizeClass.Compact
  {
    if traits.idiom == Pad then TrailingBottom
    else if traits.verticalSizeClass == SizeClass.Compact then LeadingBottom
    else Bottom
  }

  /** Insets of the panel from the safe area. */
  function PanelMargins(traits: TraitCollection): (margins: EdgeInsets)
    ensures NonNegative(margins)
    ensures traits.idiom == Pad ==> margins == EdgeInsets(20, 20, 20, 20)
    ensures traits.idiom != Pad ==>
              margins.top == 20 && margins.bottom == 0 && margins.left == margins.right
    ensures traits.idiom != Pad ==>
              (margins.left == 20 <==> traits.verticalSizeClass == SizeClass.Compact) &&
              (margins.left == 0 <==> traits.verticalSizeClass != SizeClass.Compact)
    // the panel keeps side margins exactly when it is not stretched along the bottom
    ensures margins.left == 0 <==> PanelPosition(traits) == Bottom
  {
    if traits.idiom == Pad then EdgeInsets(20, 20, 20, 20)
    else
      var horizontalMargin := if traits.verticalSizeClass == SizeClass.Compact then 20 else 0;
      EdgeInsets(20, horizontalMargin, 0, horizontalMargin)
  }

  /** The size the host's size delegate reports for a mode. The delegate reads
      the host's current traits and the panel's current position; both are
      parameters here. A height of 0 in full-height mode leaves the height to
      the panel. */
  function PanelSize(traits: TraitCollection, position: Position, mode: Mode): (size: Size)
    ensures size.width == PanelWidth(traits, position)
    ensures mode == Mode.Compact ==> size.height == 64
    ensures mode == Expanded ==> size.height == 270
    ensures mode == FullHeight ==> size.height == 0
  {
    var width := PanelWidth(traits, position);
    match mode
    case Compact => Size(width, 64)
    case Expanded => Size(width, 270)
    case FullHeight => Size(width, 0)
  }

  /** The mode the host switches to on each press of its mode button. */
  const NextModeMapping: map<Mode, Mode> :=
    map[Mode.Compact := Expanded, Expanded := FullHeight, FullHeight := Mode.Compact]

  /** Place of a mode in the cycle, as an independent reference for the table. */
  function ModeIndex(mode: Mode): nat {
    match mode
    case Compact => 0
    case Expanded => 1
    case FullHeight => 2
  }

  /** The configuration after a press of the mode button: the next mode from
      the table, everything else as it was. A mode missing from the table
      would leave the configuration untouched. */
  function ToggledConfiguration(c: Configuration): (r: Configuration)
    ensures ModeIndex(r.mode) == (ModeIndex(c.mode) + 1) % 3
    ensures r.mode != c.mode
    ensures r.position == c.position && r.margins == c.margins
    ensures r.maskedCorners == c.maskedCorners
  {
    if c.mode in NextModeMapping then c.(mode := NextModeMapping[c.mode]) else c
  }

  /** The configuration the host writes back when the trait collection is
      about to change: position and margins follow the new traits. */
  function TransitionedConfiguration(c: Configuration, newCollection: TraitCollection): (r: Configuration)
    ensures r.position == PanelPosition(newCollection)
    ensures r.margins == PanelMargins(newCollection) && NonNegative(r.margins)
    ensures r.mode == c.mode && r.maskedCorners == c.maskedCorners
    ensures r == c <==>
              c.position == PanelPosition(newCollection) && c.margins == PanelMargins(newCollection)
  {
    c.(position := PanelPosition(newCollection), margins := PanelMargins(newCollection))
  }

  /** The configuration the host sets up when it creates the panel
      controller; `base` is the framework's default configuration, whose
      mode is the only field that survives. */
  function InitialConfiguration(traits: TraitCollection, base: Configuration): (r: Configuration)
    ensures r.mode == base.mode
    ensures r.position == PanelPosition(traits) && r.margins == PanelMargins(traits)
    ensures TopCorners <= r.maskedCorners <= AllCorners
    ensures r.maskedCorners == AllCorners <==> traits.idiom == Pad
    ensures traits.idiom != Pad ==> r.maskedCorners == TopCorners
  {
    Configuration(
      PanelPosition(traits),
      base.mode,
      PanelMargins(traits),
      if traits.idiom == Pad then AllCorners else TopCorners)
  }

  /** The mode table is defined on every mode and hits every mode once. */
  lemma NextModeMappingIsPermutation()
    ensures NextModeMapping.Keys == AllModes
    ensures NextModeMapping.Values == AllModes
    ensures forall m, n :: m in NextModeMapping && n in NextModeMapping && m != n ==>
              NextModeMapping[m] != NextModeMapping[n]
  {
    forall m, n | m in NextModeMapping && n in NextModeMapping && m != n
      ensures NextModeMapping[m] != NextModeMapping[n]
    {
      match m
      case Compact => assert NextModeMapping[m] == Expanded;
      case Expanded => assert NextModeMapping[m] == FullHeight;
      case FullHeight => assert NextModeMapping[m] == Mode.Compact;
    }
    assert NextModeMapping.Keys == AllModes;
    assert NextModeMapping.Values == AllModes by {
      assert NextModeMapping[Mode.Compact] == Expanded;
      assert NextModeMapping[Expanded] == FullHeight;
      assert NextModeMapping[FullHeight] == Mode.Compact;
    }
  }

  /** Three presses of the mode button bring back the starting configuration. */
  lemma ToggleThreeTimes(c: Configuration)
    ensures ToggledConfiguration(ToggledConfiguration(ToggledConfiguration(c))) == c
  {
  }

  /** The trait rewrite is idempotent and commutes with a mode press. */
  lemma TransitionIdempotentAndCommutes(c: Configuration, t: TraitCollection)
    ensures TransitionedConfiguration(TransitionedConfiguration(c, t), t) == TransitionedConfiguration(c, t)
    ensures TransitionedConfiguration(ToggledConfiguration(c), t) ==
            ToggledConfiguration(TransitionedConfiguration(c, t))
  {
  }

  /** The rewrite after a trait change yields what a fresh set-up would
      produce for the new traits, except for the corner mask. */
  lemma TransitionMatchesInitial(c: Configuration, t: TraitCollection)
    ensures TransitionedConfiguration(c, t) == InitialConfiguration(t, c).(maskedCorners := c.maskedCorners)
  {
  }

  /** The corners rounded off a pad are a strict subset of those on a pad. */
  lemma MaskedCornersStrictSubset(t: TraitCollection, u: TraitCollection, base: Configuration)
    requires t.idiom == Pad && u.idiom != Pad
    ensures InitialConfiguration(u, base).maskedCorners < InitialConfiguration(t, base).maskedCorners
  {
  }

  /** The size delegate's width does not depend on the mode asked for. */
  lemma PanelWidthIndependentOfMode(t: TraitCollection, p: Position, m: Mode, n: Mode)
    ensures PanelSize(t, p, m).width == PanelSize(t, p, n).width
  {
  }

  /** With the position the host picks, the panel fills the width exactly on
      a non-pad device whose vertical size class is not compact. */
  lemma PolicyWidthZeroExactly(t: TraitCollection, m: Mode)
    ensures PanelSize(t, PanelPosition(t), m).width == 0 <==>
            t.idiom != Pad && t.verticalSizeClass != SizeClass.Compact
  {
  }
}

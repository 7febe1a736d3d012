/** What the host does to the panel over a run of events: presses of its two
    toolbar buttons and changes of the trait collection. The lemmas state the
    invariants every reachable state keeps. */
module Trace {
  import opened Panel
  import opened Policy

  datatype Event =
    | ToggleModePress
    | ToggleVisibilityPress
      // the host's rewrite before a trait change, followed by the platform
      // installing the new trait collection as the host's current one
    | TraitTransition(newCollection: TraitCollection)

  /** The host's current traits, the panel's configuration and whether the
      panel is shown. */
  datatype HostState = HostState(
    traitCollection: TraitCollection,
    configuration: Configuration,
    isVisible: bool)

  function Step(s: HostState, e: Event): HostState {
    match e
    case ToggleModePress => s.(configuration := ToggledConfiguration(s.configuration))
    case ToggleVisibilityPress => s.(isVisible := !s.isVisible)
    case TraitTransition(t) =>
      HostState(t, TransitionedConfiguration(s.configuration, t), s.isVisible)
  }

  function Run(s: HostState, events: seq<Event>): HostState
    decreases |events|
  {
    if events == [] then s else Run(Step(s, events[0]), events[1..])
  }

  function ModePresses(events: seq<Event>): nat
    decreases |events|
  {
    if events == [] then 0
    else (if events[0] == ToggleModePress then 1 else 0) + ModePresses(events[1..])
  }

  function VisibilityPresses(events: seq<Event>): nat
    decreases |events|
  {
    if events == [] then 0
    else (if events[0] == ToggleVisibilityPress then 1 else 0) + VisibilityPresses(events[1..])
  }

  /** The mode at a place of the cycle compact, expanded, full height. */
  function ModeAt(i: nat): Mode {
    if i % 3 == 0 then Mode.Compact else if i % 3 == 1 then Expanded else FullHeight
  }

  /** `ModeAt` undoes `ModeIndex`: both describe the same cycle. */
  lemma ModeAtInvertsModeIndex(m: Mode)
    ensures ModeAt(ModeIndex(m)) == m
  {
  }

  /** The state after the view has loaded: the panel is set up for the
      current traits and added to the host. */
  function LoadedState(traits: TraitCollection, base: Configuration): HostState {
    HostState(traits, InitialConfiguration(traits, base), true)
  }

  /** Position and margins are the ones the policy picks for the current traits. */
  predicate Consistent(s: HostState) {
    s.configuration.position == PanelPosition(s.traitCollection) &&
    s.configuration.margins == PanelMargins(s.traitCollection)
  }

  lemma {:induction false} RunPreservesCorners(s: HostState, events: seq<Event>)
    ensures Run(s, events).configuration.maskedCorners == s.configuration.maskedCorners
    decreases |events|
  {
    if events != [] {
      RunPreservesCorners(Step(s, events[0]), events[1..]);
    }
  }

  /** After n presses of the mode button the mode is n places further along
      the cycle, whatever else happened in between. */
  lemma {:induction false} RunMode(s: HostState, events: seq<Event>)
    ensures Run(s, events).configuration.mode ==
            ModeAt(ModeIndex(s.configuration.mode) + ModePresses(events))
    decreases |events|
  {
    if events == [] {
      ModeAtInvertsModeIndex(s.configuration.mode);
    } else {
      var s' := Step(s, events[0]);
      RunMode(s', events[1..]);
      if events[0] == ToggleModePress {
        assert ModeIndex(s'.configuration.mode) == (ModeIndex(s.configuration.mode) + 1) % 3;
      }
    }
  }

  lemma {:induction false} RunVisibility(s: HostState, events: seq<Event>)
    ensures Run(s, events).isVisible == (s.isVisible != (VisibilityPresses(events) % 2 == 1))
    decreases |events|
  {
    if events != [] {
      RunVisibility(Step(s, events[0]), events[1..]);
    }
  }

  lemma {:induction false} RunPreservesConsistency(s: HostState, events: seq<Event>)
    requires Consistent(s)
    ensures Consistent(Run(s, events))
    decreases |events|
  {
    if events != [] {
      RunPreservesConsistency(Step(s, events[0]), events[1..]);
    }
  }

  /** Every state reachable from a loaded view: the margins are non-negative
      and follow the current traits, the corner mask is the one chosen at
      set-up, the mode has advanced by the number of mode presses, and the
      panel fills the width exactly on a non-pad device whose vertical size
      class is not compact. */
  lemma ReachableLayout(traits: TraitCollection, base: Configuration, events: seq<Event>, mode: Mode)
    ensures var s := Run(LoadedState(traits, base), events);
      && NonNegative(s.configuration.margins)
      && s.configuration.position == PanelPosition(s.traitCollection)
      && s.configuration.margins == PanelMargins(s.traitCollection)
      && s.configuration.maskedCorners == (if traits.idiom == Pad then AllCorners else TopCorners)
      && s.configuration.mode == ModeAt(ModeIndex(base.mode) + ModePresses(events))
      && (PanelSize(s.traitCollection, s.configuration.position, mode).width == 0 <==>
          s.traitCollection.idiom != Pad && s.traitCollection.verticalSizeClass != SizeClass.Compact)
  {
    var s0 := LoadedState(traits, base);
    RunPreservesConsistency(s0, events);
    RunPreservesCorners(s0, events);
    RunMode(s0, events);
  }

  /** Mode presses in a multiple of three leave the mode where it started. */
  lemma RunModeCycles(s: HostState, events: seq<Event>)
    requires ModePresses(events) % 3 == 0
    ensures Run(s, events).configuration.mode == s.configuration.mode
  {
    RunMode(s, events);
  }
}

# Aiolos demo host: panel layout policy and configuration updates

The Aiolos demo's `ViewController` attaches a floating panel to its screen. It
drives the panel's configuration through a few fixed rules:

- where the panel is pinned (leading, trailing or the full bottom edge), from
  the device idiom and the vertical size class;
- how wide it is (0 means "fill the width"), what margins it keeps, and which
  corners are rounded;
- how tall it is in each of its three modes (compact, expanded, full height);
- how a toolbar button cycles the mode, and how another button shows or hides
  the panel;
- how position and margins are rewritten when the trait collection is about to
  change.

The project models these rules and the state changes the host makes to the
panel's configuration, and proves what they guarantee. It has four modules:

- `Panel` (panel.dfy): the configuration value. It holds a position, a mode,
  four margins and a set of masked corners.
- `Policy` (policy.dfy): the pure layout rules. It also holds the three
  configuration rewrites the host performs: set-up, a mode press and a trait
  change.
- `Trace` (trace.dfy): runs of host events. Its lemmas state what every
  reachable state satisfies.
- `Host` (host.dfy): the view controller as a class. Its methods update its
  panel controller's fields in place. The postconditions of `WillTransition`,
  `HandleToggleModePress` and `HandleToggleVisibilityPress` tie the new state
  to the `Policy` rewrite or to the `Trace` step. `ViewDidLoad` only sets the
  visibility flag. `LoadView` is the constructor followed by `ViewDidLoad`, and
  it ends in `Trace.LoadedState`, the state every run in `Trace.ReachableLayout`
  starts from.

Inputs are reduced to what the code reads:

- A trait collection is its idiom (`Pad` or `Other`) and its vertical size
  class (`Unspecified`, `Compact`, `Regular`). The code only tests
  `verticalSizeClass == .compact`, so `Unspecified` behaves like `Regular`.
- Sizes and insets are `int`s. Every value in the code is an integral literal,
  and no arithmetic is done on them.
- The framework's `Panel.Configuration.default` is framework code that is not
  part of this model. It is a parameter everywhere. Its mode is the only field
  that survives set-up.

## Model

| member | source | states |
|---|---|---|
| `Policy.PanelWidth` | Aiolos/Demo/ViewController.swift:133-137 | width is 0 exactly when the position is bottom; otherwise 320 on a pad and 270 elsewhere; never negative |
| `Policy.PanelPosition` | Aiolos/Demo/ViewController.swift:139-143 | trailing-bottom exactly on a pad; leading-bottom iff not a pad and the vertical size class is compact; bottom iff not a pad and the class is not compact |
| `Policy.PanelMargins` | Aiolos/Demo/ViewController.swift:145-150 | all insets non-negative; 20 on all four sides on a pad; otherwise top 20, bottom 0, left equal to right, 20 iff the vertical size class is compact, else 0; side margins are 0 exactly when the chosen position is bottom |
| `Policy.PanelSize` | Aiolos/Demo/ViewController.swift:76-86 | width is the width policy for the panel's current position; height is 64 for compact, 270 for expanded, 0 for full height |
| `Policy.PanelWidthIndependentOfMode` | Aiolos/Demo/ViewController.swift:76-86 | the reported width is the same for every mode |
| `Policy.PolicyWidthZeroExactly` | Aiolos/Demo/ViewController.swift:133-143 | with the position the host picks, the width is 0 iff the idiom is not pad and the vertical size class is not compact |
| `Policy.NextModeMappingIsPermutation` | Aiolos/Demo/ViewController.swift:163-165 | the next-mode table is defined on all three modes and is injective onto all three |
| `Policy.ToggledConfiguration` | Aiolos/Demo/ViewController.swift:161-169 | a press moves the mode one place along compact, expanded, full height (mod 3) and always changes it; position, margins and corners are unchanged |
| `Policy.ToggleThreeTimes` | Aiolos/Demo/ViewController.swift:163-168 | three presses give back the starting configuration |
| `Policy.TransitionedConfiguration` | Aiolos/Demo/ViewController.swift:52-54 | position and margins become the policy's values for the new traits; mode and corners are kept; the result equals the old configuration iff position and margins already matched |
| `Policy.TransitionIdempotentAndCommutes` | Aiolos/Demo/ViewController.swift:52-54 | rewriting twice for the same traits is the same as once, and the rewrite commutes with a mode press |
| `Policy.TransitionMatchesInitial` | Aiolos/Demo/ViewController.swift:52-54 | the rewrite gives what set-up would give for the new traits, except that the corner mask is kept |
| `Policy.InitialConfiguration` | Aiolos/Demo/ViewController.swift:105-125 | set-up keeps the default's mode; position and margins follow the policy; corners are all four exactly on a pad, else only the two top corners |
| `Policy.MaskedCornersStrictSubset` | Aiolos/Demo/ViewController.swift:118-122 | the non-pad corner set is a strict subset of the pad set |
| `Trace.RunPreservesCorners` | Aiolos/Demo/ViewController.swift:52-57 | no sequence of events changes the corner mask |
| `Trace.RunMode` | Aiolos/Demo/ViewController.swift:161-169 | after any events the mode has advanced along the cycle by the number of mode presses |
| `Trace.RunModeCycles` | Aiolos/Demo/ViewController.swift:163-168 | a multiple of three mode presses leaves the mode as it was |
| `Trace.RunVisibility` | Aiolos/Demo/ViewController.swift:153-159 | the panel is shown iff it started shown and there was an even number of visibility presses, or it started hidden and there was an odd number |
| `Trace.RunPreservesConsistency` | Aiolos/Demo/ViewController.swift:49-59 | if position and margins match the current traits, they still match after any events |
| `Trace.ModeAtInvertsModeIndex` | Aiolos/Demo/ViewController.swift:163-165 | the closed-form cycle used for runs gives back every mode from its place in the cycle |
| `Trace.ReachableLayout` | Aiolos/Demo/ViewController.swift:105-125 | in every state reachable from the loaded view, margins are non-negative, position and margins follow the current traits, the corner mask is the one chosen at set-up, the mode is the default's advanced by the presses, and the width is 0 iff not a pad and not vertically compact |
| `Host.PanelController.constructor` | Aiolos/Demo/ViewController.swift:106-107 | a new panel controller holds the given configuration and is not shown |
| `Host.ViewController.constructor` | Aiolos/Demo/ViewController.swift:15 | the host's panel controller is new and holds the set-up configuration for the host's traits |
| `Host.ViewController.MakePanelController` | Aiolos/Demo/ViewController.swift:105-125 | sets position, margins and corners in turn; the result is the set-up configuration and the panel is not shown |
| `Host.ViewController.ViewDidLoad` | Aiolos/Demo/ViewController.swift:46 | the panel is shown; nothing else changes |
| `Host.ViewController.LoadView` | Aiolos/Demo/ViewController.swift:15-46 | a host that is created and has loaded its view is in the loaded state: the set-up configuration for its traits, with the panel shown |
| `Host.ViewController.WillTransition` | Aiolos/Demo/ViewController.swift:49-59 | only the configuration changes, to the trait-change rewrite of the old one; together with the platform installing the new traits this is the trace's trait-transition step |
| `Host.ViewController.HandleToggleVisibilityPress` | Aiolos/Demo/ViewController.swift:152-159 | the new state is the trace's visibility-press step: whether the panel is shown flips, and the configuration and traits are unchanged |
| `Host.ViewController.HandleToggleModePress` | Aiolos/Demo/ViewController.swift:161-169 | the new state is the trace's mode-press step: the configuration becomes the toggled configuration, so its mode always changes; visibility and traits are unchanged |

## Left out

- Layout plumbing in `viewDidLoad` is left out: the safe-area view and its
  constraints, the text field and its delegate, the line view and the
  bar-button wiring. They only build widgets. Its one effect on the panel,
  adding it to the host, is `ViewDidLoad`.
- The framework's panel controller is reduced to a configuration and a
  visibility flag. Adding and removing it from a parent are modelled by setting
  the flag. What the framework does when a configuration is assigned (size
  queries, animated transitions, delegate calls) is not part of this model.
- The animation delegate (lines 93-98) has an empty body, and is left out.
- `Host.ViewController.WillTransition`: the original assigns the configuration
  inside an animation closure run by the transition coordinator. The model
  assigns it at once. Animation timing is not modelled.
- The platform's installing of the new trait collection after a transition is
  not in the shown code. The `Trace.TraitTransition` event includes it, and the
  host method does not change `traitCollection`.
- The panel controller is created lazily on first use in the original. The
  model creates it in the host's constructor.
- `Policy.PanelSize` takes the host's traits and the panel's position as
  parameters. The delegate method reads them from `self` and the panel.
- Floating-point sizes and insets are modelled as exact integers, because all
  of them are integral literals.
- Device idioms other than pad are merged into one `Other` case, because the
  code only tests for pad.

/** The demo's view controller and the part of the framework's panel
    controller it touches: the configuration it rewrites field by field and
    the flag its visibility button flips. */
module Host {
  import opened Panel
  import opened Policy
  import opened Trace

  /** The framework's panel controller, reduced to its configuration and
      whether it is attached to a parent. */
  class PanelController {
    var configuration: Configuration
    var isVisible: bool

    constructor (configuration: Configuration)
      ensures this.configuration == configuration && !isVisible
    {
      this.configuration := configuration;
      isVisible := false;
    }
  }

  class ViewController {
    var traitCollection: TraitCollection
    var panelController: PanelController

    function State(): HostState
      reads this, panelController
    {
      HostState(traitCollection, panelController.configuration, panelController.isVisible)
    }

    /** Creating the host creates its panel controller. The demo host creates
        it lazily on first access; here the constructor creates it. */
    constructor (traitCollection: TraitCollection, defaultConfiguration: Configuration)
      ensures fresh(panelController)
      ensures State() ==
              HostState(traitCollection, InitialConfiguration(traitCollection, defaultConfiguration), false)
    {
      var p := MakePanelController(traitCollection, defaultConfiguration);
      this.traitCollection := traitCollection;
      panelController := p;
    }

    /** Sets position, margins and corner mask one after another on a panel
        controller that starts from the default configuration. */
    static method MakePanelController(traitCollection: TraitCollection, defaultConfiguration: Configuration)
      returns (panelController: PanelController)
      ensures fresh(panelController) && !panelController.isVisible
      ensures panelController.configuration == InitialConfiguration(traitCollection, defaultConfiguration)
    {
      panelController := new PanelController(defaultConfiguration);
      panelController.configuration :=
        panelController.configuration.(position := PanelPosition(traitCollection));
      panelController.configuration :=
        panelController.configuration.(margins := PanelMargins(traitCollection));
      if traitCollection.idiom == Pad {
        panelController.configuration :=
          panelController.configuration.(maskedCorners := {MinXMinY, MaxXMinY, MinXMaxY, MaxXMaxY});
      } else {
        panelController.configuration :=
          panelController.configuration.(maskedCorners := {MinXMinY, MaxXMinY});
      }
    }

    /** The one effect of loading the view on the panel: it is added to the host. */
    method ViewDidLoad()
      modifies panelController
      ensures State() == old(State()).(isVisible := true)
    {
      panelController.isVisible := true;
    }

    /** A host that has been created and has loaded its view: this is the
        state every run of events in `Trace.ReachableLayout` starts from. */
    static method LoadView(traitCollection: TraitCollection, defaultConfiguration: Configuration)
      returns (viewController: ViewController)
      ensures fresh(viewController) && fresh(viewController.panelController)
      ensures viewController.State() == LoadedState(traitCollection, defaultConfiguration)
    {
      viewController := new ViewController(traitCollection, defaultConfiguration);
      viewController.ViewDidLoad();
    }

    /** Copies the configuration, replaces position and margins for the
        incoming traits, and stores the copy back. */
    method WillTransition(newCollection: TraitCollection)
      modifies panelController
      ensures State() ==
              old(State()).(configuration := TransitionedConfiguration(old(panelController.configuration), newCollection))
      ensures Step(old(State()), TraitTransition(newCollection)) == State().(traitCollection := newCollection)
    {
      var configuration := panelController.configuration;
      configuration := configuration.(position := PanelPosition(newCollection));
      configuration := configuration.(margins := PanelMargins(newCollection));
      panelController.configuration := configuration;
    }

    /** Removes the panel when it is shown and adds it when it is not. */
    method HandleToggleVisibilityPress()
      modifies panelController
      ensures State() == Step(old(State()), ToggleVisibilityPress)
    {
      if panelController.isVisible {
        panelController.isVisible := false;
      } else {
        panelController.isVisible := true;
      }
    }

    /** Looks the current mode up in the table and stores the next one. */
    method HandleToggleModePress()
      modifies panelController
      ensures State() == Step(old(State()), ToggleModePress)
    {
      var mode := panelController.configuration.mode;
      if mode !in NextModeMapping {
        return;
      }
      var nextMode := NextModeMapping[mode];
      panelController.configuration := panelController.configuration.(mode := nextMode);
    }
  }
}

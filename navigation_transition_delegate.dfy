/**
  The navigation-controller delegate: a registry from navigation operation to
  a caller-supplied animator, and one interactive controller that it offers as
  the interaction driver while a gesture-driven transition is in progress.
 */
module NavigationTransition {
  import opened Host

  /** The navigation controller's operation. */
  datatype Operation = NoOperation | Push | Pop

  /** A caller-supplied navigation animator, known only by its identity. */
  class NavigationTransitionAnimator {
  }

  /** The configurator the delegate hands to the navigation controller; it wraps one animator. */
  class NavigationTransitionConfigurator {
    const transitionAnimator: NavigationTransitionAnimator

    constructor (transitionAnimator: NavigationTransitionAnimator)
      ensures this.transitionAnimator == transitionAnimator
    {
      this.transitionAnimator := transitionAnimator;
    }
  }

  /** A gesture recognizer, passed to the begin predicate. */
  type GestureRecognizer = nat

  /** The pan description handed on to the interactive controller. */
  type Pan = nat

  /** The default begin predicate: every gesture may begin a transition. */
  function AlwaysBegin(g: GestureRecognizer): (begin: bool)
  {
    true
  }

  /** What the interactive controller invokes to start the transition: pop the navigation controller of a view controller. */
  datatype NavigationAction = PopNavigationControllerOf(viewController: ControllerId)

  /** The parts of the interactive controller the delegate reads and writes. */
  class TransitionInteractiveController {
    var interactionInProgress: bool
    var navigationAction: Option<NavigationAction>
    var shouldBeginTransition: GestureRecognizer -> bool

    /** A new controller has no interaction in progress; its other initial values are not promised. */
    constructor ()
      ensures !interactionInProgress
    {
      interactionInProgress := false;
      navigationAction := None;
      shouldBeginTransition := AlwaysBegin;
    }
  }

  /** The dictionary subscript `animators[operation]`. */
  function AnimatorFor(animators: map<Operation, NavigationTransitionAnimator>, operation: Operation): (animator: Option<NavigationTransitionAnimator>)
  {
    if operation in animators then Some(animators[operation]) else None
  }

  class NavigationTransitionDelegate {
    var animators: map<Operation, NavigationTransitionAnimator>
    const interactiveController: TransitionInteractiveController

    constructor ()
      ensures animators == map[]
      ensures fresh(interactiveController)
      ensures !interactiveController.interactionInProgress
    {
      animators := map[];
      interactiveController := new TransitionInteractiveController();
    }

    /**
      `wire(viewController:with:beginWhen:)`: the interactive controller is
      given the action that pops `viewController`'s navigation controller and
      the begin predicate, which by default lets every gesture begin.
     */
    method Wire(viewController: ControllerId, pan: Pan, beginWhen: GestureRecognizer -> bool := AlwaysBegin)
      modifies interactiveController
      ensures interactiveController.navigationAction == Some(PopNavigationControllerOf(viewController))
      ensures interactiveController.shouldBeginTransition == beginWhen
      ensures interactiveController.interactionInProgress == old(interactiveController.interactionInProgress)
    {
      interactiveController.navigationAction := Some(PopNavigationControllerOf(viewController));
      interactiveController.shouldBeginTransition := beginWhen;
    }

    /** `set(animator:for:)`: the last write for an operation wins; the other operations keep their animators. */
    method Set(animator: NavigationTransitionAnimator, operation: Operation)
      modifies this`animators
      ensures animators == old(animators)[operation := animator]
      ensures AnimatorFor(animators, operation) == Some(animator)
      ensures forall op :: op != operation ==> AnimatorFor(animators, op) == AnimatorFor(old(animators), op)
    {
      animators := animators[operation := animator];
    }

    /** `removeAnimator(for:)`: the operation has no animator afterwards; removing an absent one changes nothing. */
    method RemoveAnimator(operation: Operation)
      modifies this`animators
      ensures animators == old(animators) - {operation}
      ensures AnimatorFor(animators, operation) == None
      ensures forall op :: op != operation ==> AnimatorFor(animators, op) == AnimatorFor(old(animators), op)
      ensures operation !in old(animators) ==> animators == old(animators)
    {
      animators := animators - {operation};
    }

    /**
      The animation-controller query: nil when no animator is registered for
      the operation, otherwise a new configurator wrapping the registered one.
     */
    method AnimationControllerFor(operation: Operation) returns (controller: NavigationTransitionConfigurator?)
      ensures controller == null <==> AnimatorFor(animators, operation) == None
      ensures controller != null ==>
        fresh(controller) && AnimatorFor(animators, operation) == Some(controller.transitionAnimator)
    {
      match AnimatorFor(animators, operation)
      case None =>
        controller := null;
      case Some(animator) =>
        controller := new NavigationTransitionConfigurator(animator);
    }

    /** The interaction-controller query: the interactive controller exactly while an interaction is in progress. */
    method InteractionControllerFor(animationController: NavigationTransitionConfigurator) returns (controller: TransitionInteractiveController?)
      ensures controller != null <==> interactiveController.interactionInProgress
      ensures controller != null ==> controller == interactiveController
    {
      controller := if interactiveController.interactionInProgress then interactiveController else null;
    }
  }

  /**
    A registry session: a registered push animator is what the query wraps, a
    second registration replaces it, removal makes the query nil again, and
    neither query changes the registry or the interactive controller.
   */
  method RegistryScenario(first: NavigationTransitionAnimator, second: NavigationTransitionAnimator, pop: NavigationTransitionAnimator)
  {
    var d := new NavigationTransitionDelegate();
    var c := d.AnimationControllerFor(Push);
    assert c == null;
    d.Set(first, Push);
    d.Set(pop, Pop);
    d.Set(second, Push);
    c := d.AnimationControllerFor(Push);
    assert c != null && c.transitionAnimator == second;
    var i := d.InteractionControllerFor(c);
    assert i == null;
    d.RemoveAnimator(Push);
    d.RemoveAnimator(Push);
    var p := d.AnimationControllerFor(Pop);
    assert p != null && p.transitionAnimator == pop;
    c := d.AnimationControllerFor(Push);
    assert c == null;
    d.Wire(7, 0);
    assert d.interactiveController.shouldBeginTransition(3);
    // the interactive controller's gesture handling, outside this model, marks the interaction as begun
    d.interactiveController.interactionInProgress := true;
    i := d.InteractionControllerFor(p);
    assert i == d.interactiveController;
  }
}

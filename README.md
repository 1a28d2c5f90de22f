# EasyTransitions transition orchestration, modelled in Dafny

EasyTransitions lets an iOS application supply its own animations for modal
presentations and for navigation push/pop transitions. This project models
the two pieces that orchestrate a transition:

- `ModalTransition` (`modal_transition_configurator.dfy`) models the modal
  transition configurator. It is a per-transition state machine. It infers
  whether the transition presents or dismisses, picks the subject view, and
  builds and caches one interruptible animation. On completion it either
  reports the context's outcome and fires `onPresented` or `onDismissed`, or
  animates back and reports failure. `animationEnded` clears the cache.
  - The class `ModalTransitionConfigurator` has the animator, the cached
    animation (a `PropertyAnimation` object, so "the same cached object" is
    reference equality) and an append-only log of the effects. The effects are
    `Layout`, `Animate`, `CompleteTransition`, `Presented` and `Dismissed`.
  - The Swift closures that the animation engine calls become the methods
    `RunAnimations` (the animations block) and `AnimationCompleted` (the
    completion block, given the final position `End | Start | Current`).
  - A functional model (`ConfiguratorState`, `Step`, `Run`) gives the effect
    of every call. Each class method is proved to change its state exactly as
    `Step` says. Lemmas over arbitrary call sequences then prove that builds
    happen once per transition.
- `NavigationTransition` (`navigation_transition_delegate.dfy`) models the
  navigation delegate. The class `NavigationTransitionDelegate` holds the
  operation-to-animator map, with upsert and delete, and one interactive
  controller. It answers the two navigation-controller queries.
- `Host` (`host.dfy`) holds an `Option` type and the opaque identities of view
  controllers and views.

The transition context is a value. It has the from and to controllers
(identity and `view`), the `presentingViewController` relation, the container
view, the result of the `view(forKey:)` capability probe, what
`view(forKey:)` returns, and `transitionWasCancelled`.

The model follows the code in three places where a reader might expect otherwise:

- At the end position the context is told `!transitionWasCancelled`, not
  always "succeeded".
- `onPresented` and `onDismissed` are optional closures, so the matching
  event is logged only when the closure is set.
- The cache is cleared only by `animationEnded(_:)`. The completion block
  itself does not clear it.

## Model

| member | source | states |
|---|---|---|
| `ModalTransition.DirectionDependsOnlyOnIdentities` | EasyTransitions/Classes/Modal/ModalTransitionConfigurator.swift:38 | the inferred direction depends only on the two controllers' identities and the presenting relation: two contexts that agree on those infer the same direction, whatever their views, container, `view(forKey:)` support and results, and cancellation flag |
| `ModalTransition.DismissalIsNotPresenting` | EasyTransitions/Classes/Modal/ModalTransitionConfigurator.swift:38 | when the from controller was presented by the to controller, and no two controllers present each other, the transition is inferred to dismiss |
| `ModalTransition.SubjectViewIsMovingController` | EasyTransitions/Classes/Modal/ModalTransitionConfigurator.swift:40-46 | when `view(forKey:)` agrees with the controllers' views, the subject view is the to view when presenting and the from view when dismissing, with or without `view(forKey:)` |
| `ModalTransition.CompletionEvents` | EasyTransitions/Classes/Modal/ModalTransitionConfigurator.swift:58-73 | at `End`: first `CompleteTransition(!wasCancelled)`, then only callbacks; `Presented` iff presenting with `onPresented` set; `Dismissed` iff dismissing with `onDismissed` set; no `Animate`. Elsewhere: `Animate` with the direction inverted, then `CompleteTransition(false)`, and no callback |
| `ModalTransition.Step` | EasyTransitions/Classes/Modal/ModalTransitionConfigurator.swift:29-87 | every call only appends to the log; `animationEnded` clears the cache and logs nothing; while an animation is cached, no other call replaces it and a query logs nothing; after a query an animation is cached |
| `ModalTransition.StepLayouts` | EasyTransitions/Classes/Modal/ModalTransitionConfigurator.swift:29-76 | one call logs a `Layout` only when it builds from an empty cache; while an animation is cached, no call other than `animationEnded` logs a `Layout` |
| `ModalTransition.LayoutsBoundedByEnds` | EasyTransitions/Classes/Modal/ModalTransitionConfigurator.swift:27-87 | over any call sequence, the `Layout` events added are at most the `animationEnded` calls, plus one if nothing was cached at the start |
| `ModalTransition.AtMostOneLayoutPerTransition` | EasyTransitions/Classes/Modal/ModalTransitionConfigurator.swift:29-48 | a call sequence without `animationEnded` logs at most one `Layout` |
| `ModalTransition.CacheStableUntilEnded` | EasyTransitions/Classes/Modal/ModalTransitionConfigurator.swift:29-32 | while an animation is cached and `animationEnded` is not called, any calls keep the same cached animation and log no `Layout` |
| `ModalTransition.QueriesWhileCachedChangeNothing` | EasyTransitions/Classes/Modal/ModalTransitionConfigurator.swift:29-32 | while an animation is cached, any number of queries leave cache and log exactly as they were |
| `ModalTransition.CachedAdmitsAnyContexts` | EasyTransitions/Classes/Modal/ModalTransitionConfigurator.swift:29-32 | while an animation is cached and `animationEnded` is not called, no call builds, so the host's contract holds whatever contexts the calls carry, even ones whose `view(forKey:)` would give nil |
| `ModalTransition.EndedThenQueryRebuilds` | EasyTransitions/Classes/Modal/ModalTransitionConfigurator.swift:85-87 | after `animationEnded`, whatever its argument, the next query builds a new animation for its context and logs a fresh `Layout` |
| `ModalTransition.OneTransition` | EasyTransitions/Classes/Modal/ModalTransitionConfigurator.swift:29-76 | a build, any number of repeated queries, then the engine running and completing the animation log exactly one `Layout`, then one forward `Animate` in the inferred direction, then the completion events |
| `ModalTransition.ModalTransitionConfigurator.constructor` | EasyTransitions/Classes/Modal/ModalTransitionConfigurator.swift:15-17 | a new configurator holds the given animator, no cached animation, an empty log and no built animations |
| `ModalTransition.ModalTransitionConfigurator.TransitionAnimator` | EasyTransitions/Classes/Modal/ModalTransitionConfigurator.swift:19-79 | with an animation cached, returns that same object and logs nothing. Otherwise returns a new animation and caches it. The animation has `transitionDuration` (the animator's duration, whatever the context), the animator's damping, the inferred direction, the subject view and the container. Exactly one `Layout` is logged for it, and it joins the set of built animations. The state change is `Step` of a query |
| `ModalTransition.ModalTransitionConfigurator.InterruptibleAnimator` | EasyTransitions/Classes/Modal/ModalTransitionConfigurator.swift:81-83 | the same cached or newly built object as `TransitionAnimator`, with the same effect |
| `ModalTransition.ModalTransitionConfigurator.AnimateTransition` | EasyTransitions/Classes/Modal/ModalTransitionConfigurator.swift:23-25 | leaves the cached or newly built animation in the cache, with the same effect as a query |
| `ModalTransition.ModalTransitionConfigurator.RunAnimations` | EasyTransitions/Classes/Modal/ModalTransitionConfigurator.swift:53-56 | the animations block of an animation this configurator built logs one `Animate` in the direction, view and container that the build captured; that animation's `Layout` is already in the log |
| `ModalTransition.ModalTransitionConfigurator.AnimationCompleted` | EasyTransitions/Classes/Modal/ModalTransitionConfigurator.swift:58-73 | the completion block of an animation this configurator built appends exactly the `CompletionEvents` for its position and the context's current `transitionWasCancelled`, and leaves the cache alone; that animation's `Layout` is already in the log |
| `ModalTransition.ModalTransitionConfigurator.AnimationEnded` | EasyTransitions/Classes/Modal/ModalTransitionConfigurator.swift:85-87 | the cache is empty afterwards, whatever the argument; the log is unchanged |
| `ModalTransition.PresentationScenario` | EasyTransitions/Classes/Modal/ModalTransitionConfigurator.swift:23-87 | a presentation completed at its end logs `Layout(true)`, `Animate(true)`, `CompleteTransition(true)`, `Presented`, even with the animator queried three times |
| `ModalTransition.InterruptedDismissalScenario` | EasyTransitions/Classes/Modal/ModalTransitionConfigurator.swift:29-73 | a dismissal that the engine stops at `Start` logs `Layout(false)`, `Animate(false)`, `Animate(true)`, `CompleteTransition(false)`, and no callback |
| `NavigationTransition.NavigationTransitionDelegate.constructor` | EasyTransitions/Classes/Navigation/NavigationTransitionDelegate.swift:13-14 | a new delegate has no animators and its own interactive controller, with no interaction in progress |
| `NavigationTransition.NavigationTransitionDelegate.Wire` | EasyTransitions/Classes/Navigation/NavigationTransitionDelegate.swift:16-24 | installs the action that pops the view controller's navigation controller, and installs `beginWhen` as `shouldBeginTransition`; `beginWhen` defaults to the always-true `AlwaysBegin` |
| `NavigationTransition.NavigationTransitionDelegate.Set` | EasyTransitions/Classes/Navigation/NavigationTransitionDelegate.swift:26-29 | the lookup of the operation then gives the new animator (last write wins); every other operation keeps its entry |
| `NavigationTransition.NavigationTransitionDelegate.RemoveAnimator` | EasyTransitions/Classes/Navigation/NavigationTransitionDelegate.swift:31-33 | the lookup of the operation then gives nil; every other operation keeps its entry; removing an absent operation changes nothing |
| `NavigationTransition.NavigationTransitionDelegate.AnimationControllerFor` | EasyTransitions/Classes/Navigation/NavigationTransitionDelegate.swift:38-43 | nil iff no animator is registered for the operation; otherwise a new configurator wrapping exactly the registered animator; the registry and the interactive controller are unchanged (no `modifies`) |
| `NavigationTransition.NavigationTransitionDelegate.InteractionControllerFor` | EasyTransitions/Classes/Navigation/NavigationTransitionDelegate.swift:45-47 | the delegate's interactive controller iff its `interactionInProgress` is true, otherwise nil; nothing changes |

The class methods that change state (`TransitionAnimator`, `Set`,
`RemoveAnimator`, `Wire` and the others) are stated with `old` and `modifies`.
Queries without a `modifies` clause change no existing object. The method
`NavigationTransition.RegistryScenario` replays a registration session
against these contracts.

## Left out

- UIKit's animation machinery: `UIViewPropertyAnimator` interpolation,
  `startAnimation`, `isUserInteractionEnabled` and the view-property changes
  made by `layout` and `animate`. Those steps appear only as logged events.
  When the engine runs the animations and completion blocks is up to the
  caller of `RunAnimations` and `AnimationCompleted`.
- Floating point: `Duration` and `DampingRatio` are `real` values passed
  through unchanged; no arithmetic is done on them.
- The `responds(to:)` probe for `view(forKey:)` is the context's
  `supportsViewForKey` flag.
- The force-unwraps of the from and to controllers cannot fail in the model,
  since the context always has both. The force-unwrap of `view(forKey:)` is
  the precondition `Resolvable`. It is demanded only when a build happens,
  because the code touches the context only then. This holds for single calls
  and for call sequences: `Admissible` asks `Resolvable` only of the queries
  that find the cache empty.
- Every class method of the configurator keeps the invariant `Valid`: each
  animation it has built has its `Layout` in the log. The engine methods
  `RunAnimations` and `AnimationCompleted` accept only animations this
  configurator built, since in the code the blocks are attached by the build
  itself. So every `Animate` of an animation follows that animation's
  `Layout`, for any order of calls.
- `ModalTransition.ModalTransitionConfigurator.AnimationCompleted`: the
  captured context's later state is passed in as a value. Only its
  `transitionWasCancelled` is read, so the model does not check that it is the
  same context the animation was built with.
- `NavigationTransition.TransitionInteractiveController.constructor`: it
  promises only that no interaction is in progress. This initial value is
  assumed, because the controller's source is not part of this model. Its
  initial `navigationAction` and `shouldBeginTransition` are not promised.
- The internals of `TransitionInteractiveController` are not part of this
  model: `wireTo(viewController:with:)`, gesture tracking, fraction,
  threshold and velocity. Only `interactionInProgress`, `navigationAction` and
  `shouldBeginTransition` are modelled. `wireTo` is not modelled, so
  `NavigationTransitionDelegate.Wire` ignores its pan argument.
- The internals of `NavigationTransitionConfigurator` are not part of this
  model. It is an object that wraps its animator.
- The navigation action's `popViewController(animated:)` call is a host side
  effect. It is recorded as the value `PopNavigationControllerOf`.
- Weak references and main-thread delivery are left out. So are the
  navigation-controller and from/to arguments of the two delegate queries,
  which the code never reads.

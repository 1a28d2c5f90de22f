/**
  The per-transition state machine of a modal presentation or dismissal.

  The configurator infers the direction of the transition from its context,
  picks the view to animate, builds one interruptible animation per transition
  and caches it, and on completion either reports success and fires the
  animator's callback or animates back and reports the transition as cancelled.

  The effects the configurator has on the outside world (calls of the
  animator's `layout` and `animate`, of the context's `completeTransition`, and
  of the optional `onPresented` / `onDismissed` closures) are recorded, in
  order, in an append-only event log.
 */
module ModalTransition {
  import opened Host

  /** Animation timing values; they are passed through unchanged and no arithmetic is done on them. */
  type Duration = real
  type DampingRatio = real

  /**
    The caller-supplied animator. Its `layout` and `animate` steps appear only
    as logged events; each optional callback is either set or absent.
   */
  datatype ModalTransitionAnimator = ModalTransitionAnimator(
    duration: Duration,
    dampingRatio: DampingRatio,
    hasOnPresented: bool,
    hasOnDismissed: bool)

  /** A participating view controller: its identity and its `view`. */
  datatype Controller = Controller(id: ControllerId, view: ViewId)

  /** The two keys of the context's `view(forKey:)` accessor. */
  datatype ViewKey = FromKey | ToKey

  /**
    The transition context as the configurator sees it.
    `presentingOf` maps a controller to its presenting controller (absent: nil);
    `supportsViewForKey` is the outcome of the runtime probe for `view(forKey:)`;
    `keyedViews` is what `view(forKey:)` returns (absent: nil);
    `wasCancelled` is `transitionWasCancelled`.
   */
  datatype Context = Context(
    from: Controller,
    to: Controller,
    presentingOf: map<ControllerId, ControllerId>,
    container: ViewId,
    supportsViewForKey: bool,
    keyedViews: map<ViewKey, ViewId>,
    wasCancelled: bool)

  /** The final position the animation engine reports to a completion block. */
  datatype Position = End | Start | Current

  /** One observable effect of the configurator. */
  datatype Event =
    | Layout(presenting: bool, modalView: ViewId, container: ViewId)
    | Animate(presenting: bool, modalView: ViewId, container: ViewId)
    | CompleteTransition(didComplete: bool)
    | Presented
    | Dismissed

  /** `presentingViewController` of a controller of the context. */
  function PresentingViewController(ctx: Context, c: Controller): (presenter: Option<ControllerId>)
  {
    if c.id in ctx.presentingOf then Some(ctx.presentingOf[c.id]) else None
  }

  /** Direction inference: the "to" controller's presenting controller is identical to the "from" controller. */
  function IsPresenting(ctx: Context): (presenting: bool)
  {
    PresentingViewController(ctx, ctx.to) == Some(ctx.from.id)
  }

  /**
    The direction is a matter of identities alone: two contexts that agree on
    the controllers' identities and on the presenting relation infer the same
    direction, whatever their views, container, `view(forKey:)` support and
    results, and cancellation flag.
   */
  lemma DirectionDependsOnlyOnIdentities(c1: Context, c2: Context)
    requires c1.from.id == c2.from.id && c1.to.id == c2.to.id
    requires c1.presentingOf == c2.presentingOf
    ensures IsPresenting(c1) == IsPresenting(c2)
  {
  }

  /**
    The usual dismissal shape: the outgoing controller was presented by the
    incoming one. When no pair of controllers presents each other, such a
    transition is inferred to be a dismissal.
   */
  lemma DismissalIsNotPresenting(ctx: Context)
    requires PresentingViewController(ctx, ctx.from) == Some(ctx.to.id)
    requires forall a :: a in ctx.presentingOf && ctx.presentingOf[a] in ctx.presentingOf ==> ctx.presentingOf[ctx.presentingOf[a]] != a
    ensures !IsPresenting(ctx)
  {
  }

  /** The key whose view is animated: the incoming view when presenting, the outgoing one when dismissing. */
  function SubjectKey(presenting: bool): (key: ViewKey)
  {
    if presenting then ToKey else FromKey
  }

  /**
    The subject view: read through `view(forKey:)` when the context supports
    it (the force-unwrap of its result is the precondition), otherwise the
    `view` of the incoming or outgoing controller.
   */
  function SubjectView(ctx: Context, presenting: bool): (modalView: ViewId)
    requires ctx.supportsViewForKey ==> SubjectKey(presenting) in ctx.keyedViews
  {
    if ctx.supportsViewForKey then ctx.keyedViews[SubjectKey(presenting)]
    else if presenting then ctx.to.view
    else ctx.from.view
  }

  /** The host's contract for building: if `view(forKey:)` is supported, it yields the subject view. */
  predicate Resolvable(ctx: Context)
  {
    ctx.supportsViewForKey ==> SubjectKey(IsPresenting(ctx)) in ctx.keyedViews
  }

  /** `view(forKey:)` agrees with the controllers' own views. */
  predicate Coherent(ctx: Context)
  {
    (FromKey in ctx.keyedViews ==> ctx.keyedViews[FromKey] == ctx.from.view) &&
    (ToKey in ctx.keyedViews ==> ctx.keyedViews[ToKey] == ctx.to.view)
  }

  /**
    On a coherent context both lookup paths agree: the subject view is the view
    of the controller that appears when presenting and of the controller that
    goes away when dismissing, whether or not `view(forKey:)` is supported.
   */
  lemma SubjectViewIsMovingController(ctx: Context, presenting: bool)
    requires Coherent(ctx)
    requires ctx.supportsViewForKey ==> SubjectKey(presenting) in ctx.keyedViews
    ensures SubjectView(ctx, presenting) == (if presenting then ctx.to.view else ctx.from.view)
    ensures SubjectView(ctx, presenting) == SubjectView(ctx.(supportsViewForKey := false), presenting)
  {
  }

  /**
    What a built animation captured: the engine's duration and damping, and the
    direction, subject view and container view its blocks use.
   */
  datatype AnimationSetup = AnimationSetup(
    duration: Duration,
    dampingRatio: DampingRatio,
    presenting: bool,
    modalView: ViewId,
    container: ViewId)

  /** The animation a build constructs for a context. */
  function Setup(animator: ModalTransitionAnimator, ctx: Context): (a: AnimationSetup)
    requires Resolvable(ctx)
  {
    var presenting := IsPresenting(ctx);
    AnimationSetup(animator.duration, animator.dampingRatio, presenting, SubjectView(ctx, presenting), ctx.container)
  }

  function LayoutOf(a: AnimationSetup): (e: Event)
  {
    Layout(a.presenting, a.modalView, a.container)
  }

  function AnimateOf(a: AnimationSetup, presenting: bool): (e: Event)
  {
    Animate(presenting, a.modalView, a.container)
  }

  /**
    The effects of the completion block of animation `a` at final position
    `position`, the context's `transitionWasCancelled` being `wasCancelled`.
   */
  function CompletionEvents(animator: ModalTransitionAnimator, a: AnimationSetup, position: Position, wasCancelled: bool): (es: seq<Event>)
    // at the end: report the context's own outcome, then fire the direction's callback if it is set
    ensures position == End ==>
      && 1 <= |es| <= 2
      && es[0] == CompleteTransition(!wasCancelled)
      && (Presented in es <==> a.presenting && animator.hasOnPresented)
      && (Dismissed in es <==> !a.presenting && animator.hasOnDismissed)
      && forall i :: 1 <= i < |es| ==> es[i] == Presented || es[i] == Dismissed
    // anywhere else: animate back with the direction inverted, then report failure; no callback fires
    ensures position != End ==>
      && |es| == 2
      && es[0] == AnimateOf(a, !a.presenting)
      && es[1] == CompleteTransition(false)
      && Presented !in es && Dismissed !in es
    ensures forall e :: e in es ==> !e.Layout?
  {
    if position == End then
      [CompleteTransition(!wasCancelled)] +
        (if a.presenting then (if animator.hasOnPresented then [Presented] else [])
         else (if animator.hasOnDismissed then [Dismissed] else []))
    else
      [AnimateOf(a, !a.presenting), CompleteTransition(false)]
  }

  /**
    The calls a configurator receives. `Query` is any of `animateTransition`,
    `interruptibleAnimator` and the private `transitionAnimator(using:)`, which
    all run the same build-or-reuse code; `RunAnimations` and `Completed` are the
    engine invoking the animation's animations block and completion block;
    `Ended` is `animationEnded`.
   */
  datatype Op =
    | Query(ctx: Context)
    | RunAnimations(animation: AnimationSetup)
    | Completed(animation: AnimationSetup, position: Position, wasCancelled: bool)
    | Ended(transitionCompleted: bool)

  /** The abstract state of a configurator: its cached animation, if any, and its event log. */
  datatype ConfiguratorState = ConfiguratorState(cached: Option<AnimationSetup>, log: seq<Event>)

  /** The effect of one call on the configurator state. */
  function Step(animator: ModalTransitionAnimator, s: ConfiguratorState, op: Op): (t: ConfiguratorState)
    requires op.Query? && s.cached.None? ==> Resolvable(op.ctx)
    ensures |s.log| <= |t.log| && t.log[..|s.log|] == s.log
    ensures op.Ended? ==> t.cached.None? && t.log == s.log
    ensures !op.Ended? && s.cached.Some? ==> t.cached == s.cached
    ensures op.Query? && s.cached.Some? ==> t.log == s.log
    ensures op.Query? ==> t.cached.Some?
  {
    match op
    case Query(ctx) =>
      if s.cached.Some? then s
      else
        var a := Setup(animator, ctx);
        ConfiguratorState(Some(a), s.log + [LayoutOf(a)])
    case RunAnimations(a) =>
      s.(log := s.log + [AnimateOf(a, a.presenting)])
    case Completed(a, position, wasCancelled) =>
      s.(log := s.log + CompletionEvents(animator, a, position, wasCancelled))
    case Ended(_) =>
      s.(cached := None)
  }

  /**
    The host's contract over a call sequence: every call that builds, that is,
    every query made while nothing is cached, gets a context meeting
    `Resolvable`. Queries answered from the cache may carry any context.
   */
  predicate Admissible(animator: ModalTransitionAnimator, s: ConfiguratorState, ops: seq<Op>)
    decreases |ops|
  {
    ops == [] ||
    ((ops[0].Query? && s.cached.None? ==> Resolvable(ops[0].ctx)) &&
     Admissible(animator, Step(animator, s, ops[0]), ops[1..]))
  }

  /** The effect of a sequence of calls. */
  function Run(animator: ModalTransitionAnimator, s: ConfiguratorState, ops: seq<Op>): (t: ConfiguratorState)
    requires Admissible(animator, s, ops)
    decreases ops
  {
    if ops == [] then s
    else Run(animator, Step(animator, s, ops[0]), ops[1..])
  }

  /** Running two call sequences one after the other is running their concatenation. */
  lemma {:induction false} RunAppend(animator: ModalTransitionAnimator, s: ConfiguratorState, ops1: seq<Op>, ops2: seq<Op>)
    requires Admissible(animator, s, ops1)
    requires Admissible(animator, Run(animator, s, ops1), ops2)
    ensures Admissible(animator, s, ops1 + ops2)
    ensures Run(animator, s, ops1 + ops2) == Run(animator, Run(animator, s, ops1), ops2)
    decreases ops1
  {
    if ops1 == [] {
      assert ops1 + ops2 == ops2;
    } else {
      assert (ops1 + ops2)[0] == ops1[0];
      assert (ops1 + ops2)[1..] == ops1[1..] + ops2;
      RunAppend(animator, Step(animator, s, ops1[0]), ops1[1..], ops2);
    }
  }

  /**
    While an animation is cached and `animationEnded` is not called, no call
    builds, so the host's contract holds whatever contexts the calls carry.
   */
  lemma {:induction false} CachedAdmitsAnyContexts(animator: ModalTransitionAnimator, s: ConfiguratorState, ops: seq<Op>)
    requires s.cached.Some?
    requires forall i :: 0 <= i < |ops| ==> !ops[i].Ended?
    ensures Admissible(animator, s, ops)
    decreases ops
  {
    if ops != [] {
      assert forall i :: 0 <= i < |ops[1..]| ==> ops[1..][i] == ops[i + 1];
      CachedAdmitsAnyContexts(animator, Step(animator, s, ops[0]), ops[1..]);
    }
  }
  /** Number of `Layout` events in a log. */
  function LayoutCount(log: seq<Event>): (n: nat)
  {
    if log == [] then 0 else (if log[0].Layout? then 1 else 0) + LayoutCount(log[1..])
  }

  lemma {:induction false} LayoutCountAppend(a: seq<Event>, b: seq<Event>)
    ensures LayoutCount(a + b) == LayoutCount(a) + LayoutCount(b)
  {
    if a == [] {
      assert a + b == b;
    } else {
      assert (a + b)[0] == a[0];
      assert (a + b)[1..] == a[1..] + b;
      LayoutCountAppend(a[1..], b);
    }
  }

  lemma {:induction false} LayoutCountNone(log: seq<Event>)
    requires forall e :: e in log ==> !e.Layout?
    ensures LayoutCount(log) == 0
  {
    if log != [] {
      assert log[0] in log;
      assert forall e :: e in log[1..] ==> e in log;
      LayoutCountNone(log[1..]);
    }
  }

  /** Number of `animationEnded` calls in a call sequence. */
  function EndedCount(ops: seq<Op>): (n: nat)
  {
    if ops == [] then 0 else (if ops[0].Ended? then 1 else 0) + EndedCount(ops[1..])
  }

  /** 1 while no animation is cached, 0 while one is. */
  function Idle(s: ConfiguratorState): (n: nat)
  {
    if s.cached.None? then 1 else 0
  }

  /** One call adds a `Layout` only when it builds, which uses up the idle state. */
  lemma StepLayouts(animator: ModalTransitionAnimator, s: ConfiguratorState, op: Op)
    requires op.Query? && s.cached.None? ==> Resolvable(op.ctx)
    ensures var t := Step(animator, s, op);
      LayoutCount(t.log) + Idle(t) <= LayoutCount(s.log) + Idle(s) + (if op.Ended? then 1 else 0)
    ensures var t := Step(animator, s, op);
      s.cached.Some? && !op.Ended? ==> LayoutCount(t.log) == LayoutCount(s.log)
  {
    match op
    case Query(ctx) =>
      if s.cached.None? {
        LayoutCountAppend(s.log, [LayoutOf(Setup(animator, ctx))]);
      }
    case RunAnimations(a) =>
      LayoutCountAppend(s.log, [AnimateOf(a, a.presenting)]);
    case Completed(a, position, wasCancelled) =>
      var es := CompletionEvents(animator, a, position, wasCancelled);
      LayoutCountNone(es);
      LayoutCountAppend(s.log, es);
    case Ended(_) =>
  }

  /**
    Builds are bounded by clears: over any call sequence, the `Layout` events
    added never exceed the `animationEnded` calls, plus one when the
    configurator started with nothing cached.
   */
  lemma {:induction false} LayoutsBoundedByEnds(animator: ModalTransitionAnimator, s: ConfiguratorState, ops: seq<Op>)
    requires Admissible(animator, s, ops)
    ensures var t := Run(animator, s, ops);
      LayoutCount(t.log) + Idle(t) <= LayoutCount(s.log) + Idle(s) + EndedCount(ops)
    decreases ops
  {
    if ops != [] {
      var s1 := Step(animator, s, ops[0]);
      StepLayouts(animator, s, ops[0]);
      LayoutsBoundedByEnds(animator, s1, ops[1..]);
    }
  }

  /** Within one transition (no `animationEnded`) at most one `Layout` is logged. */
  lemma AtMostOneLayoutPerTransition(animator: ModalTransitionAnimator, s: ConfiguratorState, ops: seq<Op>)
    requires Admissible(animator, s, ops)
    requires forall i :: 0 <= i < |ops| ==> !ops[i].Ended?
    ensures LayoutCount(Run(animator, s, ops).log) <= LayoutCount(s.log) + 1
  {
    NoEnded(ops);
    LayoutsBoundedByEnds(animator, s, ops);
  }

  lemma {:induction false} NoEnded(ops: seq<Op>)
    requires forall i :: 0 <= i < |ops| ==> !ops[i].Ended?
    ensures EndedCount(ops) == 0
  {
    if ops != [] {
      assert !ops[0].Ended?;
      assert forall i :: 0 <= i < |ops[1..]| ==> ops[1..][i] == ops[i + 1];
      NoEnded(ops[1..]);
    }
  }

  /**
    While an animation is cached and `animationEnded` is not called, every call
    keeps the same cached animation and logs no `Layout`.
   */
  lemma {:induction false} CacheStableUntilEnded(animator: ModalTransitionAnimator, s: ConfiguratorState, ops: seq<Op>)
    requires s.cached.Some?
    requires forall i :: 0 <= i < |ops| ==> !ops[i].Ended?
    ensures Admissible(animator, s, ops)
    ensures Run(animator, s, ops).cached == s.cached
    ensures LayoutCount(Run(animator, s, ops).log) == LayoutCount(s.log)
    decreases ops
  {
    CachedAdmitsAnyContexts(animator, s, ops);
    if ops != [] {
      StepLayouts(animator, s, ops[0]);
      assert forall i :: 0 <= i < |ops[1..]| ==> ops[1..][i] == ops[i + 1];
      CacheStableUntilEnded(animator, Step(animator, s, ops[0]), ops[1..]);
    }
  }

  /** While an animation is cached, repeated queries change nothing at all. */
  lemma {:induction false} QueriesWhileCachedChangeNothing(animator: ModalTransitionAnimator, s: ConfiguratorState, ops: seq<Op>)
    requires s.cached.Some?
    requires forall i :: 0 <= i < |ops| ==> ops[i].Query?
    ensures Admissible(animator, s, ops)
    ensures Run(animator, s, ops) == s
    decreases ops
  {
    CachedAdmitsAnyContexts(animator, s, ops);
    if ops != [] {
      assert forall i :: 0 <= i < |ops[1..]| ==> ops[1..][i] == ops[i + 1];
      QueriesWhileCachedChangeNothing(animator, s, ops[1..]);
    }
  }

  /**
    `animationEnded`, whatever its argument, makes the next query build afresh
    and log a new `Layout`.
   */
  lemma EndedThenQueryRebuilds(animator: ModalTransitionAnimator, s: ConfiguratorState, transitionCompleted: bool, ctx: Context)
    requires Resolvable(ctx)
    ensures Admissible(animator, s, [Ended(transitionCompleted), Query(ctx)])
    ensures Run(animator, s, [Ended(transitionCompleted), Query(ctx)])
         == ConfiguratorState(Some(Setup(animator, ctx)), s.log + [LayoutOf(Setup(animator, ctx))])
  {
    var ops := [Ended(transitionCompleted), Query(ctx)];
    var s1 := s.(cached := None);
    assert ops[1..] == [Query(ctx)];
    assert [Query(ctx)][1..] == [];
    assert Admissible(animator, s1, [Query(ctx)]);
    assert Run(animator, s1, [Query(ctx)]) == Run(animator, Step(animator, s1, Query(ctx)), []);
    assert Run(animator, s, ops) == Run(animator, s1, [Query(ctx)]);
  }

  /**
    One whole transition from an idle configurator: a build, any number of
    further queries, the engine running the animations and then the completion
    block. The log gains exactly one `Layout`, then one forward `Animate` in the
    inferred direction, then the completion's effects.
   */
  lemma {:induction false} OneTransition(
    animator: ModalTransitionAnimator, s: ConfiguratorState, ctx: Context, queries: seq<Op>,
    position: Position, wasCancelled: bool)
    requires s.cached.None? && Resolvable(ctx)
    requires forall i :: 0 <= i < |queries| ==> queries[i].Query?
    ensures var a := Setup(animator, ctx);
      var ops := [Query(ctx)] + queries + [RunAnimations(a), Completed(a, position, wasCancelled)];
      && Admissible(animator, s, ops)
      && Run(animator, s, ops).cached == Some(a)
      && Run(animator, s, ops).log
         == s.log + [LayoutOf(a), AnimateOf(a, a.presenting)] + CompletionEvents(animator, a, position, wasCancelled)
      && LayoutCount(Run(animator, s, ops).log) == LayoutCount(s.log) + 1
  {
    var a := Setup(animator, ctx);
    var first := [Query(ctx)];
    var engine := [RunAnimations(a), Completed(a, position, wasCancelled)];
    assert first[1..] == [];
    assert Admissible(animator, s, first);
    var s1 := Run(animator, s, first);
    assert s1 == Run(animator, Step(animator, s, Query(ctx)), []);
    assert s1 == ConfiguratorState(Some(a), s.log + [LayoutOf(a)]);
    QueriesWhileCachedChangeNothing(animator, s1, queries);
    RunAppend(animator, s, first, queries);
    CachedAdmitsAnyContexts(animator, s1, engine);
    RunAppend(animator, s, first + queries, engine);
    assert engine[1..] == [Completed(a, position, wasCancelled)];
    assert engine[1..][1..] == [];
    var es := CompletionEvents(animator, a, position, wasCancelled);
    var s2 := Step(animator, s1, RunAnimations(a));
    assert Run(animator, s1, engine) == Run(animator, s2, [Completed(a, position, wasCancelled)]);
    assert Run(animator, s2, [Completed(a, position, wasCancelled)]) == Step(animator, s2, Completed(a, position, wasCancelled));
    var t := Run(animator, s1, engine);
    assert t.log == s.log + [LayoutOf(a)] + [AnimateOf(a, a.presenting)] + es;
    assert [LayoutOf(a)] + [AnimateOf(a, a.presenting)] == [LayoutOf(a), AnimateOf(a, a.presenting)];
    LayoutCountAppend(s.log + [LayoutOf(a), AnimateOf(a, a.presenting)], es);
    LayoutCountAppend(s.log, [LayoutOf(a), AnimateOf(a, a.presenting)]);
    LayoutCountNone(es);
    assert [LayoutOf(a), AnimateOf(a, a.presenting)][1..] == [AnimateOf(a, a.presenting)];
    assert [AnimateOf(a, a.presenting)][1..] == [];
    assert LayoutCount([AnimateOf(a, a.presenting)]) == 0;
    assert LayoutCount([LayoutOf(a), AnimateOf(a, a.presenting)]) == 1;
  }

  /** The interruptible animation object the engine drives; it keeps what its build captured. */
  class PropertyAnimation {
    const setup: AnimationSetup

    constructor (setup: AnimationSetup)
      ensures this.setup == setup
    {
      this.setup := setup;
    }
  }

  /** The modal configurator: one animator, at most one cached animation, and the log of its effects. */
  class ModalTransitionConfigurator {
    const transitionAnimator: ModalTransitionAnimator
    var cachedAnimation: PropertyAnimation?
    var log: seq<Event>
    /** The animations this configurator has built; only their blocks can call back into it. */
    ghost var built: set<PropertyAnimation>

    /** Every animation built so far, the cached one included, has had its `Layout` logged. */
    ghost predicate Valid()
      reads this
    {
      && (cachedAnimation != null ==> cachedAnimation in built)
      && forall a :: a in built ==> LayoutOf(a.setup) in log
    }

    constructor (transitionAnimator: ModalTransitionAnimator)
      ensures this.transitionAnimator == transitionAnimator
      ensures cachedAnimation == null && log == [] && built == {}
      ensures Valid()
    {
      this.transitionAnimator := transitionAnimator;
      cachedAnimation := null;
      log := [];
      built := {};
    }

    /** The abstract state of this configurator. */
    ghost function State(): ConfiguratorState
      reads this
    {
      ConfiguratorState(if cachedAnimation == null then None else Some(cachedAnimation.setup), log)
    }

    /** `transitionDuration(using:)`: the context is not consulted. */
    function TransitionDuration(ctx: Option<Context>): (d: Duration)
    {
      transitionAnimator.duration
    }

    /**
      `transitionAnimator(using:)`: return the cached animation if there is one;
      otherwise infer the direction, pick the subject view, lay it out, build an
      animation with the animator's duration and damping, and cache it.
     */
    method TransitionAnimator(ctx: Context) returns (animation: PropertyAnimation)
      requires Valid()
      requires cachedAnimation == null ==> Resolvable(ctx)
      modifies this
      ensures Valid()
      ensures built == old(built) + {cachedAnimation}
      ensures cachedAnimation == animation
      ensures old(cachedAnimation) != null ==> animation == old(cachedAnimation) && log == old(log)
      ensures old(cachedAnimation) == null ==>
        && fresh(animation)
        && animation.setup.duration == TransitionDuration(Some(ctx))
        && animation.setup.dampingRatio == transitionAnimator.dampingRatio
        && animation.setup.presenting == IsPresenting(ctx)
        && animation.setup.modalView == SubjectView(ctx, IsPresenting(ctx))
        && animation.setup.container == ctx.container
        && log == old(log) + [Layout(IsPresenting(ctx), SubjectView(ctx, IsPresenting(ctx)), ctx.container)]
      ensures State() == Step(transitionAnimator, old(State()), Query(ctx))
    {
      if cachedAnimation != null {
        return cachedAnimation;
      }
      var isPresenting := IsPresenting(ctx);
      var modalView := SubjectView(ctx, isPresenting);
      log := log + [Layout(isPresenting, modalView, ctx.container)];
      var duration := TransitionDuration(Some(ctx));
      animation := new PropertyAnimation(AnimationSetup(duration, transitionAnimator.dampingRatio, isPresenting, modalView, ctx.container));
      cachedAnimation := animation;
      built := built + {animation};
    }

    /** `interruptibleAnimator(using:)`: the same object `transitionAnimator(using:)` gives. */
    method InterruptibleAnimator(ctx: Context) returns (animation: PropertyAnimation)
      requires Valid()
      requires cachedAnimation == null ==> Resolvable(ctx)
      modifies this
      ensures Valid()
      ensures built == old(built) + {cachedAnimation}
      ensures cachedAnimation == animation
      ensures old(cachedAnimation) != null ==> animation == old(cachedAnimation) && log == old(log)
      ensures old(cachedAnimation) == null ==> fresh(animation) && animation.setup == Setup(transitionAnimator, ctx)
      ensures State() == Step(transitionAnimator, old(State()), Query(ctx))
    {
      animation := TransitionAnimator(ctx);
    }

    /**
      `animateTransition(using:)`: obtains the cached or newly built animation
      and hands it to the engine to start.
     */
    method AnimateTransition(ctx: Context)
      requires Valid()
      requires cachedAnimation == null ==> Resolvable(ctx)
      modifies this
      ensures Valid()
      ensures built == old(built) + {cachedAnimation}
      ensures cachedAnimation != null
      ensures old(cachedAnimation) != null ==> cachedAnimation == old(cachedAnimation) && log == old(log)
      ensures old(cachedAnimation) == null ==> fresh(cachedAnimation) && cachedAnimation.setup == Setup(transitionAnimator, ctx)
      ensures State() == Step(transitionAnimator, old(State()), Query(ctx))
    {
      var animation := TransitionAnimator(ctx);
    }

    /** The engine runs the animations block of `animation`: `animate` in the captured direction. */
    method RunAnimations(animation: PropertyAnimation)
      requires Valid() && animation in built
      modifies this`log
      ensures Valid()
      // the animation's own `Layout` came first
      ensures LayoutOf(animation.setup) in old(log)
      ensures log == old(log) + [Animate(animation.setup.presenting, animation.setup.modalView, animation.setup.container)]
      ensures State() == Step(transitionAnimator, old(State()), Op.RunAnimations(animation.setup))
    {
      log := log + [Animate(animation.setup.presenting, animation.setup.modalView, animation.setup.container)];
    }

    /**
      The engine runs the completion block of `animation` at `position`; `ctx`
      is the captured context as it stands at that moment.
     */
    method AnimationCompleted(animation: PropertyAnimation, position: Position, ctx: Context)
      requires Valid() && animation in built
      modifies this`log
      ensures Valid()
      // the animation's own `Layout` came first
      ensures LayoutOf(animation.setup) in old(log)
      ensures position == End ==>
        log == old(log) + [CompleteTransition(!ctx.wasCancelled)]
          + (if animation.setup.presenting then (if transitionAnimator.hasOnPresented then [Presented] else [])
             else (if transitionAnimator.hasOnDismissed then [Dismissed] else []))
      ensures position != End ==>
        log == old(log) + [Animate(!animation.setup.presenting, animation.setup.modalView, animation.setup.container), CompleteTransition(false)]
      ensures State() == Step(transitionAnimator, old(State()), Completed(animation.setup, position, ctx.wasCancelled))
    {
      var a := animation.setup;
      if position == End {
        log := log + [CompleteTransition(!ctx.wasCancelled)];
        if a.presenting {
          if transitionAnimator.hasOnPresented {
            log := log + [Presented];
          }
        } else {
          if transitionAnimator.hasOnDismissed {
            log := log + [Dismissed];
          }
        }
      } else {
        log := log + [Animate(!a.presenting, a.modalView, a.container)];
        log := log + [CompleteTransition(false)];
      }
      assert log == old(log) + CompletionEvents(transitionAnimator, a, position, ctx.wasCancelled);
    }

    /** `animationEnded(_:)`: the cache is cleared whatever the argument. */
    method AnimationEnded(transitionCompleted: bool)
      requires Valid()
      modifies this`cachedAnimation
      ensures Valid()
      ensures cachedAnimation == null
      ensures State() == Step(transitionAnimator, old(State()), Ended(transitionCompleted))
    {
      cachedAnimation := null;
    }
  }

  /**
    A modal presentation that the engine completes at its end: the log is one
    `Layout` and one `Animate`, both presenting, the context told the
    transition succeeded, and `onPresented` fired once.
   */
  method PresentationScenario(animator: ModalTransitionAnimator, ctx: Context) returns (c: ModalTransitionConfigurator)
    requires IsPresenting(ctx) && !ctx.wasCancelled && animator.hasOnPresented
    requires Resolvable(ctx)
    ensures c.log == [
      Layout(true, SubjectView(ctx, true), ctx.container),
      Animate(true, SubjectView(ctx, true), ctx.container),
      CompleteTransition(true),
      Presented]
    ensures c.cachedAnimation == null
  {
    c := new ModalTransitionConfigurator(animator);
    var a := c.InterruptibleAnimator(ctx);
    c.AnimateTransition(ctx);
    var b := c.TransitionAnimator(ctx);
    assert a == b;
    c.RunAnimations(a);
    c.AnimationCompleted(a, End, ctx);
    c.AnimationEnded(true);
  }

  /**
    A dismissal interrupted by the engine at its start: `animate` runs a second
    time with the direction inverted, the context is told the transition
    failed, and no callback fires.
   */
  method InterruptedDismissalScenario(animator: ModalTransitionAnimator, ctx: Context) returns (c: ModalTransitionConfigurator)
    requires !IsPresenting(ctx)
    requires Resolvable(ctx)
    ensures c.log == [
      Layout(false, SubjectView(ctx, false), ctx.container),
      Animate(false, SubjectView(ctx, false), ctx.container),
      Animate(true, SubjectView(ctx, false), ctx.container),
      CompleteTransition(false)]
  {
    c := new ModalTransitionConfigurator(animator);
    var a := c.TransitionAnimator(ctx);
    c.RunAnimations(a);
    c.AnimationCompleted(a, Start, ctx);
  }
}

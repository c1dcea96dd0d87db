/**
  The transition-phase machine of `useAnimationAPI`
  (src/core/hooks/useAnimationAPI.ts): `present`, `dismiss`,
  `cancelTransitionAnimation`, `revokeTransitionAnimation`, the auto-dismiss
  timer and the completion callbacks of the progress animation.

  The animation runtime is replaced by events: starting an animation fills the
  pending slot with its target, interpolator, configuration and success
  continuation, and `Complete` is the runtime reporting success or error.
  Starting a new animation or cancelling one drops the old slot, so its
  success continuation never runs (an interrupted animation is taken to end
  on the error path, which does nothing). Collaborators that are not part of this model
  (the timer, drag state, the notification emitter, `onClose`) become state:
  the timer is an armed flag with its duration, and the drag reset, the
  `pop_notification` emission and the `onClose` call are recorded, in order,
  in an effect log.

  `State`-level functions (`Present`, `Dismiss`, ...) are the specification;
  the class `AnimationCoordinator` is the mutable object, and each of its
  methods is proved to move its state exactly as the matching function says.
*/
module AnimationApi {
  import opened Wrappers

  /** `currentTransitionType`: `'in' | 'out' | 'idle_active'`. */
  datatype Phase = In | Out | IdleActive

  /** `AnimationRange.START` and `AnimationRange.END`; only their distinctness matters here. */
  datatype RangeTarget = RangeStart | RangeEnd

  /** `withSpring` or `withTiming`. */
  datatype Interpolator = Spring | Timing

  /** One direction's animation config: its `type` and its interpolation parameters. */
  datatype AnimationConfig = AnimationConfig(kind: string, params: map<string, real>)

  /** The part of the notification's config the coordinator reads. */
  datatype CoordinatorConfig = CoordinatorConfig(
    animationIn: AnimationConfig,
    animationOut: Option<AnimationConfig>,
    duration: int,
    hasOnClose: bool)

  /** What runs when the pending animation completes successfully. */
  datatype Continuation = AfterPresent | AfterDismiss(id: Option<string>)

  /** The animation assigned to `progress.value` and not yet completed. */
  datatype PendingAnimation = PendingAnimation(
    target: RangeTarget,
    interpolator: Interpolator,
    config: AnimationConfig,
    onSuccess: Continuation)

  /** Calls into collaborators, in the order they are made. */
  datatype Effect = DragReset | PopNotification(id: Option<string>) | CloseCallback

  datatype CoordState = CoordState(
    phase: Phase,
    timerArmed: bool,
    timerDuration: int,
    pending: Option<PendingAnimation>,
    effects: seq<Effect>)

  /** The environment's events: the four API calls, animation completion and the timer firing. */
  datatype Event =
    | PresentCall
    | DismissCall(id: Option<string>)
    | Completed(success: bool)
    | TimerFired
    | CancelCall
    | RevokeCall

  /** The state on mount: phase `'in'`, no timer, no animation, nothing emitted. */
  const Initial: CoordState := CoordState(In, false, 0, None, [])

  /** `dismissConfig = animationOutConfig || animationInConfig`. */
  function DismissConfig(c: CoordinatorConfig): AnimationConfig {
    c.animationOut.GetOr(c.animationIn)
  }

  /** `config.type === 'spring' ? withSpring : withTiming`. */
  function InterpolatorFor(a: AnimationConfig): (r: Interpolator)
    ensures r == Spring <==> a.kind == "spring"
  {
    if a.kind == "spring" then Spring else Timing
  }

  function PresentStep(c: CoordinatorConfig, s: CoordState): CoordState {
    s.(phase := In,
       pending := Some(PendingAnimation(RangeStart, InterpolatorFor(c.animationIn), c.animationIn, AfterPresent)))
  }

  function DismissStep(c: CoordinatorConfig, s: CoordState, id: Option<string>): CoordState {
    var cfg := DismissConfig(c);
    s.(phase := Out,
       timerArmed := false,
       effects := s.effects + [DragReset],
       pending := Some(PendingAnimation(RangeEnd, InterpolatorFor(cfg), cfg, AfterDismiss(id))))
  }

  /** The runtime reports the pending animation's outcome; with nothing pending nothing happens. */
  function CompleteStep(c: CoordinatorConfig, s: CoordState, success: bool): CoordState {
    match s.pending
    case None => s
    case Some(a) =>
      if !success then s.(pending := None)
      else match a.onSuccess
        case AfterPresent =>
          s.(pending := None, phase := IdleActive, timerArmed := true, timerDuration := c.duration)
        case AfterDismiss(id) =>
          s.(pending := None, phase := In,
             effects := s.effects + [PopNotification(id)] + (if c.hasOnClose then [CloseCallback] else []))
  }

  /** The armed timer fires once and calls `dismiss()` without an id. */
  function TimerStep(c: CoordinatorConfig, s: CoordState): CoordState {
    if s.timerArmed then DismissStep(c, s.(timerArmed := false), None) else s
  }

  function CancelStep(s: CoordState): CoordState {
    s.(timerArmed := false, pending := None)
  }

  function RevokeStep(c: CoordinatorConfig, s: CoordState): CoordState {
    match s.phase
    case Out => DismissStep(c, s, None)
    case In => s.(timerArmed := true, timerDuration := c.duration)
    case IdleActive => s.(timerArmed := true, timerDuration := c.duration)
  }

  function Step(c: CoordinatorConfig, s: CoordState, e: Event): CoordState {
    match e
    case PresentCall => PresentStep(c, s)
    case DismissCall(id) => DismissStep(c, s, id)
    case Completed(success) => CompleteStep(c, s, success)
    case TimerFired => TimerStep(c, s)
    case CancelCall => CancelStep(s)
    case RevokeCall => RevokeStep(c, s)
  }

  function Run(c: CoordinatorConfig, s: CoordState, events: seq<Event>): CoordState
    decreases |events|
  {
    if events == [] then s else Run(c, Step(c, s, events[0]), events[1..])
  }

  function CountPops(effects: seq<Effect>): nat {
    if effects == [] then 0
    else (if effects[0].PopNotification? then 1 else 0) + CountPops(effects[1..])
  }

  function CountDragResets(effects: seq<Effect>): nat {
    if effects == [] then 0
    else (if effects[0].DragReset? then 1 else 0) + CountDragResets(effects[1..])
  }

  lemma {:induction false} CountsAppend(a: seq<Effect>, b: seq<Effect>)
    ensures CountPops(a + b) == CountPops(a) + CountPops(b)
    ensures CountDragResets(a + b) == CountDragResets(a) + CountDragResets(b)
  {
    if a == [] {
      assert a + b == b;
    } else {
      assert (a + b)[0] == a[0];
      assert (a + b)[1..] == a[1..] + b;
      CountsAppend(a[1..], b);
    }
  }

  /** The pending animation agrees with the phase and with the call that started it. */
  predicate PendingConsistent(c: CoordinatorConfig, phase: Phase, a: PendingAnimation) {
    match a.onSuccess
    case AfterPresent =>
      phase == In && a.target == RangeStart && a.config == c.animationIn
      && a.interpolator == InterpolatorFor(c.animationIn)
    case AfterDismiss(_) =>
      phase == Out && a.target == RangeEnd && a.config == DismissConfig(c)
      && a.interpolator == InterpolatorFor(DismissConfig(c))
  }

  function PendingPops(s: CoordState): nat {
    if s.pending.Some? && s.pending.value.onSuccess.AfterDismiss? then 1 else 0
  }

  /**
    The coordinator's invariant: no auto-dismiss timer runs while exiting; an
    armed timer has the configured duration; nothing is in flight while idle;
    the pending animation matches the phase; and every emitted or promised
    `pop_notification` is backed by its own `dismiss` (drag reset).
  */
  predicate Inv(c: CoordinatorConfig, s: CoordState) {
    && (s.phase == Out ==> !s.timerArmed)
    && (s.timerArmed ==> s.timerDuration == c.duration)
    && (s.phase == IdleActive ==> s.pending.None?)
    && (s.pending.Some? ==> PendingConsistent(c, s.phase, s.pending.value))
    && CountPops(s.effects) + PendingPops(s) <= CountDragResets(s.effects)
  }

  lemma InitialInv(c: CoordinatorConfig)
    ensures Inv(c, Initial)
  {
  }

  lemma StepInv(c: CoordinatorConfig, s: CoordState, e: Event)
    requires Inv(c, s)
    ensures Inv(c, Step(c, s, e))
  {
    match e
    case DismissCall(id) =>
      CountsAppend(s.effects, [DragReset]);
    case TimerFired =>
      CountsAppend(s.effects, [DragReset]);
    case RevokeCall =>
      CountsAppend(s.effects, [DragReset]);
    case Completed(success) =>
      if success && s.pending.Some? && s.pending.value.onSuccess.AfterDismiss? {
        var id := s.pending.value.onSuccess.id;
        var tail := [PopNotification(id)] + (if c.hasOnClose then [CloseCallback] else []);
        CountsAppend(s.effects, tail);
        assert CountPops(tail) == 1 && CountDragResets(tail) == 0 by {
          assert tail[0] == PopNotification(id);
          if c.hasOnClose {
            assert tail[1..] == [CloseCallback] && tail[1..][1..] == [];
          } else {
            assert tail[1..] == [];
          }
        }
        assert s.effects + [PopNotification(id)] + (if c.hasOnClose then [CloseCallback] else []) == s.effects + tail;
      }
    case _ =>
  }

  /** Every state reachable from a state satisfying the invariant satisfies it. */
  lemma {:induction false} RunInv(c: CoordinatorConfig, s: CoordState, events: seq<Event>)
    requires Inv(c, s)
    ensures Inv(c, Run(c, s, events))
    decreases |events|
  {
    if events != [] {
      StepInv(c, s, events[0]);
      RunInv(c, Step(c, s, events[0]), events[1..]);
    }
  }

  /** Whatever happens after mount, `pop_notification` is never emitted more often than `dismiss` ran. */
  lemma PopsNeverExceedDismissals(c: CoordinatorConfig, events: seq<Event>)
    ensures CountPops(Run(c, Initial, events).effects) <= CountDragResets(Run(c, Initial, events).effects)
  {
    RunInv(c, Initial, events);
  }

  /**
    `dismiss` enters `'out'`, clears the timer and resets drag before animating
    toward `AnimationRange.END`, with the out-config when there is one and
    otherwise the in-config, by spring iff that config's type is `'spring'`.
  */
  lemma DismissStarts(c: CoordinatorConfig, s: CoordState, id: Option<string>)
    ensures var t := DismissStep(c, s, id);
      && t.phase == Out && !t.timerArmed
      && t.effects == s.effects + [DragReset]
      && t.pending.Some? && t.pending.value.target == RangeEnd
      && t.pending.value.config == (if c.animationOut.Some? then c.animationOut.value else c.animationIn)
      && (t.pending.value.interpolator == Spring <==> t.pending.value.config.kind == "spring")
      && t.pending.value.onSuccess == AfterDismiss(id)
  {
  }

  /**
    A dismiss that completes returns the phase to `'in'` and emits exactly one
    `pop_notification` carrying its id, followed by `onClose` when there is one.
  */
  lemma DismissSucceeds(c: CoordinatorConfig, s: CoordState, id: Option<string>)
    ensures var t := CompleteStep(c, DismissStep(c, s, id), true);
      && t.phase == In && !t.timerArmed && t.pending.None?
      && t.effects == s.effects + [DragReset, PopNotification(id)] + (if c.hasOnClose then [CloseCallback] else [])
      && CountPops(t.effects) == CountPops(s.effects) + 1
  {
    var close := if c.hasOnClose then [CloseCallback] else [];
    var dismissed := s.effects + [DragReset];
    assert CompleteStep(c, DismissStep(c, s, id), true).effects == dismissed + [PopNotification(id)] + close;
    CountsAppend(s.effects, [DragReset]);
    CountsAppend(dismissed, [PopNotification(id)]);
    CountsAppend(dismissed + [PopNotification(id)], close);
    assert [DragReset][1..] == [] && [PopNotification(id)][1..] == [] && [CloseCallback][1..] == [];
  }

  /** A dismiss that fails emits nothing and leaves the phase at `'out'`. */
  lemma DismissFails(c: CoordinatorConfig, s: CoordState, id: Option<string>)
    ensures CompleteStep(c, DismissStep(c, s, id), false) == DismissStep(c, s, id).(pending := None)
    ensures CompleteStep(c, DismissStep(c, s, id), false).phase == Out
  {
  }

  /**
    `present` enters `'in'` and animates toward `AnimationRange.START` with the
    in-config, leaving the timer and the effects alone.
  */
  lemma PresentStarts(c: CoordinatorConfig, s: CoordState)
    ensures var t := PresentStep(c, s);
      && t.phase == In && t.timerArmed == s.timerArmed && t.effects == s.effects
      && t.pending == Some(PendingAnimation(RangeStart, InterpolatorFor(c.animationIn), c.animationIn, AfterPresent))
  {
  }

  /** A present that completes enters `'idle_active'` and arms the timer with `duration`. */
  lemma PresentSucceeds(c: CoordinatorConfig, s: CoordState)
    ensures var t := CompleteStep(c, PresentStep(c, s), true);
      && t.phase == IdleActive && t.timerArmed && t.timerDuration == c.duration
      && t.pending.None? && t.effects == s.effects
  {
  }

  /** A present that fails changes nothing beyond entering `'in'`. */
  lemma PresentFails(c: CoordinatorConfig, s: CoordState)
    ensures CompleteStep(c, PresentStep(c, s), false) == s.(phase := In, pending := None)
  {
  }

  /**
    Cancelling disarms the timer and drops the animation, so no continuation can
    run afterwards; the phase is left as it was.
  */
  lemma CancelDropsContinuation(c: CoordinatorConfig, s: CoordState, success: bool)
    ensures CancelStep(s).phase == s.phase && !CancelStep(s).timerArmed && CancelStep(s).effects == s.effects
    ensures CompleteStep(c, CancelStep(s), success) == CancelStep(s)
  {
  }

  /**
    Revoking after a cancel while `'out'` runs `dismiss()` again, so the
    notification is popped exactly once, and a second completion pops nothing.
  */
  lemma RevokeCompletesDismiss(c: CoordinatorConfig, s: CoordState, success: bool)
    requires s.phase == Out
    ensures RevokeStep(c, CancelStep(s)) == DismissStep(c, CancelStep(s), None)
    ensures var t := CompleteStep(c, RevokeStep(c, CancelStep(s)), true);
      && t.phase == In
      && CountPops(t.effects) == CountPops(s.effects) + 1
      && CompleteStep(c, t, success) == t
  {
    DismissSucceeds(c, CancelStep(s), None);
  }

  /** Revoking while `'in'` or `'idle_active'` only re-arms the timer. */
  lemma RevokeRearmsTimer(c: CoordinatorConfig, s: CoordState)
    requires s.phase != Out
    ensures RevokeStep(c, s) == s.(timerArmed := true, timerDuration := c.duration)
  {
  }

  /** The timer fires `dismiss()` without an id, and only when armed. */
  lemma TimerDismisses(c: CoordinatorConfig, s: CoordState)
    ensures s.timerArmed ==> TimerStep(c, s) == DismissStep(c, s, None)
    ensures !s.timerArmed ==> TimerStep(c, s) == s
  {
  }

  /** The coordinator object returned by `useAnimationAPI`. */
  class AnimationCoordinator {
    const config: CoordinatorConfig
    var phase: Phase
    var timerArmed: bool
    var timerDuration: int
    var pending: Option<PendingAnimation>
    ghost var effects: seq<Effect>

    ghost function State(): CoordState
      reads this
    {
      CoordState(phase, timerArmed, timerDuration, pending, effects)
    }

    ghost predicate Valid()
      reads this
    {
      Inv(config, State())
    }

    constructor (config: CoordinatorConfig)
      ensures Valid() && this.config == config && State() == Initial
    {
      this.config := config;
      phase := In;
      timerArmed := false;
      timerDuration := 0;
      pending := None;
      effects := [];
    }

    method Present()
      requires Valid()
      modifies this
      ensures Valid() && State() == PresentStep(config, old(State()))
    {
      StepInv(config, State(), PresentCall);
      phase := In;
      pending := Some(PendingAnimation(RangeStart, InterpolatorFor(config.animationIn), config.animationIn, AfterPresent));
    }

    method Dismiss(id: Option<string>)
      requires Valid()
      modifies this
      ensures Valid() && State() == DismissStep(config, old(State()), id)
    {
      StepInv(config, State(), DismissCall(id));
      phase := Out;
      timerArmed := false;
      effects := effects + [DragReset];
      var dismissConfig := DismissConfig(config);
      pending := Some(PendingAnimation(RangeEnd, InterpolatorFor(dismissConfig), dismissConfig, AfterDismiss(id)));
    }

    /** The runtime reports the outcome of the animation assigned to `progress.value`. */
    method CompleteAnimation(success: bool)
      requires Valid()
      modifies this
      ensures Valid() && State() == CompleteStep(config, old(State()), success)
    {
      StepInv(config, State(), Completed(success));
      if pending.Some? {
        var continuation := pending.value.onSuccess;
        pending := None;
        if success {
          match continuation
          case AfterPresent =>
            phase := IdleActive;
            timerArmed := true;
            timerDuration := config.duration;
          case AfterDismiss(id) =>
            phase := In;
            effects := effects + [PopNotification(id)] + (if config.hasOnClose then [CloseCallback] else []);
        }
      }
    }

    method FireTimer()
      requires Valid()
      modifies this
      ensures Valid() && State() == TimerStep(config, old(State()))
    {
      if timerArmed {
        timerArmed := false;
        Dismiss(None);
      }
    }

    method CancelTransitionAnimation()
      requires Valid()
      modifies this
      ensures Valid() && State() == CancelStep(old(State()))
    {
      StepInv(config, State(), CancelCall);
      timerArmed := false;
      pending := None;
    }

    method RevokeTransitionAnimation()
      requires Valid()
      modifies this
      ensures Valid() && State() == RevokeStep(config, old(State()))
    {
      StepInv(config, State(), RevokeCall);
      match phase
      case Out =>
        Dismiss(None);
      case In =>
        timerArmed := true;
        timerDuration := config.duration;
      case IdleActive =>
        timerArmed := true;
        timerDuration := config.duration;
    }
  }
}

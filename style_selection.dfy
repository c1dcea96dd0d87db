/**
  The style selector passed to `useAnimatedStyle` inside `useAnimationAPI`
  (src/core/hooks/useAnimationAPI.ts): it picks one of four style sources from
  the transition phase and which queues and functions the config supplies.
*/
module StyleSelection {
  import opened Wrappers
  import opened StyleMerge
  import opened AnimationApi

  /** The four sources, highest priority first. */
  datatype StyleSource = OutQueue | InQueue | OutFunction | InFunction

  /**
    The styling part of the animation config. A missing queue is empty; the
    out-function is optional and the in-function is always present.
  */
  datatype TransitionStyles = TransitionStyles(
    outQueue: seq<StyleFunction>,
    inQueue: seq<StyleFunction>,
    outStyles: Option<StyleFunction>,
    inStyles: StyleFunction)

  /** `['out', 'idle_active'].includes(currentTransitionType.value)`. */
  predicate Leaving(phase: Phase) {
    phase == Out || phase == IdleActive
  }

  /** Whether a source may be used at all in this phase with this config. */
  predicate Applicable(src: StyleSource, phase: Phase, t: TransitionStyles) {
    match src
    case OutQueue => Leaving(phase) && |t.outQueue| > 0
    case InQueue => |t.inQueue| > 0
    case OutFunction => Leaving(phase) && t.outStyles.Some?
    case InFunction => true
  }

  function Rank(src: StyleSource): nat {
    match src
    case OutQueue => 0
    case InQueue => 1
    case OutFunction => 2
    case InFunction => 3
  }

  /** The chosen source is the applicable one of highest priority. */
  function SelectSource(phase: Phase, t: TransitionStyles): (src: StyleSource)
    ensures Applicable(src, phase, t)
    ensures forall s :: Applicable(s, phase, t) ==> Rank(src) <= Rank(s)
  {
    if Leaving(phase) && |t.outQueue| > 0 then OutQueue
    else if |t.inQueue| > 0 then InQueue
    else if Leaving(phase) && t.outStyles.Some? then OutFunction
    else InFunction
  }

  /** `{ opacity: 1, ...s }`: opacity 1 unless `s` sets its own. */
  function WithDefaultOpacity(s: Style): (r: Style)
    ensures s.opacity.Some? ==> r.opacity == s.opacity
    ensures s.opacity.None? ==> r.opacity == Some(1.0)
    ensures r.others == s.others && r.transform == s.transform
  {
    s.(opacity := if s.opacity.Some? then s.opacity else Some(1.0))
  }

  /** The style of the chosen source at the given progress. */
  function AnimatedStyle(phase: Phase, t: TransitionStyles, progress: real): (r: Style)
    ensures r.opacity.Some?
    ensures phase == In ==>
      r == if |t.inQueue| > 0 then MergeFunctions(t.inQueue, progress)
           else WithDefaultOpacity(t.inStyles(progress))
    ensures Applicable(OutQueue, phase, t) || Applicable(InQueue, phase, t) ==>
      r.transform.Some? && BaseTransform <= r.transform.value
  {
    match SelectSource(phase, t)
    case OutQueue => MergeFunctions(t.outQueue, progress)
    case InQueue => MergeFunctions(t.inQueue, progress)
    case OutFunction => WithDefaultOpacity(t.outStyles.value(progress))
    case InFunction => WithDefaultOpacity(t.inStyles(progress))
  }
}

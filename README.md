# react-native-notificated: animation coordinator and status-bar probe in Dafny

This project models the core of an in-app notification library for React Native.

- **Style merging.** `mergeStylesObjects` shallow-merges two style objects. Every key of the new style wins, except `transform`, whose lists are concatenated old-then-new. `mergeStylesFunctions` folds a list of style functions over the base `{opacity: 1, transform: [{translateY: 0}, {translateX: 0}]}`.
- **The transition-phase machine of `useAnimationAPI`.** The operations are `present`, `dismiss`, `cancelTransitionAnimation` and `revokeTransitionAnimation`. They drive the phase `'in' | 'out' | 'idle_active'`, the auto-dismiss timer, the drag reset, the `pop_notification` emission and the `onClose` call.
- **The `useAnimatedStyle` selector.** It picks the out-queue, the in-queue, the out-function or the in-function, in that order of priority.
- **The status-bar height rule of `useStatusBarHeightDetector`.**

Files:

- `wrappers.dfy`: `Option`, used for JavaScript's `undefined`.
- `style_merge.dfy` (module `StyleMerge`): a style is an optional opacity, a map of the other keys and an optional transform list. The fold is `FoldStyles` over the styles the functions produce.
- `animation_api.dfy` (module `AnimationApi`): the specification is written as pure step functions on a `CoordState` value, one per event (`PresentStep`, `DismissStep`, `CompleteStep`, `TimerStep`, `CancelStep`, `RevokeStep`). The lemmas prove properties of these functions. The class `AnimationCoordinator` holds the mutable cells. Each of its methods is proved to change its state exactly as the matching step function says, and to keep the invariant `Inv`.
- `style_selection.dfy` (module `StyleSelection`): the selector.
- `status_bar_height.dfy` (module `StatusBarHeight`): the height rule as a function. A one-field detector class applies it from its effect.

The frame-by-frame animation runtime is replaced by events. Starting an animation fills a pending slot. That slot holds:

- the target (`AnimationRange.START` or `AnimationRange.END`, kept as two distinct opaque values);
- the interpolator (spring or timing);
- the config used;
- the success continuation.

`CompleteAnimation(success)` is the runtime reporting the outcome, and the caller chooses success or error. Starting another animation, or cancelling, drops the slot, so its success continuation never runs. The timer is an armed flag plus its duration. When it fires it calls `dismiss()` with no id. Drag resets, pops and `onClose` calls are recorded in order in an effect log.

Two rules of the code that are easy to misread:

- `present` animates toward `AnimationRange.START` and `dismiss` toward `AnimationRange.END` (src/core/hooks/useAnimationAPI.ts:80, 109).
- On iOS the height is 50 whenever the device is not in portrait or the reported height is 0 (src/core/hooks/useStatusBarHeightDetector.ts:16).

## Model

| member | source | states |
|---|---|---|
| StyleMerge.MergeObjects | src/core/hooks/useAnimationAPI.ts:22-33 | the result's transform is the old list followed by the new one, where a missing transform counts as empty; opacity and every other key of the new style override the old value; keys found only in the old style survive unchanged; the key set is the union; merging two well-formed styles gives a well-formed style |
| StyleMerge.FoldTransform | src/core/hooks/useAnimationAPI.ts:41-46 | the transform of a reduce is the accumulator's list followed by every output's list, in call order, and it stays present once the accumulator has one |
| StyleMerge.ConcatLength | src/core/hooks/useAnimationAPI.ts:41-45 | the concatenated transform has exactly as many entries as the outputs supply together |
| StyleMerge.ConcatAt | src/core/hooks/useAnimationAPI.ts:41-45 | entry j of output i sits at position (entries of outputs before i) + j of the concatenation, so order is call order |
| StyleMerge.FoldOpacity | src/core/hooks/useAnimationAPI.ts:41-46 | the folded opacity is the accumulator's when no output sets one, and otherwise the last setter's value; it stays defined once the accumulator defines it |
| StyleMerge.FoldKeys | src/core/hooks/useAnimationAPI.ts:41-46 | a non-transform key is present after the fold iff the accumulator or some output has it |
| StyleMerge.FoldValues | src/core/hooks/useAnimationAPI.ts:41-46 | a non-transform key's value after the fold is the last supplying output's, or the accumulator's when no output supplies it |
| StyleMerge.FoldWellFormed | src/core/hooks/useAnimationAPI.ts:41-46 | folding well-formed styles (no `opacity` or `transform` among the other keys) over a well-formed accumulator gives a well-formed style |
| StyleMerge.MergeFunctions | src/core/hooks/useAnimationAPI.ts:35-47 | an empty list gives exactly the base; the transform is translateY 0, translateX 0, then each function's entries in call order, 2 + their total count long; opacity is 1 unless some function sets it, and then the last setter's value; other keys come from their last supplier; the result is well-formed when every function's style is |
| AnimationApi.InterpolatorFor | src/core/hooks/useAnimationAPI.ts:69 | spring is used iff the config's type is `'spring'`, timing otherwise |
| AnimationApi.InitialInv | src/core/hooks/useAnimationAPI.ts:55-60 | the mount state (phase `'in'`, no timer, no animation) satisfies the coordinator invariant |
| AnimationApi.StepInv | src/core/hooks/useAnimationAPI.ts:62-129 | every event keeps the invariant: no timer while `'out'`; an armed timer has the configured duration; nothing in flight while `'idle_active'`; the pending animation matches the phase, target and config of the call that started it; pops plus a pending dismiss never outnumber drag resets |
| AnimationApi.RunInv | src/core/hooks/useAnimationAPI.ts:62-129 | any sequence of events from a state satisfying the invariant ends in a state satisfying it |
| AnimationApi.PopsNeverExceedDismissals | src/core/hooks/useAnimationAPI.ts:62-84 | from mount, whatever events follow, `pop_notification` is emitted no more often than `dismiss` ran |
| AnimationApi.DismissStarts | src/core/hooks/useAnimationAPI.ts:62-84 | dismiss sets `'out'`, disarms the timer and records one drag reset; it then animates toward END with the out-config if present, else the in-config, by spring iff that config's type is `'spring'`, and carries the given id to its continuation |
| AnimationApi.DismissSucceeds | src/core/hooks/useAnimationAPI.ts:71-75 | a successful dismiss ends in `'in'` with nothing pending; the effects are the drag reset, one pop carrying the id, then onClose exactly when one is configured; the pop count rises by exactly one |
| AnimationApi.DismissFails | src/core/hooks/useAnimationAPI.ts:77-83 | a failed dismiss emits nothing and the phase stays `'out'` |
| AnimationApi.PresentStarts | src/core/hooks/useAnimationAPI.ts:96-112 | present sets `'in'` and animates toward START with the in-config and its interpolator; the timer and effects are untouched |
| AnimationApi.PresentSucceeds | src/core/hooks/useAnimationAPI.ts:101-104 | a successful present enters `'idle_active'` and arms the timer with the configured duration, emitting nothing |
| AnimationApi.PresentFails | src/core/hooks/useAnimationAPI.ts:106-112 | a failed present changes nothing beyond entering `'in'` |
| AnimationApi.CancelDropsContinuation | src/core/hooks/useAnimationAPI.ts:115-118 | cancel keeps the phase and the effects and disarms the timer; any later completion is a no-op, so the dropped continuation never runs |
| AnimationApi.RevokeCompletesDismiss | src/core/hooks/useAnimationAPI.ts:121-129 | after a cancel while `'out'`, revoke re-runs `dismiss()` with no id; its success pops exactly once, and a further completion adds nothing |
| AnimationApi.RevokeRearmsTimer | src/core/hooks/useAnimationAPI.ts:125-127 | while `'in'` or `'idle_active'`, revoke only re-arms the timer with the configured duration |
| AnimationApi.TimerDismisses | src/core/hooks/useAnimationAPI.ts:103 | an armed timer fires `dismiss()` with no id; a disarmed one does nothing |
| AnimationApi.AnimationCoordinator.constructor | src/core/hooks/useAnimationAPI.ts:55-60 | a new coordinator is in the mount state and satisfies the invariant |
| AnimationApi.AnimationCoordinator.Present | src/core/hooks/useAnimationAPI.ts:96-113 | updates the fields exactly as `PresentStep` and keeps the invariant |
| AnimationApi.AnimationCoordinator.Dismiss | src/core/hooks/useAnimationAPI.ts:62-94 | updates the fields and the effect log exactly as `DismissStep` and keeps the invariant |
| AnimationApi.AnimationCoordinator.CompleteAnimation | src/core/hooks/useAnimationAPI.ts:71-106 | runs the pending continuation on success, or only drops it on error, exactly as `CompleteStep`, and keeps the invariant |
| AnimationApi.AnimationCoordinator.FireTimer | src/core/hooks/useAnimationAPI.ts:103 | an armed timer disarms and calls `Dismiss` with no id, as `TimerStep` |
| AnimationApi.AnimationCoordinator.CancelTransitionAnimation | src/core/hooks/useAnimationAPI.ts:115-118 | disarms the timer and drops the pending animation, as `CancelStep` |
| AnimationApi.AnimationCoordinator.RevokeTransitionAnimation | src/core/hooks/useAnimationAPI.ts:121-129 | calls `Dismiss` with no id when `'out'`, otherwise re-arms the timer, as `RevokeStep` |
| StyleSelection.SelectSource | src/core/hooks/useAnimationAPI.ts:137-149 | the chosen source is applicable and no applicable source has higher priority, in the order: out-queue (only while `'out'`/`'idle_active'`, if non-empty), in-queue (if non-empty), out-function (only while `'out'`/`'idle_active'`, if defined), in-function |
| StyleSelection.WithDefaultOpacity | src/core/hooks/useAnimationAPI.ts:147-149 | `{opacity: 1, ...s}`: the function's opacity when it sets one, otherwise 1; the other keys and the transform are the function's |
| StyleSelection.AnimatedStyle | src/core/hooks/useAnimationAPI.ts:133-150 | opacity is always defined; in phase `'in'` the out-styles are never used; whenever a queue is chosen the transform starts with the base translateY/translateX entries |
| StatusBarHeight.ChooseHeight | src/core/hooks/useStatusBarHeightDetector.ts:12-17 | off iOS, `currentHeight`, or 0 when absent; on iOS, the reported height when in portrait and non-zero, otherwise 50; so on iOS it is never 0 |
| StatusBarHeight.StatusBarHeightDetector.constructor | src/core/hooks/useStatusBarHeightDetector.ts:10 | the height is 0 before the effect has run |
| StatusBarHeight.StatusBarHeightDetector.Render | src/core/hooks/useStatusBarHeightDetector.ts:8-23 | a render returns the stored height; the effect then re-applies the rule on the first render and whenever `isPortraitMode` changed, and keeps the stored height otherwise |

## Left out

- The animation runtime is not modelled: spring and timing physics, the floating-point interpolation of `progress`, and the numeric values of `AnimationRange`. Completion is an explicit success-or-error event.
- The hand-off between the UI thread and the JS thread (`withAnimationCallbackJSThread`, worklets) is concurrency and is not modelled. A completion callback takes effect atomically when its event occurs.
- `withAnimationCallbackJSThread` is not part of this model. An animation replaced or cancelled before it finishes is taken to call `handleError`, never `handleSuccess`. `CancelDropsContinuation` and `RevokeCompletesDismiss` rest on this.
- The timer's implementation (`useTimer`) is not part of this model. It is taken to be one-shot, to replace any earlier schedule on `resetTimer`, and to cancel on `clearTimer`.
- `useDrag` is not part of this model. That covers `dragStateHandler`, `handleDragStateChange` and the returned `dragConfig`. Only the calls to `resetDrag` are recorded. A gesture-triggered dismiss is the `Dismiss` method.
- The notification emitter is not part of this model. Only the `pop_notification` emissions are recorded.
- React's hook mechanics are not modelled: `useCallback` memoisation, dependency arrays and re-render scheduling.
- The configured `transitionInStyles` is taken to be always present. The code calls it unconditionally.
- The `Style` type itself does not forbid the keys `opacity` or `transform` inside `others`. `WellFormed` states that a style has the shape of a JavaScript object, and the merges are proved to preserve it. Style values are numbers or strings. A style key explicitly set to `undefined` is treated as absent. A style function that returns `undefined` returns the empty style.
- StatusBarHeight.StatusBarHeightDetector.Render: the native `StatusBarManager.getHeight` call on iOS is asynchronous. The model applies its result within the same effect run and does not model a late answer arriving after a later render. The platform name, `StatusBar.currentHeight` and the reported height are parameters.
- src/defaultConfig/types.ts holds type declarations only, and src/hooks/useNotificationController.ts forwards to an emitter. Neither is part of this model.

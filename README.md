# Virtual try-on client: session state machine and pipeline visualizer

This project models the two pieces of logic in the NeuralFit virtual try-on
web client.

1. **The try-on session of `App`** (`app.dfy`, module `App`). The state hooks
   are the pipeline stage, the person and clothing images, the result image
   URL, the error message, the high-quality flag and the API-key-missing flag.
   `handleTryOn` is an async handler. It is split at its awaits into the
   synchronous segments `Start`, `ToWarping`, `ToGeneration`, `Complete` and
   `Fail`. `handleReset`, the "Try Again" button, the quality switch and the
   two pickers complete the set of transitions. The session is described first
   as a value: `Session`, an `Event` per segment or control, and `Next`. The
   source's promises are proved as lemmas about that value. The class
   `TryOnSession` keeps the same state in fields and updates it in place. Each
   of its methods is proved to produce exactly `Next` of the old state and to
   keep the session invariant `Consistent`.
2. **The step classifier of `PipelineVisualizer`** (`pipeline_visualizer.dfy`).
   `StatusColor` decides whether a step card is pending, active or done. It
   models `getStatusColor`, with the three CSS class strings as a datatype.
   `Icon` chooses between a spinner, a check mark and the step's own icon.
   Both are proved against an independent reference, `ExpectedStatus`, which
   counts how far the run has progressed.

`types.dfy` holds the six-valued `PipelineStage` enum of `types.ts`.

Points of the code that the model keeps as written:
- `handleTryOn` checks only that both images are present. The IDLE-stage check
  and the API-key check exist only in the run button's `disabled` predicate.
  See `OnlyTheButtonGuardsStageAndKey`.
- `handleReset` has no guard, and nothing discards a timer or a generator
  settlement that arrives after it. If `handleReset` ran while a run was
  pending, the settlement would overwrite the fresh IDLE session. See
  `LateSettlementAfterReset` and `ResetDuringRunScenario`. The page itself
  cannot do this: the reset button is drawn only while `resultImage` is
  truthy, "Try Again" only while `error` is truthy, and a run clears both
  before its first await. See `ControlsDisabledDuringRun`.
- If the generator rejects with `null` or `undefined`, reading `err.message`
  throws inside the `catch` block before either setter runs. The session stays
  in GENERATION with no result, no error and every control that could leave it
  hidden or disabled. See `NullishRejectionStrandsRun`.
- Each picker's clear button ignores `disabled`, so an image can be cleared
  during a run. See `ClearingImageDuringRun`. The pending run's request was
  fixed when it started (`CapturedRequest`, `Run`).
- "Try Again" only sets the stage to IDLE. The error message and the images are
  kept, so the error overlay, which is drawn whenever `error` is truthy, stays
  on screen. See `TryAgainOnlyChangesStage`.
- The generator receives the images and quality flag that `handleTryOn`'s
  closure captured when it was invoked. `Start` returns that request.

## Model

| member | source | states |
|---|---|---|
| `PipelineVisualizer.StatusColor` | components/PipelineVisualizer.tsx:32-44 | every step is pending in IDLE and ERROR and done in COMPLETE; a step of the order is active exactly when it is the current stage |
| `PipelineVisualizer.Icon` | components/PipelineVisualizer.tsx:57-72 | the spinner is shown exactly when the step is the current stage; every step shows the check mark in COMPLETE and its own icon in IDLE and ERROR |
| `PipelineVisualizer.IndexOf` | components/PipelineVisualizer.tsx:38-39 | `indexOf` gives -1 exactly when the value is absent, otherwise the first position that holds it |
| `PipelineVisualizer.IndexOfStep` | components/PipelineVisualizer.tsx:37-39 | the order holds each step once, so `indexOf` finds every step at its own position |
| `PipelineVisualizer.CurrentIndexOfWorkingStage` | components/PipelineVisualizer.tsx:33-38 | past the two early returns the current index is never -1; it is the number of steps already finished |
| `PipelineVisualizer.StatusMatchesReference` | components/PipelineVisualizer.tsx:32-44 | `getStatusColor` agrees on every step with the reference classification: in IDLE or ERROR everything is pending; otherwise steps before the progress mark are done, the step at the mark is active and later steps are pending |
| `PipelineVisualizer.IdleOrErrorAllPending` | components/PipelineVisualizer.tsx:33 | in IDLE and ERROR the pending steps are all three steps |
| `PipelineVisualizer.CompleteAllDone` | components/PipelineVisualizer.tsx:34 | in COMPLETE the done steps are all three steps |
| `PipelineVisualizer.StatusInWorkingStage` | components/PipelineVisualizer.tsx:37-43 | in a working stage a step is done before the current index, active at it and pending after it |
| `PipelineVisualizer.WorkingStageSplit` | components/PipelineVisualizer.tsx:36-43 | in a working stage the steps before the current index are done, exactly the current step is active, and the steps after it are pending |
| `PipelineVisualizer.ExactlyOneActive` | components/PipelineVisualizer.tsx:37-42 | exactly one step is active in SEGMENTATION, WARPING and GENERATION, and none in any other stage |
| `PipelineVisualizer.DoneStepsOnlyGrow` | components/PipelineVisualizer.tsx:33-43 | along SEGMENTATION, WARPING, GENERATION, COMPLETE the set of done steps only grows, and an active step never becomes pending again |
| `PipelineVisualizer.IconFollowsStatus` | components/PipelineVisualizer.tsx:57-72 | the spinner is shown exactly on the current stage's step, which is exactly the active step; the check mark exactly on done steps; the step's own icon exactly on pending steps |
| `App.Next` | App.tsx:25-60 | one transition per handler segment, the "Try Again" button (line 230), the switch (line 123) and the pickers (lines 136, 142); no event changes the key flag, only a start, a settlement or a reset touches the result, and the switch and pickers never move the stage |
| `App.CapturedRequest` | App.tsx:26-43 | with no request the start leaves the session unchanged; with one, the start enters SEGMENTATION holding exactly the request's images and quality flag, so the generator is handed what the session holds when the run starts |
| `App.Run` | App.tsx:25-52 | an uninterrupted invocation yields four states when both images are present and none otherwise; its first three states are working stages in which neither the reset button nor the error overlay is drawn |
| `App.RunEnabled` | App.tsx:150 | when the run button is enabled, pressing it captures a request and disables the switch and pickers |
| `App.InputsEnabled` | App.tsx:124-143 | the shared `disabled` expression of the switch and both pickers; they are never enabled in a working stage |
| `App.OverlayShown` | App.tsx:222-235 | the error overlay and its "Try Again" button are drawn only with an error stored, and, in a consistent session, exactly then |
| `App.ResetShown` | App.tsx:178-180 | the reset button is drawn only with a result stored |
| `App.ErrorText` | App.tsx:49 | the stored error is never empty: it is the rejection's message when that is present and non-empty, and the fixed "An unexpected error occurred during processing." otherwise |
| `App.TryOnWithoutImagesChangesNothing` | App.tsx:26 | with either image absent, `handleTryOn` leaves the session unchanged and never calls the generator |
| `App.TryOnWithImagesStarts` | App.tsx:26-30 | with both images, `handleTryOn` enters SEGMENTATION and clears error and result from any stage, keeping images, quality and the key flag |
| `App.OnlyTheButtonGuardsStageAndKey` | App.tsx:25-30 | `handleTryOn` invoked outside IDLE or with the key missing still restarts the run; only the disabled button prevents this |
| `App.SuccessfulRun` | App.tsx:28-46 | a resolving run visits SEGMENTATION, WARPING, GENERATION, COMPLETE in order and stores the generator's value; the generator got exactly the captured images and quality flag; the inputs are unchanged |
| `App.FailedRun` | App.tsx:28-50 | a run rejecting with a value other than null or undefined visits SEGMENTATION, WARPING, GENERATION, ERROR with no result; the error is the message, or the fixed text when it is missing or empty, and the overlay is shown |
| `App.NullishRejectionStrandsRun` | App.tsx:47-50 | a rejection with null or undefined leaves the run in GENERATION with no result and no error; the run button, switch and pickers stay disabled and neither reset nor "Try Again" is drawn |
| `App.ControlsDisabledDuringRun` | App.tsx:124-150 | in every state of a run, the run button, the quality switch and both pickers' file inputs are disabled, and until the generator settles neither the reset button nor "Try Again" is drawn |
| `App.ClearingImageDuringRun` | components/ImageUploader.tsx:23-28 | during a run a picker's clear button still clears its image; the stage is kept and a later start would return early |
| `App.ResetFromAnyStage` | App.tsx:54-60 | `handleReset` from any stage gives IDLE with images, result and error cleared, keeps the quality flag, hides the reset button and the overlay, and re-enables the switch and pickers |
| `App.TryAgainOnlyChangesStage` | App.tsx:222-235 | "Try Again", clickable whenever the overlay is drawn, gives exactly the old session with stage IDLE, so the error overlay stays drawn while the switch and pickers are enabled again |
| `App.ToggleFlipsQuality` | App.tsx:122-124 | the switch flips the quality flag and nothing else, the next captured request carries the flipped flag, and a second toggle restores the session |
| `App.Enablement` | App.tsx:124-150 | the run button is enabled iff both images are present, the stage is IDLE and the key is present, and pressing it then starts a run; the switch and pickers are enabled iff the stage is IDLE |
| `App.LateSettlementAfterReset` | App.tsx:43-60 | if `handleReset` ran while a run was pending, the settlement would still apply: a stale result gives COMPLETE with that result, a stale rejection gives ERROR with the overlay, a null rejection changes nothing |
| `App.NextPreservesConsistent` | App.tsx:25-60 | every event keeps the invariant: COMPLETE has a result, ERROR has a message, and a stored message is non-empty |
| `App.ReachableSessionsAreConsistent` | App.tsx:25-60 | any interleaving of clicks, timers and settlements keeps the invariant, so ERROR always shows the overlay |
| `App.PageEvent` | App.tsx:122-235 | the events the page can produce: a start through the enabled button, timers and the settlement in their run's stage, reset and "Try Again" only while drawn, the switch and file choices only when enabled, clearing at any time; during a run only the run's own segments move the stage |
| `App.PageEventPreservesInvariant` | App.tsx:25-60 | every page event keeps `Consistent` and also: result and error never stored together, a result only in COMPLETE, neither during a run |
| `App.PageSessionsKeepInvariant` | App.tsx:25-60 | every sequence of page events keeps that invariant, so the reset button and the error overlay are never drawn together |
| `App.InitialIsConsistent` | App.tsx:9-23 | the mounted session is IDLE, satisfies both invariants, shows no overlay, and has the run button disabled |
| `App.TryOnSession.constructor` | App.tsx:9-23 | the hooks start at their initial values; the key flag records whether the key was found on mount |
| `App.TryOnSession.Start` | App.tsx:25-30 | the fields become `Next` of the old state for a click, and the returned request is the captured images and quality flag, or none on the early return |
| `App.TryOnSession.ToWarping` | App.tsx:35-36 | the fields become `Next` of the old state when the first delay elapses: stage WARPING, nothing else changed |
| `App.TryOnSession.ToGeneration` | App.tsx:39-40 | the fields become `Next` of the old state when the second delay elapses: stage GENERATION, nothing else changed |
| `App.TryOnSession.Complete` | App.tsx:45-46 | the fields become `Next` of the old state for a resolved generator: the result stored, stage COMPLETE |
| `App.TryOnSession.Fail` | App.tsx:47-50 | the fields become `Next` of the old state for a rejected generator: `ErrorText` of the message stored and stage ERROR, or nothing changed for null or undefined |
| `App.TryOnSession.Reset` | App.tsx:54-60 | the fields become `Next` of the old state for `handleReset` |
| `App.TryOnSession.TryAgain` | App.tsx:230 | the fields become `Next` of the old state for "Try Again": only the stage changes |
| `App.TryOnSession.ToggleQuality` | App.tsx:123 | the fields become `Next` of the old state for the switch: only the flag flips |
| `App.TryOnSession.SetPersonImage` | App.tsx:136 | the person picker's file, or its clearing, replaces the person image and nothing else |
| `App.TryOnSession.SetClothImage` | App.tsx:142 | the clothing picker's file, or its clearing, replaces the clothing image and nothing else |
| `App.ResolvedRunScenario` | App.tsx:25-46 | images chosen, standard quality, generator resolves with "R1": the request is (person, cloth, false) and the run ends COMPLETE with "R1" and no error |
| `App.RejectedRunScenario` | App.tsx:25-50 | images chosen, high quality, generator rejects with "quota exceeded": the request carries `true`, the run ends ERROR with that message and no result, and "Try Again" returns to IDLE keeping the message |
| `App.MissingImageScenario` | App.tsx:26 | only the person image chosen: nothing is requested and the stage stays IDLE |
| `App.ResetDuringRunScenario` | App.tsx:35-60 | if `handleReset` ran in WARPING it would give IDLE, but the pending timer and a resolving generator would then leave the session COMPLETE with the stale result and no images |
| `App.NullishRejectionScenario` | App.tsx:43-50 | a generator rejecting with `null` leaves the session in GENERATION with no result and no error |

## Left out

- The generator is taken to resolve with a string URL. Its code, in services/geminiService, is not part of this model. The hook is typed `string | null` (App.tsx:11), so a resolved `null` or `""` would type-check. It would give COMPLETE with no truthy result: no reset button, and the working panel shown for good (App.tsx:178, 191-218). `Consistent`'s "COMPLETE has a result", `NextPreservesConsistent`, `PageInvariant` and `SuccessfulRun` rest on this assumption.
- `ReachableSessionsAreConsistent` covers any interleaving, including timers and settlements with no run pending, and so proves only `Consistent`. The stronger `PageInvariant` is proved for the events the page can produce (`PageSessionsKeepInvariant`). `PageEvent` states "a pending run" by the stage its segments set; a pending-run identifier is not modelled.
- The two 1200 ms `setTimeout` waits are modelled as the discrete events `SegmentationDelayElapsed` and `WarpingDelayElapsed`, not as time.
- `generateTryOnResult` in services/geminiService is a network call to an external model. services/geminiService is not part of this model. The generator appears only as a function from the captured request to a resolved URL or a rejection (`Outcome`).
- The mount effect reads `process.env.API_KEY`. The model takes whether the key is present as the constructor's argument.
- `console.error` on a rejection is output only and does not affect the state.
- A rejection is `Nullish` for `null` or `undefined`, and otherwise carries its `message` property as `Option<string>`, with `None` when the property is missing. A `message` property holding a non-string value is not modelled. The `TypeError` that escapes `handleTryOn` for a nullish rejection is an unhandled promise rejection; the model records only that the session is left unchanged.
- JSX rendering, the Tailwind class strings, the run button's styling (which does not look at the key flag), the "Processing..." label, the result pane and the specs drawer (`isSpecsOpen`) are presentation only.
- components/ImageUploader.tsx forwards the chosen file, or `null` when cleared, to `onImageChange`. That forwarding is `SetPersonImage`/`SetClothImage`. The file input and the area click respect `disabled`, but the clear button (lines 23-28, wired at line 69) does not. The model therefore allows clearing in any stage (`ClearingImageDuringRun`). The uploader's own `preview` state, which decides whether the clear button is drawn, is not modelled. Neither are the preview URLs.
- constants.ts holds model identifiers and prompt text that only the external generator reads.
- `ProcessingLog`, `TryOnRequest` and `TryOnResult` in types.ts are unused by the core.
- React's batching of state updates is not modelled. Each synchronous segment is applied as one atomic transition, which matches what the component renders between awaits.
- `PipelineVisualizer.StatusColor` is defined for any stage id, as `getStatusColor` is. An id outside the three steps would be classified done while a run is in progress, because `indexOf` gives -1. The component only passes step ids, so the lemmas quantify over the three steps.

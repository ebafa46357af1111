# Navigation progress indication, modelled in Dafny

This project models the navigation-progress part of a small Next.js demo.

- **`NavigationLoader`** is a full-screen spinner driven by four browser events.
  - `visibilitychange` and `hashchange` mean "start": the spinner shows.
  - `popstate` means "complete": a 2000 ms grace timer is scheduled, and its firing hides the spinner.
  - `beforeunload` means "error": the spinner hides and the timer is cancelled.
- **The shared progress state** behind `ProgressBarProvider` holds an optimistic `loading` flag and an animated counter.
  - A supervising effect stops the previous animation and launches a new one toward 100 over 2 seconds.
  - When `loading` is false, the effect resets the counter to 0.
- **`useProgressBarContext` / `useProgress`** fail hard when there is no provider. Otherwise `useProgress` returns a trigger that only calls `start()`.
- **`useInterval`** and the stepped increment helpers `random` / `getDiff` are defined in the source but never called.
- **`Link`** handles a click in this order: prevent the default action, start the progress, wait 3000 ms, then call `router.replace` or `router.push`.

React's scheduling is replaced by explicit discrete inputs:
- an event is dispatched;
- a timer fires;
- an effect re-runs because a dependency changed;
- a transition settles;
- a component unmounts.

Each stateful component is modelled twice:
- a pure snapshot datatype with a total `Step` function, which the lemmas are about;
- a class whose methods change its fields and are each proved to equal `Step` on the old state.

Files:
- `wrappers.dfy`: `Option` and `Result`.
- `navigation_loader.dfy`: module `NavigationLoader`.
- `progress.dfy`: module `Progress`, covering the context lookup, the increment helpers, the progress state, `useInterval` and the bar view.
- `link.dfy`: module `TransitionLink`.

The `NavigationLoader` model tracks two timeout values:
- the `loadingTimeout` state (`pending`);
- the value the subscribed effect closed over (`captured`).

The `beforeunload` handler and the cleanup clear the timer whose id is `captured`; `captured` itself is left as it is. Between a `popstate` and the effect re-run that it causes, `captured` is the *previous* timeout. The at-most-one-timer properties therefore hold only when the effect re-runs between two `popstate` events (`ReRunsBetweenPops`).

The model also proves that a *further* re-run (a path or query change) before the grace timer fires cancels the timer. The spinner then stays up until the next event.

## Model

| member | source | states |
|---|---|---|
| NavigationLoader.Init | src/app/components/navigationLoader.tsx:8-11 | at mount the spinner is hidden, no timeout is stored, no timer is live, all four listeners are attached |
| NavigationLoader.Loader.constructor | src/app/components/navigationLoader.tsx:8-36 | the mounted object starts in the state `Init` describes |
| NavigationLoader.Render | src/app/components/navigationLoader.tsx:47-55 | the spinner is rendered if and only if `isLoading`, otherwise nothing |
| NavigationLoader.Loader.Rendered | src/app/components/navigationLoader.tsx:47-55 | the object renders what `Render` gives for its state |
| NavigationLoader.StartShowsSpinner | src/app/components/navigationLoader.tsx:16-18 | `visibilitychange` or `hashchange` sets `isLoading` and leaves the stored timeout, the captured timeout and the live timers unchanged |
| NavigationLoader.CompleteSchedulesGrace | src/app/components/navigationLoader.tsx:20-26 | `popstate` leaves `isLoading` unchanged, schedules a fresh timer for 2000 ms, stores its id, and that timer's firing makes `isLoading` false |
| NavigationLoader.ErrorCancelsGrace | src/app/components/navigationLoader.tsx:28-31 | once the effect has caught up, `beforeunload` makes `isLoading` false and leaves no live timer, so no later timer firing changes the state |
| NavigationLoader.ReRunLeavesOneTimer | src/app/components/navigationLoader.tsx:38-45 | a re-run clears the timeout the old closure saw and re-subscribes with the stored one; afterwards at most one timer is live |
| NavigationLoader.DisciplinedRunKeepsOneTimer | src/app/components/navigationLoader.tsx:20-45 | over any input sequence in which the effect re-runs between two `popstate` events, no timer is ever lost, and whenever no re-run is owed at most one timer is live |
| NavigationLoader.TeardownIsFinal | src/app/components/navigationLoader.tsx:38-44 | unmounting removes all four listeners and leaves no live timer; no later input changes anything |
| NavigationLoader.HashThenPopHidesAfterGrace | src/app/components/navigationLoader.tsx:16-45 | after `hashchange`, `popstate` and the re-run, the spinner is up, only the new 2000 ms timer is live, other timers change nothing, and its firing hides the spinner |
| NavigationLoader.SecondReRunCancelsGrace | src/app/components/navigationLoader.tsx:43-45 | a second re-run before the grace timer fires clears it: the spinner stays up and no timer can hide it |
| NavigationLoader.RunPreservesValid | src/app/components/navigationLoader.tsx:13-45 | every input sequence keeps listeners attached exactly while mounted and every known timer id issued |
| NavigationLoader.Loader.OnStart | src/app/components/navigationLoader.tsx:16-18 | `handleRouteChangeStart` sets `isLoading` and nothing else |
| NavigationLoader.Loader.OnComplete | src/app/components/navigationLoader.tsx:20-26 | `handleRouteChangeComplete` schedules a fresh 2000 ms timer and stores its id |
| NavigationLoader.Loader.OnError | src/app/components/navigationLoader.tsx:28-31 | `handleRouteChangeError` clears `isLoading` and cancels the timeout its closure captured |
| NavigationLoader.Loader.ClearTimeout | src/app/components/navigationLoader.tsx:30 | `clearTimeout` removes the given timer if any and is a no-op on `undefined` |
| NavigationLoader.Loader.Dispatch | src/app/components/navigationLoader.tsx:33-36 | an event runs the handler registered for it, and does nothing when no listener is attached |
| NavigationLoader.Loader.OnTimerFire | src/app/components/navigationLoader.tsx:21-23 | a live timer fires once and hides the spinner while mounted; a cleared or fired timer does nothing |
| NavigationLoader.Loader.RunCleanup | src/app/components/navigationLoader.tsx:38-44 | the cleanup removes the four listeners and clears the captured timeout |
| NavigationLoader.Loader.ReRunEffect | src/app/components/navigationLoader.tsx:45 | a dependency change runs the cleanup and then subscribes again over the current `loadingTimeout` |
| NavigationLoader.Loader.Teardown | src/app/components/navigationLoader.tsx:38-44 | unmount runs the last cleanup |
| Progress.UseProgressBarContext | src/app/components/progressComponent.tsx:30-40 | fails, with the provider message, exactly when no provider is present; otherwise it returns the provider's state unchanged |
| Progress.UseProgress | src/app/components/progressComponent.tsx:196-203 | fails exactly when no provider is present; otherwise it returns a trigger bound to the provider's state |
| Progress.CallStartProgress | src/app/components/progressComponent.tsx:199-201 | calling the trigger performs `start()` and nothing else |
| Progress.Random | src/app/components/progressComponent.tsx:42-44 | with a draw in [0, 1), the result lies in [min, max] whenever min <= max |
| Progress.RandomCoversRange | src/app/components/progressComponent.tsx:42-44 | every integer of [min, max] is produced by some draw |
| Progress.GetDiff | src/app/components/progressComponent.tsx:46-67 | 15 at 0, within [1, 10] for a nonzero value below 50, within [1, 5] from 50 on, so always positive |
| Progress.Mount | src/app/components/progressComponent.tsx:73-87 | after mount `loading` is false, the counter is 0, and exactly one animation runs (launched unconditionally) |
| Progress.StartOnlySetsLoading | src/app/components/progressComponent.tsx:92-94 | `start()` sets `loading` and leaves counter, animation handles and effect state unchanged |
| Progress.EffectRunReplacesAnimation | src/app/components/progressComponent.tsx:79-87 | a re-run of the effect stops the previous animation, leaves exactly one running toward 100 over 2 s, and leaves the counter at 0 when not loading |
| Progress.RetriggerKeepsOneAnimation | src/app/components/progressComponent.tsx:79-94 | triggering while already loading leaves exactly one animation running, and an effect that already saw `loading` keeps its animation and counter |
| Progress.OptimisticRoundTrip | src/app/components/progressComponent.tsx:74-94 | start, effect, settle, effect: `loading` is false again, the counter is 0, one animation runs and the bar is hidden, with no stop call |
| Progress.CounterMovesWhileNotLoading | src/app/components/progressComponent.tsx:80-84 | the animation launched while not loading may still move the counter; the reset holds only right after the effect runs |
| Progress.UnmountedCounterIsFrozen | src/app/components/progressComponent.tsx:86 | after the provider unmounts no animation runs and the counter never changes |
| Progress.RunPreservesValid | src/app/components/progressComponent.tsx:73-97 | every input sequence keeps exactly one animation running while mounted, each toward 100 over 2 s, and the counter within [0, 100] |
| Progress.ProgressBarView | src/app/components/progressComponent.tsx:147-169 | the overlay is rendered exactly while `loading`, its percentage is the counter, and it lies in [0, 100] |
| Progress.ProgressState.constructor | src/app/components/progressComponent.tsx:132-139 | the provider mounts one state object, in the state `Mount` describes |
| Progress.ProgressState.RunSupervisingEffect | src/app/components/progressComponent.tsx:79-87 | stop the previous handle, launch a new animation, reset the counter when not loading |
| Progress.ProgressState.Start | src/app/components/progressComponent.tsx:92-94 | `start()` sets `loading` only |
| Progress.ProgressState.Settle | src/app/components/progressComponent.tsx:74 | the optimistic flag reverts to false when its transition settles |
| Progress.ProgressState.Commit | src/app/components/progressComponent.tsx:79-87 | the effect re-runs exactly when `loading` changed since its last run |
| Progress.ProgressState.OnAnimationFrame | src/app/components/progressComponent.tsx:80 | only the running animation writes the counter, with a value between 0 and its target |
| Progress.ProgressState.Unmount | src/app/components/progressComponent.tsx:86 | the last cleanup stops the animation |
| Progress.MountInterval | src/app/components/progressComponent.tsx:105-124 | the first render saves the callback, ticks once if the delay is non-null, and sets at most one interval |
| Progress.DelayTicksOnceThenSchedules | src/app/components/progressComponent.tsx:112-123 | a non-null delay calls the saved callback once at once, clears the previous interval and sets one new interval with that period |
| Progress.NullDelaySchedulesNothing | src/app/components/progressComponent.tsx:117 | a null delay leaves no interval and makes no call, and no later tick does anything |
| Progress.ElapsedUsesLatestCallback | src/app/components/progressComponent.tsx:108-115 | an interval tick calls the most recently saved callback |
| Progress.CallsOnlyGrow | src/app/components/progressComponent.tsx:105-124 | callback calls are only ever appended |
| Progress.UnmountedIntervalIsSilent | src/app/components/progressComponent.tsx:121 | after unmount no interval remains and no input causes a call |
| Progress.IntervalStepPreservesValid | src/app/components/progressComponent.tsx:105-124 | at most one interval is set, with the current delay as its period, and none for a null delay or after unmount |
| Progress.Interval.constructor | src/app/components/progressComponent.tsx:105-124 | the hook's object starts in the state `MountInterval` describes |
| Progress.Interval.UpdateCallback | src/app/components/progressComponent.tsx:108-110 | the first effect stores the latest callback |
| Progress.Interval.UpdateDelay | src/app/components/progressComponent.tsx:112-123 | a delay change runs the cleanup (`clearInterval`) and then the delay effect |
| Progress.Interval.RunDelayEffect | src/app/components/progressComponent.tsx:117-122 | with a delay: tick, then `setInterval` |
| Progress.Interval.OnElapsed | src/app/components/progressComponent.tsx:113-115 | a live interval calls the saved callback |
| Progress.Interval.Unmount | src/app/components/progressComponent.tsx:121 | unmount clears the interval |
| TransitionLink.RenderLink | src/app/components/link.tsx:11-18 | rendering fails with the provider message exactly when no provider is present, so no click handler and no navigation exist without one |
| TransitionLink.ClickOrder | src/app/components/link.tsx:23-36 | whatever URL a click navigates to: the default is prevented first, progress starts before the 3000 ms delay begins, and exactly one router call comes after the delay, `replace` exactly when the prop is set, with that URL |
| TransitionLink.ClickProtocol | src/app/components/link.tsx:23-36 | a click as written: prevent the default, start progress, wait 3000 ms, then exactly one router call (`replace` exactly when the prop is set) with `href.toString()` as its URL |
| TransitionLink.ClicksProtocol | src/app/components/link.tsx:23-36 | over any number of clicks, each finishing its wait before the next: one router call per click, each preceded directly by its delay and its progress start |
| TransitionLink.OnClick | src/app/components/link.tsx:23-36 | the handler performs exactly the effects `ClickEffects` lists, in order, navigating to `href.toString()`, and calls `start()` on the provider's state |
| TransitionLink.HrefToStringAsWritten | src/app/components/link.tsx:29 | `href.toString()`: a string href unchanged, a URL object as "[object Object]" |
| TransitionLink.ObjectHrefLosesDestination | src/app/components/link.tsx:29-33 | as written, clicks on links to two different URL-object destinations have identical effects, both pushing "[object Object]"; the corrected clicks push "/about" and "/contact" |
| TransitionLink.FormatUrlRoundTrip | src/app/components/link.tsx:29 | the corrected URL string of a URL object parses back to that object |
| TransitionLink.FormatHrefAgreesOnStrings | src/app/components/link.tsx:29 | for a string href the corrected conversion is `href.toString()` |
| TransitionLink.ClickProtocolCorrected | src/app/components/link.tsx:29-33 | with the corrected conversion a click has the same effects in the same order, one router call of the same kind, equal to the as-written click for a string href, and for a URL object its URL parses back to that object |

## Left out

- Framer-motion internals are not modelled: `animate` easing, per-frame float interpolation, `useTransform` and `Math.round`. An animation frame is an input that writes an integer between 0 and the target while its handle runs, so the rounded value is the counter itself.
- Whether `count.set(0)` halts the running animation is not modelled. It depends on the library, so the model lets the animation keep writing the counter (`CounterMovesWhileNotLoading`).
- React's `useOptimistic` / `startTransition` reconciliation is reduced to the explicit `TransitionSettled` input. The flag reverts to false when it arrives.
- Timers, the event loop and listener registration are discrete inputs with opaque ids. Wall-clock time is not modelled: the 2000 ms and 3000 ms delays are recorded constants, not elapsed time.
- NavigationLoader.TeardownIsFinal: it assumes the effect re-ran after the last `popstate`. When two `popstate` events arrive before a re-run, or unmount comes first, one timer can stay live. That interleaving depends on React's batching.
- NavigationLoader.ErrorCancelsGrace: it assumes the effect has caught up. Between a `popstate` and its re-run, the handler cancels the previous timeout, not the new one.
- Progress.DelayTicksOnceThenSchedules: the `useInterval` delay is a natural number of milliseconds or null. A fractional delay, or a negative one that the timer clamps to 0, is not modelled.
- Progress.GetDiff: `current` is a real number, so NaN and infinities are not modelled. `Math.random()` is modelled as a draw `u` in [0, 1).
- The `href` of `Link` is a string or a URL object with a path, a query string and a fragment. Query objects, hosts and other URL-object fields are not modelled.
- TransitionLink.OnClick runs the whole transition as one sequence. Inputs that interleave during the awaited delay are not modelled, and the delay cannot be cancelled.
- TransitionLink.ClicksProtocol: it covers clicks that each finish their 3000 ms wait before the next click. Nothing in the handler stops a second click during the first one's wait. The two transitions then interleave, and a router call can follow the other click's router call instead of its own delay.
- TransitionLink.OnClick: it assumes the caller passes no `onClick` of its own. `...rest` is spread after the handler (link.tsx:23 and :37), so such a prop would replace the whole handler: no `preventDefault`, no progress start, no delay and no navigation by this component.
- The router's navigation and history are opaque trace effects.
- JSX, class names, motion transitions and the commented-out markup are not modelled.
- src/app/page.tsx and src/app/components/navigation.tsx are not part of this model. They are a demo page and a static list of links.

## Findings

| source | as written | input that shows it | evidently intended | confidence | as-written member | corrected member |
|---|---|---|---|---|---|---|
| src/app/components/link.tsx:29 | the router receives `href.toString()` | `href={{ pathname: '/about' }}`, a URL object that the wrapped link accepts, becomes "[object Object]" | the router receives the URL the object designates ("/about") | high (not executed) | TransitionLink.ObjectHrefLosesDestination | TransitionLink.ClickProtocolCorrected |

`OnClick`, `ClickEffects` and `ClickProtocol` model the handler as written, with `href.toString()`. The corrected click, `ClickEffectsCorrected`, sends the URL that `FormatHref` formats, and `FormatUrlRoundTrip` proves that this URL parses back to the object. For string hrefs, which are the only ones the demo passes, the two clicks are identical (`ClickProtocolCorrected`, `FormatHrefAgreesOnStrings`).

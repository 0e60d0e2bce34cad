# TinyPal: a Dafny model of the app's behaviour

TinyPal is a React Native app for parents. It shows "did you know" cards and
flash cards fetched from a personalisation endpoint. Its assistant, Tinu,
lives in a bottom sheet (the drawer). The drawer opens with context props,
loads contextual cards and suggestion chips, shrinks while the keyboard is
up, and closes on a swipe or a backdrop tap.

This project models the behaviour of that app in Dafny:

- `Js` (`js.dfy`): the JavaScript notions the code relies on.
  - Strings that may be absent: `undefined` and `null` are both `None`.
  - Truthiness, where `""` is falsy.
  - `||` fallback chains, with a reference definition `FirstTruthy`.
  - `startsWith`, `includes` and ASCII lower-casing, which the code calls.
  - `EndsWith`, which the code does not call; it only states what `makeImageUrl` returns.
- `Api` (`api.dfy`): `makeImageUrl` and the request body `activateTinu` posts.
- `Content` (`content.dfy`): the raw card records of the personalisation response.
- `Paging` (`paging.dfy`): the wrap-around index arithmetic of the two screens' tap zones.
- `DidYouKnow` (`did_you_know.dfy`) and `FlashCards` (`flash_cards.dfy`): the two card screens. Each has:
  - its card normalisation, as pure functions;
  - its state cells (`dyk`/`cards`, `loading`, `index`), as a class whose methods are the screen's event handlers.
- `TinuBottomSheet` (`tinu_bottom_sheet.dfy`): the drawer.
  - Pure parts: panel geometry, response handling, chip labels and emojis.
  - Imperative part: the class `Drawer`, with the drawer's state cells, animated values, grace flag and drag offset as fields. Each event the drawer reacts to is a method with a field-level `modifies` frame, so "nothing else changes" is part of every contract.
  - Re-renders with new props: `Drawer.Rerender` is tied to the pure function `RerenderStep` on a value `Cells`. `RerenderStep`'s contract states what each effect does.
- `App` (`app.dfy`): the application's `screen`, `tinuVisible` and `tinuProps` cells and their handlers.
- `Scenarios` (`scenarios.dfy`): runs of the drawer and the app from mounting, one per promised behaviour.

How the model treats the asynchronous parts:

- **Animations.** An animation is a jump to its target values plus a separate `AnimationEnded` event. Starting a close or an open interrupts the running animation. React Native then ends the interrupted animation at once, and its completion callback runs; the drawer's callback ignores whether the animation finished.
  - The ghost counter `closeRequests` and the invariant `closeRequests == closeCalls + CallbackDue(running)` state that every close started with `onClose` calls it exactly once.
- **Fetches.** Each run of the drawer's fetch effect is an instance numbered by `generation`. An instance is unmounted when the effect's dependencies change. The requests in flight are kept by instance, with their bodies. A result updates the drawer only if its instance is the current one.
- **Effect dependencies.** React compares effect dependencies by identity. So `Rerender` takes a flag saying whether the props object was replaced.

Which responses reach the drawer:

- **After the parent hides the drawer.** A response that arrives after the parent has hidden the drawer is dropped by the effect's `mounted` guard (src/components/TinuBottomSheet.js:36, :41, :48, :53). Hiding changes `visible`, and that unmounts the fetch effect's instance. `Scenarios.LateResponseDropped` shows this.
- **During a close the user started.** A swipe (:118-119) or a backdrop tap (:152-154) does not change `visible`. Only the parent's `onClose` does, after the close animation ends. So a response that arrives during that animation is still applied. `Scenarios.ResponseDuringUserCloseApplied` shows this.
- **For an earlier context.** A response to an earlier context is dropped once the props object is replaced, even when it arrives last. `Scenarios.OnlyCurrentContextShown` shows this.

The drag offset is not reset when a swipe dismisses the drawer (:117-119), and the drawer stays mounted while hidden. So when the app opens the drawer again, the panel is drawn below its open position by the last drag offset. `Scenarios.ReopenAfterSwipeKeepsOffset` shows this.

A shown drawer is never stuck (`TinuBottomSheet.Settled`). While it ignores backdrop taps, the timer that ends this is armed (:135-139). While it is loading, a request of the current fetch instance is in flight, and its settling ends the loading (:51). The drawer starts `Settled`, and re-renders (`RerenderStepKeepsSettled`) and settling requests (`SettleStepKeepsSettled`) keep it so. The other events do not change the fields involved, except the grace timer firing, which clears `justOpened`.

## Model

| member | source | states |
|---|---|---|
| Js.FirstTruthy | src/screens/DidYouKnowScreen.js:31-32 | a fallback chain ending in a string literal gives the first truthy candidate, or the literal when none is truthy; the result is always the literal or a truthy candidate |
| Js.OrChain2 | src/screens/DidYouKnowScreen.js:31 | the chain of `a`, `b` and `''` is the first truthy of `a`, `b`, else `''` |
| Js.OrChain3 | src/screens/DidYouKnowScreen.js:32 | the chain of `a`, `b`, `c` and `''` is the first truthy of `a`, `b`, `c`, else `''` |
| Js.IncludesIff | src/components/TinuBottomSheet.js:234-237 | `includes` finds a word exactly when it occurs at some position of the label |
| Js.AsciiLower | src/components/TinuBottomSheet.js:233 | lower-casing keeps the length and lower-cases each character |
| Js.AsciiLowerIdempotent | src/components/TinuBottomSheet.js:233 | lower-casing a lower-cased label changes nothing |
| Api.MakeImageUrl | src/api.js:50-55 | no URL exactly when the path is missing or empty; an http(s) path is returned unchanged; any other path is joined onto the https base, so the URL starts with the base and ends with the path; every URL is http(s) |
| Api.MakeImageUrlIdempotent | src/api.js:1 | applying `makeImageUrl` to its own result changes nothing, because the base is an https URL |
| Api.ActivateTinuBody | src/api.js:45-46 | the body has exactly the keys child_id, context, module_id and topic |
| Api.ActivateTinuBodyFields | src/api.js:45 | a key the caller gives (anything but `undefined`) is posted as given; a key left out takes its default; no key is posted as `undefined` |
| Api.ActivateTinuBodyWithoutArgument | src/api.js:45 | a call without an argument, or with `{}`, posts 'EXAMPLECHILD', 'flash_card', '1' and 'nutrition_impacts_mood' |
| Api.ActivateTinuBodyIgnoresOtherKeys | src/api.js:46 | arguments that agree on the four keys post the same body, whatever their other keys |
| Api.ActivateTinuBodyIdempotent | src/api.js:45-46 | passing a posted body back in posts the same body |
| Paging.Prev | src/screens/DidYouKnowScreen.js:127 | on a valid index of a non-empty list, the left zone's target is in range and is the index minus one, wrapping around |
| Paging.Next | src/screens/DidYouKnowScreen.js:134 | on a valid index of a non-empty list, the right zone's target is in range and is the index plus one, wrapping around |
| Paging.PrevNextInverse | src/screens/FlashCardScreen.js:109-116 | the two zones undo each other on every valid index |
| Paging.NextTimesAdvance | src/screens/FlashCardScreen.js:116 | before the wrap, k taps on the right zone advance the index by k |
| Paging.NextTimesAdd | src/screens/FlashCardScreen.js:116 | a taps then b taps on the right zone equal a + b taps |
| Paging.NextCycle | src/screens/DidYouKnowScreen.js:134 | n taps on the right zone of an n-card list return to the starting card |
| DidYouKnow.CitationText | src/screens/DidYouKnowScreen.js:33 | the citation text is non-empty exactly when there is a citation with a truthy label, and is then that label |
| DidYouKnow.NormaliseCard | src/screens/DidYouKnowScreen.js:28-36 | id and activation are kept; title is title if truthy, else heading; sub_heading and content are the first truthy of their chains, else ''; the citation is the citation's truthy label, else ''; the image URL is `makeImageUrl` of the raw one, absent exactly when the raw one is falsy |
| DidYouKnow.Normalise | src/screens/DidYouKnowScreen.js:25-37 | a missing `dyk_cards` gives no cards; otherwise the count and order are kept and each card is normalised |
| DidYouKnow.DidYouKnowScreen.constructor | src/screens/DidYouKnowScreen.js:11-22 | the screen mounts with no cards, loading, on the first card, its fetch in flight |
| DidYouKnow.DidYouKnowScreen.FetchResolved | src/screens/DidYouKnowScreen.js:23-37 | while mounted, the normalised cards are shown, loading ends, and the tap zones appear exactly when the response had cards; after unmount nothing changes |
| DidYouKnow.DidYouKnowScreen.FetchRejected | src/screens/DidYouKnowScreen.js:39-42 | a failure leaves the list empty and ends loading while mounted, so no tap zones appear |
| DidYouKnow.DidYouKnowScreen.TapZonesShown | src/screens/DidYouKnowScreen.js:68-75 | the tap zones exist only for a non-empty list and never before the mount's fetch has settled |
| DidYouKnow.DidYouKnowScreen.Unmount | src/screens/DidYouKnowScreen.js:43 | unmounting clears the effect's flag; only that changes |
| DidYouKnow.DidYouKnowScreen.ScrollEnded | src/screens/DidYouKnowScreen.js:83 | the page the list came to rest on becomes the index; only that changes |
| DidYouKnow.DidYouKnowScreen.TapPrev | src/screens/DidYouKnowScreen.js:124-130 | with the tap zones shown, the left zone's target is in range and the right zone leads back from it |
| DidYouKnow.DidYouKnowScreen.TapNext | src/screens/DidYouKnowScreen.js:131-137 | with the tap zones shown, the right zone's target is in range and the left zone leads back from it |
| FlashCards.NormaliseCard | src/screens/FlashCardScreen.js:26-33 | as for "did you know" cards, but content falls back on summary and then answer, and there is no citation |
| FlashCards.DescriptionIgnored | src/screens/FlashCardScreen.js:30 | a card's `description` never reaches a flash card |
| FlashCards.Normalise | src/screens/FlashCardScreen.js:24-34 | a missing `flash_cards` gives no cards; otherwise the count and order are kept and each card is normalised |
| FlashCards.FlashCardScreen.constructor | src/screens/FlashCardScreen.js:10-21 | the screen mounts with no cards, loading, on the first card, its fetch in flight |
| FlashCards.FlashCardScreen.FetchResolved | src/screens/FlashCardScreen.js:22-37 | while mounted, the normalised cards are shown, loading ends, and the tap zones appear exactly when the response had cards; after unmount nothing changes |
| FlashCards.FlashCardScreen.FetchRejected | src/screens/FlashCardScreen.js:36-37 | a failure leaves the list empty and ends loading while mounted, so no tap zones appear |
| FlashCards.FlashCardScreen.TapZonesShown | src/screens/FlashCardScreen.js:61-68 | the tap zones exist only for a non-empty list and never before the mount's fetch has settled |
| FlashCards.FlashCardScreen.Unmount | src/screens/FlashCardScreen.js:38 | unmounting clears the effect's flag; only that changes |
| FlashCards.FlashCardScreen.ScrollEnded | src/screens/FlashCardScreen.js:76 | the page the list came to rest on becomes the index; only that changes |
| FlashCards.FlashCardScreen.TapPrev | src/screens/FlashCardScreen.js:106-112 | with the navigation shown, the left zone's target is in range and the right zone leads back from it |
| FlashCards.FlashCardScreen.TapNext | src/screens/FlashCardScreen.js:113-119 | with the navigation shown, the right zone's target is in range and the left zone leads back from it |
| TinuBottomSheet.BaseDrawerHeight | src/components/TinuBottomSheet.js:32 | the base height is the nearest integer to three quarters of the window height |
| TinuBottomSheet.HalfHeight | src/components/TinuBottomSheet.js:106 | the halved height is the nearest integer to half the base height |
| TinuBottomSheet.DrawerHeight | src/components/TinuBottomSheet.js:106 | the panel never exceeds the base height; it is the base height without a keyboard and about half of it with one |
| TinuBottomSheet.DrawerHeightSeesOnlyKeyboardShown | src/components/TinuBottomSheet.js:106 | the panel height depends only on whether the keyboard is up, so repeated or differing show notifications agree |
| TinuBottomSheet.WithImageUrl | src/components/TinuBottomSheet.js:42-45 | a received card keeps all its fields; its image URL is rewritten by `makeImageUrl` only when truthy |
| TinuBottomSheet.WithImageUrlIdempotent | src/components/TinuBottomSheet.js:44 | rewriting a card twice is rewriting it once |
| TinuBottomSheet.WithImageUrlIsHttp | src/components/TinuBottomSheet.js:44 | a rewritten card with an image has an http(s) image URL |
| TinuBottomSheet.ApplyResponse | src/components/TinuBottomSheet.js:42-48 | missing cards or chips become empty lists; card count and order are kept; chips are kept as they are; a falsy context label becomes '' |
| TinuBottomSheet.ChipLabel | src/components/TinuBottomSheet.js:231 | a string chip is its own label; an object chip's label is the first truthy of label, text, value, else its serialisation; only the empty string chip has an empty label |
| TinuBottomSheet.ChipEmoji | src/components/TinuBottomSheet.js:232-239 | the emoji is chosen by the first topic the lower-cased label mentions, in the order food/nutrition, screen, emotional/regulation, communication, else the default; exactly one of five applies |
| TinuBottomSheet.ChipEmojiIgnoresCase | src/components/TinuBottomSheet.js:233 | a label and its lower-cased form get the same emoji |
| TinuBottomSheet.RerenderStep | src/components/TinuBottomSheet.js:35-141 | on new props the fetch effect reruns when `visible` or the props object changed, and a visible drawer then loads and sends a request with the new props; on a change of `visible`, an open or a close without callback starts (an interrupted close with callback still calls back) and showing arms the grace period; hiding clears the grace timer and ends a drag |
| TinuBottomSheet.RerenderSamePropsIsNoOp | src/components/TinuBottomSheet.js:54 | a re-render with the same visibility and props object changes nothing |
| TinuBottomSheet.SettleStep | src/components/TinuBottomSheet.js:40-53 | a settled request is no longer in flight, loading ends exactly when it was the current instance's, and nothing else changes; `Drawer.FetchResolved` and `Drawer.FetchRejected` change the requests and loading in just this way |
| TinuBottomSheet.SettleStepKeepsSettled | src/components/TinuBottomSheet.js:48-53 | a request settling never leaves a shown drawer loading without a current request in flight, nor ignoring backdrop taps without its timer armed |
| TinuBottomSheet.RerenderStepKeepsSettled | src/components/TinuBottomSheet.js:35-141 | a re-render never leaves a shown drawer loading without a current request in flight, nor ignoring backdrop taps without its timer armed |
| TinuBottomSheet.RerenderOrphansOldRequests | src/components/TinuBottomSheet.js:53 | once the fetch effect reruns, every earlier request belongs to an unmounted instance |
| TinuBottomSheet.DrawnNeverAboveAnimated | src/components/TinuBottomSheet.js:115-131 | in every valid drawer the panel is drawn at or below its animated offset, and exactly there when no drag offset is left |
| TinuBottomSheet.Drawer.DrawerTranslateY | src/components/TinuBottomSheet.js:131 | with a downward drag offset the panel is never drawn above its animated offset; it is drawn exactly there when there is no drag offset |
| TinuBottomSheet.Drawer.CurrentDrawerHeight | src/components/TinuBottomSheet.js:106 | the rendered height never exceeds the base height |
| TinuBottomSheet.Drawer.constructor | src/components/TinuBottomSheet.js:22-54 | the drawer mounts with empty data, no keyboard, no drag and no input; a visible one loads and sends its first request, opens and arms its grace timer; a hidden one runs a close without callback; either way it starts `Settled` |
| TinuBottomSheet.Drawer.AnimateOpen | src/components/TinuBottomSheet.js:71-84 | opening targets offset 0 and opacity 1; an interrupted close with callback calls back |
| TinuBottomSheet.Drawer.AnimateClose | src/components/TinuBottomSheet.js:86-99 | closing targets offset equal to the window height and opacity 0, owing a callback only when one is given |
| TinuBottomSheet.Drawer.AnimationEnded | src/components/TinuBottomSheet.js:98 | when an animation ends, a close started with `onClose` calls it |
| TinuBottomSheet.Drawer.Rerender | src/components/TinuBottomSheet.js:35-141 | the new state is `RerenderStep` of the old, and a drawer that was `Settled` stays so |
| TinuBottomSheet.Drawer.ReceiveProps | src/components/TinuBottomSheet.js:53 | new props unmount the old fetch instance when it reruns, so no request of the new instance exists yet |
| TinuBottomSheet.Drawer.FetchEffect | src/components/TinuBottomSheet.js:37-39 | the new instance of a visible drawer loads and sends the body built from its props |
| TinuBottomSheet.Drawer.AnimationEffect | src/components/TinuBottomSheet.js:101-104 | a change of `visible` opens or closes without callback |
| TinuBottomSheet.Drawer.GraceEffect | src/components/TinuBottomSheet.js:135-141 | showing the drawer sets `justOpened` and arms its timer |
| TinuBottomSheet.Drawer.FetchResolved | src/components/TinuBottomSheet.js:40-48 | only the current instance's response replaces the data and ends loading; any other is dropped |
| TinuBottomSheet.Drawer.FetchRejected | src/components/TinuBottomSheet.js:50-51 | a failure leaves the data; only the current instance ends loading |
| TinuBottomSheet.Drawer.KeyboardShow | src/components/TinuBottomSheet.js:60 | the keyboard height is the reported one, or 300 without coordinates; nothing else changes |
| TinuBottomSheet.Drawer.KeyboardHide | src/components/TinuBottomSheet.js:61 | the keyboard height is 0 and the panel is back at its base height; nothing else changes |
| TinuBottomSheet.Drawer.DragStart | src/components/TinuBottomSheet.js:113 | the drawer claims a gesture exactly when it moved down more than 5 |
| TinuBottomSheet.Drawer.DragMove | src/components/TinuBottomSheet.js:114-116 | a downward move sets the drag offset; any other leaves it, so it stays non-negative |
| TinuBottomSheet.Drawer.DragRelease | src/components/TinuBottomSheet.js:117-126 | past 100 the drawer closes with `onClose` and keeps its offset; otherwise the offset springs back to 0 and nothing closes |
| TinuBottomSheet.Drawer.GraceTimerFires | src/components/TinuBottomSheet.js:138 | the grace period ends |
| TinuBottomSheet.Drawer.BackdropTap | src/components/TinuBottomSheet.js:152-155 | during the grace period a tap does nothing; afterwards it closes with `onClose` |
| TinuBottomSheet.Drawer.ChipTap | src/components/TinuBottomSheet.js:242 | tapping a chip puts its label into the input |
| TinuBottomSheet.Drawer.TypeText | src/components/TinuBottomSheet.js:255 | the input holds the typed text |
| App.RenderedScreens | App.js:31-33 | each of the three screens is rendered exactly when `screen` names it |
| App.RenderedScreensAtMostOne | App.js:31-33 | at most one screen is rendered, and exactly one for 'home', 'didyouknow' and 'flashcard' |
| App.AppState.constructor | App.js:11-13 | the app starts on the home screen with the drawer closed and empty props |
| App.AppState.OpenTinu | App.js:15-18 | the drawer opens with the given props, `{}` without any; the screen is untouched |
| App.AppState.OpenFromMiniBar | App.js:38 | the mini-bar opens the drawer with a general context |
| App.AppState.CloseTinu | App.js:37 | the drawer's `onClose` hides it; props and screen are untouched |
| App.AppState.Go | App.js:20-22 | the screen becomes the selected one; the drawer is untouched |
| App.AppState.GoBack | App.js:24-26 | the screen becomes home; the drawer is untouched |
| Scenarios.FirstResponseShown | src/components/TinuBottomSheet.js:35-51 | a drawer mounted visible shows the response to its first request and stops loading |
| Scenarios.LateResponseDropped | src/components/TinuBottomSheet.js:41 | a response arriving after the drawer was hidden is dropped |
| Scenarios.OnlyCurrentContextShown | src/components/TinuBottomSheet.js:53-54 | after a context change, only the newer request's response is shown, even when the older one arrives last |
| Scenarios.KeyboardHalvesPanel | src/components/TinuBottomSheet.js:60-61 | a keyboard without coordinates halves the panel, a second notification changes nothing, and hiding restores it |
| Scenarios.SwipeDismiss | src/components/TinuBottomSheet.js:117-119 | a swipe past the threshold closes the drawer and calls `onClose` once, with the offset left where it was |
| Scenarios.ShortDragSpringsBack | src/components/TinuBottomSheet.js:120-125 | a short drag springs back without closing |
| Scenarios.GraceIgnoresBackdrop | src/components/TinuBottomSheet.js:153 | a backdrop tap just after opening does nothing |
| Scenarios.BackdropDismiss | App.js:37-38 | the drawer mounted hidden is opened by the mini-bar; after the grace period a backdrop tap closes it and calls `onClose` once, and the app then hides it |
| Scenarios.ResponseDuringUserCloseApplied | src/components/TinuBottomSheet.js:152-154 | a close the user started leaves `visible` unchanged, so a response arriving during the close animation is applied |
| Scenarios.HideAndReopenKeepsOffset | src/components/TinuBottomSheet.js:101-131 | when the parent hides the drawer and shows it again, the panel opens to offset 0 but is drawn lower by whatever drag offset it had |
| Scenarios.ReopenAfterSwipeKeepsOffset | src/components/TinuBottomSheet.js:117-131 | after a swipe of 150 dismisses the drawer and the parent hides and reopens it, the panel's animated offset is 0 but it is drawn 150 below it |
| Scenarios.DoubleBackdropTap | src/components/TinuBottomSheet.js:98 | two backdrop taps during one close call `onClose` twice, once per close started |
| Scenarios.BackdropCloseEnds | src/components/TinuBottomSheet.js:138-154 | after the grace period a backdrop tap closes the drawer, and `onClose` runs once when the close animation ends; the drawer is still shown |
| Scenarios.ParentHideCallsNothing | src/components/TinuBottomSheet.js:101-104 | after a backdrop close has called `onClose`, the app hides the drawer; that hide closes without a callback, so `onClose` has still run only once |

## Left out

- Rendering, layout and styles in every file. The model keeps only which screen is rendered, and whether the tap zones and the drawer's backdrop exist.
- Network I/O is not modelled: `postJson`, `fetchP13nAnswers` and the request timestamps. A fetch is a resolve or reject event carrying the response.
- Errors thrown inside a response handler are not modelled. An example is a `null` response.
- Animation timing is not modelled: durations, easing and spring physics, which are floating-point interpolation over time. An animation is its target values and an end event, and the spring back sets the drag offset to 0.
- The 600 ms grace delay is not modelled. The timer firing is an event.
- The keyboard, gesture and window APIs are left out, along with listener registration and removal and the platform-specific event names.
- The window height is a natural number.
- Drag offsets (`gestureState.dy`) are integers and keyboard heights (`endCoordinates.height`) natural numbers, where React Native reports floats. The only comparisons made with them are against 5, 0 and 100, and the panel height only tests whether the keyboard height is above 0, so fractional values would take the same branches.
- The progress bar's width and `Math.round(contentOffset.x / width)` are not modelled; both are float computations over native scroll offsets. The resulting page is an input to `ScrollEnded`.
- `JSON.stringify(chip)` is not computed. An object chip carries its serialisation as a field, known only to be text in braces.
- Only ASCII lower-casing is modelled, not Unicode `toLowerCase`.
- Card fields are modelled as strings or absent. A non-string `image_url` or label, and the TypeError `startsWith` would then throw, are not modelled.
- A `null` argument to `activateTinu` or `openTinu` is not modelled. Here it would throw or be stored; the model has only a missing argument or an object.
- Logging and the share, bookmark and send handlers are left out; they do not change state.
- The card screens' "Ask Tinu" buttons are left out. They call `activateTinu` and `openTinu` with a new props object each time, so the drawer sees replaced props.
- The gesture handlers are created once, on the first render, and keep that render's `onClose`. The model uses one `onClose` for the drawer's lifetime, which is what the app passes.
- TinuBottomSheet.Drawer.Rerender: object identity of the props is an input flag, not derived from the values.
- React's batching of state updates is not modelled. A re-render applies the new props and then runs the effects in declaration order.

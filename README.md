# Modal lifecycle of the to-do app's page script

A Dafny model of the overlay-panel controllers in `index.js`. It covers the `Modal` class, its
`Header` specialisation that drives the slide-down navigation, and the two pure rules of
`modalFactory`: no controller without a container, and a backdrop click closes the panel.

Each controller keeps a status record `{isOpen, isAnimated}`. `open` and `close` are guarded,
asynchronous transitions. Their bodies toggle class flags (`forward`, `active`, `body-fixed`) on a
few elements, attach or detach the shared `shadow` overlay under the body, and, for the header,
size the dropdown to the summed height of the navigation items. Setting `isOpen` goes through a
setter that calls one registered listener synchronously.

How the model is laid out:

- `dom.dfy` (module `Dom`): the document as a value. It holds each element's class list, each
  attached element's parent and the `style` attributes. It has the five DOM operations the
  controllers use: `classList.add`, `classList.remove`, `appendChild`, `removeChild` (which fails
  with `NotFoundError`) and `setAttribute('style', …)`. Elements are abstract ids.
- `lifecycle.dfy` (module `Lifecycle`): the state machine as functions on a snapshot `State`.
  The snapshot holds the status, the last trigger, the listener, the log of listener calls, the
  phase and the document. Every `async` body is cut at its `await`s:
  - `…Start` is what runs synchronously when the method is called.
  - `…AfterMin` is what runs after `sleep(MIN_TIME)`.
  - `OpenFinish` / `…CloseFinish` is what runs after the animation delay.

  A phase that raises (a missing `parentNode`, burger or dropdown, or a `removeChild` of a node
  that is not a child) rejects the promise and leaves the controller `Aborted`. In that state
  `isAnimated` is never cleared again. The `…Run` functions compose the phases of one whole
  transition.
- `controllers.dfy` (module `Controllers`): the objects.
  - `Page` holds the module-level `body`, the module-level `shadow` and the document.
  - `Modal` and `Header` have the source's fields. Each transition phase is a method, proved
    equal to its `Lifecycle` function applied to the state before. Each method also keeps the
    invariant `Valid()`, which ties `isAnimated` to the phase.
  - `Header.OpenStart` sums the item heights in a loop, `NavHeight`.
- `factory.dfy` (module `Factory`): `createModal` / `createHeader`, the trigger-click dispatch and
  the page-wide backdrop-click handler.
- `properties.dfy` (module `Properties`): what the lifecycle promises, as lemmas.
- `scenarios.dfy` (module `Scenarios`): client methods that run whole transitions on a small page.
  They check the intermediate and final states from the method contracts alone.

Source quirks the model keeps as they are written:

- `Header.open` sets `isOpen` before `isAnimated`, so its listener sees `isAnimated` false.
  `Modal.open` sets them the other way round.
- `Header.close` stores the controller itself in `isAnimated`. The model writes this as
  `AnimatedSelf`, a truthy value.
- `Header.close` resolves to `false` when refused. `Modal.close` resolves to the controller.
- `Header` ignores the trigger and never sets `lastEventTarget`. It uses `ANIMATION_TIME`, not
  its own `time`.
- `toggle` calls `open()` and `close()` with no argument. A toggled `Modal` therefore records
  `undefined` as its last trigger.
- `Modal.open` appends the module-level shadow, but `Modal.close` removes its own shadow.
  `Header.open` appends to its own body, but `Header.close` removes from the module-level body.
  When these differ, the close rejects (`ModalForeignShadowRejects`, `HeaderForeignBodyRejects`).
  The page script always passes the same two elements.

Three consequences of the code that are easy to miss:

- `Header.open` waits `MIN_TIME` before it sets the shadow `active` (index.js:103).
- `Header.open` does not record the trigger.
- `toggle` yields the opposite state only when the closing transition can remove the shadow.

## Model

| member | source | states |
|---|---|---|
| `Dom.AddClass` | index.js:47-48 | `classList.add` adds exactly the one class to exactly the one element; parents and styles untouched |
| `Dom.RemoveClass` | index.js:65-66 | `classList.remove` removes exactly the one class from exactly the one element; parents and styles untouched |
| `Dom.AppendChild` | index.js:49 | the appended node's parent becomes the body, it is among the body's children, no other node moves |
| `Dom.RemoveChild` | index.js:69 | succeeds exactly when the node is a child of the parent (else NotFoundError); then only that node is detached |
| `Dom.SetStyle` | index.js:101 | `setAttribute('style', …)` changes the style of that element only |
| `Dom.DetachUndoesAttach` | index.js:49-69 | removing a node just appended (and previously detached) gives back the document unchanged |
| `Dom.RemoveUndoesAdd` | index.js:51-66 | removing a class just added (and previously absent) gives back every class list |
| `Controllers.Page.constructor` | index.js:2-5 | the shared shadow is a freshly created element: detached, childless, without style, and its only class is `modal-shadow`; the rest of the document is unchanged |
| `Controllers.NavHeight` | index.js:98-100 | the `forEach` accumulation over the nav items yields `Sum` of their heights |
| `Controllers.Modal.constructor` | index.js:18-30 | a new modal is closed, not animating, has no last trigger, the no-op listener, an empty call log |
| `Controllers.Modal.SetIsOpen` | index.js:32-35 | the setter stores the flag and appends one listener call with the new value and the state it sees |
| `Controllers.Modal.RegisterListener` | index.js:37-39 | the listener slot is replaced; nothing else changes |
| `Controllers.Modal.OpenStart` | index.js:41-49 | the synchronous part of `open`: equals `ModalOpenStart` on the old state, and keeps `Valid` |
| `Controllers.Modal.OpenAfterMin` | index.js:50-52 | after the pre-delay: container's parent and own shadow get `active`, as `ModalOpenAfterMin` |
| `Controllers.Modal.OpenFinish` | index.js:53-56 | after the animation: `isAnimated` cleared, promise fulfilled with the controller |
| `Controllers.Modal.CloseStart` | index.js:59-66 | the synchronous part of `close`: equals `ModalCloseStart` on the old state, keeps `Valid` |
| `Controllers.Modal.CloseFinish` | index.js:67-73 | after the animation: equals `ModalCloseFinish`, including the NotFoundError of `removeChild` |
| `Controllers.Modal.Toggle` | index.js:76-79 | calls `close()` exactly when `isOpen` holds, otherwise `open()`, both without a trigger |
| `Controllers.Header.constructor` | index.js:83-87 | a new header is closed and settled over its container, body, shadow, dropdown and burger |
| `Controllers.Header.SetIsOpen` | index.js:32-35 | the inherited setter: flag stored, one listener call appended |
| `Controllers.Header.RegisterListener` | index.js:37-39 | the inherited listener slot is replaced |
| `Controllers.Header.OpenStart` | index.js:89-102 | the synchronous part of `Header.open`: equals `HeaderOpenStart`, height computed by `NavHeight` |
| `Controllers.Header.OpenAfterMin` | index.js:103-104 | after the pre-delay the shadow gets `active` and the wait is `ANIMATION_TIME` |
| `Controllers.Header.OpenFinish` | index.js:105-108 | after the animation `isAnimated` is cleared and the promise fulfils with the controller |
| `Controllers.Header.CloseStart` | index.js:111-119 | the synchronous part of `Header.close`: equals `HeaderCloseStart`, resolving to `false` when refused |
| `Controllers.Header.CloseFinish` | index.js:120-126 | removes the shadow from the module-level body (or rejects), then clears `forward`, `body-fixed`, `isAnimated` |
| `Controllers.Header.Toggle` | index.js:76-79 | the inherited `toggle` dispatching to the header's own `open` and `close` |
| `Factory.CreateModal` | index.js:152-159 | returns null exactly when the container is absent, otherwise a fresh closed, settled modal |
| `Factory.CreateHeader` | index.js:161-168 | returns null exactly when the container is absent, otherwise a fresh closed, settled header |
| `Factory.ModalTriggerClick` | index.js:133-141 | a click in group open/close/toggle calls `open(el)`, `close(el)` or `toggle()` |
| `Factory.HeaderTriggerClick` | index.js:133-141 | the same dispatch for the header, whose methods ignore the element |
| `Factory.ModalWindowClick` | index.js:143-148 | a click exactly on the container's parent or the shadow calls `close(window)`; any other click changes nothing |
| `Factory.HeaderWindowClick` | index.js:143-148 | the same backdrop rule for the header |
| `Properties.ModalOpenGuard` | index.js:42 | `open` leaves the state unchanged and resolves to the controller if and only if animating or open; otherwise one listener call |
| `Properties.ModalCloseGuard` | index.js:60 | `close` leaves the state unchanged and resolves to the controller if and only if animating or closed |
| `Properties.HeaderOpenGuard` | index.js:90 | the header's `open` refuses under the same condition |
| `Properties.HeaderCloseGuard` | index.js:112 | the header's `close` refuses under the same condition and then resolves to `false` |
| `Properties.ModalOpenTwice` | index.js:42-45 | a second `open` before the first completes changes nothing |
| `Properties.AbortedIsFinal` | index.js:42-72 | after a phase raised, `open`, `close` and `toggle` of both variants change nothing, ever |
| `Properties.ModalOpenStartEffects` | index.js:43-49 | by the first suspension: trigger recorded, both flags set, one listener call with `true` that saw the untouched document, `forward`, `body-fixed`, shadow attached, no `active` anywhere new; class lists only grow, and only by `forward` and `body-fixed`; nothing else changed |
| `Properties.ModalOpenCompletes` | index.js:41-57 | a completed open ends open and settled, with one listener call, `forward`/`active` on the parent, `active` on the shadow, `body-fixed`, shadow attached |
| `Properties.ModalCloseStartEffects` | index.js:61-66 | before the suspension: one listener call with `false`; shadow and parent lose exactly `active`, so the parent keeps `forward` until after the animation; no other class list, parent or style changed |
| `Properties.ModalCloseCompletes` | index.js:59-74 | a completed close ends closed and settled, flags removed, shadow detached, one listener call |
| `Properties.ModalCloseRejects` | index.js:69 | if the shadow is not the body's child at the end, `close` rejects with NotFoundError and stays animating |
| `Properties.ModalForeignShadowRejects` | index.js:49-69 | a modal built over another shadow than the module-level one cannot complete open-then-close |
| `Properties.ModalToggleInFlight` | index.js:76-79 | while animating, `toggle` changes nothing |
| `Properties.ModalToggleFlips` | index.js:76-79 | from a settled state, the transition `toggle` picks completes with `isOpen` flipped |
| `Properties.ModalOpenCloseRoundTrip` | index.js:41-74 | open then close restores every class list, parent and style and the status; the listener got `true` then `false` |
| `Properties.ModalDomRoundTrip` | index.js:47-70 | the document edits of open and close, in order, cancel out |
| `Properties.HeaderOpenStartEffects` | index.js:89-102 | header open: listener sees `isAnimated` false, flags on body, burger, dropdown, container, dropdown height is the sum, shadow attached, trigger not recorded; class lists only grow, and only by `forward`, `active`, `body-fixed`; no other element's classes, parent or style changed |
| `Properties.HeaderOpenMissingElement` | index.js:95-96 | without burger or dropdown the header's open raises TypeError and stays animating |
| `Properties.HeaderOpenCompletes` | index.js:89-109 | a completed header open ends open and settled with the dropdown sized to the sum of the item heights (never negative when no item is) and the shadow attached and `active` |
| `Properties.HeaderCloseStartEffects` | index.js:111-119 | header close stores the controller in `isAnimated`, calls the listener once, burger, dropdown and shadow lose exactly `active` and the dropdown style is emptied; keeps `lastEventTarget`; no other class list, parent or style changed |
| `Properties.HeaderCloseCompletes` | index.js:111-127 | a completed header close ends closed and settled, shadow detached, `forward` and `body-fixed` removed |
| `Properties.HeaderForeignBodyRejects` | index.js:102-121 | a header whose body differs from the module-level body cannot complete open-then-close |
| `Properties.HeaderToggleInFlight` | index.js:76-79 | while animating, the header's `toggle` changes nothing |
| `Properties.HeaderToggleFlips` | index.js:76-79 | from a settled state the header's toggled transition completes with `isOpen` flipped |
| `Properties.SumNonNegative` | index.js:99-101 | non-negative item heights give a non-negative dropdown height |
| `Properties.ModalBackdropClosesOnce` | index.js:143-147 | a click on the shadow or the container's parent of an open, settled modal closes it with exactly one listener call, `false`, trigger `window` |
| `Properties.ModalBackdropIdle` | index.js:143-147 | on a closed or animating modal any click leaves the state as it was |
| `Properties.HeaderBackdropClosesOnce` | index.js:143-147 | a backdrop click on an open, settled header closes it with one listener call, `isAnimated` holding the controller, last trigger kept |
| `Properties.HeaderBackdropIdle` | index.js:143-147 | on a closed or animating header any click leaves the state as it was |

## Left out

- Timers: `sleep` and `setTimeout` are not modelled. Each `await` is a phase boundary, and a
  method runs a phase when it is due. The duration only appears as data in the phase.
- Event-loop scheduling is not modelled, nor interleavings of several controllers that share the
  shadow. Every lemma is about one controller.
- DOM queries and layout are inputs: `querySelector`, `querySelectorAll` and `offsetHeight`.
  The nav item heights are a `seq<int>` given to `Header.OpenStart`.
- CreateModal / CreateHeader: `_subscribe` throws a TypeError when `triggerElements` is missing
  (the destructuring at index.js:132) or when a trigger group holds `null` (`addEventListener` at
  index.js:137). The page script builds such groups itself, e.g. from a `querySelector` that may
  find nothing (index.js:188). The model assumes the trigger groups are absent or hold only
  elements, and then returns a controller whenever the container exists.
- Wiring is not modelled: `addEventListener`, `preventDefault` and the iteration over the trigger
  groups in `_subscribe`. Only the handlers' effects are modelled, as `Factory.*Click` methods.
- The listener's own effects are not modelled. A call is only recorded, with what the listener
  could observe at that moment. The model assumes the listener returns normally and does not
  call back into the controller. A throwing listener would reject `open` or `close` right after
  index.js:45 or :63 with `isAnimated` already set, so the controller would be stuck. In
  `Header.open` it would leave `isOpen` true and `isAnimated` false with no classes set. A
  listener that calls `close()` from inside `Header.open` would be accepted, because the setter
  runs before `isAnimated` is set (index.js:91-92). `ModalOpenCompletes`, `HeaderOpenCompletes`,
  `ModalCloseCompletes`, `HeaderCloseCompletes`, the round-trip and the toggle lemmas hold only
  under this assumption.
- `appendChild` does not raise HierarchyRequestError in the model. When a controller's `body` and
  `shadow` are the module-level ones, as the page script passes them (index.js:177-178, 185),
  the error cannot arise: the module-level shadow starts as a fresh, childless element (`Page`
  constructor) and nothing is ever appended to it, so it cannot be an ancestor of the body. For
  other elements, for example a `Header` whose own shadow contains its body, or a `Modal` whose
  `body` is the module-level shadow, the error is simply not modelled. The model then makes the
  node its own ancestor where the browser would raise.
- A missing `body` or `shadow` element is not modelled. Both are always given.
- The page script at index.js:171-234 is not part of this model: which panels exist, copying the
  profile text, and the board listener.
- CSS behind the class names is not modelled.

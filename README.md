# bits-ui tooltip and switch state machines in Dafny

This project models the interaction layer of two widgets of the bits-ui
headless component library:

- **Tooltip.** Four objects cooperate. A **provider** holds settings shared by
  its tooltips, the `isOpenDelayed` and `isPointerInTransit` flags, and a
  skip-delay timer. A **root** is one tooltip. It owns `open`, resolves its
  five effective settings (its own value `??` the provider's) and runs an
  open-delay timer. A **trigger** turns pointer, focus, blur and click events
  into root transitions. A **content** closes the tooltip on a grace-area
  exit, on a scroll of an element containing the trigger, and on the
  "tooltip opened" signal.
- **Switch.** A root flips `checked` on a click or an Enter/Space key press
  unless it is disabled. A hidden input and a thumb project the root's fields.

Each component is written twice:

- `TooltipMachine` and `SwitchMachine` hold the state as values, with one
  function per handler and runs over sequences of events. The properties are
  proved about them in `TooltipProperties` and `SwitchMachine`.
- `TooltipState` and `SwitchState` hold classes with the source's mutable
  fields. Every handler is a method that updates the fields in place. Its
  postcondition says that the new state is the matching machine function
  applied to the old state. Frames (`modifies this`open` and so on) say that
  nothing else changes.

Timers are a `pending` flag plus an explicit firing method. The watcher on
`open` is `TooltipRoot.SetOpen`, called wherever `open` is assigned. Browser
facts are method parameters: the pointer type, whether the trigger matches
`:focus-visible`, and whether a scrolled element contains the trigger.

The model follows the code where it behaves differently from what a reader of a
tooltip might expect:

- `onTriggerEnter` only starts the open-delay timer. The provider's
  `isOpenDelayed` is written but never read, so a recently closed sibling does
  not make the next open instant (`EnterIgnoresSkipDelay`).
- The open-delay timer's length is the root's own `delayDuration`, read once
  at construction, not the effective one (`TooltipRoot.openTimerDelay`).
  Likewise the skip-delay timer's length is read once (`skipTimerDelay`).
- `blur` does nothing on a disabled trigger.
- With hoverable content disabled, no grace area is ever set up, so this
  tooltip never writes `isPointerInTransit` (`HoverableDisabledFreezesTransit`).

## Model

| member | source | states |
|---|---|---|
| TooltipMachine.Effective | packages/bits-ui/src/lib/bits/tooltip/tooltip.svelte.ts:92-105 | each effective setting is the root's value when present, else the provider's |
| TooltipMachine.StateAttrOf | packages/bits-ui/src/lib/bits/tooltip/tooltip.svelte.ts:112-115 | `closed` exactly when not open; `delayed-open` / `instant-open` exactly by whether the last open went through the timer |
| TooltipMachine.OnOpen | packages/bits-ui/src/lib/bits/tooltip/tooltip.svelte.ts:59-62 | after onOpen, opens are not delayed and the skip timer is stopped; the transit flag is kept |
| TooltipMachine.OnClose | packages/bits-ui/src/lib/bits/tooltip/tooltip.svelte.ts:64-66 | after onClose the skip timer is running and nothing else changed |
| TooltipMachine.FireSkipTimer | packages/bits-ui/src/lib/bits/tooltip/tooltip.svelte.ts:42-48 | the skip timer stops; opens are delayed afterwards exactly when they were or the timer was running |
| TooltipMachine.SetOpen | packages/bits-ui/src/lib/bits/tooltip/tooltip.svelte.ts:134-143 | a change of `open` to true notifies onOpen, to false onClose; assigning the same value notifies nobody |
| TooltipMachine.HandleOpen | packages/bits-ui/src/lib/bits/tooltip/tooltip.svelte.ts:146-150 | ends open, timer stopped, tag `instant-open`; the provider is told only if the tooltip was closed |
| TooltipMachine.HandleClose | packages/bits-ui/src/lib/bits/tooltip/tooltip.svelte.ts:152-155 | ends closed with the timer stopped whatever the state; the provider is told only if it was open |
| TooltipMachine.OnTriggerEnter | packages/bits-ui/src/lib/bits/tooltip/tooltip.svelte.ts:157-163 | only starts the open-delay timer: `open` and the provider are unchanged |
| TooltipMachine.OnTriggerLeave | packages/bits-ui/src/lib/bits/tooltip/tooltip.svelte.ts:165-171 | with hoverable content disabled it is handleClose; otherwise it only stops the timer |
| TooltipMachine.FireOpenTimer | packages/bits-ui/src/lib/bits/tooltip/tooltip.svelte.ts:125-132 | a running timer firing leaves the tooltip open as `delayed-open` and, if it was closed, notifies the provider's onOpen; on an open tooltip the provider is untouched; a stopped timer changes nothing |
| TooltipMachine.PointerDown | packages/bits-ui/src/lib/bits/tooltip/tooltip.svelte.ts:212-222 | the tooltip is untouched; the pointer-down latch is set on an enabled trigger and kept otherwise |
| TooltipMachine.PointerUp | packages/bits-ui/src/lib/bits/tooltip/tooltip.svelte.ts:207-210 | the tooltip is untouched; the latch is cleared unless the trigger is disabled |
| TooltipMachine.DocumentPointerUp | packages/bits-ui/src/lib/bits/tooltip/tooltip.svelte.ts:203-205 | the document listener clears the latch whatever the settings, and nothing else |
| TooltipMachine.PointerMove | packages/bits-ui/src/lib/bits/tooltip/tooltip.svelte.ts:224-230 | a pointermove changes state exactly when enabled, not touch, not latched and not in transit; then it starts the open timer and sets the move latch; it never opens by itself |
| TooltipMachine.PointerLeave | packages/bits-ui/src/lib/bits/tooltip/tooltip.svelte.ts:232-236 | a disabled trigger changes nothing; otherwise the tooltip is exactly onTriggerLeave of the old (closed with onClose when hoverable content is disabled, else only the timer stopped and the provider untouched), and the move latch is cleared |
| TooltipMachine.Focus | packages/bits-ui/src/lib/bits/tooltip/tooltip.svelte.ts:238-251 | focus acts exactly when no pointer is down, the trigger is enabled and the focus is keyboard-visible or not ignored; then it is handleOpen (`instant-open`), else nothing changes |
| TooltipMachine.Blur | packages/bits-ui/src/lib/bits/tooltip/tooltip.svelte.ts:253-256 | blur on an enabled trigger is exactly handleClose (closed, timer stopped, onClose if it was open); a disabled trigger changes nothing; the latches are kept |
| TooltipMachine.Click | packages/bits-ui/src/lib/bits/tooltip/tooltip.svelte.ts:258-261 | after click the tooltip is open iff it was and closing on click is disabled or the trigger is disabled; in those cases nothing changes, otherwise the tooltip is exactly handleClose, which also cancels a pending delayed open |
| TooltipMachine.GraceAreaExit | packages/bits-ui/src/lib/bits/tooltip/tooltip.svelte.ts:304-306 | with a grace area, an exit is exactly handleClose: closed, open timer stopped, onClose notified; without one it changes nothing |
| TooltipMachine.GraceAreaTransit | packages/bits-ui/src/lib/bits/tooltip/tooltip.svelte.ts:298-303 | the provider's transit flag follows the report while a grace area exists and keeps its value otherwise; nothing else changes |
| TooltipMachine.Scroll | packages/bits-ui/src/lib/bits/tooltip/tooltip.svelte.ts:309-316 | a scroll of an element containing the trigger is exactly handleClose (closed, timer stopped, onClose if it was open); any other scroll changes nothing |
| TooltipMachine.ContentStep | packages/bits-ui/src/lib/bits/tooltip/tooltip.svelte.ts:295-319 | no content event opens the tooltip; a transit report never changes the root |
| TooltipProperties.PresentFalseOverrideWins | packages/bits-ui/src/lib/bits/tooltip/tooltip.svelte.ts:92-105 | a present `false` setting on the root beats a provider `true` |
| TooltipProperties.HandleCloseIdempotent | packages/bits-ui/src/lib/bits/tooltip/tooltip.svelte.ts:152-155 | closing twice equals closing once |
| TooltipProperties.EnterThenFireOpensDelayed | packages/bits-ui/src/lib/bits/tooltip/tooltip.svelte.ts:125-163 | enter never opens by itself; enter followed by the timer firing opens as `delayed-open` |
| TooltipProperties.EnterIgnoresSkipDelay | packages/bits-ui/src/lib/bits/tooltip/tooltip.svelte.ts:157-163 | the delay path takes the same root states whether or not the provider delays opens |
| TooltipProperties.CloseThenSkipTimerRestoresDelay | packages/bits-ui/src/lib/bits/tooltip/tooltip.svelte.ts:42-66 | closing an open tooltip starts the skip timer, and its firing makes opens delayed again |
| TooltipProperties.ReopenCancelsSkipTimer | packages/bits-ui/src/lib/bits/tooltip/tooltip.svelte.ts:59-62 | opening before the skip timer fires stops it, so it can no longer re-delay opens |
| TooltipProperties.DisabledTriggerIsInert | packages/bits-ui/src/lib/bits/tooltip/tooltip.svelte.ts:203-261 | on a disabled trigger every event changes nothing; only the document pointerup listener clears `isPointerDown` |
| TooltipProperties.PointerDownBlocksFocus | packages/bits-ui/src/lib/bits/tooltip/tooltip.svelte.ts:203-251 | after a pointerdown on an enabled trigger the latch is set, the tooltip untouched and a focus changes nothing; the trigger's pointerup or the document listener clears it, and a counting focus opens again |
| TooltipProperties.ContentCloses | packages/bits-ui/src/lib/bits/tooltip/tooltip.svelte.ts:295-319 | the open signal, a scroll of an element containing the trigger, and a grace-area exit close; other scrolls change nothing |
| TooltipProperties.GraceAreaOnlyWhileOpenAndHoverable | packages/bits-ui/src/lib/bits/tooltip/tooltip.svelte.ts:295-307 | when closed or not hoverable, grace-area exits and transit reports change nothing |
| TooltipProperties.StepKeepsOpenInvariant | packages/bits-ui/src/lib/bits/tooltip/tooltip.svelte.ts:134-143 | every event keeps "open implies the provider does not delay opens and its skip timer is stopped" |
| TooltipProperties.RunKeepsOpenInvariant | packages/bits-ui/src/lib/bits/tooltip/tooltip.svelte.ts:134-143 | the same invariant holds after any run of events |
| TooltipProperties.OnlyOpenersOpen | packages/bits-ui/src/lib/bits/tooltip/tooltip.svelte.ts:146-163 | a closed tooltip is opened only by focus, the open timer firing, or an outside `open := true` |
| TooltipProperties.ClosedStaysClosedWithoutOpeners | packages/bits-ui/src/lib/bits/tooltip/tooltip.svelte.ts:146-171 | any run of enters, leaves and other events with none of those keeps a closed tooltip closed |
| TooltipProperties.AtMostOneArmingMoveUntilLeave | packages/bits-ui/src/lib/bits/tooltip/tooltip.svelte.ts:224-236 | between pointerleaves at most one pointermove calls onTriggerEnter, none once latched |
| TooltipProperties.HoverableDisabledFreezesTransit | packages/bits-ui/src/lib/bits/tooltip/tooltip.svelte.ts:295-307 | with hoverable content disabled no run changes `isPointerInTransit` |
| TooltipProperties.DisabledTriggerRunIsInert | packages/bits-ui/src/lib/bits/tooltip/tooltip.svelte.ts:193-261 | no run of trigger events on a disabled trigger changes the tooltip or its provider |
| TooltipState.TooltipProvider.constructor | packages/bits-ui/src/lib/bits/tooltip/tooltip.svelte.ts:35-49 | starts with opens delayed, no transit, skip timer stopped; the timer length is skipDelayDuration as read now |
| TooltipState.TooltipProvider.OnOpen | packages/bits-ui/src/lib/bits/tooltip/tooltip.svelte.ts:59-62 | new flags are TooltipMachine.OnOpen of the old |
| TooltipState.TooltipProvider.OnClose | packages/bits-ui/src/lib/bits/tooltip/tooltip.svelte.ts:64-66 | new flags are TooltipMachine.OnClose of the old |
| TooltipState.TooltipProvider.FireSkipTimer | packages/bits-ui/src/lib/bits/tooltip/tooltip.svelte.ts:42-48 | new flags are TooltipMachine.FireSkipTimer of the old |
| TooltipState.TooltipRoot.constructor | packages/bits-ui/src/lib/bits/tooltip/tooltip.svelte.ts:117-133 | keeps the given provider, `open` and settings; the open timer length is the root's own delayDuration as read now |
| TooltipState.TooltipRoot.StateAttr | packages/bits-ui/src/lib/bits/tooltip/tooltip.svelte.ts:112-115 | the tag's name is `closed`, `delayed-open` or `instant-open` by `open` and `wasOpenDelayed` |
| TooltipState.TooltipRoot.SetOpen | packages/bits-ui/src/lib/bits/tooltip/tooltip.svelte.ts:134-143 | new tooltip state is TooltipMachine.SetOpen of the old |
| TooltipState.TooltipRoot.HandleOpen | packages/bits-ui/src/lib/bits/tooltip/tooltip.svelte.ts:146-150 | new state is TooltipMachine.HandleOpen of the old |
| TooltipState.TooltipRoot.HandleClose | packages/bits-ui/src/lib/bits/tooltip/tooltip.svelte.ts:152-155 | new state is TooltipMachine.HandleClose of the old |
| TooltipState.TooltipRoot.OnTriggerEnter | packages/bits-ui/src/lib/bits/tooltip/tooltip.svelte.ts:157-163 | new state is TooltipMachine.OnTriggerEnter of the old |
| TooltipState.TooltipRoot.OnTriggerLeave | packages/bits-ui/src/lib/bits/tooltip/tooltip.svelte.ts:165-171 | new state is TooltipMachine.OnTriggerLeave of the old, under the effective settings |
| TooltipState.TooltipRoot.FireOpenTimer | packages/bits-ui/src/lib/bits/tooltip/tooltip.svelte.ts:125-132 | new state is TooltipMachine.FireOpenTimer of the old |
| TooltipState.TooltipTrigger.constructor | packages/bits-ui/src/lib/bits/tooltip/tooltip.svelte.ts:195-201 | latches start clear; the trigger keeps its root, id and own `disabled` |
| TooltipState.TooltipTrigger.IsDisabled | packages/bits-ui/src/lib/bits/tooltip/tooltip.svelte.ts:193 | disabled iff the trigger's own flag or the root's effective `disabled` |
| TooltipState.TooltipTrigger.HandlePointerUp | packages/bits-ui/src/lib/bits/tooltip/tooltip.svelte.ts:203-205 | clears `isPointerDown` only |
| TooltipState.TooltipTrigger.OnPointerUp | packages/bits-ui/src/lib/bits/tooltip/tooltip.svelte.ts:207-210 | new state is TooltipMachine.PointerUp of the old |
| TooltipState.TooltipTrigger.OnPointerDown | packages/bits-ui/src/lib/bits/tooltip/tooltip.svelte.ts:212-222 | new state is TooltipMachine.PointerDown of the old |
| TooltipState.TooltipTrigger.OnPointerMove | packages/bits-ui/src/lib/bits/tooltip/tooltip.svelte.ts:224-230 | new state is TooltipMachine.PointerMove of the old |
| TooltipState.TooltipTrigger.OnPointerLeave | packages/bits-ui/src/lib/bits/tooltip/tooltip.svelte.ts:232-236 | new state is TooltipMachine.PointerLeave of the old |
| TooltipState.TooltipTrigger.OnFocus | packages/bits-ui/src/lib/bits/tooltip/tooltip.svelte.ts:238-251 | new state is TooltipMachine.Focus of the old |
| TooltipState.TooltipTrigger.OnBlur | packages/bits-ui/src/lib/bits/tooltip/tooltip.svelte.ts:253-256 | new state is TooltipMachine.Blur of the old |
| TooltipState.TooltipTrigger.OnClick | packages/bits-ui/src/lib/bits/tooltip/tooltip.svelte.ts:258-261 | new state is TooltipMachine.Click of the old |
| TooltipState.TooltipTrigger.Props | packages/bits-ui/src/lib/bits/tooltip/tooltip.svelte.ts:263-277 | `aria-describedby` only while open; no `tabindex` exactly when disabled, else 0; `data-state` is the root's tag |
| TooltipState.TooltipContent.constructor | packages/bits-ui/src/lib/bits/tooltip/tooltip.svelte.ts:288-293 | the root learns the content's id |
| TooltipState.TooltipContent.GraceAreaActive | packages/bits-ui/src/lib/bits/tooltip/tooltip.svelte.ts:295-297 | a grace area exists iff open and hoverable content is enabled |
| TooltipState.TooltipContent.OnPointerExit | packages/bits-ui/src/lib/bits/tooltip/tooltip.svelte.ts:304-306 | new state is TooltipMachine.GraceAreaExit of the old |
| TooltipState.TooltipContent.OnPointerTransit | packages/bits-ui/src/lib/bits/tooltip/tooltip.svelte.ts:298-303 | new state is TooltipMachine.GraceAreaTransit of the old |
| TooltipState.TooltipContent.OnScroll | packages/bits-ui/src/lib/bits/tooltip/tooltip.svelte.ts:309-316 | new state is TooltipMachine.Scroll of the old |
| TooltipState.TooltipContent.OnTooltipOpened | packages/bits-ui/src/lib/bits/tooltip/tooltip.svelte.ts:318 | new state is TooltipMachine.HandleClose of the old |
| TooltipState.TooltipContent.Props | packages/bits-ui/src/lib/bits/tooltip/tooltip.svelte.ts:322-327 | `data-state` is the root's tag and `data-disabled` the root's effective `disabled` |
| TooltipState.TriggerAndContentAgree | packages/bits-ui/src/lib/bits/tooltip/tooltip.svelte.ts:263-327 | the trigger and the content of one tooltip show the same `data-state` |
| SwitchMachine.Toggle | packages/bits-ui/src/lib/bits/switch/switch.svelte.ts:57-59 | toggling flips `checked` and touches nothing else |
| SwitchMachine.ToggleInvolution | packages/bits-ui/src/lib/bits/switch/switch.svelte.ts:57-59 | toggling twice restores the switch |
| SwitchMachine.Click | packages/bits-ui/src/lib/bits/switch/switch.svelte.ts:67-70 | a click flips `checked` iff the switch is enabled, and changes nothing else |
| SwitchMachine.Keydown | packages/bits-ui/src/lib/bits/switch/switch.svelte.ts:61-65 | a key press flips `checked` iff the key is Enter or Space and the switch is enabled, and changes nothing else |
| SwitchMachine.RunParity | packages/bits-ui/src/lib/bits/switch/switch.svelte.ts:57-70 | after any run an enabled switch is flipped iff it saw an odd number of activations; other fields never change |
| SwitchState.SwitchRoot.constructor | packages/bits-ui/src/lib/bits/switch/switch.svelte.ts:47-55 | the root holds the given checked, disabled, required, name and value |
| SwitchState.SwitchRoot.Toggle | packages/bits-ui/src/lib/bits/switch/switch.svelte.ts:57-59 | new state is SwitchMachine.Toggle of the old |
| SwitchState.SwitchRoot.OnClick | packages/bits-ui/src/lib/bits/switch/switch.svelte.ts:67-70 | new state is SwitchMachine.Click of the old |
| SwitchState.SwitchRoot.OnKeydown | packages/bits-ui/src/lib/bits/switch/switch.svelte.ts:61-65 | new state is SwitchMachine.Keydown of the old; the default is prevented exactly when it toggles |
| SwitchState.SwitchRoot.Props | packages/bits-ui/src/lib/bits/switch/switch.svelte.ts:33-45 | always `role="switch"`, `type="button"`, `data-switch-root`; the flags mirror checked, disabled, required |
| SwitchState.SwitchInput.constructor | packages/bits-ui/src/lib/bits/switch/switch.svelte.ts:93-95 | the input is bound to its root |
| SwitchState.SwitchInput.Props | packages/bits-ui/src/lib/bits/switch/switch.svelte.ts:83-90 | a checkbox mirroring the root's name, value, checked, disabled and required |
| SwitchState.SwitchInput.ShouldRender | packages/bits-ui/src/lib/bits/switch/switch.svelte.ts:91 | rendered iff the switch has a name |
| SwitchState.SwitchThumb.constructor | packages/bits-ui/src/lib/bits/switch/switch.svelte.ts:107-109 | the thumb is bound to its root |
| SwitchState.SwitchThumb.Props | packages/bits-ui/src/lib/bits/switch/switch.svelte.ts:100-105 | the thumb shows the same state, disabled and required flags as the root button |

## Left out

- Milliseconds: timers are a running flag and a firing method. The lengths they were created with are kept (`openTimerDelay`, `skipTimerDelay`) but time is not.
- Numbers are JavaScript floating point in the source and `int` here. An absent root `delayDuration` gives the open timer an absent length; what the timer utility does with that is not part of this model.
- The `document.dispatchEvent` of the "tooltip opened" event when a tooltip opens is not modelled. Only the receiving side is (`TooltipContent.OnTooltipOpened`). The event is dispatched on `document` but listened for on `window`, and whether it arrives is browser behaviour.
- The one-shot `document` `pointerup` listener is not registered by `OnPointerDown`; its callback is `TooltipTrigger.HandlePointerUp`, which may be called at any time.
- Svelte scheduling: the watcher on `open` and the effects run synchronously in the model. Coalescing of several assignments within one tick, and a run of the watcher at mount, are not modelled. The watcher's `provider.onClose` existence guard always passes, since it is a method.
- DOM facts are parameters: node lookup by id, `Node.contains`, `isElementOrSVGElement` and `:focus-visible`. `TooltipRoot.contentNodeId` stands for the id of the mounted content node.
- The root's `triggerId` is not kept: only the grace area reads it (through `useGraceArea`), and the grace-area geometry is not part of this model.
- The grace-area geometry is left out. Only its outputs are modelled: an exit report and an in-transit flag. While a grace area exists, the provider's `isPointerInTransit` follows its reports. Otherwise the flag keeps its last value. In the source each new grace area replaces the provider's `isPointerInTransit` box with its own, carrying the grace-area helper's starting value (that helper is not part of this model); the model keeps the one flag, so a value from before a close survives into the next open.
- Setting changes over time: the settings are fields the model never writes, and the runs in `TooltipMachine` use fixed settings.
- Several tooltips under one provider share one `TooltipProvider` object, which the classes allow. `OpenInvariant` is stated for a provider with a single tooltip.
- The "tooltip opened" listener is registered as the unbound method `this.root.handleClose`. Unless `useEventListener` (not part of this model) rebinds it, it runs with `window`, the object listened on, as its receiver, so its read of the root's private timer field throws and the event closes nothing. The model instead has it run with the root as its receiver (`TooltipContent.OnTooltipOpened` is `HandleClose`), which is what the listener evidently intends.
- Unmounting and the cancelling of timers and listeners it implies are not modelled.
- Context plumbing (`createContext`, `setContext`/`getContext`, `createRoot`, `createTrigger`, `createContent`, the `use*`/`get*` exports): parents are passed to constructors.
- `composeHandlers` and the owner's own `onclick`/`onkeydown` handlers, including their order relative to the toggle.
- The `attrs` helpers (`getDataDisabled`, `getDataChecked`, `getAriaChecked`, …): props carry the boolean each helper receives. The `kbd` helper: `"Enter"` and `" "` are the key values used.
- Event handler references inside the props objects are not modelled; they are the classes' methods.

/** What the tooltip's handlers promise, alone and over whole runs of events. */
module TooltipProperties {
  import opened Wrappers
  import opened TooltipMachine

  // ---------------------------------------------------------------------------
  // Settings
  // ---------------------------------------------------------------------------

  /** A root that sets a flag to `false` gets `false`, whatever the provider
      says: only an absent setting falls back. */
  lemma PresentFalseOverrideWins(p: ProviderConfig, o: Overrides)
    requires o.disabled == Some(false) && o.disableHoverableContent == Some(false)
    requires o.disableCloseOnTriggerClick == Some(false) && o.ignoreNonKeyboardFocus == Some(false)
    ensures var s := Effective(p, o);
      !s.disabled && !s.disableHoverableContent && !s.disableCloseOnTriggerClick && !s.ignoreNonKeyboardFocus
  {
  }

  // ---------------------------------------------------------------------------
  // Root
  // ---------------------------------------------------------------------------

  /** Closing twice is closing once. */
  lemma HandleCloseIdempotent(t: Tooltip)
    ensures HandleClose(HandleClose(t)) == HandleClose(t)
  {
  }

  /** Entering and then letting the open-delay timer fire opens the tooltip as
      `delayed-open`, whatever the state before. */
  lemma EnterThenFireOpensDelayed(t: Tooltip)
    ensures !OnTriggerEnter(t).root.open || t.root.open
    ensures FireOpenTimer(OnTriggerEnter(t)).root.open
    ensures StateAttrOf(FireOpenTimer(OnTriggerEnter(t)).root) == DelayedOpen
  {
  }

  /** The delay path does not depend on the provider's `isOpenDelayed`: two
      tooltips in the same root state, one under a provider that just showed a
      tooltip and one under a provider that did not, go through the same root
      states on enter and on the timer firing. Nothing shortens the delay. */
  lemma EnterIgnoresSkipDelay(p1: ProviderFlags, p2: ProviderFlags, r: RootFlags)
    requires p1.isOpenDelayed && !p2.isOpenDelayed
    ensures OnTriggerEnter(Tooltip(p1, r)).root == OnTriggerEnter(Tooltip(p2, r)).root
    ensures !OnTriggerEnter(Tooltip(p2, r)).root.open || r.open
    ensures FireOpenTimer(OnTriggerEnter(Tooltip(p1, r))).root
         == FireOpenTimer(OnTriggerEnter(Tooltip(p2, r))).root
  {
  }

  /** Closing a tooltip that is open starts the skip-delay timer, and when it
      fires later opens count as delayed again. */
  lemma CloseThenSkipTimerRestoresDelay(t: Tooltip)
    requires t.root.open
    ensures HandleClose(t).provider.skipTimerPending
    ensures FireSkipTimer(HandleClose(t).provider).isOpenDelayed
  {
  }

  /** Opening again before the skip-delay timer fires cancels it, so it can no
      longer make opens delayed. */
  lemma ReopenCancelsSkipTimer(t: Tooltip)
    requires !t.root.open
    ensures var o := HandleOpen(t);
      !o.provider.isOpenDelayed && FireSkipTimer(o.provider) == o.provider
  {
  }

  // ---------------------------------------------------------------------------
  // Trigger
  // ---------------------------------------------------------------------------

  /** A disabled trigger ignores every event on it; only the document's
      one-shot `pointerup` listener still clears `isPointerDown`. */
  lemma DisabledTriggerIsInert(c: TriggerConfig, x: Interaction, e: TriggerEvent)
    requires IsDisabled(c)
    ensures e != DocumentPointerUpEvent ==> TriggerStep(c, x, e) == x
    ensures e == DocumentPointerUpEvent ==> TriggerStep(c, x, e).tooltip == x.tooltip
  {
  }

  /** The pointer-down latch: a `pointerdown` on an enabled trigger sets it
      without touching the tooltip, a `focus` while it is set does nothing,
      and the trigger's `pointerup` or the document's one-shot listener clear
      it, after which a counting focus opens again. */
  lemma PointerDownBlocksFocus(c: TriggerConfig, x: Interaction, focusVisible: bool)
    requires !IsDisabled(c)
    ensures var y := PointerDown(c, x);
      && y.trigger.isPointerDown
      && y.tooltip == x.tooltip
      && Focus(c, y, focusVisible) == y
      && !PointerUp(c, y).trigger.isPointerDown
      && !DocumentPointerUp(y).trigger.isPointerDown
    ensures var z := PointerUp(c, PointerDown(c, x));
      (focusVisible || !c.root.ignoreNonKeyboardFocus) ==> Focus(c, z, focusVisible).tooltip.root.open
  {
  }

  // ---------------------------------------------------------------------------
  // Content
  // ---------------------------------------------------------------------------

  /** The content closes its tooltip when another tooltip announces it opened,
      when a scrolled element contains the trigger, and when the pointer leaves
      the grace area; a scroll elsewhere changes nothing. */
  lemma ContentCloses(s: Settings, t: Tooltip)
    ensures !ContentStep(s, t, TooltipOpened).root.open
    ensures !ContentStep(s, t, WindowScroll(true)).root.open
    ensures ContentStep(s, t, WindowScroll(false)) == t
    ensures t.root.open && !s.disableHoverableContent ==> !ContentStep(s, t, GraceExit).root.open
  {
  }

  /** The grace area exists only while the tooltip is open with hoverable
      content: otherwise its exit and its transit reports change nothing. */
  lemma GraceAreaOnlyWhileOpenAndHoverable(s: Settings, t: Tooltip, b: bool)
    requires !t.root.open || s.disableHoverableContent
    ensures ContentStep(s, t, GraceExit) == t
    ensures ContentStep(s, t, GraceTransit(b)) == t
  {
  }

  // ---------------------------------------------------------------------------
  // Runs of events
  // ---------------------------------------------------------------------------

  /** While the tooltip is open its provider does not delay opens and its
      skip-delay timer is not running (for a provider with this one tooltip). */
  ghost predicate OpenInvariant(t: Tooltip) {
    t.root.open ==> !t.provider.isOpenDelayed && !t.provider.skipTimerPending
  }

  lemma StepKeepsOpenInvariant(c: TriggerConfig, x: Interaction, e: Event)
    requires OpenInvariant(x.tooltip)
    ensures OpenInvariant(Step(c, x, e).tooltip)
  {
  }

  /** The invariant holds at the start of a closed tooltip and after any run. */
  lemma {:induction false} RunKeepsOpenInvariant(c: TriggerConfig, x: Interaction, es: seq<Event>)
    requires OpenInvariant(x.tooltip)
    ensures OpenInvariant(Run(c, x, es).tooltip)
    decreases |es|
  {
    if es != [] {
      StepKeepsOpenInvariant(c, x, es[0]);
      RunKeepsOpenInvariant(c, Step(c, x, es[0]), es[1..]);
    }
  }

  /** The only events that open a closed tooltip: a focus, the open-delay
      timer firing, and the owner assigning `open := true`. */
  predicate Opens(e: Event) {
    || (e.OnTrigger? && e.te.FocusEvent?)
    || e.OpenTimerFires?
    || e == OpenAssigned(true)
  }

  lemma OnlyOpenersOpen(c: TriggerConfig, x: Interaction, e: Event)
    requires !x.tooltip.root.open && !Opens(e)
    ensures !Step(c, x, e).tooltip.root.open
  {
  }

  /** A closed tooltip stays closed through any run of enters, leaves, moves,
      clicks, scrolls and the rest, as long as no focus, no firing of the
      open-delay timer and no outside `open := true` happens. */
  lemma {:induction false} ClosedStaysClosedWithoutOpeners(c: TriggerConfig, x: Interaction, es: seq<Event>)
    requires !x.tooltip.root.open
    requires forall i :: 0 <= i < |es| ==> !Opens(es[i])
    ensures !Run(c, x, es).tooltip.root.open
    decreases |es|
  {
    if es != [] {
      OnlyOpenersOpen(c, x, es[0]);
      ClosedStaysClosedWithoutOpeners(c, Step(c, x, es[0]), es[1..]);
    }
  }

  predicate IsPointerLeave(e: Event) {
    e.OnTrigger? && e.te.PointerLeaveEvent?
  }

  /** Once a move has started the open delay, every later move is ignored
      until the next `pointerleave`: between two leaves at most one
      `pointermove` calls `onTriggerEnter`, and none when the latch is set. */
  lemma {:induction false} AtMostOneArmingMoveUntilLeave(c: TriggerConfig, x: Interaction, es: seq<Event>)
    requires forall i :: 0 <= i < |es| ==> !IsPointerLeave(es[i])
    ensures ArmingMoves(c, x, es) <= if x.trigger.hasPointerMoveOpened then 0 else 1
    decreases |es|
  {
    if es != [] {
      var y := Step(c, x, es[0]);
      assert ArmsByMove(c, x, es[0]) ==> y.trigger.hasPointerMoveOpened;
      assert x.trigger.hasPointerMoveOpened ==> y.trigger.hasPointerMoveOpened;
      AtMostOneArmingMoveUntilLeave(c, y, es[1..]);
    }
  }

  /** With hoverable content disabled there is never a grace area, so the
      provider's `isPointerInTransit` is never written by this tooltip. */
  lemma {:induction false} HoverableDisabledFreezesTransit(c: TriggerConfig, x: Interaction, es: seq<Event>)
    requires c.root.disableHoverableContent
    ensures Run(c, x, es).tooltip.provider.isPointerInTransit == x.tooltip.provider.isPointerInTransit
    decreases |es|
  {
    if es != [] {
      HoverableDisabledFreezesTransit(c, Step(c, x, es[0]), es[1..]);
    }
  }

  predicate IsTriggerEvent(e: Event) {
    e.OnTrigger?
  }

  /** Through any run of events on a disabled trigger, the tooltip and its
      provider are untouched. */
  lemma {:induction false} DisabledTriggerRunIsInert(c: TriggerConfig, x: Interaction, es: seq<Event>)
    requires IsDisabled(c)
    requires forall i :: 0 <= i < |es| ==> IsTriggerEvent(es[i])
    ensures Run(c, x, es).tooltip == x.tooltip
    decreases |es|
  {
    if es != [] {
      DisabledTriggerIsInert(c, x, es[0].te);
      DisabledTriggerRunIsInert(c, Step(c, x, es[0]), es[1..]);
    }
  }
}

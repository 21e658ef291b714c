/** The tooltip's interaction logic as values: the mutable flags of the provider,
    the root and the trigger, one function per handler giving the flags after it,
    and whole runs of events. The classes in TooltipState are proved to follow
    these functions; the properties of the tooltip are proved about them here
    and in TooltipProperties. */
module TooltipMachine {
  import opened Wrappers

  // ---------------------------------------------------------------------------
  // Configuration
  // ---------------------------------------------------------------------------

  /** The six read-only settings a provider is created with. */
  datatype ProviderConfig = ProviderConfig(
    delayDuration: int,
    disableHoverableContent: bool,
    disableCloseOnTriggerClick: bool,
    disabled: bool,
    ignoreNonKeyboardFocus: bool,
    skipDelayDuration: int)

  /** A root's own settings; `None` is a setting the root leaves unset. */
  datatype Overrides = Overrides(
    delayDuration: Option<int>,
    disableHoverableContent: Option<bool>,
    disableCloseOnTriggerClick: Option<bool>,
    disabled: Option<bool>,
    ignoreNonKeyboardFocus: Option<bool>)

  /** The five settings a root actually uses. */
  datatype Settings = Settings(
    delayDuration: int,
    disableHoverableContent: bool,
    disableCloseOnTriggerClick: bool,
    disabled: bool,
    ignoreNonKeyboardFocus: bool)

  /** Each effective setting is the root's own value when it has one, and the
      provider's otherwise; a root that sets `false` keeps `false` even when
      the provider says `true`. */
  function Effective(p: ProviderConfig, o: Overrides): (s: Settings)
    ensures o.delayDuration.Some? ==> s.delayDuration == o.delayDuration.value
    ensures o.delayDuration.None? ==> s.delayDuration == p.delayDuration
    ensures o.disableHoverableContent.Some? ==> s.disableHoverableContent == o.disableHoverableContent.value
    ensures o.disableHoverableContent.None? ==> s.disableHoverableContent == p.disableHoverableContent
    ensures o.disableCloseOnTriggerClick.Some? ==> s.disableCloseOnTriggerClick == o.disableCloseOnTriggerClick.value
    ensures o.disableCloseOnTriggerClick.None? ==> s.disableCloseOnTriggerClick == p.disableCloseOnTriggerClick
    ensures o.disabled.Some? ==> s.disabled == o.disabled.value
    ensures o.disabled.None? ==> s.disabled == p.disabled
    ensures o.ignoreNonKeyboardFocus.Some? ==> s.ignoreNonKeyboardFocus == o.ignoreNonKeyboardFocus.value
    ensures o.ignoreNonKeyboardFocus.None? ==> s.ignoreNonKeyboardFocus == p.ignoreNonKeyboardFocus
  {
    Settings(
      o.delayDuration.Coalesce(p.delayDuration),
      o.disableHoverableContent.Coalesce(p.disableHoverableContent),
      o.disableCloseOnTriggerClick.Coalesce(p.disableCloseOnTriggerClick),
      o.disabled.Coalesce(p.disabled),
      o.ignoreNonKeyboardFocus.Coalesce(p.ignoreNonKeyboardFocus))
  }

  /** What a trigger's handlers consult: its root's effective settings and the
      trigger's own `disabled`. */
  datatype TriggerConfig = TriggerConfig(root: Settings, ownDisabled: bool)

  /** A trigger is disabled when it is disabled itself or its root is. */
  predicate IsDisabled(c: TriggerConfig) {
    c.ownDisabled || c.root.disabled
  }

  // ---------------------------------------------------------------------------
  // Mutable state
  // ---------------------------------------------------------------------------

  /** The provider's flags; `skipTimerPending` is its skip-delay timer. */
  datatype ProviderFlags = ProviderFlags(isOpenDelayed: bool, isPointerInTransit: bool, skipTimerPending: bool)

  /** The root's flags; `openTimerPending` is its open-delay timer. */
  datatype RootFlags = RootFlags(open: bool, wasOpenDelayed: bool, openTimerPending: bool)

  /** One tooltip together with the provider it shares with its siblings. */
  datatype Tooltip = Tooltip(provider: ProviderFlags, root: RootFlags)

  /** The trigger's two latches. */
  datatype TriggerFlags = TriggerFlags(isPointerDown: bool, hasPointerMoveOpened: bool)

  /** Everything a trigger's handlers can change. */
  datatype Interaction = Interaction(tooltip: Tooltip, trigger: TriggerFlags)

  /** The `data-state` tag a tooltip shows. */
  datatype StateAttr = Closed | DelayedOpen | InstantOpen
  {
    function Name(): (s: string) {
      match this
      case Closed => "closed"
      case DelayedOpen => "delayed-open"
      case InstantOpen => "instant-open"
    }
  }

  /** The tag is `closed` exactly when the tooltip is closed; once open, it
      tells whether the last open went through the open-delay timer. */
  function StateAttrOf(r: RootFlags): (a: StateAttr)
    ensures a == Closed <==> !r.open
    ensures a == DelayedOpen <==> r.open && r.wasOpenDelayed
    ensures a == InstantOpen <==> r.open && !r.wasOpenDelayed
  {
    if !r.open then Closed
    else if r.wasOpenDelayed then DelayedOpen
    else InstantOpen
  }

  // ---------------------------------------------------------------------------
  // Provider
  // ---------------------------------------------------------------------------

  /** A tooltip of this provider opened: the skip-delay timer is cancelled and
      opens stop being "delayed". */
  function OnOpen(p: ProviderFlags): (r: ProviderFlags)
    ensures !r.isOpenDelayed && !r.skipTimerPending
    ensures r.isPointerInTransit == p.isPointerInTransit
  {
    p.(isOpenDelayed := false, skipTimerPending := false)
  }

  /** A tooltip of this provider closed: the skip-delay timer is (re)started;
      nothing else changes until it fires. */
  function OnClose(p: ProviderFlags): (r: ProviderFlags)
    ensures r.skipTimerPending
    ensures r.isOpenDelayed == p.isOpenDelayed && r.isPointerInTransit == p.isPointerInTransit
  {
    p.(skipTimerPending := true)
  }

  /** The skip-delay timer fires, if it is running: opens are "delayed" again. */
  function FireSkipTimer(p: ProviderFlags): (r: ProviderFlags)
    ensures !r.skipTimerPending
    ensures r.isOpenDelayed == (p.isOpenDelayed || p.skipTimerPending)
    ensures r.isPointerInTransit == p.isPointerInTransit
  {
    if p.skipTimerPending then p.(isOpenDelayed := true, skipTimerPending := false) else p
  }

  // ---------------------------------------------------------------------------
  // Root
  // ---------------------------------------------------------------------------

  /** An assignment to `open` together with the watcher on it: a change to
      true tells the provider `onOpen`, a change to false `onClose`, and an
      assignment of the value already there notifies nobody. */
  function SetOpen(t: Tooltip, v: bool): (r: Tooltip)
    ensures r.root == t.root.(open := v)
    ensures !t.root.open && v ==> r.provider == OnOpen(t.provider)
    ensures t.root.open && !v ==> r.provider == OnClose(t.provider)
    ensures t.root.open == v ==> r == t
  {
    if t.root.open == v then t
    else Tooltip(if v then OnOpen(t.provider) else OnClose(t.provider), t.root.(open := v))
  }

  /** Opens at once: cancels the open-delay timer and shows `instant-open`. */
  function HandleOpen(t: Tooltip): (r: Tooltip)
    ensures r.root.open && !r.root.openTimerPending
    ensures StateAttrOf(r.root) == InstantOpen
    ensures !t.root.open ==> r.provider == OnOpen(t.provider)
    ensures t.root.open ==> r.provider == t.provider
  {
    SetOpen(t.(root := t.root.(openTimerPending := false, wasOpenDelayed := false)), true)
  }

  /** Closes whatever the state: the tooltip ends closed with no open pending. */
  function HandleClose(t: Tooltip): (r: Tooltip)
    ensures !r.root.open && !r.root.openTimerPending
    ensures r.root.wasOpenDelayed == t.root.wasOpenDelayed
    ensures t.root.open ==> r.provider == OnClose(t.provider)
    ensures !t.root.open ==> r.provider == t.provider
  {
    SetOpen(t.(root := t.root.(openTimerPending := false)), false)
  }

  /** The pointer entered the trigger: only the open-delay timer is started
      (restarted if it was running); the tooltip itself is unchanged, and the
      provider's `isOpenDelayed` is not consulted. */
  function OnTriggerEnter(t: Tooltip): (r: Tooltip)
    ensures r.root.openTimerPending
    ensures r.root.open == t.root.open && r.root.wasOpenDelayed == t.root.wasOpenDelayed
    ensures r.provider == t.provider
  {
    t.(root := t.root.(openTimerPending := true))
  }

  /** The pointer left the trigger: closes when hoverable content is disabled;
      otherwise only cancels a pending open and leaves closing to the content. */
  function OnTriggerLeave(s: Settings, t: Tooltip): (r: Tooltip)
    ensures s.disableHoverableContent ==> r == HandleClose(t)
    ensures !s.disableHoverableContent ==> r == t.(root := t.root.(openTimerPending := false))
    ensures !r.root.openTimerPending
  {
    if s.disableHoverableContent then HandleClose(t)
    else t.(root := t.root.(openTimerPending := false))
  }

  /** The open-delay timer fires, if it is running: the tooltip opens as
      `delayed-open`. */
  function FireOpenTimer(t: Tooltip): (r: Tooltip)
    ensures !r.root.openTimerPending
    ensures t.root.openTimerPending ==> r.root.open && StateAttrOf(r.root) == DelayedOpen
    ensures t.root.openTimerPending && !t.root.open ==> r.provider == OnOpen(t.provider)
    ensures t.root.open ==> r.provider == t.provider
    ensures !t.root.openTimerPending ==> r == t
  {
    if !t.root.openTimerPending then t
    else SetOpen(t.(root := t.root.(openTimerPending := false, wasOpenDelayed := true)), true)
  }

  // ---------------------------------------------------------------------------
  // Trigger
  // ---------------------------------------------------------------------------

  /** `pointerdown` on the trigger: latches that a pointer is down. */
  function PointerDown(c: TriggerConfig, x: Interaction): (r: Interaction)
    ensures r.tooltip == x.tooltip
    ensures r.trigger.hasPointerMoveOpened == x.trigger.hasPointerMoveOpened
    ensures r.trigger.isPointerDown <==> x.trigger.isPointerDown || !IsDisabled(c)
  {
    if IsDisabled(c) then x else x.(trigger := x.trigger.(isPointerDown := true))
  }

  /** `pointerup` on the trigger: clears the latch. */
  function PointerUp(c: TriggerConfig, x: Interaction): (r: Interaction)
    ensures r.tooltip == x.tooltip
    ensures r.trigger.hasPointerMoveOpened == x.trigger.hasPointerMoveOpened
    ensures r.trigger.isPointerDown <==> x.trigger.isPointerDown && IsDisabled(c)
  {
    if IsDisabled(c) then x else x.(trigger := x.trigger.(isPointerDown := false))
  }

  /** The one-shot `pointerup` listener a `pointerdown` leaves on the document:
      clears the latch, disabled or not. */
  function DocumentPointerUp(x: Interaction): (r: Interaction)
    ensures r.tooltip == x.tooltip && !r.trigger.isPointerDown
    ensures r.trigger.hasPointerMoveOpened == x.trigger.hasPointerMoveOpened
  {
    x.(trigger := x.trigger.(isPointerDown := false))
  }

  /** Whether a `pointermove` of this pointer type starts the open delay. */
  predicate MoveArms(c: TriggerConfig, x: Interaction, pointerType: string) {
    && !IsDisabled(c)
    && pointerType != "touch"
    && !x.trigger.hasPointerMoveOpened
    && !x.tooltip.provider.isPointerInTransit
  }

  /** `pointermove` on the trigger: the first non-touch move while the pointer
      is not in transit calls `onTriggerEnter` and latches, later moves do
      nothing until `pointerleave`. */
  function PointerMove(c: TriggerConfig, x: Interaction, pointerType: string): (r: Interaction)
    ensures r == x <==> !MoveArms(c, x, pointerType)
    ensures MoveArms(c, x, pointerType) <==>
      !IsDisabled(c) && pointerType != "touch"
      && !x.trigger.hasPointerMoveOpened && !x.tooltip.provider.isPointerInTransit
    ensures MoveArms(c, x, pointerType) ==>
      r.tooltip == OnTriggerEnter(x.tooltip) && r.trigger.hasPointerMoveOpened
    ensures r.tooltip.root.open == x.tooltip.root.open
    ensures r.trigger.isPointerDown == x.trigger.isPointerDown
  {
    if MoveArms(c, x, pointerType) then
      Interaction(OnTriggerEnter(x.tooltip), x.trigger.(hasPointerMoveOpened := true))
    else x
  }

  /** `pointerleave` on the trigger: calls `onTriggerLeave` and clears the
      move latch. */
  function PointerLeave(c: TriggerConfig, x: Interaction): (r: Interaction)
    ensures IsDisabled(c) ==> r == x
    ensures !IsDisabled(c) ==>
      && !r.trigger.hasPointerMoveOpened
      && !r.tooltip.root.openTimerPending
      && (r.tooltip.root.open <==> x.tooltip.root.open && !c.root.disableHoverableContent)
    ensures !IsDisabled(c) ==> r.tooltip == OnTriggerLeave(c.root, x.tooltip)
    ensures r.trigger.isPointerDown == x.trigger.isPointerDown
  {
    if IsDisabled(c) then x
    else Interaction(OnTriggerLeave(c.root, x.tooltip), x.trigger.(hasPointerMoveOpened := false))
  }

  /** Whether a `focus` on the trigger opens the tooltip. */
  predicate FocusOpens(c: TriggerConfig, x: Interaction, focusVisible: bool) {
    && !x.trigger.isPointerDown
    && !IsDisabled(c)
    && !(c.root.ignoreNonKeyboardFocus && !focusVisible)
  }

  /** `focus` on the trigger: opens at once unless a pointer is down, the
      trigger is disabled, or only keyboard focus counts and this focus is not
      `:focus-visible`. */
  function Focus(c: TriggerConfig, x: Interaction, focusVisible: bool): (r: Interaction)
    ensures FocusOpens(c, x, focusVisible) <==>
      !x.trigger.isPointerDown && !IsDisabled(c) && (focusVisible || !c.root.ignoreNonKeyboardFocus)
    ensures !FocusOpens(c, x, focusVisible) ==> r == x
    ensures FocusOpens(c, x, focusVisible) ==> r == x.(tooltip := HandleOpen(x.tooltip))
    ensures r.tooltip.root.open <==> x.tooltip.root.open || FocusOpens(c, x, focusVisible)
    ensures FocusOpens(c, x, focusVisible) ==> StateAttrOf(r.tooltip.root) == InstantOpen
  {
    if FocusOpens(c, x, focusVisible) then x.(tooltip := HandleOpen(x.tooltip)) else x
  }

  /** `blur` on the trigger: closes unless the trigger is disabled. */
  function Blur(c: TriggerConfig, x: Interaction): (r: Interaction)
    ensures IsDisabled(c) ==> r == x
    ensures !IsDisabled(c) ==> !r.tooltip.root.open && !r.tooltip.root.openTimerPending
    ensures !IsDisabled(c) ==> r.tooltip == HandleClose(x.tooltip)
    ensures r.trigger == x.trigger
  {
    if IsDisabled(c) then x else x.(tooltip := HandleClose(x.tooltip))
  }

  /** `click` on the trigger: closes unless closing on click is disabled or
      the trigger is disabled. */
  function Click(c: TriggerConfig, x: Interaction): (r: Interaction)
    ensures r.tooltip.root.open
        <==> x.tooltip.root.open && (c.root.disableCloseOnTriggerClick || IsDisabled(c))
    ensures c.root.disableCloseOnTriggerClick || IsDisabled(c) ==> r == x
    ensures !(c.root.disableCloseOnTriggerClick || IsDisabled(c)) ==> r.tooltip == HandleClose(x.tooltip)
    ensures r.trigger == x.trigger
  {
    if c.root.disableCloseOnTriggerClick || IsDisabled(c) then x
    else x.(tooltip := HandleClose(x.tooltip))
  }

  // ---------------------------------------------------------------------------
  // Content
  // ---------------------------------------------------------------------------

  /** The content keeps a grace area exactly while the tooltip is open and its
      content is hoverable. */
  predicate GraceAreaActive(s: Settings, t: Tooltip) {
    t.root.open && !s.disableHoverableContent
  }

  /** The pointer left the grace area: the content closes the tooltip. With no
      grace area there is nobody to report an exit. */
  function GraceAreaExit(s: Settings, t: Tooltip): (r: Tooltip)
    ensures GraceAreaActive(s, t) ==> !r.root.open && r.provider == OnClose(t.provider)
    ensures GraceAreaActive(s, t) ==> r == HandleClose(t)
    ensures !GraceAreaActive(s, t) ==> r == t
  {
    if GraceAreaActive(s, t) then HandleClose(t) else t
  }

  /** The grace area reports whether the pointer is in transit; the provider's
      flag follows it while the grace area exists. */
  function GraceAreaTransit(s: Settings, t: Tooltip, inTransit: bool): (r: Tooltip)
    ensures r.root == t.root
    ensures r.provider.isPointerInTransit == if GraceAreaActive(s, t) then inTransit else t.provider.isPointerInTransit
    ensures r.provider.isOpenDelayed == t.provider.isOpenDelayed
    ensures r.provider.skipTimerPending == t.provider.skipTimerPending
  {
    if GraceAreaActive(s, t) then t.(provider := t.provider.(isPointerInTransit := inTransit)) else t
  }

  /** A window scroll closes the tooltip when the scrolled element contains
      the trigger. */
  function Scroll(t: Tooltip, targetContainsTrigger: bool): (r: Tooltip)
    ensures targetContainsTrigger ==> !r.root.open && !r.root.openTimerPending
    ensures targetContainsTrigger ==> r == HandleClose(t)
    ensures !targetContainsTrigger ==> r == t
  {
    if targetContainsTrigger then HandleClose(t) else t
  }

  // ---------------------------------------------------------------------------
  // Runs of events
  // ---------------------------------------------------------------------------

  datatype TriggerEvent =
    | PointerDownEvent
    | PointerUpEvent
    | DocumentPointerUpEvent
    | PointerMoveEvent(pointerType: string)
    | PointerLeaveEvent
    | FocusEvent(focusVisible: bool)
    | BlurEvent
    | ClickEvent

  datatype ContentEvent =
    | GraceExit
    | GraceTransit(inTransit: bool)
    | WindowScroll(targetContainsTrigger: bool)
    | TooltipOpened

  /** Everything that can happen to one tooltip: an event on its trigger or
      its content, one of its two timers firing, or the owner of the `open`
      value assigning it. */
  datatype Event =
    | OnTrigger(te: TriggerEvent)
    | OnContent(ce: ContentEvent)
    | OpenTimerFires
    | SkipTimerFires
    | OpenAssigned(v: bool)

  /** Only the handlers that call into the root can change the tooltip. */
  function TriggerStep(c: TriggerConfig, x: Interaction, e: TriggerEvent): (r: Interaction)
    ensures e.PointerDownEvent? || e.PointerUpEvent? || e.DocumentPointerUpEvent? ==> r.tooltip == x.tooltip
  {
    match e
    case PointerDownEvent => PointerDown(c, x)
    case PointerUpEvent => PointerUp(c, x)
    case DocumentPointerUpEvent => DocumentPointerUp(x)
    case PointerMoveEvent(k) => PointerMove(c, x, k)
    case PointerLeaveEvent => PointerLeave(c, x)
    case FocusEvent(v) => Focus(c, x, v)
    case BlurEvent => Blur(c, x)
    case ClickEvent => Click(c, x)
  }

  /** Apart from transit reports, every content event either closes the
      tooltip or changes nothing. */
  function ContentStep(s: Settings, t: Tooltip, e: ContentEvent): (r: Tooltip)
    ensures !e.GraceTransit? ==> !r.root.open || r == t
    ensures e.GraceTransit? ==> r.root == t.root
  {
    match e
    case GraceExit => GraceAreaExit(s, t)
    case GraceTransit(b) => GraceAreaTransit(s, t, b)
    case WindowScroll(b) => Scroll(t, b)
    case TooltipOpened => HandleClose(t)
  }

  /** Only events on the trigger touch the trigger's latches. */
  function Step(c: TriggerConfig, x: Interaction, e: Event): (r: Interaction)
    ensures !e.OnTrigger? ==> r.trigger == x.trigger
  {
    match e
    case OnTrigger(te) => TriggerStep(c, x, te)
    case OnContent(ce) => x.(tooltip := ContentStep(c.root, x.tooltip, ce))
    case OpenTimerFires => x.(tooltip := FireOpenTimer(x.tooltip))
    case SkipTimerFires => x.(tooltip := x.tooltip.(provider := FireSkipTimer(x.tooltip.provider)))
    case OpenAssigned(v) => x.(tooltip := SetOpen(x.tooltip, v))
  }

  /** The state after the events, in order. */
  function Run(c: TriggerConfig, x: Interaction, es: seq<Event>): (r: Interaction)
    decreases |es|
  {
    if es == [] then x else Run(c, Step(c, x, es[0]), es[1..])
  }

  /** Whether this event is a `pointermove` that starts the open delay. */
  predicate ArmsByMove(c: TriggerConfig, x: Interaction, e: Event) {
    e.OnTrigger? && e.te.PointerMoveEvent? && MoveArms(c, x, e.te.pointerType)
  }

  /** How many events of the run are `pointermove`s that call `onTriggerEnter`. */
  function ArmingMoves(c: TriggerConfig, x: Interaction, es: seq<Event>): (n: nat)
    decreases |es|
  {
    if es == [] then 0
    else (if ArmsByMove(c, x, es[0]) then 1 else 0) + ArmingMoves(c, Step(c, x, es[0]), es[1..])
  }
}

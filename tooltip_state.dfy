/** The tooltip's four cooperating state objects. Each handler updates the
    fields in place, and its postcondition pins the new state to the matching
    function of TooltipMachine applied to the old state. */
module TooltipState {
  import opened Wrappers
  import M = TooltipMachine

  /** Policy shared by every tooltip under one provider. */
  class TooltipProvider {
    // Read-only settings, owned by whoever renders the provider.
    var delayDuration: int
    var disableHoverableContent: bool
    var disableCloseOnTriggerClick: bool
    var disabled: bool
    var ignoreNonKeyboardFocus: bool
    var skipDelayDuration: int

    var isOpenDelayed: bool
    var isPointerInTransit: bool
    /** The skip-delay timer: running or not. */
    var skipTimerPending: bool
    /** The skip-delay timer's length, read once when the provider is made. */
    const skipTimerDelay: int

    constructor (config: M.ProviderConfig)
      ensures Config() == config
      ensures isOpenDelayed && !isPointerInTransit && !skipTimerPending
      ensures skipTimerDelay == config.skipDelayDuration
    {
      delayDuration := config.delayDuration;
      disableHoverableContent := config.disableHoverableContent;
      disableCloseOnTriggerClick := config.disableCloseOnTriggerClick;
      disabled := config.disabled;
      ignoreNonKeyboardFocus := config.ignoreNonKeyboardFocus;
      skipDelayDuration := config.skipDelayDuration;
      isOpenDelayed := true;
      isPointerInTransit := false;
      skipTimerPending := false;
      skipTimerDelay := config.skipDelayDuration;
    }

    function Config(): M.ProviderConfig
      reads this
    {
      M.ProviderConfig(delayDuration, disableHoverableContent, disableCloseOnTriggerClick,
                       disabled, ignoreNonKeyboardFocus, skipDelayDuration)
    }

    function Flags(): M.ProviderFlags
      reads this
    {
      M.ProviderFlags(isOpenDelayed, isPointerInTransit, skipTimerPending)
    }

    method OnOpen()
      modifies this`isOpenDelayed, this`skipTimerPending
      ensures Flags() == M.OnOpen(old(Flags()))
    {
      skipTimerPending := false;
      isOpenDelayed := false;
    }

    method OnClose()
      modifies this`skipTimerPending
      ensures Flags() == M.OnClose(old(Flags()))
    {
      skipTimerPending := true;
    }

    /** The skip-delay timer's callback, run when it expires. */
    method FireSkipTimer()
      modifies this`isOpenDelayed, this`skipTimerPending
      ensures Flags() == M.FireSkipTimer(old(Flags()))
    {
      if skipTimerPending {
        skipTimerPending := false;
        isOpenDelayed := true;
      }
    }
  }

  /** One tooltip: its open state, its own settings and its open-delay timer. */
  class TooltipRoot {
    const provider: TooltipProvider
    /** Writable by the tooltip's owner as well (a two-way binding). */
    var open: bool
    // Read-only settings of this tooltip; `None` falls back to the provider.
    var delayDurationOverride: Option<int>
    var disableHoverableContentOverride: Option<bool>
    var disableCloseOnTriggerClickOverride: Option<bool>
    var disabledOverride: Option<bool>
    var ignoreNonKeyboardFocusOverride: Option<bool>
    /** The id of the mounted content node, filled in by the content when it
        is made; the trigger's `aria-describedby` points at it. */
    var contentNodeId: Option<string>
    var wasOpenDelayed: bool
    /** The open-delay timer: running or not. */
    var openTimerPending: bool
    /** The open-delay timer's length: this tooltip's own `delayDuration`, read
        once when the root is made, not the effective one. */
    const openTimerDelay: Option<int>

    constructor (provider: TooltipProvider, open: bool, overrides: M.Overrides)
      ensures this.provider == provider && this.open == open
      ensures Overrides() == overrides
      ensures openTimerDelay == overrides.delayDuration
      ensures !wasOpenDelayed && !openTimerPending
      ensures contentNodeId == None
    {
      this.provider := provider;
      this.open := open;
      delayDurationOverride := overrides.delayDuration;
      disableHoverableContentOverride := overrides.disableHoverableContent;
      disableCloseOnTriggerClickOverride := overrides.disableCloseOnTriggerClick;
      disabledOverride := overrides.disabled;
      ignoreNonKeyboardFocusOverride := overrides.ignoreNonKeyboardFocus;
      contentNodeId := None;
      wasOpenDelayed := false;
      openTimerPending := false;
      openTimerDelay := overrides.delayDuration;
    }

    function Overrides(): M.Overrides
      reads this
    {
      M.Overrides(delayDurationOverride, disableHoverableContentOverride,
                  disableCloseOnTriggerClickOverride, disabledOverride, ignoreNonKeyboardFocusOverride)
    }

    /** The effective settings, recomputed from the current values on every read. */
    function Settings(): M.Settings
      reads this, provider
    {
      M.Effective(provider.Config(), Overrides())
    }

    function Flags(): M.RootFlags
      reads this
    {
      M.RootFlags(open, wasOpenDelayed, openTimerPending)
    }

    function View(): M.Tooltip
      reads this, provider
    {
      M.Tooltip(provider.Flags(), Flags())
    }

    /** The `data-state` tag the trigger and the content show. */
    function StateAttr(): (a: M.StateAttr)
      reads this
      ensures a.Name() == "closed" <==> !open
      ensures open ==> (a.Name() == "delayed-open" <==> wasOpenDelayed)
      ensures open ==> (a.Name() == "instant-open" <==> !wasOpenDelayed)
    {
      M.StateAttrOf(Flags())
    }

    /** Assigns `open` and runs the watcher on it. */
    method SetOpen(v: bool)
      modifies this`open, provider`isOpenDelayed, provider`skipTimerPending
      ensures View() == M.SetOpen(old(View()), v)
    {
      if open != v {
        open := v;
        if v {
          provider.OnOpen();
        } else {
          provider.OnClose();
        }
      }
    }

    method HandleOpen()
      modifies this`open, this`wasOpenDelayed, this`openTimerPending
      modifies provider`isOpenDelayed, provider`skipTimerPending
      ensures View() == M.HandleOpen(old(View()))
    {
      openTimerPending := false;
      wasOpenDelayed := false;
      SetOpen(true);
    }

    method HandleClose()
      modifies this`open, this`openTimerPending
      modifies provider`isOpenDelayed, provider`skipTimerPending
      ensures View() == M.HandleClose(old(View()))
    {
      openTimerPending := false;
      SetOpen(false);
    }

    method OnTriggerEnter()
      modifies this`openTimerPending
      ensures View() == M.OnTriggerEnter(old(View()))
    {
      openTimerPending := true;
    }

    method OnTriggerLeave()
      modifies this`open, this`openTimerPending
      modifies provider`isOpenDelayed, provider`skipTimerPending
      ensures View() == M.OnTriggerLeave(old(Settings()), old(View()))
    {
      if Settings().disableHoverableContent {
        HandleClose();
      } else {
        openTimerPending := false;
      }
    }

    /** The open-delay timer's callback, run when it expires. */
    method FireOpenTimer()
      modifies this`open, this`wasOpenDelayed, this`openTimerPending
      modifies provider`isOpenDelayed, provider`skipTimerPending
      ensures View() == M.FireOpenTimer(old(View()))
    {
      if openTimerPending {
        openTimerPending := false;
        wasOpenDelayed := true;
        SetOpen(true);
      }
    }
  }

  /** The attributes the trigger element carries (its handlers are the methods
      of TooltipTrigger). `dataDisabled` is the flag handed to the
      `data-disabled` helper. */
  datatype TriggerProps = TriggerProps(
    id: string,
    ariaDescribedBy: Option<string>,
    dataState: string,
    dataDisabled: bool,
    dataTooltipTrigger: string,
    tabIndex: Option<int>)

  /** The element that opens the tooltip. */
  class TooltipTrigger {
    const root: TooltipRoot
    const id: string
    /** The trigger's own read-only `disabled`. */
    var disabled: bool
    var isPointerDown: bool
    var hasPointerMoveOpened: bool

    constructor (root: TooltipRoot, id: string, disabled: bool)
      ensures this.root == root && this.id == id && this.disabled == disabled
      ensures !isPointerDown && !hasPointerMoveOpened
    {
      this.root := root;
      this.id := id;
      this.disabled := disabled;
      isPointerDown := false;
      hasPointerMoveOpened := false;
    }

    function Config(): M.TriggerConfig
      reads this, root, root.provider
    {
      M.TriggerConfig(root.Settings(), disabled)
    }

    /** Disabled when the trigger itself or its tooltip is. */
    function IsDisabled(): (b: bool)
      reads this, root, root.provider
      ensures b <==> disabled || root.Settings().disabled
    {
      M.IsDisabled(Config())
    }

    function View(): M.Interaction
      reads this, root, root.provider
    {
      M.Interaction(root.View(), M.TriggerFlags(isPointerDown, hasPointerMoveOpened))
    }

    /** The target of the document's one-shot `pointerup` listener. */
    method HandlePointerUp()
      modifies this`isPointerDown
      ensures View() == M.DocumentPointerUp(old(View()))
    {
      isPointerDown := false;
    }

    method OnPointerUp()
      modifies this`isPointerDown
      ensures View() == M.PointerUp(old(Config()), old(View()))
    {
      if IsDisabled() { return; }
      isPointerDown := false;
    }

    method OnPointerDown()
      modifies this`isPointerDown
      ensures View() == M.PointerDown(old(Config()), old(View()))
    {
      if IsDisabled() { return; }
      isPointerDown := true;
    }

    method OnPointerMove(pointerType: string)
      modifies this`hasPointerMoveOpened, root`openTimerPending
      ensures View() == M.PointerMove(old(Config()), old(View()), pointerType)
    {
      if IsDisabled() { return; }
      if pointerType == "touch" { return; }
      if hasPointerMoveOpened || root.provider.isPointerInTransit { return; }
      root.OnTriggerEnter();
      hasPointerMoveOpened := true;
    }

    method OnPointerLeave()
      modifies this`hasPointerMoveOpened, root`open, root`openTimerPending
      modifies root.provider`isOpenDelayed, root.provider`skipTimerPending
      ensures View() == M.PointerLeave(old(Config()), old(View()))
    {
      if IsDisabled() { return; }
      root.OnTriggerLeave();
      hasPointerMoveOpened := false;
    }

    /** `focusVisible` says whether the trigger now matches `:focus-visible`. */
    method OnFocus(focusVisible: bool)
      modifies root`open, root`wasOpenDelayed, root`openTimerPending
      modifies root.provider`isOpenDelayed, root.provider`skipTimerPending
      ensures View() == M.Focus(old(Config()), old(View()), focusVisible)
    {
      if isPointerDown || IsDisabled() { return; }
      if root.Settings().ignoreNonKeyboardFocus && !focusVisible { return; }
      root.HandleOpen();
    }

    method OnBlur()
      modifies root`open, root`openTimerPending
      modifies root.provider`isOpenDelayed, root.provider`skipTimerPending
      ensures View() == M.Blur(old(Config()), old(View()))
    {
      if IsDisabled() { return; }
      root.HandleClose();
    }

    method OnClick()
      modifies root`open, root`openTimerPending
      modifies root.provider`isOpenDelayed, root.provider`skipTimerPending
      ensures View() == M.Click(old(Config()), old(View()))
    {
      if root.Settings().disableCloseOnTriggerClick || IsDisabled() { return; }
      root.HandleClose();
    }

    /** `aria-describedby` names the content only while open, the element is
        focusable exactly when enabled, and `data-state` is the tooltip's tag. */
    function Props(): (p: TriggerProps)
      reads this, root, root.provider
      ensures p.id == id && p.dataTooltipTrigger == ""
      ensures p.ariaDescribedBy.Some? ==> root.open
      ensures root.open ==> p.ariaDescribedBy == root.contentNodeId
      ensures p.tabIndex.None? <==> IsDisabled()
      ensures p.tabIndex.Some? ==> p.tabIndex.value == 0
      ensures p.dataState == root.StateAttr().Name()
      ensures p.dataDisabled == IsDisabled()
    {
      TriggerProps(
        id,
        if root.open then root.contentNodeId else None,
        root.StateAttr().Name(),
        IsDisabled(),
        "",
        if IsDisabled() then None else Some(0))
    }
  }

  /** The attributes the content element carries. */
  datatype ContentProps = ContentProps(
    id: string,
    dataState: string,
    dataDisabled: bool,
    dataTooltipContent: string)

  /** The floating content. */
  class TooltipContent {
    const root: TooltipRoot
    const id: string

    constructor (root: TooltipRoot, id: string)
      modifies root`contentNodeId
      ensures this.root == root && this.id == id
      ensures root.contentNodeId == Some(id)
    {
      this.root := root;
      this.id := id;
      root.contentNodeId := Some(id);
    }

    /** The grace area exists while the tooltip is open with hoverable content. */
    function GraceAreaActive(): (b: bool)
      reads root, root.provider
      ensures b <==> root.open && !root.Settings().disableHoverableContent
    {
      M.GraceAreaActive(root.Settings(), root.View())
    }

    /** The grace area's exit callback. */
    method OnPointerExit()
      modifies root`open, root`openTimerPending
      modifies root.provider`isOpenDelayed, root.provider`skipTimerPending
      ensures root.View() == M.GraceAreaExit(old(root.Settings()), old(root.View()))
    {
      if GraceAreaActive() {
        root.HandleClose();
      }
    }

    /** The grace area's in-transit flag changed; the provider follows it. */
    method OnPointerTransit(inTransit: bool)
      modifies root.provider`isPointerInTransit
      ensures root.View() == M.GraceAreaTransit(old(root.Settings()), old(root.View()), inTransit)
    {
      if GraceAreaActive() {
        root.provider.isPointerInTransit := inTransit;
      }
    }

    /** A window `scroll` whose target does (or does not) contain the trigger. */
    method OnScroll(targetContainsTrigger: bool)
      modifies root`open, root`openTimerPending
      modifies root.provider`isOpenDelayed, root.provider`skipTimerPending
      ensures root.View() == M.Scroll(old(root.View()), targetContainsTrigger)
    {
      if targetContainsTrigger {
        root.HandleClose();
      }
    }

    /** Another tooltip announced that it opened. */
    method OnTooltipOpened()
      modifies root`open, root`openTimerPending
      modifies root.provider`isOpenDelayed, root.provider`skipTimerPending
      ensures root.View() == M.HandleClose(old(root.View()))
    {
      root.HandleClose();
    }

    function Props(): (p: ContentProps)
      reads this, root, root.provider
      ensures p.id == id && p.dataTooltipContent == ""
      ensures p.dataState == root.StateAttr().Name()
      ensures p.dataDisabled == root.Settings().disabled
    {
      ContentProps(id, root.StateAttr().Name(), root.Settings().disabled, "")
    }
  }

  /** The trigger and the content of one tooltip always show the same
      `data-state`. */
  lemma TriggerAndContentAgree(t: TooltipTrigger, c: TooltipContent)
    requires t.root == c.root
    ensures t.Props().dataState == c.Props().dataState
  {
  }
}

/** The switch's state objects: the root, which toggles in place, and the
    hidden input and the thumb, which only project the root's fields. */
module SwitchState {
  import opened Wrappers
  import M = SwitchMachine

  /** The attributes of the root button. The `data-*`/`aria-*` flags are the
      booleans handed to the attribute helpers. */
  datatype RootProps = RootProps(
    dataDisabled: bool,
    dataState: bool,
    dataRequired: bool,
    buttonType: string,
    role: string,
    ariaChecked: bool,
    ariaRequired: bool,
    dataSwitchRoot: string)

  /** The attributes of the hidden checkbox input. */
  datatype InputProps = InputProps(
    inputType: string,
    name: Option<string>,
    value: string,
    checked: bool,
    disabled: bool,
    required: bool)

  /** The attributes of the thumb. */
  datatype ThumbProps = ThumbProps(
    dataDisabled: bool,
    dataState: bool,
    dataRequired: bool,
    dataSwitchThumb: string)

  class SwitchRoot {
    /** Writable by the owner as well (a two-way binding). */
    var checked: bool
    // Read-only settings owned by whoever renders the switch.
    var disabled: bool
    var required: bool
    var name: Option<string>
    var value: string

    constructor (s: M.Switch)
      ensures View() == s
    {
      checked := s.checked;
      disabled := s.disabled;
      required := s.required;
      name := s.name;
      value := s.value;
    }

    function View(): M.Switch
      reads this
    {
      M.Switch(checked, disabled, required, name, value)
    }

    method Toggle()
      modifies this`checked
      ensures View() == M.Toggle(old(View()))
    {
      checked := !checked;
    }

    method OnClick()
      modifies this`checked
      ensures View() == M.Click(old(View()))
    {
      if disabled { return; }
      Toggle();
    }

    /** Returns whether the event's default action was prevented. */
    method OnKeydown(key: string) returns (defaultPrevented: bool)
      modifies this`checked
      ensures View() == M.Keydown(old(View()), key)
      ensures defaultPrevented <==> M.KeydownActs(old(View()), key)
    {
      if !(key == M.EnterKey || key == M.SpaceKey) || disabled {
        return false;
      }
      defaultPrevented := true;
      Toggle();
    }

    /** The button always carries `role="switch"`, `type="button"` and
        `data-switch-root`, and reflects the checked, disabled and required
        state. */
    function Props(): (p: RootProps)
      reads this
      ensures p.role == "switch" && p.buttonType == "button" && p.dataSwitchRoot == ""
      ensures p.ariaChecked == checked && p.dataState == checked
      ensures p.dataDisabled == disabled
      ensures p.dataRequired == required && p.ariaRequired == required
    {
      RootProps(disabled, checked, required, "button", "switch", checked, required, "")
    }
  }

  /** The hidden input that lets the switch take part in a form. */
  class SwitchInput {
    const root: SwitchRoot

    constructor (root: SwitchRoot)
      ensures this.root == root
    {
      this.root := root;
    }

    /** A checkbox mirroring the root's name, value, checked, disabled and
        required. */
    function Props(): (p: InputProps)
      reads root
      ensures p.inputType == "checkbox"
      ensures p.name == root.name && p.value == root.value
      ensures p.checked == root.checked && p.disabled == root.disabled && p.required == root.required
    {
      InputProps("checkbox", root.name, root.value, root.checked, root.disabled, root.required)
    }

    /** The input is rendered exactly when the switch has a name. */
    function ShouldRender(): (b: bool)
      reads root
      ensures b <==> root.name.Some?
    {
      root.name != None
    }
  }

  /** The moving part of the switch. */
  class SwitchThumb {
    const root: SwitchRoot

    constructor (root: SwitchRoot)
      ensures this.root == root
    {
      this.root := root;
    }

    /** The thumb reflects the same checked, disabled and required state as the
        root button. */
    function Props(): (p: ThumbProps)
      reads root
      ensures p.dataSwitchThumb == ""
      ensures p.dataState == root.Props().dataState
      ensures p.dataDisabled == root.Props().dataDisabled
      ensures p.dataRequired == root.Props().dataRequired
    {
      ThumbProps(root.disabled, root.checked, root.required, "")
    }
  }
}

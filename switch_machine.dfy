/** The switch's toggle logic as values, and what it promises over runs of
    clicks and key presses. SwitchState's classes are proved to follow it. */
module SwitchMachine {
  import opened Wrappers

  /** The switch root's state. `name` is absent when the owner gives none. */
  datatype Switch = Switch(checked: bool, disabled: bool, required: bool, name: Option<string>, value: string)

  /** The `key` values of the Enter and Space keys. */
  const EnterKey: string := "Enter"
  const SpaceKey: string := " "

  predicate IsActivationKey(key: string) {
    key == EnterKey || key == SpaceKey
  }

  /** A toggle flips `checked` and touches nothing else. */
  function Toggle(s: Switch): (r: Switch)
    ensures r.checked != s.checked
    ensures r.(checked := s.checked) == s
  {
    s.(checked := !s.checked)
  }

  /** A click flips `checked` exactly when the switch is enabled, and changes
      nothing but `checked`. */
  function Click(s: Switch): (r: Switch)
    ensures r.checked != s.checked <==> !s.disabled
    ensures r.(checked := s.checked) == s
  {
    if s.disabled then s else Toggle(s)
  }

  /** Whether a `keydown` with this key acts (and so prevents the default). */
  predicate KeydownActs(s: Switch, key: string) {
    IsActivationKey(key) && !s.disabled
  }

  /** A key press flips `checked` exactly when the key is Enter or Space and
      the switch is enabled; any other key, or a disabled switch, leaves it
      as it was. */
  function Keydown(s: Switch, key: string): (r: Switch)
    ensures r.checked != s.checked <==> (key == "Enter" || key == " ") && !s.disabled
    ensures r.(checked := s.checked) == s
  {
    if KeydownActs(s, key) then Toggle(s) else s
  }

  /** Toggling twice restores the switch. */
  lemma ToggleInvolution(s: Switch)
    ensures Toggle(Toggle(s)) == s
  {
  }

  datatype SwitchEvent = ClickEvent | KeydownEvent(key: string)

  function Step(s: Switch, e: SwitchEvent): (r: Switch)
    ensures r.(checked := s.checked) == s
  {
    match e
    case ClickEvent => Click(s)
    case KeydownEvent(k) => Keydown(s, k)
  }

  /** The switch after the events, in order. */
  function Run(s: Switch, es: seq<SwitchEvent>): (r: Switch)
    decreases |es|
  {
    if es == [] then s else Run(Step(s, es[0]), es[1..])
  }

  predicate Activates(e: SwitchEvent) {
    e.ClickEvent? || (e.KeydownEvent? && IsActivationKey(e.key))
  }

  /** How many of the events are clicks or Enter/Space presses. */
  function Activations(es: seq<SwitchEvent>): (n: nat)
    ensures n <= |es|
    decreases |es|
  {
    if es == [] then 0 else (if Activates(es[0]) then 1 else 0) + Activations(es[1..])
  }

  /** After any run, an enabled switch is flipped exactly when it saw an odd
      number of clicks and Enter/Space presses; a disabled one is unchanged;
      and `disabled`, `required`, `name` and `value` never change. */
  lemma {:induction false} RunParity(s: Switch, es: seq<SwitchEvent>)
    ensures Run(s, es).checked == if s.disabled then s.checked else (s.checked != (Activations(es) % 2 == 1))
    ensures Run(s, es).(checked := s.checked) == s
    decreases |es|
  {
    if es != [] {
      RunParity(Step(s, es[0]), es[1..]);
    }
  }
}

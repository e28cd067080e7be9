/**
 * The on/off switch widget: a boolean state that the "a" button flips,
 * that is read and written as the strings "true" and "false", and whose
 * image follows the state after every change.
 *
 * The current theme's switch entry is passed to each operation that reads
 * it, in place of the theme singleton.
 */
module Switches {
  import opened GuiInput

  /** The switch entry of the current theme. */
  datatype SwitchTheme = SwitchTheme(path: string, pathSelected: string, color: int)

  /** `getValue`'s text for a state. */
  function ValueString(state: bool): (s: string)
    ensures s == "true" || s == "false"
    ensures state <==> s == "true"
  {
    if state then "true" else "false"
  }

  /** The state `setValue` stores: true for exactly the text "true". */
  function StateOfValue(s: string): (state: bool)
    ensures state <==> s == "true"
  {
    s == "true"
  }

  /** Writing back what was read restores the state. */
  lemma ValueRoundTrip(state: bool)
    ensures StateOfValue(ValueString(state)) == state
  {
  }

  /** Reading back what was written gives the same text exactly for the two texts `getValue` produces. */
  lemma ValueStringRoundTrip(s: string)
    ensures ValueString(StateOfValue(s)) == s <==> s == "true" || s == "false"
  {
  }

  /** The image `onStateChanged` selects: the selected image exactly when the switch is on. */
  function ImageFor(state: bool, theme: SwitchTheme): (image: string)
    ensures state ==> image == theme.pathSelected
    ensures !state ==> image == theme.path
  {
    if state then theme.pathSelected else theme.path
  }

  class SwitchComponent {
    var state: bool
    var image: string
    var colorShift: int

    /** The image set at construction is the theme's plain image, whatever the initial state. */
    constructor (initial: bool, theme: SwitchTheme)
      ensures state == initial
      ensures image == theme.path && colorShift == theme.color
    {
      state := initial;
      image := theme.path;
      colorShift := theme.color;
    }

    /** `onStateChanged`: the image follows the state. */
    method OnStateChanged(theme: SwitchTheme)
      modifies this`image
      ensures image == ImageFor(state, theme)
    {
      image := if state then theme.pathSelected else theme.path;
    }

    /** `input`: a press of "a" flips the state and is consumed; anything else is not. */
    method Input(input: Input, theme: SwitchTheme) returns (consumed: bool)
      modifies this`state, this`image
      ensures consumed <==> input.IsMappedTo("a") && input.IsPress()
      ensures state == (if consumed then !old(state) else old(state))
      ensures image == (if consumed then ImageFor(state, theme) else old(image))
    {
      if input.IsMappedTo("a") && input.IsPress() {
        state := !state;
        OnStateChanged(theme);
        return true;
      }
      return false;
    }

    /** `getState`. */
    function GetState(): bool
      reads this
    {
      state
    }

    /** `setState`: the state becomes `b` and the image follows. */
    method SetState(b: bool, theme: SwitchTheme)
      modifies this`state, this`image
      ensures state == b && GetState() == b
      ensures image == ImageFor(b, theme)
    {
      state := b;
      OnStateChanged(theme);
    }

    /** `getValue`: the text `setValue` reads back as the current state. */
    function GetValue(): (s: string)
      reads this
      ensures StateOfValue(s) == state
      ensures s == "true" || s == "false"
    {
      ValueString(state)
    }

    /** `setValue`: on for exactly the text "true", off for every other text. */
    method SetValue(s: string, theme: SwitchTheme)
      modifies this`state, this`image
      ensures state == StateOfValue(s)
      ensures image == ImageFor(state, theme)
    {
      if s == "true" {
        state := true;
      } else {
        state := false;
      }
      OnStateChanged(theme);
    }
  }

  /** Two presses of "a" leave the switch as it was, and show the image of that state. */
  method PressTwice(sw: SwitchComponent, input: Input, theme: SwitchTheme)
    requires input.IsMappedTo("a") && input.IsPress()
    modifies sw`state, sw`image
    ensures sw.state == old(sw.state)
    ensures sw.image == ImageFor(sw.state, theme)
  {
    var first := sw.Input(input, theme);
    var second := sw.Input(input, theme);
  }

  /** `setValue(getValue())` leaves the state unchanged. */
  method StoreOwnValue(sw: SwitchComponent, theme: SwitchTheme)
    modifies sw`state, sw`image
    ensures sw.state == old(sw.state)
    ensures sw.image == ImageFor(sw.state, theme)
  {
    sw.SetValue(sw.GetValue(), theme);
  }
}

/**
 * The push-button widget: an upper-cased caption in a nine-patch box, an
 * optional action run by the "a" button while the button is enabled, a
 * box whose image and colours follow the focus and enabled flags, and a
 * size with a minimum width.
 *
 * The font's measurements are a function from text to extent given at
 * construction; the current theme's button entry is passed to each
 * operation that reads it.  Whether an action is set stands for the
 * `std::function` itself; running it is reported, not performed.
 */
module Buttons {
  import opened GuiInput
  import opened CppString

  /** The button entry of the current theme; an empty path means "not themed". */
  datatype ButtonTheme = ButtonTheme(pathFocused: string, path: string, colorFocused: int, color: int)

  /** Width and height of a rendered text. */
  datatype Extent = Extent(width: int, height: int)

  /** What the box shows: its image and its centre and edge colours. */
  datatype BoxLook = BoxLook(imagePath: string, centerColor: int, edgeColor: int)

  const DefaultFilledPath: string := ":/button_filled.png"
  const DefaultPath: string := ":/button.png"
  const DisabledColor: int := 0x770000FF
  const EnabledColor: int := 0xFFFFFFFF
  const InitialFocusedColor: int := 0xFFFFFFFF
  const InitialUnfocusedColor: int := 0x777777FF
  /** The caption whose width is the narrowest a button may be. */
  const MinWidthLabel: string := "DELETE"
  const Padding: int := 12

  /** The filled image: the theme's focused image, or the built-in one when the theme has none. */
  function FilledPath(theme: ButtonTheme): (p: string)
    ensures p != ""
    ensures theme.pathFocused != "" ==> p == theme.pathFocused
    ensures theme.pathFocused == "" ==> p == DefaultFilledPath
  {
    if theme.pathFocused == "" then DefaultFilledPath else theme.pathFocused
  }

  /** The plain image: the theme's image, or the built-in one when the theme has none. */
  function PlainPath(theme: ButtonTheme): (p: string)
    ensures p != ""
    ensures theme.path != "" ==> p == theme.path
    ensures theme.path == "" ==> p == DefaultPath
  {
    if theme.path == "" then DefaultPath else theme.path
  }

  /** The look `updateImage` gives the box. */
  function LookFor(enabled: bool, hasAction: bool, focused: bool, theme: ButtonTheme): BoxLook {
    if !enabled || !hasAction then BoxLook(FilledPath(theme), DisabledColor, DisabledColor)
    else BoxLook(if focused then FilledPath(theme) else PlainPath(theme), EnabledColor, EnabledColor)
  }

  /**
   * A button that cannot act is drawn filled and dark red; one that can is
   * drawn white, filled exactly when it has the focus.
   */
  lemma LookCases(enabled: bool, hasAction: bool, focused: bool, theme: ButtonTheme)
    ensures var look := LookFor(enabled, hasAction, focused, theme);
            && (look.centerColor == DisabledColor <==> !enabled || !hasAction)
            && (look.centerColor == EnabledColor <==> enabled && hasAction)
            && look.edgeColor == look.centerColor
            && (!enabled || !hasAction || focused ==> look.imagePath == FilledPath(theme))
            && (enabled && hasAction && !focused ==> look.imagePath == PlainPath(theme))
  {
  }

  /** `std::max` */
  function Max(a: int, b: int): (m: int)
    ensures m >= a && m >= b && (m == a || m == b)
  {
    if a >= b then a else b
  }

  /** The size `setText` gives the button for a caption. */
  function SizeFor(sizeText: string -> Extent, caption: string): (size: Extent)
    ensures size.width >= sizeText(caption).width + Padding
    ensures size.width >= sizeText(MinWidthLabel).width + Padding
    ensures size.width == sizeText(caption).width + Padding || size.width == sizeText(MinWidthLabel).width + Padding
    ensures size.height == sizeText(caption).height
  {
    Extent(Max(sizeText(caption).width + Padding, sizeText(MinWidthLabel).width + Padding), sizeText(caption).height)
  }

  class ButtonComponent {
    const sizeText: string -> Extent
    var text: string
    var helpText: string
    var focused: bool
    var enabled: bool
    var hasAction: bool
    var box: BoxLook
    var textColorFocused: int
    var textColorUnfocused: int
    var size: Extent

    /**
     * Not focused, enabled, with the given action and caption; the box
     * follows, and the text colours come from the theme last.
     */
    constructor (text: string, helpText: string, hasAction: bool, sizeText: string -> Extent, theme: ButtonTheme)
      ensures this.sizeText == sizeText
      ensures !focused && enabled && this.hasAction == hasAction
      ensures this.text == ToUpper(text) && this.helpText == helpText
      ensures size == SizeFor(sizeText, ToUpper(text))
      ensures box == LookFor(true, hasAction, false, theme)
      ensures textColorFocused == theme.colorFocused && textColorUnfocused == theme.color
    {
      this.sizeText := sizeText;
      box := BoxLook(DefaultPath, EnabledColor, EnabledColor);
      focused := false;
      enabled := true;
      textColorFocused := InitialFocusedColor;
      textColorUnfocused := InitialUnfocusedColor;
      this.text := "";
      this.helpText := "";
      size := Extent(0, 0);
      this.hasAction := hasAction;
      new;
      SetText(text, helpText);
      UpdateImage(theme);
      textColorFocused := theme.colorFocused;
      textColorUnfocused := theme.color;
    }

    /** `setPressedFunc`: sets the action; the box is not refreshed. */
    method SetPressedFunc(hasAction: bool)
      modifies this`hasAction
      ensures this.hasAction == hasAction
    {
      this.hasAction := hasAction;
    }

    /**
     * `input`: a press of "a" is always consumed and runs the action when
     * one is set and the button is enabled; other input goes to the base
     * component, whose answer is `delegated`.
     */
    method Input(input: Input, delegated: bool) returns (consumed: bool, fired: bool)
      ensures fired <==> input.IsMappedTo("a") && input.IsPress() && hasAction && enabled
      ensures consumed == ((input.IsMappedTo("a") && input.IsPress()) || delegated)
    {
      if input.IsMappedTo("a") && input.IsPress() {
        fired := hasAction && enabled;
        return true, fired;
      }
      return delegated, false;
    }

    /** `setText`: the caption is stored upper-cased, the help text as given, and the size follows the caption. */
    method SetText(text: string, helpText: string)
      modifies this`text, this`helpText, this`size
      ensures this.text == ToUpper(text) && this.helpText == helpText
      ensures size == SizeFor(sizeText, this.text)
    {
      this.text := ToUpper(text);
      this.helpText := helpText;
      var minWidth := sizeText(MinWidthLabel).width + Padding;
      var textSize := sizeText(this.text);
      size := Extent(Max(textSize.width + Padding, minWidth), textSize.height);
    }

    /** `updateImage`. */
    method UpdateImage(theme: ButtonTheme)
      modifies this`box
      ensures box == LookFor(enabled, hasAction, focused, theme)
    {
      var filled := theme.pathFocused;
      var plain := theme.path;
      if filled == "" {
        filled := DefaultFilledPath;
      }
      if plain == "" {
        plain := DefaultPath;
      }
      if !enabled || !hasAction {
        box := BoxLook(filled, DisabledColor, DisabledColor);
        return;
      }
      box := BoxLook(if focused then filled else plain, EnabledColor, EnabledColor);
    }

    /** `onFocusGained`. */
    method OnFocusGained(theme: ButtonTheme)
      modifies this`focused, this`box
      ensures focused
      ensures box == LookFor(enabled, hasAction, true, theme)
    {
      focused := true;
      UpdateImage(theme);
    }

    /** `onFocusLost`. */
    method OnFocusLost(theme: ButtonTheme)
      modifies this`focused, this`box
      ensures !focused
      ensures box == LookFor(enabled, hasAction, false, theme)
    {
      focused := false;
      UpdateImage(theme);
    }

    /** `setEnabled`. */
    method SetEnabled(enabled: bool, theme: ButtonTheme)
      modifies this`enabled, this`box
      ensures this.enabled == enabled
      ensures box == LookFor(enabled, hasAction, focused, theme)
    {
      this.enabled := enabled;
      UpdateImage(theme);
    }

    /** `getCurTextColor`: the focused colour exactly while focused. */
    function CurTextColor(): (color: int)
      reads this
      ensures focused ==> color == textColorFocused
      ensures !focused ==> color == textColorUnfocused
    {
      if !focused then textColorUnfocused else textColorFocused
    }

    /** The caption of the help prompt `getHelpPrompts` offers for "a": the help text, or the caption when that is empty. */
    function HelpPromptLabel(): (caption: string)
      reads this
      ensures helpText != "" ==> caption == helpText
      ensures helpText == "" ==> caption == text
    {
      if helpText == "" then text else helpText
    }
  }

  /** With no help text the prompt shows the upper-cased caption, and focus changes do not touch it. */
  method PromptAfterSetText(button: ButtonComponent, caption: string, theme: ButtonTheme)
    modifies button
    ensures button.HelpPromptLabel() == ToUpper(caption)
    ensures button.focused && button.box == LookFor(button.enabled, button.hasAction, true, theme)
    ensures button.enabled == old(button.enabled) && button.hasAction == old(button.hasAction)
  {
    button.SetText(caption, "");
    button.OnFocusGained(theme);
  }
}

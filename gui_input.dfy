/**
 * An input event as the widgets see it.  `InputConfig::isMappedTo(name,
 * input)` is answered by the set of action names the event is mapped to,
 * and `input.value` is the raw value: nonzero for a press, 0 for a release.
 */
module GuiInput {

  datatype Input = Input(mappedTo: set<string>, value: int) {

    /** `config->isMappedTo(name, input)`. */
    predicate IsMappedTo(name: string) {
      name in mappedTo
    }

    /** `input.value` read as a condition: the button went down. */
    predicate IsPress() {
      value != 0
    }
  }
}

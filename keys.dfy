/** The host library's key identifiers (`ImGuiKey`) that the keyboard and
    gamepad widgets draw. Any other identifier a caller may pass to the
    highlight functions is `Other(code)`; the numeric values of the named
    keys belong to the host library and are not needed here. A `code` is
    never the host value of a named key: each host key has exactly one
    model key, so two model keys are equal exactly when the host keys are,
    and a duplicate-free list of model keys is one of host keys. */
module Keys {

  datatype Key =
    // Keyboard: editing and whitespace
    | Tab | Enter | Escape | Space | Backspace | CapsLock | Menu
    | LeftShift | RightShift | LeftCtrl | RightCtrl | LeftAlt | RightAlt | LeftSuper | RightSuper
    // Keyboard: navigation
    | Insert | Delete | Home | End | PageUp | PageDown
    | UpArrow | DownArrow | LeftArrow | RightArrow
    | PrintScreen | ScrollLock | Pause
    // Keyboard: function keys
    | F1 | F2 | F3 | F4 | F5 | F6 | F7 | F8 | F9 | F10 | F11 | F12
    // Keyboard: number row
    | GraveAccent | Digit0 | Digit1 | Digit2 | Digit3 | Digit4 | Digit5 | Digit6 | Digit7 | Digit8 | Digit9
    | Minus | Equal
    // Keyboard: letters
    | A | B | C | D | E | F | G | H | I | J | K | L | M
    | N | O | P | Q | R | S | T | U | V | W | X | Y | Z
    // Keyboard: punctuation
    | LeftBracket | RightBracket | Backslash | Semicolon | Apostrophe | Comma | Period | Slash
    // Keyboard: numeric keypad
    | NumLock | KeypadDivide | KeypadMultiply | KeypadSubtract | KeypadAdd | KeypadEnter | KeypadDecimal
    | Keypad0 | Keypad1 | Keypad2 | Keypad3 | Keypad4 | Keypad5 | Keypad6 | Keypad7 | Keypad8 | Keypad9
    // Gamepad
    | GamepadDpadUp | GamepadDpadDown | GamepadDpadLeft | GamepadDpadRight
    | GamepadFaceUp | GamepadFaceRight | GamepadFaceDown | GamepadFaceLeft
    | GamepadL1 | GamepadR1 | GamepadL2 | GamepadR2 | GamepadL3 | GamepadR3
    | GamepadBack | GamepadStart
    // Any identifier no widget draws
    | Other(code: int)
}

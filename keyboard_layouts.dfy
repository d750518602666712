/** The keyboard widget's static layout tables. Every entry places one key
    on a grid measured in key units (1.0 is a standard key): its top-left
    corner, its width and height, its label and the key it shows. The
    renderer multiplies these by the pixel size of one key unit; nothing
    here changes at run time. */
module KeyboardLayouts {
  import opened Keys
  import opened Geometry

  datatype KeyLayout = KeyLayout(x: real, y: real, width: real, height: real, text: string, key: Key)

  // Keyboard layout selector values, in the order of the layout enumeration.
  const Qwerty: int := 0
  const Qwertz: int := 1
  const Azerty: int := 2
  const Colemak: int := 3
  const Dvorak: int := 4
  const NumericPad: int := 5

  function NumpadKeys(): seq<KeyLayout>
  {
    [
      KeyLayout(0.0, 0.0, 1.0, 1.0, "Num", NumLock),
      KeyLayout(1.0, 0.0, 1.0, 1.0, "/", KeypadDivide),
      KeyLayout(2.0, 0.0, 1.0, 1.0, "*", KeypadMultiply),
      KeyLayout(3.0, 0.0, 1.0, 1.0, "-", KeypadSubtract),
      KeyLayout(0.0, 1.0, 1.0, 1.0, "7", Keypad7),
      KeyLayout(1.0, 1.0, 1.0, 1.0, "8", Keypad8),
      KeyLayout(2.0, 1.0, 1.0, 1.0, "9", Keypad9),
      KeyLayout(3.0, 1.0, 1.0, 2.0, "+", KeypadAdd),
      KeyLayout(0.0, 2.0, 1.0, 1.0, "4", Keypad4),
      KeyLayout(1.0, 2.0, 1.0, 1.0, "5", Keypad5),
      KeyLayout(2.0, 2.0, 1.0, 1.0, "6", Keypad6),
      KeyLayout(0.0, 3.0, 1.0, 1.0, "1", Keypad1),
      KeyLayout(1.0, 3.0, 1.0, 1.0, "2", Keypad2),
      KeyLayout(2.0, 3.0, 1.0, 1.0, "3", Keypad3),
      KeyLayout(3.0, 3.0, 1.0, 2.0, "Ent", KeypadEnter),
      KeyLayout(0.0, 4.0, 2.0, 1.0, "0", Keypad0),
      KeyLayout(2.0, 4.0, 1.0, 1.0, ".", KeypadDecimal)
    ]
  }

  function FunctionRowKeys(): seq<KeyLayout>
  {
    [
      KeyLayout(0.0, 0.0, 1.0, 1.0, "Esc", Escape),
      KeyLayout(2.0, 0.0, 1.0, 1.0, "F1", F1),
      KeyLayout(3.0, 0.0, 1.0, 1.0, "F2", F2),
      KeyLayout(4.0, 0.0, 1.0, 1.0, "F3", F3),
      KeyLayout(5.0, 0.0, 1.0, 1.0, "F4", F4),
      KeyLayout(6.5, 0.0, 1.0, 1.0, "F5", F5),
      KeyLayout(7.5, 0.0, 1.0, 1.0, "F6", F6),
      KeyLayout(8.5, 0.0, 1.0, 1.0, "F7", F7),
      KeyLayout(9.5, 0.0, 1.0, 1.0, "F8", F8),
      KeyLayout(11.0, 0.0, 1.0, 1.0, "F9", F9),
      KeyLayout(12.0, 0.0, 1.0, 1.0, "F10", F10),
      KeyLayout(13.0, 0.0, 1.0, 1.0, "F11", F11),
      KeyLayout(14.0, 0.0, 1.0, 1.0, "F12", F12),
      KeyLayout(15.25, 0.0, 1.0, 1.0, "Prt", PrintScreen),
      KeyLayout(16.25, 0.0, 1.0, 1.0, "Scr", ScrollLock),
      KeyLayout(17.25, 0.0, 1.0, 1.0, "Pse", Pause)
    ]
  }

  function NavClusterKeys(): seq<KeyLayout>
  {
    [
      KeyLayout(0.0, 0.0, 1.0, 1.0, "Ins", Insert),
      KeyLayout(1.0, 0.0, 1.0, 1.0, "Hm", Home),
      KeyLayout(2.0, 0.0, 1.0, 1.0, "PgU", PageUp),
      KeyLayout(0.0, 1.0, 1.0, 1.0, "Del", Delete),
      KeyLayout(1.0, 1.0, 1.0, 1.0, "End", End),
      KeyLayout(2.0, 1.0, 1.0, 1.0, "PgD", PageDown),
      KeyLayout(1.0, 3.0, 1.0, 1.0, "^", UpArrow),
      KeyLayout(0.0, 4.0, 1.0, 1.0, "<", LeftArrow),
      KeyLayout(1.0, 4.0, 1.0, 1.0, "v", DownArrow),
      KeyLayout(2.0, 4.0, 1.0, 1.0, ">", RightArrow)
    ]
  }

  function NumberRowKeys(): seq<KeyLayout>
  {
    [
      KeyLayout(0.0, 0.0, 1.0, 1.0, "`", GraveAccent),
      KeyLayout(1.0, 0.0, 1.0, 1.0, "1", Digit1),
      KeyLayout(2.0, 0.0, 1.0, 1.0, "2", Digit2),
      KeyLayout(3.0, 0.0, 1.0, 1.0, "3", Digit3),
      KeyLayout(4.0, 0.0, 1.0, 1.0, "4", Digit4),
      KeyLayout(5.0, 0.0, 1.0, 1.0, "5", Digit5),
      KeyLayout(6.0, 0.0, 1.0, 1.0, "6", Digit6),
      KeyLayout(7.0, 0.0, 1.0, 1.0, "7", Digit7),
      KeyLayout(8.0, 0.0, 1.0, 1.0, "8", Digit8),
      KeyLayout(9.0, 0.0, 1.0, 1.0, "9", Digit9),
      KeyLayout(10.0, 0.0, 1.0, 1.0, "0", Digit0),
      KeyLayout(11.0, 0.0, 1.0, 1.0, "-", Minus),
      KeyLayout(12.0, 0.0, 1.0, 1.0, "=", Equal),
      KeyLayout(13.0, 0.0, 2.0, 1.0, "Back", Backspace)
    ]
  }

  function QwertyRow1(): seq<KeyLayout>
  {
    [
      KeyLayout(0.0, 0.0, 1.5, 1.0, "Tab", Tab),
      KeyLayout(1.5, 0.0, 1.0, 1.0, "Q", Q),
      KeyLayout(2.5, 0.0, 1.0, 1.0, "W", W),
      KeyLayout(3.5, 0.0, 1.0, 1.0, "E", E),
      KeyLayout(4.5, 0.0, 1.0, 1.0, "R", R),
      KeyLayout(5.5, 0.0, 1.0, 1.0, "T", T),
      KeyLayout(6.5, 0.0, 1.0, 1.0, "Y", Y),
      KeyLayout(7.5, 0.0, 1.0, 1.0, "U", U),
      KeyLayout(8.5, 0.0, 1.0, 1.0, "I", I),
      KeyLayout(9.5, 0.0, 1.0, 1.0, "O", O),
      KeyLayout(10.5, 0.0, 1.0, 1.0, "P", P),
      KeyLayout(11.5, 0.0, 1.0, 1.0, "[", LeftBracket),
      KeyLayout(12.5, 0.0, 1.0, 1.0, "]", RightBracket),
      KeyLayout(13.5, 0.0, 1.5, 1.0, "\\", Backslash)
    ]
  }

  function QwertyRow2(): seq<KeyLayout>
  {
    [
      KeyLayout(0.0, 0.0, 1.75, 1.0, "Caps", CapsLock),
      KeyLayout(1.75, 0.0, 1.0, 1.0, "A", A),
      KeyLayout(2.75, 0.0, 1.0, 1.0, "S", S),
      KeyLayout(3.75, 0.0, 1.0, 1.0, "D", D),
      KeyLayout(4.75, 0.0, 1.0, 1.0, "F", F),
      KeyLayout(5.75, 0.0, 1.0, 1.0, "G", G),
      KeyLayout(6.75, 0.0, 1.0, 1.0, "H", H),
      KeyLayout(7.75, 0.0, 1.0, 1.0, "J", J),
      KeyLayout(8.75, 0.0, 1.0, 1.0, "K", K),
      KeyLayout(9.75, 0.0, 1.0, 1.0, "L", L),
      KeyLayout(10.75, 0.0, 1.0, 1.0, ";", Semicolon),
      KeyLayout(11.75, 0.0, 1.0, 1.0, "'", Apostrophe),
      KeyLayout(12.75, 0.0, 2.25, 1.0, "Enter", Enter)
    ]
  }

  function QwertyRow3(): seq<KeyLayout>
  {
    [
      KeyLayout(0.0, 0.0, 2.25, 1.0, "Shift", LeftShift),
      KeyLayout(2.25, 0.0, 1.0, 1.0, "Z", Z),
      KeyLayout(3.25, 0.0, 1.0, 1.0, "X", X),
      KeyLayout(4.25, 0.0, 1.0, 1.0, "C", C),
      KeyLayout(5.25, 0.0, 1.0, 1.0, "V", V),
      KeyLayout(6.25, 0.0, 1.0, 1.0, "B", B),
      KeyLayout(7.25, 0.0, 1.0, 1.0, "N", N),
      KeyLayout(8.25, 0.0, 1.0, 1.0, "M", M),
      KeyLayout(9.25, 0.0, 1.0, 1.0, ",", Comma),
      KeyLayout(10.25, 0.0, 1.0, 1.0, ".", Period),
      KeyLayout(11.25, 0.0, 1.0, 1.0, "/", Slash),
      KeyLayout(12.25, 0.0, 2.75, 1.0, "Shift", RightShift)
    ]
  }

  function QwertzRow1(): seq<KeyLayout>
  {
    [
      KeyLayout(0.0, 0.0, 1.5, 1.0, "Tab", Tab),
      KeyLayout(1.5, 0.0, 1.0, 1.0, "Q", Q),
      KeyLayout(2.5, 0.0, 1.0, 1.0, "W", W),
      KeyLayout(3.5, 0.0, 1.0, 1.0, "E", E),
      KeyLayout(4.5, 0.0, 1.0, 1.0, "R", R),
      KeyLayout(5.5, 0.0, 1.0, 1.0, "T", T),
      KeyLayout(6.5, 0.0, 1.0, 1.0, "Z", Z),
      KeyLayout(7.5, 0.0, 1.0, 1.0, "U", U),
      KeyLayout(8.5, 0.0, 1.0, 1.0, "I", I),
      KeyLayout(9.5, 0.0, 1.0, 1.0, "O", O),
      KeyLayout(10.5, 0.0, 1.0, 1.0, "P", P),
      KeyLayout(11.5, 0.0, 1.0, 1.0, "U:", LeftBracket),
      KeyLayout(12.5, 0.0, 1.0, 1.0, "+", RightBracket),
      KeyLayout(13.5, 0.0, 1.5, 1.0, "#", Backslash)
    ]
  }

  function QwertzRow2(): seq<KeyLayout>
  {
    [
      KeyLayout(0.0, 0.0, 1.75, 1.0, "Caps", CapsLock),
      KeyLayout(1.75, 0.0, 1.0, 1.0, "A", A),
      KeyLayout(2.75, 0.0, 1.0, 1.0, "S", S),
      KeyLayout(3.75, 0.0, 1.0, 1.0, "D", D),
      KeyLayout(4.75, 0.0, 1.0, 1.0, "F", F),
      KeyLayout(5.75, 0.0, 1.0, 1.0, "G", G),
      KeyLayout(6.75, 0.0, 1.0, 1.0, "H", H),
      KeyLayout(7.75, 0.0, 1.0, 1.0, "J", J),
      KeyLayout(8.75, 0.0, 1.0, 1.0, "K", K),
      KeyLayout(9.75, 0.0, 1.0, 1.0, "L", L),
      KeyLayout(10.75, 0.0, 1.0, 1.0, "O:", Semicolon),
      KeyLayout(11.75, 0.0, 1.0, 1.0, "A:", Apostrophe),
      KeyLayout(12.75, 0.0, 2.25, 1.0, "Enter", Enter)
    ]
  }

  function QwertzRow3(): seq<KeyLayout>
  {
    [
      KeyLayout(0.0, 0.0, 2.25, 1.0, "Shift", LeftShift),
      KeyLayout(2.25, 0.0, 1.0, 1.0, "Y", Y),
      KeyLayout(3.25, 0.0, 1.0, 1.0, "X", X),
      KeyLayout(4.25, 0.0, 1.0, 1.0, "C", C),
      KeyLayout(5.25, 0.0, 1.0, 1.0, "V", V),
      KeyLayout(6.25, 0.0, 1.0, 1.0, "B", B),
      KeyLayout(7.25, 0.0, 1.0, 1.0, "N", N),
      KeyLayout(8.25, 0.0, 1.0, 1.0, "M", M),
      KeyLayout(9.25, 0.0, 1.0, 1.0, ",", Comma),
      KeyLayout(10.25, 0.0, 1.0, 1.0, ".", Period),
      KeyLayout(11.25, 0.0, 1.0, 1.0, "-", Slash),
      KeyLayout(12.25, 0.0, 2.75, 1.0, "Shift", RightShift)
    ]
  }

  function AzertyRow1(): seq<KeyLayout>
  {
    [
      KeyLayout(0.0, 0.0, 1.5, 1.0, "Tab", Tab),
      KeyLayout(1.5, 0.0, 1.0, 1.0, "A", A),
      KeyLayout(2.5, 0.0, 1.0, 1.0, "Z", Z),
      KeyLayout(3.5, 0.0, 1.0, 1.0, "E", E),
      KeyLayout(4.5, 0.0, 1.0, 1.0, "R", R),
      KeyLayout(5.5, 0.0, 1.0, 1.0, "T", T),
      KeyLayout(6.5, 0.0, 1.0, 1.0, "Y", Y),
      KeyLayout(7.5, 0.0, 1.0, 1.0, "U", U),
      KeyLayout(8.5, 0.0, 1.0, 1.0, "I", I),
      KeyLayout(9.5, 0.0, 1.0, 1.0, "O", O),
      KeyLayout(10.5, 0.0, 1.0, 1.0, "P", P),
      KeyLayout(11.5, 0.0, 1.0, 1.0, "^", LeftBracket),
      KeyLayout(12.5, 0.0, 1.0, 1.0, "$", RightBracket),
      KeyLayout(13.5, 0.0, 1.5, 1.0, "*", Backslash)
    ]
  }

  function AzertyRow2(): seq<KeyLayout>
  {
    [
      KeyLayout(0.0, 0.0, 1.75, 1.0, "Caps", CapsLock),
      KeyLayout(1.75, 0.0, 1.0, 1.0, "Q", Q),
      KeyLayout(2.75, 0.0, 1.0, 1.0, "S", S),
      KeyLayout(3.75, 0.0, 1.0, 1.0, "D", D),
      KeyLayout(4.75, 0.0, 1.0, 1.0, "F", F),
      KeyLayout(5.75, 0.0, 1.0, 1.0, "G", G),
      KeyLayout(6.75, 0.0, 1.0, 1.0, "H", H),
      KeyLayout(7.75, 0.0, 1.0, 1.0, "J", J),
      KeyLayout(8.75, 0.0, 1.0, 1.0, "K", K),
      KeyLayout(9.75, 0.0, 1.0, 1.0, "L", L),
      KeyLayout(10.75, 0.0, 1.0, 1.0, "M", M),
      KeyLayout(11.75, 0.0, 1.0, 1.0, "u`", Apostrophe),
      KeyLayout(12.75, 0.0, 2.25, 1.0, "Enter", Enter)
    ]
  }

  function AzertyRow3(): seq<KeyLayout>
  {
    [
      KeyLayout(0.0, 0.0, 2.25, 1.0, "Shift", LeftShift),
      KeyLayout(2.25, 0.0, 1.0, 1.0, "W", W),
      KeyLayout(3.25, 0.0, 1.0, 1.0, "X", X),
      KeyLayout(4.25, 0.0, 1.0, 1.0, "C", C),
      KeyLayout(5.25, 0.0, 1.0, 1.0, "V", V),
      KeyLayout(6.25, 0.0, 1.0, 1.0, "B", B),
      KeyLayout(7.25, 0.0, 1.0, 1.0, "N", N),
      KeyLayout(8.25, 0.0, 1.0, 1.0, ",", Comma),
      KeyLayout(9.25, 0.0, 1.0, 1.0, ";", Semicolon),
      KeyLayout(10.25, 0.0, 1.0, 1.0, ":", Period),
      KeyLayout(11.25, 0.0, 1.0, 1.0, "!", Slash),
      KeyLayout(12.25, 0.0, 2.75, 1.0, "Shift", RightShift)
    ]
  }

  function ColemakRow1(): seq<KeyLayout>
  {
    [
      KeyLayout(0.0, 0.0, 1.5, 1.0, "Tab", Tab),
      KeyLayout(1.5, 0.0, 1.0, 1.0, "Q", Q),
      KeyLayout(2.5, 0.0, 1.0, 1.0, "W", W),
      KeyLayout(3.5, 0.0, 1.0, 1.0, "F", F),
      KeyLayout(4.5, 0.0, 1.0, 1.0, "P", P),
      KeyLayout(5.5, 0.0, 1.0, 1.0, "G", G),
      KeyLayout(6.5, 0.0, 1.0, 1.0, "J", J),
      KeyLayout(7.5, 0.0, 1.0, 1.0, "L", L),
      KeyLayout(8.5, 0.0, 1.0, 1.0, "U", U),
      KeyLayout(9.5, 0.0, 1.0, 1.0, "Y", Y),
      KeyLayout(10.5, 0.0, 1.0, 1.0, ";", Semicolon),
      KeyLayout(11.5, 0.0, 1.0, 1.0, "[", LeftBracket),
      KeyLayout(12.5, 0.0, 1.0, 1.0, "]", RightBracket),
      KeyLayout(13.5, 0.0, 1.5, 1.0, "\\", Backslash)
    ]
  }

  function ColemakRow2(): seq<KeyLayout>
  {
    [
      KeyLayout(0.0, 0.0, 1.75, 1.0, "Bksp", Backspace),
      KeyLayout(1.75, 0.0, 1.0, 1.0, "A", A),
      KeyLayout(2.75, 0.0, 1.0, 1.0, "R", R),
      KeyLayout(3.75, 0.0, 1.0, 1.0, "S", S),
      KeyLayout(4.75, 0.0, 1.0, 1.0, "T", T),
      KeyLayout(5.75, 0.0, 1.0, 1.0, "D", D),
      KeyLayout(6.75, 0.0, 1.0, 1.0, "H", H),
      KeyLayout(7.75, 0.0, 1.0, 1.0, "N", N),
      KeyLayout(8.75, 0.0, 1.0, 1.0, "E", E),
      KeyLayout(9.75, 0.0, 1.0, 1.0, "I", I),
      KeyLayout(10.75, 0.0, 1.0, 1.0, "O", O),
      KeyLayout(11.75, 0.0, 1.0, 1.0, "'", Apostrophe),
      KeyLayout(12.75, 0.0, 2.25, 1.0, "Enter", Enter)
    ]
  }

  function ColemakRow3(): seq<KeyLayout>
  {
    [
      KeyLayout(0.0, 0.0, 2.25, 1.0, "Shift", LeftShift),
      KeyLayout(2.25, 0.0, 1.0, 1.0, "Z", Z),
      KeyLayout(3.25, 0.0, 1.0, 1.0, "X", X),
      KeyLayout(4.25, 0.0, 1.0, 1.0, "C", C),
      KeyLayout(5.25, 0.0, 1.0, 1.0, "V", V),
      KeyLayout(6.25, 0.0, 1.0, 1.0, "B", B),
      KeyLayout(7.25, 0.0, 1.0, 1.0, "K", K),
      KeyLayout(8.25, 0.0, 1.0, 1.0, "M", M),
      KeyLayout(9.25, 0.0, 1.0, 1.0, ",", Comma),
      KeyLayout(10.25, 0.0, 1.0, 1.0, ".", Period),
      KeyLayout(11.25, 0.0, 1.0, 1.0, "/", Slash),
      KeyLayout(12.25, 0.0, 2.75, 1.0, "Shift", RightShift)
    ]
  }

  function DvorakRow1(): seq<KeyLayout>
  {
    [
      KeyLayout(0.0, 0.0, 1.5, 1.0, "Tab", Tab),
      KeyLayout(1.5, 0.0, 1.0, 1.0, "'", Apostrophe),
      KeyLayout(2.5, 0.0, 1.0, 1.0, ",", Comma),
      KeyLayout(3.5, 0.0, 1.0, 1.0, ".", Period),
      KeyLayout(4.5, 0.0, 1.0, 1.0, "P", P),
      KeyLayout(5.5, 0.0, 1.0, 1.0, "Y", Y),
      KeyLayout(6.5, 0.0, 1.0, 1.0, "F", F),
      KeyLayout(7.5, 0.0, 1.0, 1.0, "G", G),
      KeyLayout(8.5, 0.0, 1.0, 1.0, "C", C),
      KeyLayout(9.5, 0.0, 1.0, 1.0, "R", R),
      KeyLayout(10.5, 0.0, 1.0, 1.0, "L", L),
      KeyLayout(11.5, 0.0, 1.0, 1.0, "/", Slash),
      KeyLayout(12.5, 0.0, 1.0, 1.0, "=", Equal),
      KeyLayout(13.5, 0.0, 1.5, 1.0, "\\", Backslash)
    ]
  }

  function DvorakRow2(): seq<KeyLayout>
  {
    [
      KeyLayout(0.0, 0.0, 1.75, 1.0, "Caps", CapsLock),
      KeyLayout(1.75, 0.0, 1.0, 1.0, "A", A),
      KeyLayout(2.75, 0.0, 1.0, 1.0, "O", O),
      KeyLayout(3.75, 0.0, 1.0, 1.0, "E", E),
      KeyLayout(4.75, 0.0, 1.0, 1.0, "U", U),
      KeyLayout(5.75, 0.0, 1.0, 1.0, "I", I),
      KeyLayout(6.75, 0.0, 1.0, 1.0, "D", D),
      KeyLayout(7.75, 0.0, 1.0, 1.0, "H", H),
      KeyLayout(8.75, 0.0, 1.0, 1.0, "T", T),
      KeyLayout(9.75, 0.0, 1.0, 1.0, "N", N),
      KeyLayout(10.75, 0.0, 1.0, 1.0, "S", S),
      KeyLayout(11.75, 0.0, 1.0, 1.0, "-", Minus),
      KeyLayout(12.75, 0.0, 2.25, 1.0, "Enter", Enter)
    ]
  }

  function DvorakRow3(): seq<KeyLayout>
  {
    [
      KeyLayout(0.0, 0.0, 2.25, 1.0, "Shift", LeftShift),
      KeyLayout(2.25, 0.0, 1.0, 1.0, ";", Semicolon),
      KeyLayout(3.25, 0.0, 1.0, 1.0, "Q", Q),
      KeyLayout(4.25, 0.0, 1.0, 1.0, "J", J),
      KeyLayout(5.25, 0.0, 1.0, 1.0, "K", K),
      KeyLayout(6.25, 0.0, 1.0, 1.0, "X", X),
      KeyLayout(7.25, 0.0, 1.0, 1.0, "B", B),
      KeyLayout(8.25, 0.0, 1.0, 1.0, "M", M),
      KeyLayout(9.25, 0.0, 1.0, 1.0, "W", W),
      KeyLayout(10.25, 0.0, 1.0, 1.0, "V", V),
      KeyLayout(11.25, 0.0, 1.0, 1.0, "Z", Z),
      KeyLayout(12.25, 0.0, 2.75, 1.0, "Shift", RightShift)
    ]
  }

  function BottomRowKeys(): seq<KeyLayout>
  {
    [
      KeyLayout(0.0, 0.0, 1.25, 1.0, "Ctrl", LeftCtrl),
      KeyLayout(1.25, 0.0, 1.25, 1.0, "Win", LeftSuper),
      KeyLayout(2.5, 0.0, 1.25, 1.0, "Alt", LeftAlt),
      KeyLayout(3.75, 0.0, 6.25, 1.0, "Space", Space),
      KeyLayout(10.0, 0.0, 1.25, 1.0, "Alt", RightAlt),
      KeyLayout(11.25, 0.0, 1.25, 1.0, "Win", RightSuper),
      KeyLayout(12.5, 0.0, 1.25, 1.0, "Menu", Menu),
      KeyLayout(13.75, 0.0, 1.25, 1.0, "Ctrl", RightCtrl)
    ]
  }

  /** The three letter rows (Tab row, Caps row, Shift row) of one layout. */
  datatype LetterRows = LetterRows(row1: seq<KeyLayout>, row2: seq<KeyLayout>, row3: seq<KeyLayout>)

  function QwertyRows(): LetterRows { LetterRows(QwertyRow1(), QwertyRow2(), QwertyRow3()) }
  function QwertzRows(): LetterRows { LetterRows(QwertzRow1(), QwertzRow2(), QwertzRow3()) }
  function AzertyRows(): LetterRows { LetterRows(AzertyRow1(), AzertyRow2(), AzertyRow3()) }
  function ColemakRows(): LetterRows { LetterRows(ColemakRow1(), ColemakRow2(), ColemakRow3()) }
  function DvorakRows(): LetterRows { LetterRows(DvorakRow1(), DvorakRow2(), DvorakRow3()) }

  /** The letter-row selection of the full keyboard: QWERTZ, AZERTY,
      Colemak and Dvorak select their own rows; every other selector value,
      known or not, falls back to QWERTY. */
  function LetterRowsFor(layout: int): LetterRows
  {
    if layout == Qwertz then QwertzRows()
    else if layout == Azerty then AzertyRows()
    else if layout == Colemak then ColemakRows()
    else if layout == Dvorak then DvorakRows()
    else QwertyRows()
  }

  /** A key's rectangle in key units. */
  function KeyRect(k: KeyLayout): Rect
  {
    Rect(Vec2(k.x, k.y), Vec2(k.x + k.width, k.y + k.height))
  }

  /** The key lies within a `w` by `h` grid whose corner is the origin. */
  predicate KeyWithin(k: KeyLayout, w: real, h: real)
  {
    0.0 <= k.x && k.x + k.width <= w && 0.0 <= k.y && k.y + k.height <= h
  }

  /** The two keys do not overlap. */
  predicate KeysDisjoint(a: KeyLayout, b: KeyLayout)
  {
    a.x + a.width <= b.x || b.x + b.width <= a.x || a.y + a.height <= b.y || b.y + b.height <= a.y
  }

  /** Every key of the table lies within a `w` by `h` grid. */
  predicate WithinGrid(keys: seq<KeyLayout>, w: real, h: real)
  {
    forall i :: 0 <= i < |keys| ==> KeyWithin(keys[i], w, h)
  }

  /** No two keys of the table overlap. */
  predicate NonOverlapping(keys: seq<KeyLayout>)
  {
    forall i, j :: 0 <= i < j < |keys| ==> KeysDisjoint(keys[i], keys[j])
  }

  /** Each key starts where the previous one ends. */
  predicate Contiguous(row: seq<KeyLayout>)
  {
    forall i :: 0 < i < |row| ==> row[i].x == row[i - 1].x + row[i - 1].width
  }

  /** Standard-height keys of positive width on one line. */
  predicate OneLine(row: seq<KeyLayout>)
  {
    forall i :: 0 <= i < |row| ==> row[i].y == 0.0 && row[i].height == 1.0 && row[i].width > 0.0
  }

  /** A row of the main block: keys on one line, laid edge to edge from
      x = 0 to exactly 15 key units. */
  predicate MainBlockRow(row: seq<KeyLayout>)
  {
    && |row| > 0
    && row[0].x == 0.0
    && Contiguous(row)
    && OneLine(row)
    && row[|row| - 1].x + row[|row| - 1].width == 15.0
  }

  /** Keys laid out left to right: each starts at or after the end of the
      one before it, and none has negative width. */
  predicate LeftToRight(row: seq<KeyLayout>)
  {
    && (forall i :: 0 < i < |row| ==> row[i - 1].x + row[i - 1].width <= row[i].x)
    && (forall i :: 0 <= i < |row| ==> row[i].width >= 0.0)
  }

  /** The key-unit predicates agree with the plane geometry ones. */
  lemma KeyRectAgrees(a: KeyLayout, b: KeyLayout, w: real, h: real)
    ensures KeysDisjoint(a, b) <==> Disjoint(KeyRect(a), KeyRect(b))
    ensures KeyWithin(a, w, h) <==> RectWithin(KeyRect(a), Rect(Vec2(0.0, 0.0), Vec2(w, h)))
  {
  }

  lemma {:induction false} LeftToRightEndsBefore(row: seq<KeyLayout>, i: nat, j: nat)
    requires LeftToRight(row) && i < j < |row|
    ensures row[i].x + row[i].width <= row[j].x
  {
    if i + 1 < j {
      LeftToRightEndsBefore(row, i, j - 1);
      assert row[j - 1].x <= row[j - 1].x + row[j - 1].width;
    }
  }

  /** Keys laid out left to right never overlap. */
  lemma LeftToRightNonOverlapping(row: seq<KeyLayout>)
    requires LeftToRight(row)
    ensures NonOverlapping(row)
  {
    forall i, j | 0 <= i < j < |row|
      ensures KeysDisjoint(row[i], row[j])
    {
      LeftToRightEndsBefore(row, i, j);
    }
  }

  /** A main-block row lies within the 15 by 1 strip of the main block and
      no two of its keys overlap. */
  lemma MainBlockRowNonOverlapping(row: seq<KeyLayout>)
    requires MainBlockRow(row)
    ensures NonOverlapping(row) && WithinGrid(row, 15.0, 1.0)
  {
    assert LeftToRight(row);
    LeftToRightNonOverlapping(row);
    forall i | 0 <= i < |row|
      ensures KeyWithin(row[i], 15.0, 1.0)
    {
      if i > 0 { LeftToRightEndsBefore(row, 0, i); }
      if i < |row| - 1 { LeftToRightEndsBefore(row, i, |row| - 1); }
    }
  }

  // One lemma per row keeps each proof about a constant table small.

  lemma NumberRowTiles()
    ensures MainBlockRow(NumberRowKeys())
  {
    assert Contiguous(NumberRowKeys());
    assert OneLine(NumberRowKeys());
  }

  lemma BottomRowTiles()
    ensures MainBlockRow(BottomRowKeys())
  {
    assert Contiguous(BottomRowKeys());
    assert OneLine(BottomRowKeys());
  }

  lemma QwertyRow1Tiles()
    ensures MainBlockRow(QwertyRow1())
  {
    assert Contiguous(QwertyRow1());
    assert OneLine(QwertyRow1());
  }

  lemma QwertyRow2Tiles()
    ensures MainBlockRow(QwertyRow2())
  {
    assert Contiguous(QwertyRow2());
    assert OneLine(QwertyRow2());
  }

  lemma QwertyRow3Tiles()
    ensures MainBlockRow(QwertyRow3())
  {
    assert Contiguous(QwertyRow3());
    assert OneLine(QwertyRow3());
  }

  lemma QwertzRow1Tiles()
    ensures MainBlockRow(QwertzRow1())
  {
    assert Contiguous(QwertzRow1());
    assert OneLine(QwertzRow1());
  }

  lemma QwertzRow2Tiles()
    ensures MainBlockRow(QwertzRow2())
  {
    assert Contiguous(QwertzRow2());
    assert OneLine(QwertzRow2());
  }

  lemma QwertzRow3Tiles()
    ensures MainBlockRow(QwertzRow3())
  {
    assert Contiguous(QwertzRow3());
    assert OneLine(QwertzRow3());
  }

  lemma AzertyRow1Tiles()
    ensures MainBlockRow(AzertyRow1())
  {
    assert Contiguous(AzertyRow1());
    assert OneLine(AzertyRow1());
  }

  lemma AzertyRow2Tiles()
    ensures MainBlockRow(AzertyRow2())
  {
    assert Contiguous(AzertyRow2());
    assert OneLine(AzertyRow2());
  }

  lemma AzertyRow3Tiles()
    ensures MainBlockRow(AzertyRow3())
  {
    assert Contiguous(AzertyRow3());
    assert OneLine(AzertyRow3());
  }

  lemma ColemakRow1Tiles()
    ensures MainBlockRow(ColemakRow1())
  {
    assert Contiguous(ColemakRow1());
    assert OneLine(ColemakRow1());
  }

  lemma ColemakRow2Tiles()
    ensures MainBlockRow(ColemakRow2())
  {
    assert Contiguous(ColemakRow2());
    assert OneLine(ColemakRow2());
  }

  lemma ColemakRow3Tiles()
    ensures MainBlockRow(ColemakRow3())
  {
    assert Contiguous(ColemakRow3());
    assert OneLine(ColemakRow3());
  }

  lemma DvorakRow1Tiles()
    ensures MainBlockRow(DvorakRow1())
  {
    assert Contiguous(DvorakRow1());
    assert OneLine(DvorakRow1());
  }

  lemma DvorakRow2Tiles()
    ensures MainBlockRow(DvorakRow2())
  {
    assert Contiguous(DvorakRow2());
    assert OneLine(DvorakRow2());
  }

  lemma DvorakRow3Tiles()
    ensures MainBlockRow(DvorakRow3())
  {
    assert Contiguous(DvorakRow3());
    assert OneLine(DvorakRow3());
  }

  /** The number row and the bottom (modifier and space bar) row tile the
      main block. */
  lemma NumberAndBottomRowsTile()
    ensures MainBlockRow(NumberRowKeys()) && MainBlockRow(BottomRowKeys())
  {
    NumberRowTiles();
    BottomRowTiles();
  }

  /** Whichever letter rows a selector chooses, each of the three tiles
      the main block. */
  lemma LetterRowsTile(layout: int)
    ensures MainBlockRow(LetterRowsFor(layout).row1)
    ensures MainBlockRow(LetterRowsFor(layout).row2)
    ensures MainBlockRow(LetterRowsFor(layout).row3)
  {
    QwertyRow1Tiles(); QwertyRow2Tiles(); QwertyRow3Tiles();
    QwertzRow1Tiles(); QwertzRow2Tiles(); QwertzRow3Tiles();
    AzertyRow1Tiles(); AzertyRow2Tiles(); AzertyRow3Tiles();
    ColemakRow1Tiles(); ColemakRow2Tiles(); ColemakRow3Tiles();
    DvorakRow1Tiles(); DvorakRow2Tiles(); DvorakRow3Tiles();
  }

  /** The letter-row selection: QWERTZ, AZERTY, Colemak and Dvorak each get
      their own rows, and a selector gets the QWERTY rows exactly when it is
      none of those four (QWERTY itself, the numeric pad, or an unknown
      value). */
  lemma LetterRowsDispatch(layout: int)
    ensures layout == Qwertz ==> LetterRowsFor(layout) == QwertzRows()
    ensures layout == Azerty ==> LetterRowsFor(layout) == AzertyRows()
    ensures layout == Colemak ==> LetterRowsFor(layout) == ColemakRows()
    ensures layout == Dvorak ==> LetterRowsFor(layout) == DvorakRows()
    ensures LetterRowsFor(layout) == QwertyRows() <==>
      layout != Qwertz && layout != Azerty && layout != Colemak && layout != Dvorak
  {
    if layout == Qwertz {
      QwertzNotQwerty();
    } else if layout == Azerty {
      AzertyNotQwerty();
    } else if layout == Colemak {
      ColemakNotQwerty();
    } else if layout == Dvorak {
      DvorakNotQwerty();
    }
  }

  // The other four tables differ from QWERTY in the first letter row.

  lemma QwertzNotQwerty()
    ensures QwertzRows() != QwertyRows()
  {
    assert QwertzRow1()[6].key == Z != QwertyRow1()[6].key;
  }

  lemma AzertyNotQwerty()
    ensures AzertyRows() != QwertyRows()
  {
    assert AzertyRow1()[1].key == A != QwertyRow1()[1].key;
  }

  lemma ColemakNotQwerty()
    ensures ColemakRows() != QwertyRows()
  {
    assert ColemakRow1()[3].key == F != QwertyRow1()[3].key;
  }

  lemma DvorakNotQwerty()
    ensures DvorakRows() != QwertyRows()
  {
    assert DvorakRow1()[1].key == Apostrophe != QwertyRow1()[1].key;
  }

  lemma FunctionRowGaps()
    ensures forall i :: 0 < i < |FunctionRowKeys()| ==>
      FunctionRowKeys()[i - 1].x + FunctionRowKeys()[i - 1].width <= FunctionRowKeys()[i].x
  {
  }

  lemma FunctionRowWithin()
    ensures WithinGrid(FunctionRowKeys(), 18.25, 1.0)
  {
  }

  /** The function row lies on one line within 18.25 key units, left to
      right, without overlap. */
  lemma FunctionRowLayout()
    ensures LeftToRight(FunctionRowKeys()) && NonOverlapping(FunctionRowKeys())
    ensures WithinGrid(FunctionRowKeys(), 18.25, 1.0)
  {
    FunctionRowGaps();
    FunctionRowWithin();
    LeftToRightNonOverlapping(FunctionRowKeys());
  }

  lemma NumpadWithin()
    ensures WithinGrid(NumpadKeys(), 4.0, 5.0)
  {
  }

  lemma NumpadUpperDisjoint()
    ensures forall i, j :: 0 <= i < 8 && i < j < |NumpadKeys()| ==> KeysDisjoint(NumpadKeys()[i], NumpadKeys()[j])
  {
  }

  lemma NumpadLowerDisjoint()
    ensures forall i, j :: 8 <= i < j < |NumpadKeys()| ==> KeysDisjoint(NumpadKeys()[i], NumpadKeys()[j])
  {
  }

  /** The numeric keypad fills a 4 by 5 grid without overlap ('+' and 'Ent'
      span two rows, '0' spans two columns). */
  lemma NumpadGrid()
    ensures WithinGrid(NumpadKeys(), 4.0, 5.0) && NonOverlapping(NumpadKeys())
  {
    NumpadWithin();
    NumpadUpperDisjoint();
    NumpadLowerDisjoint();
  }

  lemma NavClusterWithin()
    ensures WithinGrid(NavClusterKeys(), 3.0, 5.0)
  {
  }

  lemma NavClusterUpperDisjoint()
    ensures forall i, j :: 0 <= i < 6 && i < j < |NavClusterKeys()| ==>
      KeysDisjoint(NavClusterKeys()[i], NavClusterKeys()[j])
  {
  }

  lemma NavClusterArrowsDisjoint()
    ensures forall i, j :: 6 <= i < j < |NavClusterKeys()| ==>
      KeysDisjoint(NavClusterKeys()[i], NavClusterKeys()[j])
  {
  }

  /** The navigation cluster lies in a 3 by 5 grid without overlap. */
  lemma NavClusterGrid()
    ensures WithinGrid(NavClusterKeys(), 3.0, 5.0) && NonOverlapping(NavClusterKeys())
  {
    NavClusterWithin();
    NavClusterUpperDisjoint();
    NavClusterArrowsDisjoint();
  }
}

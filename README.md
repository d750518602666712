# imgui_keyboard input widgets, modelled in Dafny

Three immediate-mode Dear ImGui widgets draw input devices and mark the
keys or buttons that are pressed or highlighted:

- **Keyboard**: a keyboard in one of six layouts (QWERTY, QWERTZ, AZERTY,
  Colemak, Dvorak, or the numeric pad alone).
- **Gamepad**: a controller in one of four face-label layouts, with flags
  that show or hide its parts.
- **Mouse**: a mouse with two or three buttons and an optional wheel. With
  the Recordable flag, a click on a drawn button toggles that button in a
  recorded list.

Each widget keeps a context with a duplicate-free list of highlighted
identifiers; the mouse context keeps a second list, of recorded buttons.

What the model contains:

- `geometry.dfy`: points, rectangles and the half-open hit test.
- `keys.dfy`: the host's key identifiers.
- `id_list.dfy`: the in-place identifier list that all contexts share.
  - Add-if-absent, erase-first-match and clear are class methods.
  - The functions `Updated` and `Toggled` give their value-level meaning.
- `keyboard_layouts.dfy`: the static key tables, and lemmas that each table
  tiles its grid.
- `keyboard.dfy`, `gamepad.dfy`, `mouse.dfy`: each widget's context class and
  its spec functions.

How the model is stated:

- Drawing is modelled as a *frame*: a value that records what one call paints,
  in painting order. It holds rectangles, circles, lines, labels and overlays.
- Every render method is proved to produce exactly the frame its spec
  function describes.
- Every method that changes a list is proved to leave it equal to `Updated`
  (or `Toggled`) of the old list.
- The lemmas then state the widgets' promises about those functions:
  - layout and tiling;
  - overlay precedence;
  - which flags hide what;
  - when recording happens.

Host queries are parameters of the model:

- the font size;
- the cursor position;
- item visibility;
- keys down;
- mouse buttons down and clicked;
- the mouse position.

Scales and lengths are exact reals.

## Model

| member | source | states |
|---|---|---|
| IdLists.UpdatedSpec | imgui_keyboard.cpp:415-431 | Setting membership keeps the list duplicate-free. The identifier is a member exactly when asked. Others keep their membership. An add appends at the end, a remove splices out the one occurrence keeping the order, and a no-op update leaves the list unchanged. |
| IdLists.UpdatedIdempotent | imgui_gamepad.cpp:62-76 | Highlighting (or un-highlighting) the same identifier twice is the same as once. |
| IdLists.ToggleFlips | imgui_mouse.cpp:68-82 | Recording with the negation of the current membership flips that identifier's membership and no other, keeping the list duplicate-free. |
| IdLists.RemoveFirstAt | imgui_keyboard.cpp:423-429 | Erasing the first match found by the scan removes exactly that position, keeping everything before and after in order. |
| IdLists.RemoveFirstAbsent | imgui_keyboard.cpp:423-429 | Erasing an absent identifier changes nothing. |
| IdLists.IndexOf | imgui_keyboard.cpp:424-425 | The scan stops at the first occurrence. |
| IdLists.IdList.Contains | imgui_keyboard.cpp:55-63 | The linear scan answers exactly membership. |
| IdLists.IdList.Set | imgui_keyboard.cpp:415-431 | In-place add-if-absent or erase-first-match yields `Updated` of the old list and keeps it duplicate-free. |
| IdLists.IdList.Clear | imgui_keyboard.cpp:433-436 | Clearing empties the list. |
| KeyboardLayouts.LetterRowsDispatch | imgui_keyboard.cpp:496-537 | QWERTZ, AZERTY, Colemak and Dvorak get their own letter rows. Any other selector, the numeric pad and unknown values included, gets QWERTY rows, and only those get them. |
| KeyboardLayouts.LetterRowsTile | imgui_keyboard.cpp:145-356 | Every selector's three letter rows lie edge to edge on one line, from 0 to exactly 15 key units. |
| KeyboardLayouts.NumberAndBottomRowsTile | imgui_keyboard.cpp:134-142 | The number row, and the bottom row of lines 359-364, each tile the 15-unit main block. |
| KeyboardLayouts.NumberRowTiles | imgui_keyboard.cpp:134-142 | The number row tiles 0 to 15 key units. |
| KeyboardLayouts.BottomRowTiles | imgui_keyboard.cpp:359-364 | The modifier and space-bar row tiles 0 to 15 key units. |
| KeyboardLayouts.QwertyRow1Tiles | imgui_keyboard.cpp:145-160 | The QWERTY Tab row tiles 0 to 15 key units. |
| KeyboardLayouts.QwertyRow2Tiles | imgui_keyboard.cpp:162-170 | The QWERTY Caps row tiles 0 to 15 key units. |
| KeyboardLayouts.QwertyRow3Tiles | imgui_keyboard.cpp:172-185 | The QWERTY Shift row tiles 0 to 15 key units. |
| KeyboardLayouts.QwertzRow1Tiles | imgui_keyboard.cpp:188-203 | The QWERTZ Tab row tiles 0 to 15 key units. |
| KeyboardLayouts.QwertzRow2Tiles | imgui_keyboard.cpp:205-213 | The QWERTZ Caps row tiles 0 to 15 key units. |
| KeyboardLayouts.QwertzRow3Tiles | imgui_keyboard.cpp:215-228 | The QWERTZ Shift row tiles 0 to 15 key units. |
| KeyboardLayouts.AzertyRow1Tiles | imgui_keyboard.cpp:231-246 | The AZERTY Tab row tiles 0 to 15 key units. |
| KeyboardLayouts.AzertyRow2Tiles | imgui_keyboard.cpp:248-256 | The AZERTY Caps row tiles 0 to 15 key units. |
| KeyboardLayouts.AzertyRow3Tiles | imgui_keyboard.cpp:258-271 | The AZERTY Shift row tiles 0 to 15 key units. |
| KeyboardLayouts.ColemakRow1Tiles | imgui_keyboard.cpp:274-289 | The Colemak Tab row tiles 0 to 15 key units. |
| KeyboardLayouts.ColemakRow2Tiles | imgui_keyboard.cpp:291-305 | The Colemak Backspace row tiles 0 to 15 key units. |
| KeyboardLayouts.ColemakRow3Tiles | imgui_keyboard.cpp:307-320 | The Colemak Shift row tiles 0 to 15 key units. |
| KeyboardLayouts.DvorakRow1Tiles | imgui_keyboard.cpp:323-331 | The Dvorak Tab row tiles 0 to 15 key units. |
| KeyboardLayouts.DvorakRow2Tiles | imgui_keyboard.cpp:333-341 | The Dvorak Caps row tiles 0 to 15 key units. |
| KeyboardLayouts.DvorakRow3Tiles | imgui_keyboard.cpp:343-356 | The Dvorak Shift row tiles 0 to 15 key units. |
| KeyboardLayouts.QwertzNotQwerty | imgui_keyboard.cpp:188-203 | The QWERTZ rows differ from the QWERTY ones. |
| KeyboardLayouts.AzertyNotQwerty | imgui_keyboard.cpp:231-246 | The AZERTY rows differ from the QWERTY ones. |
| KeyboardLayouts.ColemakNotQwerty | imgui_keyboard.cpp:274-289 | The Colemak rows differ from the QWERTY ones. |
| KeyboardLayouts.DvorakNotQwerty | imgui_keyboard.cpp:323-331 | The Dvorak rows differ from the QWERTY ones. |
| KeyboardLayouts.MainBlockRowNonOverlapping | imgui_keyboard.cpp:134-142 | A row laid edge to edge from 0 to 15 lies in the 15 by 1 strip with no two keys overlapping. |
| KeyboardLayouts.LeftToRightNonOverlapping | imgui_keyboard.cpp:92-113 | Keys laid left to right never overlap. |
| KeyboardLayouts.FunctionRowLayout | imgui_keyboard.cpp:92-113 | Esc, F1-F12 in groups of four, and Print/Scroll/Pause lie left to right within 18.25 key units, without overlap. |
| KeyboardLayouts.FunctionRowGaps | imgui_keyboard.cpp:92-113 | Each function-row key starts at or after the end of the one before it. |
| KeyboardLayouts.FunctionRowWithin | imgui_keyboard.cpp:92-113 | The function row lies within 18.25 by 1 key units. |
| KeyboardLayouts.NumpadGrid | imgui_keyboard.cpp:66-89 | The keypad fills a 4 by 5 grid without overlap, with tall + and Enter and a wide 0. |
| KeyboardLayouts.NumpadWithin | imgui_keyboard.cpp:66-89 | Every keypad key lies within 4 by 5 key units. |
| KeyboardLayouts.NumpadUpperDisjoint | imgui_keyboard.cpp:66-80 | The keypad's top two rows, including +, overlap no other keypad key. |
| KeyboardLayouts.NumpadLowerDisjoint | imgui_keyboard.cpp:80-89 | The keypad's lower keys do not overlap one another. |
| KeyboardLayouts.NavClusterGrid | imgui_keyboard.cpp:116-131 | The navigation cluster lies in a 3 by 5 grid without overlap. |
| KeyboardLayouts.NavClusterWithin | imgui_keyboard.cpp:116-131 | Every navigation key lies within 3 by 5 key units. |
| KeyboardLayouts.NavClusterUpperDisjoint | imgui_keyboard.cpp:116-125 | The six editing keys overlap no other cluster key. |
| KeyboardLayouts.NavClusterArrowsDisjoint | imgui_keyboard.cpp:125-130 | The four arrow keys do not overlap. |
| KeyboardWidget.OverlayFor | imgui_keyboard.cpp:387-402 | The overlay shows "pressed" exactly when pressed and "highlighted" exactly when highlighted. Both at once have their own colour; no overlay when neither. |
| KeyboardWidget.RenderKey | imgui_keyboard.cpp:366-403 | A painted key's background has its corner and extent as given. Its face is the background inset by the scaled face offset on every side, and its label anchor is the corner plus the scaled label offset. Its overlay tells exactly whether ShowPressed is set with the key down and whether it is highlighted. |
| KeyboardWidget.FaceWithinKey | imgui_keyboard.cpp:374-386 | With non-negative face offsets and scale, the face lies within the key's background. |
| KeyboardWidget.PlacedKeysDisjoint | imgui_keyboard.cpp:407-411 | Keys apart in key units are painted apart, at any non-negative key unit and scale. |
| KeyboardWidget.PlacedKeyWithin | imgui_keyboard.cpp:407-411 | A key within its grid is painted within the grid's rectangle. |
| KeyboardWidget.AdjacentKeysGap | imgui_keyboard.cpp:408-409 | Keys that touch in the table are painted exactly two scaled pixels apart, with equal top and bottom. |
| KeyboardWidget.PlaceRowSound | imgui_keyboard.cpp:405-413 | A sound table is painted without overlap, inside its grid. |
| KeyboardWidget.DrawnAvoid | imgui_keyboard.cpp:539-560 | Painted keys avoid any rectangle that every section grid avoids. |
| KeyboardWidget.DrawnWithin | imgui_keyboard.cpp:539-560 | Painted keys lie in any rectangle that holds every section grid. |
| KeyboardWidget.DrawnDisjoint | imgui_keyboard.cpp:539-560 | Sound tables whose grids are apart are painted with no two keys overlapping. |
| KeyboardWidget.DrawnOverlays | imgui_keyboard.cpp:387-402 | Every painted key, over all sections, reports exactly pressed and highlighted. |
| KeyboardWidget.TablesFor | imgui_keyboard.cpp:494-537 | The letter rows follow the selector, and the keypad table is shared. |
| KeyboardWidget.TablesForSound | imgui_keyboard.cpp:66-364 | Every selector's tables fit their grids without overlap. |
| KeyboardWidget.Sections | imgui_keyboard.cpp:470-560 | The numeric pad draws the keypad alone at the start. Every other selector draws eight tables, with its letter rows third to fifth. |
| KeyboardWidget.BoardFrameParts | imgui_keyboard.cpp:448-468 | The board is reserved at the cursor with the layout's size, and keys are painted only when the host reports the board visible. |
| KeyboardWidget.NumpadBoardSmaller | imgui_keyboard.cpp:448-459 | The keypad-only board is strictly smaller in both dimensions. |
| KeyboardWidget.SectionsFillBoard | imgui_keyboard.cpp:448-462 | The keypad is drawn last, and its grid ends exactly one padding inside the board's far corner. |
| KeyboardWidget.FullSectionsSound | imgui_keyboard.cpp:476-560 | The sections of a full board fit their grids. |
| KeyboardWidget.FullRegionsMatch | imgui_keyboard.cpp:476-560 | Each full-board section sits at the source's origin: number row 1.5 units down, letter rows below it, cluster and keypad one section gap apart. |
| KeyboardWidget.FullRegionsApart | imgui_keyboard.cpp:476-560 | The eight grids of a full board do not overlap. |
| KeyboardWidget.FullRegionsInside | imgui_keyboard.cpp:452-459 | The eight grids lie in the 22-unit-plus-two-gaps by 6.5-unit inner area. |
| KeyboardWidget.FullBoardSound | imgui_keyboard.cpp:470-560 | A full board's painted keys lie in the board and do not overlap. |
| KeyboardWidget.NumpadBoardSound | imgui_keyboard.cpp:470-473 | The keypad-only board's keys lie in the board and do not overlap. |
| KeyboardWidget.InnerWithinBoard | imgui_keyboard.cpp:448-462 | The area the sections use lies in the reserved board, one padding in. |
| KeyboardWidget.BoardFrameSound | imgui_keyboard.cpp:438-564 | With non-negative lengths, every painted key lies inside the reserved board, and no two overlap. |
| KeyboardWidget.BoardFrameOverlays | imgui_keyboard.cpp:387-402 | Every painted key of a call shows pressed and highlighted exactly. Nothing is painted when not visible. |
| KeyboardWidget.KeyboardKeysSound | imgui_keyboard.cpp:438-564 | For every layout at every non-negative font size and style, a call paints its keys inside its board without overlap. |
| KeyboardWidget.FullPaintOrder | imgui_keyboard.cpp:476-560 | Function row, number row, three letter rows, bottom row, navigation cluster, then keypad. |
| KeyboardWidget.NumpadPaintOrder | imgui_keyboard.cpp:470-473 | The keypad-only board paints the keypad table alone at the key-area start. |
| KeyboardWidget.FrameOfRows | imgui_keyboard.cpp:470-560 | The tables painted in source order make up exactly the board frame. |
| KeyboardWidget.KeyboardContext.constructor | imgui_keyboard.cpp:7-16 | A fresh context has no highlighted keys and the default style (34, 15, 3, 2, 2, (4,3), (6,4), 5). |
| KeyboardWidget.KeyboardContext.IsKeyHighlighted | imgui_keyboard.cpp:55-63 | The scan answers exactly membership in the highlighted keys. |
| KeyboardWidget.KeyboardContext.Highlight | imgui_keyboard.cpp:415-431 | Highlighting adds if absent; un-highlighting erases the first match; the list stays duplicate-free. |
| KeyboardWidget.KeyboardContext.ClearHighlights | imgui_keyboard.cpp:433-436 | Clearing empties the highlighted keys. |
| KeyboardWidget.KeyboardContext.PaintKey | imgui_keyboard.cpp:366-403 | Background, face, label anchor and the four-way overlay chain give exactly `RenderKey`. |
| KeyboardWidget.KeyboardContext.RenderKeyRow | imgui_keyboard.cpp:405-413 | The loop paints exactly `PlaceRow` of the table. |
| KeyboardWidget.KeyboardContext.Keyboard | imgui_keyboard.cpp:438-564 | One call produces the board frame of the selector's tables at scale font size over 13. |
| KeyboardWidget.KeyboardContext.PaintBoard | imgui_keyboard.cpp:448-563 | Reserve, check visibility, and paint the tables in order, giving the board frame. |
| GamepadWidget.FaceLabelsFallback | imgui_gamepad.cpp:339-360 | Only PlayStation and Switch Pro differ from the Xbox labels; Steam and unknown values fall back to them. |
| GamepadWidget.FaceLabelsDistinct | imgui_gamepad.cpp:339-360 | No two face buttons share a label, in any layout. |
| GamepadWidget.SwitchProReflectsXbox | imgui_gamepad.cpp:346-357 | The Switch Pro labels are the Xbox labels with A/B and X/Y swapped. |
| GamepadWidget.OverlayFor | imgui_gamepad.cpp:97-103 | Pressed beats highlighted; no combined colour. |
| GamepadWidget.ButtonOverlay | imgui_gamepad.cpp:97-103 | Pressed exactly when ShowPressed is set and the key down; otherwise highlighted exactly when listed. |
| GamepadWidget.TriggerFill | imgui_gamepad.cpp:207-211 | The level is 0 or 1, and positive exactly when levels are shown, pressed overlays are wanted and the trigger is down; no analog value is read. |
| GamepadWidget.TriggerBar | imgui_gamepad.cpp:207-216 | A fill bar exists exactly when levels are shown and the trigger counts as pressed, and the bar then covers the whole trigger. |
| GamepadWidget.ArmRectInCross | imgui_gamepad.cpp:106-172 | Each direction's overlay lies inside its arm of the cross. |
| GamepadWidget.OppositeArmsDisjoint | imgui_gamepad.cpp:129-150 | Up and down, and left and right, overlays are apart for a positive size. |
| GamepadWidget.ArmsOfMembers | imgui_gamepad.cpp:129-172 | The overlays listed are exactly those of the selected directions, each over its own rectangle, at most four. |
| GamepadWidget.DPadOverlaysIndependent | imgui_gamepad.cpp:129-172 | A direction has the pressed overlay exactly when pressed, and the highlighted one exactly when highlighted (both can appear); at most eight overlays. |
| GamepadWidget.DecodeHideBit | imgui_gamepad.cpp:267-275 | Setting one hide bit turns on its own switch and no other. |
| GamepadWidget.HideFlagGate | imgui_gamepad.cpp:267-391 | Setting one hide flag empties exactly its part of the frame and leaves the rest, body included, unchanged. |
| GamepadWidget.FrameHiding | imgui_gamepad.cpp:287-389 | Turning on a hide switch removes that part and nothing else. |
| GamepadWidget.HidingKeepsShows | imgui_gamepad.cpp:267-275 | Hide switches leave ShowPressed and ShowTriggers alone. |
| GamepadWidget.GateHiding | imgui_gamepad.cpp:287-389 | Gating with one more hide switch empties just that part. |
| GamepadWidget.BodyMargins | imgui_gamepad.cpp:277-285 | The body sits 10 scaled pixels in on left, right and bottom, and the trigger strip plus 10 down from the top. |
| GamepadWidget.TriggersAboveBody | imgui_gamepad.cpp:287-293 | At a positive scale both triggers lie below the canvas top and end above the body. |
| GamepadWidget.TriggersAndShouldersMirrored | imgui_gamepad.cpp:287-308 | Left and right triggers, and L1 and R1, mirror across the body's centre line. |
| GamepadWidget.SticksAndCenterButtonsSymmetric | imgui_gamepad.cpp:316-389 | The sticks are point-symmetric about the body centre; Back and Start mirror at one height. |
| GamepadWidget.FaceButtonSpacing | imgui_gamepad.cpp:330-374 | Face centres are 0.65 button sizes out on the axes with radius 0.5. Top and bottom are apart, while the top and right buttons overlap (squared distance 0.845 times the squared sum of radii). |
| GamepadWidget.GamepadContext.constructor | imgui_gamepad.cpp:7-17 | A fresh context has no highlighted buttons and the default style (1, 200, 120, 20, 20, 10, 40, 30, 30, 15). |
| GamepadWidget.GamepadContext.IsButtonHighlighted | imgui_gamepad.cpp:52-60 | The scan answers exactly membership. |
| GamepadWidget.GamepadContext.HighlightButton | imgui_gamepad.cpp:62-76 | Add if absent or erase the first match, keeping the list duplicate-free. |
| GamepadWidget.GamepadContext.ClearHighlights | imgui_gamepad.cpp:78-81 | Clearing empties the list. |
| GamepadWidget.GamepadContext.OverlayOf | imgui_gamepad.cpp:97-103 | The overlay read from the host and the list is `ButtonOverlay`. |
| GamepadWidget.GamepadContext.RenderButton | imgui_gamepad.cpp:83-104 | A round button is drawn at its centre and radius with its label and `ButtonOverlay`. |
| GamepadWidget.GamepadContext.RenderDPad | imgui_gamepad.cpp:106-173 | Cross, then pressed directions (only with ShowPressed), then highlighted ones, as `DPad`. |
| GamepadWidget.GamepadContext.PressedArms | imgui_gamepad.cpp:129-151 | The pressed directions' overlays in the order up, down, left, right. |
| GamepadWidget.GamepadContext.HighlightedArms | imgui_gamepad.cpp:152-172 | The highlighted directions' overlays in the order up, down, left, right. |
| GamepadWidget.GamepadContext.RenderAnalogStick | imgui_gamepad.cpp:175-197 | The stick base with its click overlay; the position switch changes nothing. |
| GamepadWidget.GamepadContext.RenderTrigger | imgui_gamepad.cpp:199-228 | Trigger rectangle, fill bar when shown and pressed, and its overlay. |
| GamepadWidget.GamepadContext.TriggerLevel | imgui_gamepad.cpp:207-219 | The fill level and bar the trigger paints. |
| GamepadWidget.GamepadContext.RenderShoulderButton | imgui_gamepad.cpp:230-252 | A labelled box with its overlay. |
| GamepadWidget.GamepadContext.Gamepad | imgui_gamepad.cpp:254-391 | One call produces `Frame` of the decoded flags at scale style factor times font size over 13. |
| GamepadWidget.GamepadContext.PaintGamepad | imgui_gamepad.cpp:277-390 | Canvas, triggers unless hidden, body, then the controls. |
| GamepadWidget.GamepadContext.PaintControls | imgui_gamepad.cpp:301-389 | Shoulders, D-pad, sticks, face and centre buttons, each unless its hide flag is set. |
| GamepadWidget.GamepadContext.PaintTriggers | imgui_gamepad.cpp:287-293 | L2 then R2 above the body. |
| GamepadWidget.GamepadContext.PaintShoulders | imgui_gamepad.cpp:301-308 | L1 then R1 at the body's top corners. |
| GamepadWidget.GamepadContext.PaintSticks | imgui_gamepad.cpp:316-327 | L3 then R3. |
| GamepadWidget.GamepadContext.PaintFaceButtons | imgui_gamepad.cpp:329-375 | Top, right, bottom, left, labelled by the layout. |
| GamepadWidget.GamepadContext.PaintCenterButtons | imgui_gamepad.cpp:376-389 | Unlabelled Back then Start. |
| MouseWidget.ButtonWidths | imgui_mouse.cpp:156-166 | Left and right are equally wide. With three sections, left + gap + wheel + gap + right is the body width. Otherwise left + gap + right is, and there is no middle. |
| MouseWidget.OverlayFor | imgui_mouse.cpp:189-198 | Pressed beats highlighted beats recorded; exactly one overlay or none. |
| MouseWidget.SectionsTileBody | imgui_mouse.cpp:156-237 | Left starts at the body's left edge and right ends at its right edge. The two have equal widths, consecutive sections are one gap apart, and the middle is one wheel wide. |
| MouseWidget.SectionsDisjoint | imgui_mouse.cpp:156-237 | With non-negative gap and wheel width no two sections overlap. |
| MouseWidget.SectionsInCanvas | imgui_mouse.cpp:126-154 | For sane lengths the sections lie in the body and the body in the canvas, so the canvas test never rejects a recording click on a button. |
| MouseWidget.DefaultStyleSane | imgui_mouse.cpp:7-16 | The default style is sane at every non-negative font size. |
| MouseWidget.AtMostOneRecordingClick | imgui_mouse.cpp:182-264 | One mouse position gives at most one button a recording click per call. |
| MouseWidget.PassToggles | imgui_mouse.cpp:182-187 | A button's turn toggles it exactly on its recording click and leaves every other identifier alone. |
| MouseWidget.RecordedAfterToggles | imgui_mouse.cpp:168-277 | A call flips a button's recorded membership exactly when it gets a recording click; the middle only in the three-button layout. |
| MouseWidget.RecordingNeedsClick | imgui_mouse.cpp:150-154 | Without Recordable, or without a recording click, the recorded list is untouched. |
| MouseWidget.OverlaysShowFinalRecord | imgui_mouse.cpp:178-198 | Each painted button's recorded overlay matches the list the call leaves, and only with Recordable. |
| MouseWidget.FrameParts | imgui_mouse.cpp:233-277 | A middle button appears exactly in the three-button layout, a wheel exactly with ShowWheel, both over the middle section. |
| MouseWidget.NotchesInside | imgui_mouse.cpp:244-249 | Three horizontal notches, one spacing apart, strictly between the wheel top and four spacings down. |
| MouseWidget.WheelNotchesInside | imgui_mouse.cpp:239-250 | With a positive wheel height the notches fall strictly inside the wheel. |
| MouseWidget.RecordingOrder | imgui_mouse.cpp:68-82 | The recorded list keeps click order: a recording click on an unrecorded button appends it at the end, and one on a recorded button splices it out, keeping the others in order. |
| MouseWidget.MouseContext.constructor | imgui_mouse.cpp:7-32 | Two distinct empty lists and the default style (1, 60, 100, 30, 35, 2, 10, 20). |
| MouseWidget.MouseContext.IsButtonHighlighted | imgui_mouse.cpp:48-56 | The scan answers exactly membership in the highlighted buttons. |
| MouseWidget.MouseContext.IsButtonRecorded | imgui_mouse.cpp:58-66 | The scan answers exactly membership in the recorded buttons. |
| MouseWidget.MouseContext.Record | imgui_mouse.cpp:68-82 | The recorded list becomes `Updated`; the highlighted list is untouched. |
| MouseWidget.MouseContext.HighlightButton | imgui_mouse.cpp:84-98 | The highlighted list becomes `Updated`; the recorded list is untouched. |
| MouseWidget.MouseContext.ClearHighlights | imgui_mouse.cpp:100-103 | Empties the highlighted list only. |
| MouseWidget.MouseContext.ClearRecorded | imgui_mouse.cpp:105-108 | Empties the recorded list only. |
| MouseWidget.MouseContext.GetRecordedButtons | imgui_mouse.cpp:110-112 | Returns the recorded list in recording order, duplicate-free. |
| MouseWidget.MouseContext.RenderButton | imgui_mouse.cpp:178-198 | Read pressed, highlighted and (when recordable) recorded. On a recording click toggle and flip the reading, then pick the overlay, as `ButtonPass`. |
| MouseWidget.MouseContext.DrawNotches | imgui_mouse.cpp:243-249 | The loop yields exactly the three notch lines. |
| MouseWidget.MouseContext.Mouse | imgui_mouse.cpp:114-280 | One call produces `MouseFrameOf`, and leaves the recorded list as `RecordedAfter` of the old one. |
| MouseWidget.MouseContext.PaintMouse | imgui_mouse.cpp:126-277 | Canvas, body, left, right, then wheel and middle button, toggling on recording clicks. |

## Left out

- Colours, rounding radii, border thicknesses, the clip rectangle and text metrics are not modelled. A frame records shapes, labels and overlays only. For each key it records the background, the face, the label text and the label anchor.
- Host calls are parameters of the model; the demo windows (`KeyboardDemo`, `GamepadDemo`, `MouseDemo`) are UI code outside the widgets and are not modelled.
  - Font size, cursor position and item visibility.
  - Keys and mouse buttons down, mouse clicks and mouse position.
- Single-precision floating point is modelled as exact reals, so rounding is not captured.
- The process-wide singleton contexts become explicit context objects, each owning its lists. `GetStyle` returning a mutable reference is the `style` field.
- imgui_keyboard.h is not part of this model. The keyboard's ShowPressed flag is taken as bit 0. The layout order comes from the demo's name list (imgui_keyboard.cpp:581).
- imgui_mouse.h declares neither the Recordable flag, the recorded colour, `ClearRecorded`, nor `GetRecordedButtons`, though imgui_mouse.cpp uses them. Recordable is modelled as bit 2.
- The keyboard has no style scale factor: it scales by font size over 13 alone (imgui_keyboard.cpp:443).
- The gamepad reads no analog values: the stick position switch does nothing (imgui_gamepad.cpp:182-186). The trigger level is only 0 or 1 (imgui_gamepad.cpp:207-211). The stick's inner circle is not modelled.
- The gamepad style keeps its ButtonRounding field, but nothing in the model reads it, as nothing in imgui_gamepad.cpp does.
- Key identifiers other than the named keys are `Other(code)`. The model takes such a code never to equal the host value of a named key. Two model keys are then equal exactly when the host keys are, and duplicate-freedom means the same as for the host's lists.
- GamepadWidget.FaceButtonSpacing: states the top-right overlap as an equality of the squared distance with 0.845 times the squared sum of radii, rather than as an inequality.
- In the three-button mouse layout without ShowWheel, the middle section gets no background; only its overlay is painted (imgui_mouse.cpp:233-277). The model paints exactly that.
- The mouse reads the mouse position only when recordable (imgui_mouse.cpp:150-154). The model takes the position as a parameter, and uses it only in that case.

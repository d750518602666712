/** The mouse widget: a body split into a left button, an optional middle
    section (a scroll wheel, a middle button, or both) and a right button.
    Buttons light up when pressed, highlighted or recorded; with the
    Recordable flag a click inside a button toggles it in the recorded
    list during the render itself. The host's mouse position, button
    state, font size and cursor position are parameters. */
module MouseWidget {
  import opened Geometry
  import opened IdLists

  datatype Option<T> = None | Some(value: T)

  // Layout selector values.
  const TwoButton: int := 0
  const ThreeButton: int := 1

  // Flag bits. Recordable is not declared beside the other two; it is
  // modelled as the next free bit.
  const ShowPressed: bv32 := 1
  const ShowWheel: bv32 := 2
  const Recordable: bv32 := 4

  // Host mouse button identifiers.
  const LeftButton: int := 0
  const RightButton: int := 1
  const MiddleButton: int := 2

  /** The style's lengths, in pixels before scaling, and the overall scale
      factor (colours are not modelled). */
  datatype MouseStyle = MouseStyle(
    scale: real,
    bodyWidth: real,
    bodyHeight: real,
    bodyRounding: real,
    buttonHeight: real,
    buttonGap: real,
    wheelWidth: real,
    wheelHeight: real)

  const DefaultStyle := MouseStyle(1.0, 60.0, 100.0, 30.0, 35.0, 2.0, 10.0, 20.0)

  /** Pixel lengths at one call: the scale and every style length times it. */
  datatype Dims = Dims(s: real, bodyWidth: real, bodyHeight: real, buttonHeight: real, buttonGap: real,
                       wheelWidth: real, wheelHeight: real)

  /** The scale: the style's factor times the font size over 13. */
  function MouseScale(style: MouseStyle, fontSize: real): real
  {
    style.scale * (fontSize / 13.0)
  }

  /** A style length in pixels at scale `s`. */
  function Px(len: real, s: real): real
  {
    len * s
  }

  function DimsFor(style: MouseStyle, fontSize: real): Dims
  {
    Dims(MouseScale(style, fontSize),
         Px(style.bodyWidth, MouseScale(style, fontSize)),
         Px(style.bodyHeight, MouseScale(style, fontSize)),
         Px(style.buttonHeight, MouseScale(style, fontSize)),
         Px(style.buttonGap, MouseScale(style, fontSize)),
         Px(style.wheelWidth, MouseScale(style, fontSize)),
         Px(style.wheelHeight, MouseScale(style, fontSize)))
  }

  /** The widths of the left, right and middle sections. */
  datatype Widths = Widths(left: real, right: real, middle: real)

  /** Split the body width: with three sections, two equal buttons around
      a wheel-wide middle with a gap on each side; otherwise two equal
      buttons with one gap and no middle. */
  function ButtonWidths(threeSections: bool, body: real, gap: real, wheel: real): (w: Widths)
    ensures w.left == w.right
    ensures threeSections ==> w.left + gap + w.middle + gap + w.right == body && w.middle == wheel
    ensures !threeSections ==> w.left + gap + w.right == body && w.middle == 0.0
  {
    if threeSections then Widths((body - gap * 2.0 - wheel) / 2.0, (body - gap * 2.0 - wheel) / 2.0, wheel)
    else Widths((body - gap) / 2.0, (body - gap) / 2.0, 0.0)
  }

  /** What one call reads from the host: the mouse position, the buttons
      held down, and the buttons clicked this frame. */
  datatype MouseInput = MouseInput(pos: Vec2, down: set<int>, clicked: set<int>)

  /** The arguments of one call, with the style's lengths already scaled. */
  datatype Call = Call(layout: int, flags: bv32, canvasPos: Vec2, d: Dims, input: MouseInput)

  /** The canvas the call reserves: the body plus a 5-pixel margin all round. */
  function Canvas(c: Call): Rect
  {
    RectAt(c.canvasPos, Vec2(c.d.bodyWidth + 10.0 * c.d.s, c.d.bodyHeight + 10.0 * c.d.s))
  }

  function BodyPos(c: Call): Vec2
  {
    Vec2(c.canvasPos.x + 5.0 * c.d.s, c.canvasPos.y + 5.0 * c.d.s)
  }

  function Body(c: Call): Rect
  {
    RectAt(BodyPos(c), Vec2(c.d.bodyWidth, c.d.bodyHeight))
  }

  /** Three sections when the layout has a middle button or the wheel is shown. */
  predicate ThreeSections(c: Call)
  {
    c.layout == ThreeButton || c.flags & ShowWheel != 0
  }

  function SectionWidths(c: Call): Widths
  {
    ButtonWidths(ThreeSections(c), c.d.bodyWidth, c.d.buttonGap, c.d.wheelWidth)
  }

  /** The left button: the body's top-left corner, one button tall. */
  function LeftRect(c: Call): Rect
  {
    Rect(BodyPos(c), Vec2(BodyPos(c).x + SectionWidths(c).left, BodyPos(c).y + c.d.buttonHeight))
  }

  /** The right button: flush with the body's right edge. */
  function RightRect(c: Call): Rect
  {
    Rect(Vec2(BodyPos(c).x + c.d.bodyWidth - SectionWidths(c).right, BodyPos(c).y),
         Vec2(BodyPos(c).x + c.d.bodyWidth - SectionWidths(c).right + SectionWidths(c).right, BodyPos(c).y + c.d.buttonHeight))
  }

  /** The middle section: one gap right of the left button, one wheel tall,
      centred on the button row's height. */
  function MiddleRect(c: Call): Rect
  {
    Rect(Vec2(BodyPos(c).x + SectionWidths(c).left + c.d.buttonGap,
              BodyPos(c).y + (c.d.buttonHeight - c.d.wheelHeight) / 2.0),
         Vec2(BodyPos(c).x + SectionWidths(c).left + c.d.buttonGap + SectionWidths(c).middle,
              BodyPos(c).y + (c.d.buttonHeight - c.d.wheelHeight) / 2.0 + c.d.wheelHeight))
  }

  /** The overlay filled over a button, if any. */
  datatype Overlay = NoOverlay | PressedOverlay | HighlightedOverlay | RecordedOverlay

  /** Pressed beats highlighted, which beats recorded; one overlay at most. */
  function OverlayFor(pressed: bool, highlighted: bool, recorded: bool): (o: Overlay)
    ensures o == PressedOverlay <==> pressed
    ensures o == HighlightedOverlay <==> !pressed && highlighted
    ensures o == RecordedOverlay <==> !pressed && !highlighted && recorded
    ensures o == NoOverlay <==> !pressed && !highlighted && !recorded
  {
    if pressed then PressedOverlay
    else if highlighted then HighlightedOverlay
    else if recorded then RecordedOverlay
    else NoOverlay
  }

  /** What every button of one call reads: the two show switches, whether
      the mouse is in the canvas (only looked at when recordable), the
      host input, and the highlighted buttons. */
  datatype Env = Env(showPressed: bool, recordable: bool, inCanvas: bool, input: MouseInput, highlighted: seq<int>)

  function EnvOf(c: Call, highlighted: seq<int>): Env
  {
    Env(c.flags & ShowPressed != 0, c.flags & Recordable != 0,
        c.flags & Recordable != 0 && InsideHalfOpen(c.input.pos, Canvas(c)), c.input, highlighted)
  }

  /** A recording click on `button`: recording is on, the mouse is in the
      canvas, this button was clicked, and the mouse is inside its
      rectangle (all half-open tests). */
  predicate Clicked(env: Env, button: int, rect: Rect)
  {
    env.recordable && env.inCanvas && button in env.input.clicked && InsideHalfOpen(env.input.pos, rect)
  }

  /** One painted button: its identifier, rectangle and overlay. */
  datatype ButtonDraw = ButtonDraw(button: int, rect: Rect, overlay: Overlay)

  /** The recorded list after a button's turn, and what the button paints. */
  datatype Pass = Pass(recorded: seq<int>, draw: ButtonDraw)

  /** A recording click toggles the button in the recorded list. */
  function RecordStep(recorded: seq<int>, button: int, hit: bool): seq<int>
  {
    if hit then Toggled(recorded, button) else recorded
  }

  /** One button's turn: toggle on a recording click, then pick the
      overlay; the recorded overlay reflects the list after the toggle and
      only counts when recording is on. */
  function ButtonPass(recorded: seq<int>, button: int, rect: Rect, env: Env): Pass
  {
    Pass(RecordStep(recorded, button, Clicked(env, button, rect)),
         ButtonDraw(button, rect,
                    OverlayFor(env.showPressed && button in env.input.down, button in env.highlighted,
                               env.recordable && button in RecordStep(recorded, button, Clicked(env, button, rect)))))
  }

  function LeftPass(c: Call, highlighted: seq<int>, recorded: seq<int>): Pass
  {
    ButtonPass(recorded, LeftButton, LeftRect(c), EnvOf(c, highlighted))
  }

  function RightPass(c: Call, highlighted: seq<int>, recorded: seq<int>): Pass
  {
    ButtonPass(LeftPass(c, highlighted, recorded).recorded, RightButton, RightRect(c), EnvOf(c, highlighted))
  }

  /** The middle button takes a turn only in the three-button layout. */
  function MiddlePass(c: Call, highlighted: seq<int>, recorded: seq<int>): Option<Pass>
  {
    if c.layout == ThreeButton then
      Some(ButtonPass(RightPass(c, highlighted, recorded).recorded, MiddleButton, MiddleRect(c), EnvOf(c, highlighted)))
    else None
  }

  /** The recorded list after one call. */
  function RecordedAfter(c: Call, highlighted: seq<int>, recorded: seq<int>): seq<int>
  {
    if MiddlePass(c, highlighted, recorded).Some? then MiddlePass(c, highlighted, recorded).value.recorded
    else RightPass(c, highlighted, recorded).recorded
  }

  /** A horizontal line segment. */
  datatype Line = Line(from: Vec2, to: Vec2)

  /** Notch `i` of a wheel: `i` spacings below the wheel's top, inset by
      two scaled pixels on each side. */
  function NotchLine(wheel: Rect, spacing: real, s: real, i: int): Line
  {
    Line(Vec2(wheel.min.x + 2.0 * s, wheel.min.y + (i as real) * spacing),
         Vec2(wheel.max.x - 2.0 * s, wheel.min.y + (i as real) * spacing))
  }

  /** The three notches, top to bottom. */
  function Notches(wheel: Rect, spacing: real, s: real): seq<Line>
  {
    [NotchLine(wheel, spacing, s, 1), NotchLine(wheel, spacing, s, 2), NotchLine(wheel, spacing, s, 3)]
  }

  /** The painted wheel: its rectangle and its notch lines. */
  datatype WheelDraw = WheelDraw(rect: Rect, notches: seq<Line>)

  /** The wheel is painted only when the ShowWheel flag is set. */
  function WheelOf(c: Call): Option<WheelDraw>
  {
    if c.flags & ShowWheel != 0 then Some(WheelDraw(MiddleRect(c), Notches(MiddleRect(c), c.d.wheelHeight / 4.0, c.d.s)))
    else None
  }

  /** What one call paints, in painting order. */
  datatype MouseFrame = MouseFrame(canvas: Rect, body: Rect, left: ButtonDraw, right: ButtonDraw,
                                   wheel: Option<WheelDraw>, middle: Option<ButtonDraw>)

  function MouseFrameOf(c: Call, highlighted: seq<int>, recorded: seq<int>): MouseFrame
  {
    MouseFrame(Canvas(c), Body(c), LeftPass(c, highlighted, recorded).draw, RightPass(c, highlighted, recorded).draw,
               WheelOf(c),
               if MiddlePass(c, highlighted, recorded).Some? then Some(MiddlePass(c, highlighted, recorded).value.draw)
               else None)
  }

  /** Whether `button` gets a recording click in call `c`: the left and
      right buttons on their own rectangles, the middle one only in the
      three-button layout, and no other identifier ever. */
  predicate RecordingClick(c: Call, highlighted: seq<int>, button: int)
  {
    if button == LeftButton then Clicked(EnvOf(c, highlighted), LeftButton, LeftRect(c))
    else if button == RightButton then Clicked(EnvOf(c, highlighted), RightButton, RightRect(c))
    else button == MiddleButton && c.layout == ThreeButton && Clicked(EnvOf(c, highlighted), MiddleButton, MiddleRect(c))
  }

  /** Style lengths for which the sections fit the body: nothing negative,
      the two gaps and the wheel no wider than the body, and the wheel no
      taller than a button, which is no taller than the body. */
  predicate SaneDims(d: Dims)
  {
    d.s >= 0.0 && d.buttonGap >= 0.0 && d.wheelWidth >= 0.0 &&
    d.bodyWidth >= d.buttonGap * 2.0 + d.wheelWidth &&
    0.0 <= d.wheelHeight <= d.buttonHeight <= d.bodyHeight
  }

  /** The sections tile the body's width: the left button starts at the
      body's left edge, the right one ends at its right edge, the two are
      equally wide, and consecutive sections are one gap apart. */
  lemma SectionsTileBody(c: Call)
    ensures LeftRect(c).min.x == Body(c).min.x && RightRect(c).max.x == Body(c).max.x
    ensures Width(LeftRect(c)) == Width(RightRect(c))
    ensures ThreeSections(c) ==>
      LeftRect(c).max.x + c.d.buttonGap == MiddleRect(c).min.x &&
      MiddleRect(c).max.x + c.d.buttonGap == RightRect(c).min.x &&
      Width(MiddleRect(c)) == c.d.wheelWidth
    ensures !ThreeSections(c) ==> LeftRect(c).max.x + c.d.buttonGap == RightRect(c).min.x
  {
  }

  /** With a non-negative gap and wheel width, no two sections overlap. */
  lemma SectionsDisjoint(c: Call)
    requires c.d.buttonGap >= 0.0 && c.d.wheelWidth >= 0.0
    ensures Disjoint(LeftRect(c), RightRect(c))
    ensures ThreeSections(c) ==> Disjoint(LeftRect(c), MiddleRect(c)) && Disjoint(MiddleRect(c), RightRect(c))
  {
    SectionsTileBody(c);
  }

  /** For sane lengths every section lies in the body and the body in the
      canvas, so the canvas test never rejects a click on a button. */
  lemma SectionsInCanvas(c: Call)
    requires SaneDims(c.d)
    ensures RectWithin(LeftRect(c), Body(c)) && RectWithin(RightRect(c), Body(c))
    ensures ThreeSections(c) ==> RectWithin(MiddleRect(c), Body(c))
    ensures RectWithin(Body(c), Canvas(c))
    ensures (c.flags & Recordable != 0 &&
             (InsideHalfOpen(c.input.pos, LeftRect(c)) || InsideHalfOpen(c.input.pos, RightRect(c)) ||
              (ThreeSections(c) && InsideHalfOpen(c.input.pos, MiddleRect(c))))) ==>
            EnvOf(c, []).inCanvas
  {
    SectionsTileBody(c);
    if InsideHalfOpen(c.input.pos, LeftRect(c)) {
      InsideWithin(c.input.pos, LeftRect(c), Body(c));
      InsideWithin(c.input.pos, Body(c), Canvas(c));
    }
    if InsideHalfOpen(c.input.pos, RightRect(c)) {
      InsideWithin(c.input.pos, RightRect(c), Body(c));
      InsideWithin(c.input.pos, Body(c), Canvas(c));
    }
    if ThreeSections(c) && InsideHalfOpen(c.input.pos, MiddleRect(c)) {
      InsideWithin(c.input.pos, MiddleRect(c), Body(c));
      InsideWithin(c.input.pos, Body(c), Canvas(c));
    }
  }

  /** The default style is sane at every non-negative font size. */
  lemma DefaultStyleSane(fontSize: real)
    requires fontSize >= 0.0
    ensures SaneDims(DimsFor(DefaultStyle, fontSize))
  {
    var s := MouseScale(DefaultStyle, fontSize);
    assert s >= 0.0;
  }

  /** One mouse position clicks at most one section: with a non-negative
      gap and wheel width, at most one button is toggled per call. */
  lemma AtMostOneRecordingClick(c: Call, highlighted: seq<int>, a: int, b: int)
    requires c.d.buttonGap >= 0.0 && c.d.wheelWidth >= 0.0
    requires a != b
    ensures !(RecordingClick(c, highlighted, a) && RecordingClick(c, highlighted, b))
  {
    SectionsDisjoint(c);
    var p := c.input.pos;
    DisjointHitsAtMostOne(p, LeftRect(c), RightRect(c));
    if ThreeSections(c) {
      DisjointHitsAtMostOne(p, LeftRect(c), MiddleRect(c));
      DisjointHitsAtMostOne(p, MiddleRect(c), RightRect(c));
    }
  }

  /** One button's turn toggles that button on a recording click and
      leaves every other identifier's membership alone. */
  lemma PassToggles(recorded: seq<int>, button: int, rect: Rect, env: Env)
    requires NoDuplicates(recorded)
    ensures NoDuplicates(ButtonPass(recorded, button, rect, env).recorded)
    ensures button in ButtonPass(recorded, button, rect, env).recorded <==> (button in recorded) != Clicked(env, button, rect)
    ensures forall y :: y != button ==> (y in ButtonPass(recorded, button, rect, env).recorded <==> y in recorded)
  {
    ToggleFlips(recorded, button);
  }

  /** One call flips a button's recorded membership exactly when that
      button gets a recording click, and keeps the list free of duplicates. */
  lemma RecordedAfterToggles(c: Call, highlighted: seq<int>, recorded: seq<int>, b: int)
    requires NoDuplicates(recorded)
    ensures NoDuplicates(RecordedAfter(c, highlighted, recorded))
    ensures b in RecordedAfter(c, highlighted, recorded) <==> (b in recorded) != RecordingClick(c, highlighted, b)
  {
    var env := EnvOf(c, highlighted);
    var r1 := LeftPass(c, highlighted, recorded).recorded;
    PassToggles(recorded, LeftButton, LeftRect(c), env);
    var r2 := RightPass(c, highlighted, recorded).recorded;
    PassToggles(r1, RightButton, RightRect(c), env);
    if c.layout == ThreeButton {
      PassToggles(r2, MiddleButton, MiddleRect(c), env);
    }
  }

  /** Without a recording click the recorded list is untouched; in
      particular a call without the Recordable flag never changes it. */
  lemma RecordingNeedsClick(c: Call, highlighted: seq<int>, recorded: seq<int>)
    requires c.flags & Recordable == 0 ||
      (!RecordingClick(c, highlighted, LeftButton) && !RecordingClick(c, highlighted, RightButton) &&
       !RecordingClick(c, highlighted, MiddleButton))
    ensures RecordedAfter(c, highlighted, recorded) == recorded
  {
  }

  /** Every painted button shows the recorded overlay from the list the
      call leaves behind: toggling the other buttons later in the same
      call does not change its own membership. */
  lemma OverlaysShowFinalRecord(c: Call, highlighted: seq<int>, recorded: seq<int>)
    requires NoDuplicates(recorded)
    ensures MouseFrameOf(c, highlighted, recorded).left.overlay ==
      OverlayFor(c.flags & ShowPressed != 0 && LeftButton in c.input.down, LeftButton in highlighted,
                 c.flags & Recordable != 0 && LeftButton in RecordedAfter(c, highlighted, recorded))
    ensures MouseFrameOf(c, highlighted, recorded).right.overlay ==
      OverlayFor(c.flags & ShowPressed != 0 && RightButton in c.input.down, RightButton in highlighted,
                 c.flags & Recordable != 0 && RightButton in RecordedAfter(c, highlighted, recorded))
    ensures MouseFrameOf(c, highlighted, recorded).middle.Some? ==>
      MouseFrameOf(c, highlighted, recorded).middle.value.overlay ==
      OverlayFor(c.flags & ShowPressed != 0 && MiddleButton in c.input.down, MiddleButton in highlighted,
                 c.flags & Recordable != 0 && MiddleButton in RecordedAfter(c, highlighted, recorded))
  {
    var env := EnvOf(c, highlighted);
    var r1 := LeftPass(c, highlighted, recorded).recorded;
    PassToggles(recorded, LeftButton, LeftRect(c), env);
    var r2 := RightPass(c, highlighted, recorded).recorded;
    PassToggles(r1, RightButton, RightRect(c), env);
    if c.layout == ThreeButton {
      PassToggles(r2, MiddleButton, MiddleRect(c), env);
    }
  }

  /** The parts of a frame: the middle button only in the three-button
      layout, the wheel only with ShowWheel, both over the middle section,
      and each button over its own section. */
  lemma FrameParts(c: Call, highlighted: seq<int>, recorded: seq<int>)
    ensures MouseFrameOf(c, highlighted, recorded).middle.Some? <==> c.layout == ThreeButton
    ensures MouseFrameOf(c, highlighted, recorded).wheel.Some? <==> c.flags & ShowWheel != 0
    ensures MouseFrameOf(c, highlighted, recorded).left == ButtonDraw(LeftButton, LeftRect(c), MouseFrameOf(c, highlighted, recorded).left.overlay)
    ensures MouseFrameOf(c, highlighted, recorded).right == ButtonDraw(RightButton, RightRect(c), MouseFrameOf(c, highlighted, recorded).right.overlay)
    ensures MouseFrameOf(c, highlighted, recorded).middle.Some? ==>
      MouseFrameOf(c, highlighted, recorded).middle.value.rect == MiddleRect(c) &&
      MouseFrameOf(c, highlighted, recorded).middle.value.button == MiddleButton
    ensures MouseFrameOf(c, highlighted, recorded).wheel.Some? ==>
      MouseFrameOf(c, highlighted, recorded).wheel.value.rect == MiddleRect(c)
  {
  }

  /** The notches are horizontal, evenly spaced and, for a positive
      spacing, strictly between the top of the wheel and four spacings
      below it. */
  lemma NotchesInside(wheel: Rect, spacing: real, s: real)
    requires spacing > 0.0
    ensures |Notches(wheel, spacing, s)| == 3
    ensures forall k :: 0 <= k < 3 ==>
      Notches(wheel, spacing, s)[k].from.y == Notches(wheel, spacing, s)[k].to.y &&
      wheel.min.y < Notches(wheel, spacing, s)[k].from.y < wheel.min.y + 4.0 * spacing
    ensures forall k :: 0 <= k < 2 ==>
      Notches(wheel, spacing, s)[k + 1].from.y - Notches(wheel, spacing, s)[k].from.y == spacing
  {
  }

  /** With a positive wheel height the painted notches fall strictly inside
      the wheel's rectangle, top to bottom. */
  lemma WheelNotchesInside(c: Call)
    requires c.flags & ShowWheel != 0 && c.d.wheelHeight > 0.0
    ensures WheelOf(c).Some?
    ensures forall l :: l in WheelOf(c).value.notches ==>
      MiddleRect(c).min.y < l.from.y < MiddleRect(c).max.y
  {
    NotchesInside(MiddleRect(c), c.d.wheelHeight / 4.0, c.d.s);
  }

  /** The recorded list keeps the order of the recording clicks: a click
      on a button not yet recorded appends it at the end, and a click on a
      recorded button takes it out and keeps the others in order. */
  lemma RecordingOrder(recorded: seq<int>, button: int)
    requires NoDuplicates(recorded)
    ensures button !in recorded ==> Toggled(recorded, button) == recorded + [button]
    ensures button in recorded ==>
      Toggled(recorded, button) == recorded[..IndexOf(recorded, button)] + recorded[IndexOf(recorded, button) + 1..]
  {
    UpdatedSpec(recorded, button, button !in recorded);
  }

  /** The mouse widget's state: the highlighted and the recorded buttons,
      two separate lists, and the style. */
  class MouseContext {
    const highlightedButtons: IdList<int>
    const recordedButtons: IdList<int>
    var style: MouseStyle

    ghost predicate Valid()
      reads this, highlightedButtons, recordedButtons
    {
      highlightedButtons.Valid() && recordedButtons.Valid() && highlightedButtons != recordedButtons
    }

    constructor ()
      ensures Valid() && fresh(highlightedButtons) && fresh(recordedButtons)
      ensures highlightedButtons.items == [] && recordedButtons.items == [] && style == DefaultStyle
    {
      highlightedButtons := new IdList();
      recordedButtons := new IdList();
      style := DefaultStyle;
    }

    /** Membership scan of the highlighted buttons. */
    method IsButtonHighlighted(button: int) returns (highlighted: bool)
      ensures highlighted <==> button in highlightedButtons.items
    {
      highlighted := highlightedButtons.Contains(button);
    }

    /** Membership scan of the recorded buttons. */
    method IsButtonRecorded(button: int) returns (recorded: bool)
      ensures recorded <==> button in recordedButtons.items
    {
      recorded := recordedButtons.Contains(button);
    }

    /** Add the button to the recorded buttons if absent, or erase it;
        the highlighted buttons stay as they are. */
    method Record(button: int, record: bool)
      requires Valid()
      modifies recordedButtons
      ensures Valid()
      ensures recordedButtons.items == Updated(old(recordedButtons.items), button, record)
      ensures highlightedButtons.items == old(highlightedButtons.items)
    {
      recordedButtons.Set(button, record);
    }

    /** Add the button to the highlighted buttons if absent, or erase it;
        the recorded buttons stay as they are. */
    method HighlightButton(button: int, highlight: bool)
      requires Valid()
      modifies highlightedButtons
      ensures Valid()
      ensures highlightedButtons.items == Updated(old(highlightedButtons.items), button, highlight)
      ensures recordedButtons.items == old(recordedButtons.items)
    {
      highlightedButtons.Set(button, highlight);
    }

    method ClearHighlights()
      requires Valid()
      modifies highlightedButtons
      ensures Valid() && highlightedButtons.items == []
      ensures recordedButtons.items == old(recordedButtons.items)
    {
      highlightedButtons.Clear();
    }

    method ClearRecorded()
      requires Valid()
      modifies recordedButtons
      ensures Valid() && recordedButtons.items == []
      ensures highlightedButtons.items == old(highlightedButtons.items)
    {
      recordedButtons.Clear();
    }

    /** The recorded buttons, in the order they were recorded. */
    method GetRecordedButtons() returns (buttons: seq<int>)
      requires Valid()
      ensures buttons == recordedButtons.items && NoDuplicates(buttons)
    {
      buttons := recordedButtons.items;
    }

    /** One button's turn: read pressed, highlighted and (when recordable)
        recorded; on a recording click toggle the button and flip the
        recorded reading; then pick the overlay. */
    method RenderButton(button: int, rect: Rect, env: Env) returns (draw: ButtonDraw)
      requires Valid() && env.highlighted == highlightedButtons.items
      modifies recordedButtons
      ensures Valid() && highlightedButtons.items == old(highlightedButtons.items)
      ensures Pass(recordedButtons.items, draw) == ButtonPass(old(recordedButtons.items), button, rect, env)
    {
      var pressed := env.showPressed && button in env.input.down;
      var highlighted := IsButtonHighlighted(button);
      var recorded := false;
      if env.recordable {
        recorded := IsButtonRecorded(button);
      }
      if env.recordable && env.inCanvas && button in env.input.clicked && InsideHalfOpen(env.input.pos, rect) {
        ToggleFlips(recordedButtons.items, button);
        Record(button, !recorded);
        recorded := !recorded;
      }
      var overlay := NoOverlay;
      if pressed {
        overlay := PressedOverlay;
      } else if highlighted {
        overlay := HighlightedOverlay;
      } else if recorded {
        overlay := RecordedOverlay;
      }
      draw := ButtonDraw(button, rect, overlay);
    }

    /** The three notch lines of a wheel, one spacing apart from the top. */
    static method DrawNotches(wheel: Rect, spacing: real, s: real) returns (lines: seq<Line>)
      ensures lines == Notches(wheel, spacing, s)
    {
      lines := [];
      for i := 1 to 4
        invariant |lines| == i - 1
        invariant forall k :: 0 <= k < i - 1 ==> lines[k] == NotchLine(wheel, spacing, s, k + 1)
      {
        var y := wheel.min.y + (i as real) * spacing;
        lines := lines + [Line(Vec2(wheel.min.x + 2.0 * s, y), Vec2(wheel.max.x - 2.0 * s, y))];
      }
    }

    /** Paint the widget at the cursor position for the given layout and
        flags, toggling recorded buttons on recording clicks. */
    method Mouse(layout: int, flags: bv32, canvasPos: Vec2, fontSize: real, input: MouseInput) returns (frame: MouseFrame)
      requires Valid()
      modifies recordedButtons
      ensures Valid() && highlightedButtons.items == old(highlightedButtons.items)
      ensures frame == MouseFrameOf(Call(layout, flags, canvasPos, DimsFor(style, fontSize), input),
                                    highlightedButtons.items, old(recordedButtons.items))
      ensures recordedButtons.items == RecordedAfter(Call(layout, flags, canvasPos, DimsFor(style, fontSize), input),
                                                     highlightedButtons.items, old(recordedButtons.items))
    {
      frame := PaintMouse(Call(layout, flags, canvasPos, DimsFor(style, fontSize), input));
    }

    /** Canvas and body, the left and right buttons, then the middle
        section: the wheel when shown and the middle button's overlay in
        the three-button layout. */
    method PaintMouse(c: Call) returns (frame: MouseFrame)
      requires Valid()
      modifies recordedButtons
      ensures Valid() && highlightedButtons.items == old(highlightedButtons.items)
      ensures frame == MouseFrameOf(c, highlightedButtons.items, old(recordedButtons.items))
      ensures recordedButtons.items == RecordedAfter(c, highlightedButtons.items, old(recordedButtons.items))
    {
      var canvas := Canvas(c);
      var body := Body(c);
      var threeButton := c.layout == ThreeButton;
      var showWheel := c.flags & ShowWheel != 0;
      var showPressed := c.flags & ShowPressed != 0;
      var recordable := c.flags & Recordable != 0;
      var inCanvas := false;
      if recordable {
        inCanvas := InsideHalfOpen(c.input.pos, canvas);
      }
      var env := Env(showPressed, recordable, inCanvas, c.input, highlightedButtons.items);
      assert env == EnvOf(c, highlightedButtons.items);
      var left := RenderButton(LeftButton, LeftRect(c), env);
      var right := RenderButton(RightButton, RightRect(c), env);
      var wheel: Option<WheelDraw> := None;
      var middle: Option<ButtonDraw> := None;
      if threeButton || showWheel {
        var middleRect := MiddleRect(c);
        if showWheel {
          var notches := DrawNotches(middleRect, c.d.wheelHeight / 4.0, c.d.s);
          wheel := Some(WheelDraw(middleRect, notches));
        }
        if threeButton {
          var m := RenderButton(MiddleButton, middleRect, env);
          middle := Some(m);
        }
      }
      frame := MouseFrame(canvas, body, left, right, wheel, middle);
    }
  }
}

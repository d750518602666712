/** The gamepad widget: a controller body with triggers, shoulder buttons,
    a D-pad, two analog sticks, four face buttons and two center buttons.
    Drawing is modelled as the record of what one call paints
    (`GamepadFrame`): each component's shape, label and overlay. The host's
    key-down query, font size and cursor position are parameters. */
module GamepadWidget {
  import opened Geometry
  import opened Keys
  import opened IdLists

  datatype Option<T> = None | Some(value: T)

  // Controller layout selector values, in the order of the layout enumeration.
  const Xbox: int := 0
  const PlayStation: int := 1
  const Steam: int := 2
  const SwitchPro: int := 3

  // Flag bits.
  const ShowPressed: bv32 := 1
  const ShowSticks: bv32 := 2
  const ShowTriggers: bv32 := 4
  const HideDPad: bv32 := 8
  const HideFaceButtons: bv32 := 16
  const HideShoulderButtons: bv32 := 32
  const HideTriggers: bv32 := 64
  const HideSticks: bv32 := 128
  const HideCenterButtons: bv32 := 256

  /** The style's lengths, in pixels before scaling, and the overall scale
      factor. The rounding radii only shape outlines, and `buttonRounding`
      is set by the default style but read nowhere in the widget. */
  datatype GamepadStyle = GamepadStyle(
    scale: real,
    bodyWidth: real,
    bodyHeight: real,
    bodyRounding: real,
    buttonSize: real,
    buttonRounding: real,
    dPadSize: real,
    stickSize: real,
    triggerWidth: real,
    triggerHeight: real)

  /** The style a fresh context starts with (colours are not modelled). */
  const DefaultStyle := GamepadStyle(1.0, 200.0, 120.0, 20.0, 20.0, 10.0, 40.0, 30.0, 30.0, 15.0)

  /** The labels of the four face buttons, clockwise from the top. */
  datatype FaceLabels = FaceLabels(top: string, right: string, bottom: string, left: string)

  /** The face labels a layout selector shows; Steam and every value that
      names no layout get the Xbox labels. */
  function FaceLabelsFor(layout: int): FaceLabels
  {
    if layout == PlayStation then FaceLabels("tri", "O", "X", "sq")
    else if layout == SwitchPro then FaceLabels("X", "A", "B", "Y")
    else FaceLabels("Y", "B", "A", "X")
  }

  /** The labels reflected across the diagonal from top-left to
      bottom-right: top and left trade places, and so do right and bottom. */
  function Reflected(l: FaceLabels): FaceLabels
  {
    FaceLabels(l.left, l.bottom, l.right, l.top)
  }

  /** Exactly the PlayStation and Switch Pro selectors differ from the Xbox
      labels; every other value, Steam and unknown ones included, falls
      back to them. */
  lemma FaceLabelsFallback(layout: int)
    ensures FaceLabelsFor(layout) == FaceLabelsFor(Xbox) <==> layout != PlayStation && layout != SwitchPro
  {
    if layout == PlayStation {
      assert FaceLabelsFor(layout).top != FaceLabelsFor(Xbox).top;
    } else if layout == SwitchPro {
      assert FaceLabelsFor(layout).top != FaceLabelsFor(Xbox).top;
    }
  }

  /** No two face buttons share a label, whatever the layout. */
  lemma FaceLabelsDistinct(layout: int)
    ensures var l := FaceLabelsFor(layout);
      l.top != l.right && l.top != l.bottom && l.top != l.left &&
      l.right != l.bottom && l.right != l.left && l.bottom != l.left
  {
    var l := FaceLabelsFor(layout);
    assert l.top[0] != l.right[0] && l.top[0] != l.bottom[0] && l.top[0] != l.left[0];
    assert l.right[0] != l.bottom[0] && l.right[0] != l.left[0] && l.bottom[0] != l.left[0];
  }

  /** The Switch Pro labels are the Xbox labels with A and B swapped and X
      and Y swapped, which puts each letter on the reflected position. */
  lemma SwitchProReflectsXbox()
    ensures FaceLabelsFor(SwitchPro) == Reflected(FaceLabelsFor(Xbox))
  {
  }

  /** The overlay filled over a round button, stick, trigger or shoulder
      button, if any. There is no combined colour. */
  datatype Overlay = NoOverlay | PressedOverlay | HighlightedOverlay

  /** Pressed beats highlighted. */
  function OverlayFor(pressed: bool, highlighted: bool): (o: Overlay)
    ensures o == PressedOverlay <==> pressed
    ensures o == HighlightedOverlay <==> !pressed && highlighted
    ensures o == NoOverlay <==> !pressed && !highlighted
  {
    if pressed then PressedOverlay
    else if highlighted then HighlightedOverlay
    else NoOverlay
  }

  /** What a render reads from the host and the context: whether the
      pressed overlays are wanted, the keys the host reports down, and the
      highlighted buttons. */
  datatype Inputs = Inputs(showPressed: bool, down: set<Key>, highlighted: seq<Key>)

  predicate IsPressed(inp: Inputs, key: Key)
  {
    inp.showPressed && key in inp.down
  }

  function ButtonOverlay(inp: Inputs, key: Key): (o: Overlay)
    ensures o == PressedOverlay <==> IsPressed(inp, key)
    ensures o == HighlightedOverlay <==> !IsPressed(inp, key) && key in inp.highlighted
  {
    OverlayFor(IsPressed(inp, key), key in inp.highlighted)
  }

  datatype Label = Unlabelled | Text(text: string)

  datatype Shape = Circle(center: Vec2, radius: real) | Box(rect: Rect)

  /** One painted button, stick or shoulder button. */
  datatype ButtonDraw = ButtonDraw(key: Key, caption: Label, shape: Shape, overlay: Overlay)

  /** One painted trigger: its rectangle, its fill level, the fill bar
      when the level is above zero, and its overlay. */
  datatype TriggerDraw = TriggerDraw(key: Key, rect: Rect, fill: real, bar: Option<Rect>, overlay: Overlay)

  /** The four D-pad directions. */
  datatype Direction = Up | Down | Left | Right

  /** The host key of a D-pad direction. */
  function DirectionKey(dir: Direction): Key
  {
    match dir
    case Up => GamepadDpadUp
    case Down => GamepadDpadDown
    case Left => GamepadDpadLeft
    case Right => GamepadDpadRight
  }

  /** One D-pad direction overlay: the direction, its rectangle, and
      whether it is the pressed or the highlighted colour. */
  datatype ArmOverlay = ArmOverlay(dir: Direction, arm: Rect, overlay: Overlay)

  /** The painted D-pad: the two arms of the cross and the direction
      overlays in painting order. */
  datatype DPadDraw = DPadDraw(vertical: Rect, horizontal: Rect, overlays: seq<ArmOverlay>)

  /** The trigger level: full when levels are shown, pressed overlays are
      wanted and the trigger is down, otherwise empty. The analog level is
      not read. */
  function TriggerFill(showLevel: bool, showPressed: bool, isDown: bool): (fill: real)
    ensures fill == 0.0 || fill == 1.0
    ensures fill > 0.0 <==> showLevel && showPressed && isDown
  {
    if showLevel && showPressed && isDown then 1.0 else 0.0
  }

  function RoundButton(center: Vec2, radius: real, caption: Label, key: Key, inp: Inputs): ButtonDraw
  {
    ButtonDraw(key, caption, Circle(center, radius), ButtonOverlay(inp, key))
  }

  function Stick(center: Vec2, radius: real, key: Key, inp: Inputs): ButtonDraw
  {
    ButtonDraw(key, Unlabelled, Circle(center, radius), ButtonOverlay(inp, key))
  }

  function Shoulder(pos: Vec2, width: real, height: real, key: Key, caption: string, inp: Inputs): ButtonDraw
  {
    ButtonDraw(key, Text(caption), Box(RectAt(pos, Vec2(width, height))), ButtonOverlay(inp, key))
  }

  /** The bar of a trigger at `pos` filled to `fill`, from its left edge. */
  function BarRect(pos: Vec2, width: real, height: real, fill: real): Rect
  {
    Rect(pos, Vec2(pos.x + width * fill, pos.y + height))
  }

  function FillBar(pos: Vec2, width: real, height: real, fill: real): Option<Rect>
  {
    if fill > 0.0 then Some(BarRect(pos, width, height, fill)) else None
  }

  function Trigger(pos: Vec2, width: real, height: real, key: Key, showLevel: bool, inp: Inputs): TriggerDraw
  {
    TriggerDraw(key, RectAt(pos, Vec2(width, height)),
                TriggerFill(showLevel, inp.showPressed, key in inp.down),
                FillBar(pos, width, height, TriggerFill(showLevel, inp.showPressed, key in inp.down)),
                ButtonOverlay(inp, key))
  }

  /** A painted trigger shows a fill bar exactly when levels are shown and
      the trigger is pressed, and the bar then covers the whole trigger. */
  lemma TriggerBar(pos: Vec2, width: real, height: real, key: Key, showLevel: bool, inp: Inputs)
    ensures Trigger(pos, width, height, key, showLevel, inp).bar.Some? <==> showLevel && IsPressed(inp, key)
    ensures Trigger(pos, width, height, key, showLevel, inp).bar.Some? ==>
      Trigger(pos, width, height, key, showLevel, inp).bar.value == Trigger(pos, width, height, key, showLevel, inp).rect
  {
  }

  /** The rectangle a D-pad direction lights up, for a cross of `size`
      centred at `c`. Arms are 0.35 size wide and reach half the size out. */
  function ArmRect(dir: Direction, c: Vec2, size: real): Rect
  {
    match dir
    case Up =>
      Rect(Vec2(c.x - size * 0.35 * 0.4, c.y - size * 0.5), Vec2(c.x + size * 0.35 * 0.4, c.y - size * 0.35 * 0.3))
    case Down =>
      Rect(Vec2(c.x - size * 0.35 * 0.4, c.y + size * 0.35 * 0.3), Vec2(c.x + size * 0.35 * 0.4, c.y + size * 0.5))
    case Left =>
      Rect(Vec2(c.x - size * 0.5, c.y - size * 0.35 * 0.4), Vec2(c.x - size * 0.35 * 0.3, c.y + size * 0.35 * 0.4))
    case Right =>
      Rect(Vec2(c.x + size * 0.35 * 0.3, c.y - size * 0.35 * 0.4), Vec2(c.x + size * 0.5, c.y + size * 0.35 * 0.4))
  }

  function VerticalArm(c: Vec2, size: real): Rect
  {
    Rect(Vec2(c.x - size * 0.35 * 0.5, c.y - size * 0.5), Vec2(c.x + size * 0.35 * 0.5, c.y + size * 0.5))
  }

  function HorizontalArm(c: Vec2, size: real): Rect
  {
    Rect(Vec2(c.x - size * 0.5, c.y - size * 0.35 * 0.5), Vec2(c.x + size * 0.5, c.y + size * 0.35 * 0.5))
  }

  /** The arm of the cross a direction belongs to. */
  function ArmOf(dir: Direction, c: Vec2, size: real): Rect
  {
    if dir == Up || dir == Down then VerticalArm(c, size) else HorizontalArm(c, size)
  }

  /** Every direction's overlay lies in its own arm of the cross. */
  lemma ArmRectInCross(dir: Direction, c: Vec2, size: real)
    requires size >= 0.0
    ensures RectWithin(ArmRect(dir, c, size), ArmOf(dir, c, size))
  {
  }

  /** With a positive size, the overlays of opposite directions are apart. */
  lemma OppositeArmsDisjoint(c: Vec2, size: real)
    requires size > 0.0
    ensures Disjoint(ArmRect(Up, c, size), ArmRect(Down, c, size))
    ensures Disjoint(ArmRect(Left, c, size), ArmRect(Right, c, size))
  {
  }

  /** The overlay of one direction in the given colour, present when `on`. */
  function ArmIf(on: bool, dir: Direction, c: Vec2, size: real, o: Overlay): seq<ArmOverlay>
  {
    if on then [ArmOverlay(dir, ArmRect(dir, c, size), o)] else []
  }

  /** The overlays of the directions whose keys are in `on`, in the order
      the D-pad paints them: up, down, left, right. */
  function ArmsOf(on: set<Key>, c: Vec2, size: real, o: Overlay): seq<ArmOverlay>
  {
    ArmIf(GamepadDpadUp in on, Up, c, size, o) + ArmIf(GamepadDpadDown in on, Down, c, size, o)
    + ArmIf(GamepadDpadLeft in on, Left, c, size, o) + ArmIf(GamepadDpadRight in on, Right, c, size, o)
  }

  /** The pressed overlays (only when pressed overlays are wanted), then
      the highlighted ones. */
  function DPadOverlays(c: Vec2, size: real, inp: Inputs): seq<ArmOverlay>
  {
    (if inp.showPressed then ArmsOf(inp.down, c, size, PressedOverlay) else [])
    + ArmsOf((set k | k in inp.highlighted), c, size, HighlightedOverlay)
  }

  function DPad(c: Vec2, size: real, inp: Inputs): DPadDraw
  {
    DPadDraw(VerticalArm(c, size), HorizontalArm(c, size), DPadOverlays(c, size, inp))
  }

  /** The overlays `ArmsOf` lists are exactly those of the directions
      `on` selects, each over its own rectangle in the given colour. */
  lemma ArmsOfMembers(on: set<Key>, c: Vec2, size: real, o: Overlay)
    ensures forall a :: a in ArmsOf(on, c, size, o) <==>
      DirectionKey(a.dir) in on && a.arm == ArmRect(a.dir, c, size) && a.overlay == o
    ensures |ArmsOf(on, c, size, o)| <= 4
  {
    forall a ensures a in ArmsOf(on, c, size, o) <==>
      DirectionKey(a.dir) in on && a.arm == ArmRect(a.dir, c, size) && a.overlay == o
    {
      match a.dir
      case Up =>
      case Down =>
      case Left =>
      case Right =>
    }
  }

  /** The D-pad's overlays are independent: a direction carries the
      pressed overlay exactly when it is pressed and the highlighted overlay
      exactly when it is highlighted, so a pressed and highlighted direction
      carries both. Every overlay is one of these, and there are at most
      eight. */
  lemma DPadOverlaysIndependent(c: Vec2, size: real, inp: Inputs)
    ensures forall dir :: (ArmOverlay(dir, ArmRect(dir, c, size), PressedOverlay) in DPadOverlays(c, size, inp)
      <==> IsPressed(inp, DirectionKey(dir)))
    ensures forall dir :: (ArmOverlay(dir, ArmRect(dir, c, size), HighlightedOverlay) in DPadOverlays(c, size, inp)
      <==> DirectionKey(dir) in inp.highlighted)
    ensures forall a :: a in DPadOverlays(c, size, inp) ==>
      a.arm == ArmRect(a.dir, c, size) && a.overlay != NoOverlay
    ensures |DPadOverlays(c, size, inp)| <= 8
  {
    ArmsOfMembers(inp.down, c, size, PressedOverlay);
    ArmsOfMembers((set k | k in inp.highlighted), c, size, HighlightedOverlay);
  }

  /** Pixel lengths at one call: the scale and every style length times it. */
  datatype Dims = Dims(s: real, bodyWidth: real, bodyHeight: real, buttonSize: real, dPadSize: real,
                       stickSize: real, triggerWidth: real, triggerHeight: real)

  /** The scale: the style's factor times the font size over 13. */
  function GamepadScale(style: GamepadStyle, fontSize: real): real
  {
    style.scale * (fontSize / 13.0)
  }

  /** A style length in pixels at scale `s`. */
  function Px(len: real, s: real): real
  {
    len * s
  }

  function DimsFor(style: GamepadStyle, fontSize: real): Dims
  {
    Dims(GamepadScale(style, fontSize),
         Px(style.bodyWidth, GamepadScale(style, fontSize)),
         Px(style.bodyHeight, GamepadScale(style, fontSize)),
         Px(style.buttonSize, GamepadScale(style, fontSize)),
         Px(style.dPadSize, GamepadScale(style, fontSize)),
         Px(style.stickSize, GamepadScale(style, fontSize)),
         Px(style.triggerWidth, GamepadScale(style, fontSize)),
         Px(style.triggerHeight, GamepadScale(style, fontSize)))
  }

  /** The reserved canvas: the body plus a 10-pixel margin on each side,
      and the trigger strip above. */
  function CanvasSize(d: Dims): Vec2
  {
    Vec2(d.bodyWidth + 20.0 * d.s, d.bodyHeight + d.triggerHeight + 20.0 * d.s)
  }

  function BodyPos(canvasPos: Vec2, d: Dims): Vec2
  {
    Vec2(canvasPos.x + 10.0 * d.s, canvasPos.y + d.triggerHeight + 10.0 * d.s)
  }

  function Triggers(canvasPos: Vec2, bodyPos: Vec2, d: Dims, showLevel: bool, inp: Inputs): seq<TriggerDraw>
  {
    [ Trigger(Vec2(bodyPos.x + 15.0 * d.s, canvasPos.y + 5.0 * d.s), d.triggerWidth, d.triggerHeight,
              GamepadL2, showLevel, inp),
      Trigger(Vec2(bodyPos.x + d.bodyWidth - d.triggerWidth - 15.0 * d.s, canvasPos.y + 5.0 * d.s),
              d.triggerWidth, d.triggerHeight, GamepadR2, showLevel, inp) ]
  }

  function Shoulders(bodyPos: Vec2, d: Dims, inp: Inputs): seq<ButtonDraw>
  {
    [ Shoulder(Vec2(bodyPos.x + 10.0 * d.s, bodyPos.y + 5.0 * d.s), d.triggerWidth, d.triggerHeight * 0.8,
               GamepadL1, "L1", inp),
      Shoulder(Vec2(bodyPos.x + d.bodyWidth - d.triggerWidth - 10.0 * d.s, bodyPos.y + 5.0 * d.s),
               d.triggerWidth, d.triggerHeight * 0.8, GamepadR1, "R1", inp) ]
  }

  function DPadCenter(bodyPos: Vec2, d: Dims): Vec2
  {
    Vec2(bodyPos.x + d.bodyWidth * 0.22, bodyPos.y + d.bodyHeight * 0.55)
  }

  function Sticks(bodyPos: Vec2, d: Dims, inp: Inputs): seq<ButtonDraw>
  {
    [ Stick(Vec2(bodyPos.x + d.bodyWidth * 0.35, bodyPos.y + d.bodyHeight * 0.35), d.stickSize * 0.5, GamepadL3, inp),
      Stick(Vec2(bodyPos.x + d.bodyWidth * 0.65, bodyPos.y + d.bodyHeight * 0.65), d.stickSize * 0.5, GamepadR3, inp) ]
  }

  function FaceCenter(bodyPos: Vec2, d: Dims): Vec2
  {
    Vec2(bodyPos.x + d.bodyWidth * 0.78, bodyPos.y + d.bodyHeight * 0.45)
  }

  /** The four face buttons, top, right, bottom, left, at half the face
      spacing (1.3 button sizes) from the face center. */
  function FaceButtons(labels: FaceLabels, bodyPos: Vec2, d: Dims, inp: Inputs): seq<ButtonDraw>
  {
    [ RoundButton(Vec2(FaceCenter(bodyPos, d).x, FaceCenter(bodyPos, d).y - d.buttonSize * 1.3 * 0.5),
                  d.buttonSize * 0.5, Text(labels.top), GamepadFaceUp, inp),
      RoundButton(Vec2(FaceCenter(bodyPos, d).x + d.buttonSize * 1.3 * 0.5, FaceCenter(bodyPos, d).y),
                  d.buttonSize * 0.5, Text(labels.right), GamepadFaceRight, inp),
      RoundButton(Vec2(FaceCenter(bodyPos, d).x, FaceCenter(bodyPos, d).y + d.buttonSize * 1.3 * 0.5),
                  d.buttonSize * 0.5, Text(labels.bottom), GamepadFaceDown, inp),
      RoundButton(Vec2(FaceCenter(bodyPos, d).x - d.buttonSize * 1.3 * 0.5, FaceCenter(bodyPos, d).y),
                  d.buttonSize * 0.5, Text(labels.left), GamepadFaceLeft, inp) ]
  }

  function CenterButtons(bodyPos: Vec2, d: Dims, inp: Inputs): seq<ButtonDraw>
  {
    [ RoundButton(Vec2(bodyPos.x + d.bodyWidth * 0.42, bodyPos.y + d.bodyHeight * 0.35), d.buttonSize * 0.4,
                  Unlabelled, GamepadBack, inp),
      RoundButton(Vec2(bodyPos.x + d.bodyWidth * 0.58, bodyPos.y + d.bodyHeight * 0.35), d.buttonSize * 0.4,
                  Unlabelled, GamepadStart, inp) ]
  }

  /** What one call paints, in painting order: the canvas it reserves and
      clips to, the triggers, the body, and the controls over the body. A
      hidden part is empty; the body is always there. */
  datatype GamepadFrame = GamepadFrame(canvas: Rect, triggers: seq<TriggerDraw>, body: Rect, controls: BodyControls)

  /** What is painted over the body, in painting order. */
  datatype BodyControls = BodyControls(
    shoulders: seq<ButtonDraw>,
    dpad: Option<DPadDraw>,
    sticks: seq<ButtonDraw>,
    face: seq<ButtonDraw>,
    center: seq<ButtonDraw>)

  /** The flags decoded into the switches the widget reads. */
  datatype Options = Options(showPressed: bool, showSticks: bool, showTriggers: bool, hideDPad: bool,
                             hideFaceButtons: bool, hideShoulderButtons: bool, hideTriggers: bool,
                             hideSticks: bool, hideCenterButtons: bool)

  function Decode(flags: bv32): Options
  {
    Options(flags & ShowPressed != 0, flags & ShowSticks != 0, flags & ShowTriggers != 0, flags & HideDPad != 0,
            flags & HideFaceButtons != 0, flags & HideShoulderButtons != 0, flags & HideTriggers != 0,
            flags & HideSticks != 0, flags & HideCenterButtons != 0)
  }

  /** The parts a hide flag can remove. */
  datatype Part = TriggerPart | ShoulderPart | DPadPart | StickPart | FacePart | CenterPart

  /** The flag bit that hides a part. */
  function HideBit(p: Part): bv32
  {
    match p
    case TriggerPart => HideTriggers
    case ShoulderPart => HideShoulderButtons
    case DPadPart => HideDPad
    case StickPart => HideSticks
    case FacePart => HideFaceButtons
    case CenterPart => HideCenterButtons
  }

  /** The switches with the one that hides `p` turned on. */
  function Hiding(opts: Options, p: Part): Options
  {
    match p
    case TriggerPart => opts.(hideTriggers := true)
    case ShoulderPart => opts.(hideShoulderButtons := true)
    case DPadPart => opts.(hideDPad := true)
    case StickPart => opts.(hideSticks := true)
    case FacePart => opts.(hideFaceButtons := true)
    case CenterPart => opts.(hideCenterButtons := true)
  }

  /** Setting one hide bit turns on its own hide switch and no other. */
  lemma DecodeHideBit(flags: bv32, p: Part)
    ensures Decode(flags | HideBit(p)) == Hiding(Decode(flags), p)
  {
  }

  /** Everything one call can paint, with no part hidden: `showLevel` is
      the trigger-level switch and `inp` what the overlays read. */
  function FullFrame(layout: int, showLevel: bool, canvasPos: Vec2, d: Dims, inp: Inputs): GamepadFrame
  {
    GamepadFrame(
      RectAt(canvasPos, CanvasSize(d)),
      Triggers(canvasPos, BodyPos(canvasPos, d), d, showLevel, inp),
      RectAt(BodyPos(canvasPos, d), Vec2(d.bodyWidth, d.bodyHeight)),
      AllControls(layout, BodyPos(canvasPos, d), d, inp))
  }

  /** Every control over a body at `bodyPos`. */
  function AllControls(layout: int, bodyPos: Vec2, d: Dims, inp: Inputs): BodyControls
  {
    BodyControls(
      Shoulders(bodyPos, d, inp),
      Some(DPad(DPadCenter(bodyPos, d), d.dPadSize, inp)),
      Sticks(bodyPos, d, inp),
      FaceButtons(FaceLabelsFor(layout), bodyPos, d, inp),
      CenterButtons(bodyPos, d, inp))
  }

  /** `f` with the parts the hide switches name emptied. */
  function Gate(f: GamepadFrame, opts: Options): GamepadFrame
  {
    GamepadFrame(f.canvas, if opts.hideTriggers then [] else f.triggers, f.body, GateControls(f.controls, opts))
  }

  function GateControls(c: BodyControls, opts: Options): BodyControls
  {
    BodyControls(
      if opts.hideShoulderButtons then [] else c.shoulders,
      if opts.hideDPad then None else c.dpad,
      if opts.hideSticks then [] else c.sticks,
      if opts.hideFaceButtons then [] else c.face,
      if opts.hideCenterButtons then [] else c.center)
  }

  /** The frame of one call at `canvasPos` with pixel lengths `d`. */
  function Frame(layout: int, opts: Options, canvasPos: Vec2, d: Dims, down: set<Key>, highlighted: seq<Key>): GamepadFrame
  {
    Gate(FullFrame(layout, opts.showTriggers, canvasPos, d, Inputs(opts.showPressed, down, highlighted)), opts)
  }

  /** The frame with part `p` left out. */
  function Without(f: GamepadFrame, p: Part): GamepadFrame
  {
    match p
    case TriggerPart => f.(triggers := [])
    case ShoulderPart => f.(controls := f.controls.(shoulders := []))
    case DPadPart => f.(controls := f.controls.(dpad := None))
    case StickPart => f.(controls := f.controls.(sticks := []))
    case FacePart => f.(controls := f.controls.(face := []))
    case CenterPart => f.(controls := f.controls.(center := []))
  }

  /** Setting one hide flag empties exactly its own part and leaves the
      rest of the frame, the body included, as it was. */
  lemma HideFlagGate(layout: int, flags: bv32, p: Part, canvasPos: Vec2, d: Dims, down: set<Key>, highlighted: seq<Key>)
    ensures Frame(layout, Decode(flags | HideBit(p)), canvasPos, d, down, highlighted)
      == Without(Frame(layout, Decode(flags), canvasPos, d, down, highlighted), p)
  {
    DecodeHideBit(flags, p);
    FrameHiding(layout, Decode(flags), p, canvasPos, d, down, highlighted);
  }

  /** Turning on the switch that hides `p` removes `p` from the frame and
      changes nothing else. */
  lemma FrameHiding(layout: int, opts: Options, p: Part, canvasPos: Vec2, d: Dims, down: set<Key>, highlighted: seq<Key>)
    ensures Frame(layout, Hiding(opts, p), canvasPos, d, down, highlighted)
      == Without(Frame(layout, opts, canvasPos, d, down, highlighted), p)
  {
    HidingKeepsShows(opts, p);
    GateHiding(FullFrame(layout, opts.showTriggers, canvasPos, d, Inputs(opts.showPressed, down, highlighted)), opts, p);
  }

  /** A hide switch leaves the show switches alone. */
  lemma HidingKeepsShows(opts: Options, p: Part)
    ensures Hiding(opts, p).showPressed == opts.showPressed
    ensures Hiding(opts, p).showTriggers == opts.showTriggers
  {
    match p
    case TriggerPart =>
    case ShoulderPart =>
    case DPadPart =>
    case StickPart =>
    case FacePart =>
    case CenterPart =>
  }

  /** Gating with one more hide switch on empties just that part. */
  lemma GateHiding(f: GamepadFrame, opts: Options, p: Part)
    ensures Gate(f, Hiding(opts, p)) == Without(Gate(f, opts), p)
  {
  }

  /** The body sits in the canvas with a margin of 10 scaled pixels on the
      left, right and bottom, and the trigger strip plus 10 on top. */
  lemma BodyMargins(canvasPos: Vec2, d: Dims)
    ensures BodyPos(canvasPos, d).x - canvasPos.x == 10.0 * d.s
    ensures RectAt(canvasPos, CanvasSize(d)).max.x - RectAt(BodyPos(canvasPos, d), Vec2(d.bodyWidth, d.bodyHeight)).max.x
      == 10.0 * d.s
    ensures BodyPos(canvasPos, d).y - canvasPos.y == d.triggerHeight + 10.0 * d.s
    ensures RectAt(canvasPos, CanvasSize(d)).max.y - RectAt(BodyPos(canvasPos, d), Vec2(d.bodyWidth, d.bodyHeight)).max.y
      == 10.0 * d.s
  {
  }

  /** At a positive scale both triggers lie in the strip above the body:
      below the canvas top and ending above the body's top edge. */
  lemma TriggersAboveBody(canvasPos: Vec2, d: Dims, showLevel: bool, inp: Inputs)
    requires d.s > 0.0
    ensures forall i :: 0 <= i < |Triggers(canvasPos, BodyPos(canvasPos, d), d, showLevel, inp)| ==>
      canvasPos.y < Triggers(canvasPos, BodyPos(canvasPos, d), d, showLevel, inp)[i].rect.min.y &&
      Triggers(canvasPos, BodyPos(canvasPos, d), d, showLevel, inp)[i].rect.max.y < BodyPos(canvasPos, d).y
  {
  }

  /** The left and right triggers, and the left and right shoulder
      buttons, are mirror images across the body's vertical center line. */
  lemma TriggersAndShouldersMirrored(canvasPos: Vec2, d: Dims, showLevel: bool, inp: Inputs)
    ensures Triggers(canvasPos, BodyPos(canvasPos, d), d, showLevel, inp)[0].rect.min.x - BodyPos(canvasPos, d).x
      == BodyPos(canvasPos, d).x + d.bodyWidth - Triggers(canvasPos, BodyPos(canvasPos, d), d, showLevel, inp)[1].rect.max.x
    ensures Shoulders(BodyPos(canvasPos, d), d, inp)[0].shape.rect.min.x - BodyPos(canvasPos, d).x
      == BodyPos(canvasPos, d).x + d.bodyWidth - Shoulders(BodyPos(canvasPos, d), d, inp)[1].shape.rect.max.x
  {
  }

  /** The two sticks are point-symmetric about the body's center, and the
      Back and Start buttons mirror each other across its vertical center
      line at one height. */
  lemma SticksAndCenterButtonsSymmetric(bodyPos: Vec2, d: Dims, inp: Inputs)
    ensures Sticks(bodyPos, d, inp)[0].shape.center.x + Sticks(bodyPos, d, inp)[1].shape.center.x
      == 2.0 * bodyPos.x + d.bodyWidth
    ensures Sticks(bodyPos, d, inp)[0].shape.center.y + Sticks(bodyPos, d, inp)[1].shape.center.y
      == 2.0 * bodyPos.y + d.bodyHeight
    ensures CenterButtons(bodyPos, d, inp)[0].shape.center.x + CenterButtons(bodyPos, d, inp)[1].shape.center.x
      == 2.0 * bodyPos.x + d.bodyWidth
    ensures CenterButtons(bodyPos, d, inp)[0].shape.center.y == CenterButtons(bodyPos, d, inp)[1].shape.center.y
  {
  }

  /** The squared distance between two points. */
  function SqDist(a: Vec2, b: Vec2): real
  {
    (a.x - b.x) * (a.x - b.x) + (a.y - b.y) * (a.y - b.y)
  }

  /** The four face buttons sit 0.65 button sizes from the face center,
      top and bottom on its vertical axis, right and left on its horizontal
      one, each with radius half a button size. With a positive button size
      the top and bottom buttons stay apart (their centers are further apart
      than their radii reach), while the top and right ones overlap: their
      squared center distance is 0.845 times the square of their radii's
      sum. */
  lemma FaceButtonSpacing(labels: FaceLabels, bodyPos: Vec2, d: Dims, inp: Inputs)
    requires d.buttonSize > 0.0
    ensures FaceButtons(labels, bodyPos, d, inp)[0].shape.center == Vec2(FaceCenter(bodyPos, d).x, FaceCenter(bodyPos, d).y - d.buttonSize * 0.65)
    ensures FaceButtons(labels, bodyPos, d, inp)[1].shape.center == Vec2(FaceCenter(bodyPos, d).x + d.buttonSize * 0.65, FaceCenter(bodyPos, d).y)
    ensures FaceButtons(labels, bodyPos, d, inp)[2].shape.center == Vec2(FaceCenter(bodyPos, d).x, FaceCenter(bodyPos, d).y + d.buttonSize * 0.65)
    ensures FaceButtons(labels, bodyPos, d, inp)[3].shape.center == Vec2(FaceCenter(bodyPos, d).x - d.buttonSize * 0.65, FaceCenter(bodyPos, d).y)
    ensures forall i :: 0 <= i < |FaceButtons(labels, bodyPos, d, inp)| ==>
      FaceButtons(labels, bodyPos, d, inp)[i].shape.radius == d.buttonSize * 0.5
    ensures FaceButtons(labels, bodyPos, d, inp)[2].shape.center.y - FaceButtons(labels, bodyPos, d, inp)[0].shape.center.y
      > FaceButtons(labels, bodyPos, d, inp)[0].shape.radius + FaceButtons(labels, bodyPos, d, inp)[2].shape.radius
    ensures SqDist(FaceButtons(labels, bodyPos, d, inp)[0].shape.center, FaceButtons(labels, bodyPos, d, inp)[1].shape.center)
      == 0.845 * ((FaceButtons(labels, bodyPos, d, inp)[0].shape.radius + FaceButtons(labels, bodyPos, d, inp)[1].shape.radius)
                  * (FaceButtons(labels, bodyPos, d, inp)[0].shape.radius + FaceButtons(labels, bodyPos, d, inp)[1].shape.radius))
  {
    var b := d.buttonSize;
    var f := FaceButtons(labels, bodyPos, d, inp);
    assert SqDist(f[0].shape.center, f[1].shape.center) == 0.845 * (b * b);
    var neighbour := f[0].shape.radius + f[1].shape.radius;
    assert neighbour == b;
    assert neighbour * neighbour == b * b;
  }

  /** The widget's state: the highlighted buttons and the style. */
  class GamepadContext {
    const highlightedButtons: IdList<Key>
    var style: GamepadStyle

    ghost predicate Valid()
      reads this, highlightedButtons
    {
      highlightedButtons.Valid()
    }

    constructor ()
      ensures Valid() && fresh(highlightedButtons)
      ensures highlightedButtons.items == [] && style == DefaultStyle
    {
      highlightedButtons := new IdList();
      style := DefaultStyle;
    }

    /** Membership scan of the highlighted buttons. */
    method IsButtonHighlighted(button: Key) returns (highlighted: bool)
      ensures highlighted <==> button in highlightedButtons.items
    {
      highlighted := highlightedButtons.Contains(button);
    }

    /** Add the button to the highlighted buttons if absent, or erase it. */
    method HighlightButton(button: Key, on: bool)
      requires Valid()
      modifies highlightedButtons
      ensures Valid()
      ensures highlightedButtons.items == Updated(old(highlightedButtons.items), button, on)
    {
      highlightedButtons.Set(button, on);
    }

    method ClearHighlights()
      modifies highlightedButtons
      ensures Valid() && highlightedButtons.items == []
    {
      highlightedButtons.Clear();
    }

    /** The overlay over one button: pressed when pressed overlays are
        wanted and the host reports it down, else highlighted when listed. */
    method OverlayOf(key: Key, showPressed: bool, down: set<Key>) returns (o: Overlay)
      ensures o == ButtonOverlay(Inputs(showPressed, down, highlightedButtons.items), key)
    {
      var pressed := showPressed && key in down;
      var highlighted := IsButtonHighlighted(key);
      if pressed {
        o := PressedOverlay;
      } else if highlighted {
        o := HighlightedOverlay;
      } else {
        o := NoOverlay;
      }
    }

    method RenderButton(center: Vec2, radius: real, caption: Label, key: Key, showPressed: bool, down: set<Key>)
      returns (b: ButtonDraw)
      ensures b == RoundButton(center, radius, caption, key, Inputs(showPressed, down, highlightedButtons.items))
    {
      var o := OverlayOf(key, showPressed, down);
      b := ButtonDraw(key, caption, Circle(center, radius), o);
    }

    /** The cross, then the pressed directions (only when pressed overlays
        are wanted), then the highlighted ones. */
    method RenderDPad(c: Vec2, size: real, showPressed: bool, down: set<Key>) returns (dpad: DPadDraw)
      ensures dpad == DPad(c, size, Inputs(showPressed, down, highlightedButtons.items))
    {
      var pressed: seq<ArmOverlay> := [];
      if showPressed {
        pressed := PressedArms(c, size, down);
      }
      var highlighted := HighlightedArms(c, size);
      dpad := DPadDraw(VerticalArm(c, size), HorizontalArm(c, size), pressed + highlighted);
    }

    /** The pressed directions' overlays, in the order up, down, left, right. */
    method PressedArms(c: Vec2, size: real, down: set<Key>) returns (arms: seq<ArmOverlay>)
      ensures arms == ArmsOf(down, c, size, PressedOverlay)
    {
      arms := [];
      if GamepadDpadUp in down {
        arms := arms + [ArmOverlay(Up, ArmRect(Up, c, size), PressedOverlay)];
      }
      assert arms == ArmIf(GamepadDpadUp in down, Up, c, size, PressedOverlay);
      ghost var upTo := arms;
      if GamepadDpadDown in down {
        arms := arms + [ArmOverlay(Down, ArmRect(Down, c, size), PressedOverlay)];
      }
      assert arms == upTo + ArmIf(GamepadDpadDown in down, Down, c, size, PressedOverlay);
      upTo := arms;
      if GamepadDpadLeft in down {
        arms := arms + [ArmOverlay(Left, ArmRect(Left, c, size), PressedOverlay)];
      }
      assert arms == upTo + ArmIf(GamepadDpadLeft in down, Left, c, size, PressedOverlay);
      upTo := arms;
      if GamepadDpadRight in down {
        arms := arms + [ArmOverlay(Right, ArmRect(Right, c, size), PressedOverlay)];
      }
      assert arms == upTo + ArmIf(GamepadDpadRight in down, Right, c, size, PressedOverlay);
    }

    /** The highlighted directions' overlays, in the order up, down, left, right. */
    method HighlightedArms(c: Vec2, size: real) returns (arms: seq<ArmOverlay>)
      ensures arms == ArmsOf((set k | k in highlightedButtons.items), c, size, HighlightedOverlay)
    {
      ghost var on := set k | k in highlightedButtons.items;
      arms := [];
      var up := IsButtonHighlighted(GamepadDpadUp);
      if up {
        arms := arms + [ArmOverlay(Up, ArmRect(Up, c, size), HighlightedOverlay)];
      }
      assert arms == ArmIf(GamepadDpadUp in on, Up, c, size, HighlightedOverlay);
      ghost var upTo := arms;
      var dn := IsButtonHighlighted(GamepadDpadDown);
      if dn {
        arms := arms + [ArmOverlay(Down, ArmRect(Down, c, size), HighlightedOverlay)];
      }
      assert arms == upTo + ArmIf(GamepadDpadDown in on, Down, c, size, HighlightedOverlay);
      upTo := arms;
      var lt := IsButtonHighlighted(GamepadDpadLeft);
      if lt {
        arms := arms + [ArmOverlay(Left, ArmRect(Left, c, size), HighlightedOverlay)];
      }
      assert arms == upTo + ArmIf(GamepadDpadLeft in on, Left, c, size, HighlightedOverlay);
      upTo := arms;
      var rt := IsButtonHighlighted(GamepadDpadRight);
      if rt {
        arms := arms + [ArmOverlay(Right, ArmRect(Right, c, size), HighlightedOverlay)];
      }
      assert arms == upTo + ArmIf(GamepadDpadRight in on, Right, c, size, HighlightedOverlay);
    }

    /** A stick: its base circle and its click overlay. The stick position
        is not read, so `showStickPos` changes nothing. */
    method RenderAnalogStick(center: Vec2, radius: real, key: Key, showPressed: bool, showStickPos: bool,
                             down: set<Key>)
      returns (b: ButtonDraw)
      ensures b == Stick(center, radius, key, Inputs(showPressed, down, highlightedButtons.items))
    {
      var o := OverlayOf(key, showPressed, down);
      b := ButtonDraw(key, Unlabelled, Circle(center, radius), o);
    }

    method RenderTrigger(pos: Vec2, width: real, height: real, key: Key, showPressed: bool, showLevel: bool,
                         down: set<Key>)
      returns (t: TriggerDraw)
      ensures t == Trigger(pos, width, height, key, showLevel, Inputs(showPressed, down, highlightedButtons.items))
    {
      var fill, bar := TriggerLevel(pos, width, height, key, showPressed, showLevel, down);
      var o := OverlayOf(key, showPressed, down);
      t := TriggerDraw(key, RectAt(pos, Vec2(width, height)), fill, bar, o);
    }

    /** The trigger's level when levels are shown: full only when pressed
        overlays are wanted and the trigger is down, and a bar only above
        zero. */
    static method TriggerLevel(pos: Vec2, width: real, height: real, key: Key, showPressed: bool, showLevel: bool,
                               down: set<Key>)
      returns (fill: real, bar: Option<Rect>)
      ensures fill == TriggerFill(showLevel, showPressed, key in down)
      ensures bar == FillBar(pos, width, height, fill)
    {
      fill := 0.0;
      bar := None;
      if showLevel {
        if showPressed && key in down {
          fill := 1.0;
        }
        if fill > 0.0 {
          bar := Some(BarRect(pos, width, height, fill));
        }
      }
    }

    method RenderShoulderButton(pos: Vec2, width: real, height: real, key: Key, caption: string,
                                showPressed: bool, down: set<Key>)
      returns (b: ButtonDraw)
      ensures b == Shoulder(pos, width, height, key, caption, Inputs(showPressed, down, highlightedButtons.items))
    {
      var o := OverlayOf(key, showPressed, down);
      b := ButtonDraw(key, Text(caption), Box(RectAt(pos, Vec2(width, height))), o);
    }

    /** One call: the style's lengths at the current font size, then every
        part the flags do not hide. */
    method Gamepad(layout: int, flags: bv32, canvasPos: Vec2, fontSize: real, down: set<Key>)
      returns (frame: GamepadFrame)
      ensures frame == Frame(layout, Decode(flags), canvasPos, DimsFor(style, fontSize), down, highlightedButtons.items)
    {
      frame := PaintGamepad(layout, Decode(flags), canvasPos, DimsFor(style, fontSize), down);
    }

    /** Paint with the decoded switches and pixel lengths `d`: the
        canvas, then each part its hide switch leaves on, the body always. */
    method PaintGamepad(layout: int, opts: Options, canvasPos: Vec2, d: Dims, down: set<Key>)
      returns (frame: GamepadFrame)
      ensures frame == Frame(layout, opts, canvasPos, d, down, highlightedButtons.items)
    {
      var canvas := RectAt(canvasPos, CanvasSize(d));
      var bodyPos := BodyPos(canvasPos, d);
      var triggers: seq<TriggerDraw> := [];
      if !opts.hideTriggers {
        triggers := PaintTriggers(canvasPos, bodyPos, d, opts.showTriggers, opts.showPressed, down);
      }
      var body := RectAt(bodyPos, Vec2(d.bodyWidth, d.bodyHeight));
      var controls := PaintControls(layout, opts, bodyPos, d, down);
      frame := GamepadFrame(canvas, triggers, body, controls);
    }

    /** The shoulder buttons, D-pad, sticks, face buttons and center
        buttons over the body, each unless its hide switch is on. */
    method PaintControls(layout: int, opts: Options, bodyPos: Vec2, d: Dims, down: set<Key>)
      returns (controls: BodyControls)
      ensures controls == GateControls(AllControls(layout, bodyPos, d, Inputs(opts.showPressed, down, highlightedButtons.items)), opts)
    {
      var sp := opts.showPressed;
      var shoulders: seq<ButtonDraw> := [];
      if !opts.hideShoulderButtons {
        shoulders := PaintShoulders(bodyPos, d, sp, down);
      }
      var dpad: Option<DPadDraw> := None;
      if !opts.hideDPad {
        var cross := RenderDPad(DPadCenter(bodyPos, d), d.dPadSize, sp, down);
        dpad := Some(cross);
      }
      var sticks: seq<ButtonDraw> := [];
      if !opts.hideSticks {
        sticks := PaintSticks(bodyPos, d, sp, opts.showSticks, down);
      }
      var face: seq<ButtonDraw> := [];
      if !opts.hideFaceButtons {
        face := PaintFaceButtons(layout, bodyPos, d, sp, down);
      }
      var center: seq<ButtonDraw> := [];
      if !opts.hideCenterButtons {
        center := PaintCenterButtons(bodyPos, d, sp, down);
      }
      controls := BodyControls(shoulders, dpad, sticks, face, center);
    }

    /** The two triggers above the body, left (L2) then right (R2). */
    method PaintTriggers(canvasPos: Vec2, bodyPos: Vec2, d: Dims, showLevel: bool, sp: bool, down: set<Key>)
      returns (triggers: seq<TriggerDraw>)
      ensures triggers == Triggers(canvasPos, bodyPos, d, showLevel, Inputs(sp, down, highlightedButtons.items))
    {
      var l2 := RenderTrigger(Vec2(bodyPos.x + 15.0 * d.s, canvasPos.y + 5.0 * d.s), d.triggerWidth,
                              d.triggerHeight, GamepadL2, sp, showLevel, down);
      var r2 := RenderTrigger(Vec2(bodyPos.x + d.bodyWidth - d.triggerWidth - 15.0 * d.s, canvasPos.y + 5.0 * d.s),
                              d.triggerWidth, d.triggerHeight, GamepadR2, sp, showLevel, down);
      triggers := [l2, r2];
    }

    /** The two shoulder buttons at the body's top corners, L1 then R1. */
    method PaintShoulders(bodyPos: Vec2, d: Dims, sp: bool, down: set<Key>) returns (shoulders: seq<ButtonDraw>)
      ensures shoulders == Shoulders(bodyPos, d, Inputs(sp, down, highlightedButtons.items))
    {
      var l1 := RenderShoulderButton(Vec2(bodyPos.x + 10.0 * d.s, bodyPos.y + 5.0 * d.s), d.triggerWidth,
                                     d.triggerHeight * 0.8, GamepadL1, "L1", sp, down);
      var r1 := RenderShoulderButton(Vec2(bodyPos.x + d.bodyWidth - d.triggerWidth - 10.0 * d.s, bodyPos.y + 5.0 * d.s),
                                     d.triggerWidth, d.triggerHeight * 0.8, GamepadR1, "R1", sp, down);
      shoulders := [l1, r1];
    }

    /** The left stick (L3) then the right one (R3). */
    method PaintSticks(bodyPos: Vec2, d: Dims, sp: bool, showSticks: bool, down: set<Key>)
      returns (sticks: seq<ButtonDraw>)
      ensures sticks == Sticks(bodyPos, d, Inputs(sp, down, highlightedButtons.items))
    {
      var l3 := RenderAnalogStick(Vec2(bodyPos.x + d.bodyWidth * 0.35, bodyPos.y + d.bodyHeight * 0.35),
                                  d.stickSize * 0.5, GamepadL3, sp, showSticks, down);
      var r3 := RenderAnalogStick(Vec2(bodyPos.x + d.bodyWidth * 0.65, bodyPos.y + d.bodyHeight * 0.65),
                                  d.stickSize * 0.5, GamepadR3, sp, showSticks, down);
      sticks := [l3, r3];
    }

    /** The face buttons top, right, bottom, left, labelled by the layout. */
    method PaintFaceButtons(layout: int, bodyPos: Vec2, d: Dims, sp: bool, down: set<Key>)
      returns (face: seq<ButtonDraw>)
      ensures face == FaceButtons(FaceLabelsFor(layout), bodyPos, d, Inputs(sp, down, highlightedButtons.items))
    {
      var fc := FaceCenter(bodyPos, d);
      var half := d.buttonSize * 1.3 * 0.5;
      var labels := FaceLabelsFor(layout);
      var top := RenderButton(Vec2(fc.x, fc.y - half), d.buttonSize * 0.5, Text(labels.top), GamepadFaceUp, sp, down);
      var right := RenderButton(Vec2(fc.x + half, fc.y), d.buttonSize * 0.5, Text(labels.right), GamepadFaceRight, sp, down);
      var bottom := RenderButton(Vec2(fc.x, fc.y + half), d.buttonSize * 0.5, Text(labels.bottom), GamepadFaceDown, sp, down);
      var left := RenderButton(Vec2(fc.x - half, fc.y), d.buttonSize * 0.5, Text(labels.left), GamepadFaceLeft, sp, down);
      face := [top, right, bottom, left];
    }

    /** The unlabelled Back then Start buttons. */
    method PaintCenterButtons(bodyPos: Vec2, d: Dims, sp: bool, down: set<Key>) returns (center: seq<ButtonDraw>)
      ensures center == CenterButtons(bodyPos, d, Inputs(sp, down, highlightedButtons.items))
    {
      var centerY := bodyPos.y + d.bodyHeight * 0.35;
      var back := RenderButton(Vec2(bodyPos.x + d.bodyWidth * 0.42, centerY), d.buttonSize * 0.4, Unlabelled,
                               GamepadBack, sp, down);
      var start := RenderButton(Vec2(bodyPos.x + d.bodyWidth * 0.58, centerY), d.buttonSize * 0.4, Unlabelled,
                                GamepadStart, sp, down);
      center := [back, start];
    }
  }
}

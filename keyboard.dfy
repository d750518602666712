/** The keyboard widget: its style, the overlay rule for one key, where
    each key of a layout table lands on screen, the board size, and the
    context object holding the highlighted keys. Drawing is modelled as the
    list of keys it paints (`KeyDraw`), in painting order; the host's
    key-down query, font size and item visibility are parameters. */
module KeyboardWidget {
  import opened Geometry
  import opened Keys
  import opened IdLists
  import opened KeyboardLayouts

  /** Flag bit: overlay the keys the host reports as held down. */
  const ShowPressed: bv32 := 1

  /** The style's lengths, in pixels before scaling. The face and label
      offsets place a key's face and label; the rounding radii and the face
      border width only shape the outlines and are never read here. */
  datatype KeyboardStyle = KeyboardStyle(
    keyUnit: real,
    sectionGap: real,
    keyRounding: real,
    keyFaceRounding: real,
    keyFaceBorderSize: real,
    keyFaceOffset: Vec2,
    keyLabelOffset: Vec2,
    boardPadding: real)

  /** The style a fresh context starts with (colours are not modelled). */
  const DefaultStyle := KeyboardStyle(34.0, 15.0, 3.0, 2.0, 2.0, Vec2(4.0, 3.0), Vec2(6.0, 4.0), 5.0)

  /** The overlay filled over a key's background, if any. */
  datatype Overlay = NoOverlay | PressedOverlay | HighlightedOverlay | PressedHighlightedOverlay
  {
    /** The overlay's colour says "pressed". */
    predicate ShowsPressed() { PressedOverlay? || PressedHighlightedOverlay? }
    /** The overlay's colour says "highlighted". */
    predicate ShowsHighlight() { HighlightedOverlay? || PressedHighlightedOverlay? }
  }

  /** The overlay rule: the overlay tells both facts apart, with its own
      colour for a key that is pressed and highlighted at once. */
  function OverlayFor(pressed: bool, highlighted: bool): (o: Overlay)
    ensures o.ShowsPressed() <==> pressed
    ensures o.ShowsHighlight() <==> highlighted
    ensures o == NoOverlay <==> !pressed && !highlighted
  {
    if pressed && highlighted then PressedHighlightedOverlay
    else if pressed then PressedOverlay
    else if highlighted then HighlightedOverlay
    else NoOverlay
  }

  /** What one render reads besides the layout: the style, the scale
      (font size over 13), the flags, the keys the host reports down and the
      highlighted keys. */
  datatype RenderEnv = RenderEnv(style: KeyboardStyle, scale: real, flags: bv32,
                                 down: set<Key>, highlighted: seq<Key>)

  /** A key counts as pressed only when the flag asks for it and the host
      reports it down. */
  predicate IsPressed(env: RenderEnv, key: Key)
  {
    env.flags & ShowPressed != 0 && key in env.down
  }

  /** One painted key: the key, its label text, its background
      rectangle, the face rectangle painted over the background, the
      point the label is drawn at, and the overlay filled over the
      background. */
  datatype KeyDraw = KeyDraw(key: Key, text: string, body: Rect, face: Rect, labelPos: Vec2, overlay: Overlay)

  /** The face offset in pixels: how far the face sits in from the key's
      edges on each axis. */
  function FaceInset(style: KeyboardStyle, scale: real): Vec2
  {
    Vec2(style.keyFaceOffset.x * scale, style.keyFaceOffset.y * scale)
  }

  /** The label offset in pixels from the key's top-left corner. */
  function LabelInset(style: KeyboardStyle, scale: real): Vec2
  {
    Vec2(style.keyLabelOffset.x * scale, style.keyLabelOffset.y * scale)
  }

  /** The face of a key at `keyMin` with extent `keySize`: it starts one
      face offset in, and is two face offsets smaller on each axis. */
  function KeyFace(keyMin: Vec2, keySize: Vec2, inset: Vec2): Rect
  {
    var faceMin := Add(keyMin, inset);
    Rect(faceMin, Vec2(faceMin.x + (keySize.x - 2.0 * inset.x), faceMin.y + (keySize.y - 2.0 * inset.y)))
  }

  /** Painting one key at `keyMin` with extent `keySize`: the background
      has that corner and extent, the face is the background shrunk by the
      face offset on every side, the label sits one label offset from the
      corner, and the overlay reports exactly whether the key is pressed
      and whether it is highlighted. */
  function RenderKey(keyMin: Vec2, keySize: Vec2, text: string, key: Key, env: RenderEnv): (d: KeyDraw)
    ensures d.key == key && d.text == text
    ensures d.body.min == keyMin && Width(d.body) == keySize.x && Height(d.body) == keySize.y
    ensures d.face.min.x - d.body.min.x == FaceInset(env.style, env.scale).x
    ensures d.face.min.y - d.body.min.y == FaceInset(env.style, env.scale).y
    ensures d.body.max.x - d.face.max.x == FaceInset(env.style, env.scale).x
    ensures d.body.max.y - d.face.max.y == FaceInset(env.style, env.scale).y
    ensures d.labelPos.x - d.body.min.x == LabelInset(env.style, env.scale).x
    ensures d.labelPos.y - d.body.min.y == LabelInset(env.style, env.scale).y
    ensures d.overlay.ShowsPressed() <==> IsPressed(env, key)
    ensures d.overlay.ShowsHighlight() <==> key in env.highlighted
  {
    KeyDraw(key, text, RectAt(keyMin, keySize), KeyFace(keyMin, keySize, FaceInset(env.style, env.scale)),
            Add(keyMin, LabelInset(env.style, env.scale)), OverlayFor(IsPressed(env, key), key in env.highlighted))
  }

  /** With non-negative face offsets and scale, a key's face lies within
      its background, so the overlay over the background covers it. */
  lemma FaceWithinKey(keyMin: Vec2, keySize: Vec2, text: string, key: Key, env: RenderEnv)
    requires env.style.keyFaceOffset.x >= 0.0 && env.style.keyFaceOffset.y >= 0.0 && env.scale >= 0.0
    ensures RectWithin(RenderKey(keyMin, keySize, text, key, env).face, RenderKey(keyMin, keySize, text, key, env).body)
  {
    MulLe(0.0, env.style.keyFaceOffset.x, env.scale);
    MulLe(0.0, env.style.keyFaceOffset.y, env.scale);
  }

  /** Where a table entry's key background lands when its table is placed
      at `origin`: the corner is the origin plus the key-unit position, and
      the key is two scaled pixels narrower and shorter than its key-unit
      extent. */
  function KeyBodyRect(k: KeyLayout, origin: Vec2, ku: real, scale: real): Rect
  {
    RectAt(KeyMin(k, origin, ku), KeySize(k, ku, scale))
  }

  /** The top-left corner of a table entry's key placed at `origin`. */
  function KeyMin(k: KeyLayout, origin: Vec2, ku: real): Vec2
  {
    Vec2(origin.x + k.x * ku, origin.y + k.y * ku)
  }

  /** The extent of a table entry's key: its key-unit extent less two scaled pixels. */
  function KeySize(k: KeyLayout, ku: real, scale: real): Vec2
  {
    Vec2(k.width * ku - 2.0 * scale, k.height * ku - 2.0 * scale)
  }

  /** A table entry painted at its place. */
  function PlaceKey(k: KeyLayout, origin: Vec2, ku: real, env: RenderEnv): (d: KeyDraw)
    ensures d.body == KeyBodyRect(k, origin, ku, env.scale)
  {
    RenderKey(KeyMin(k, origin, ku), KeySize(k, ku, env.scale), k.text, k.key, env)
  }

  /** A whole table painted at `origin`, in table order. */
  function PlaceRow(keys: seq<KeyLayout>, origin: Vec2, ku: real, env: RenderEnv): (r: seq<KeyDraw>)
    ensures |r| == |keys|
    ensures forall i :: 0 <= i < |keys| ==> r[i] == PlaceKey(keys[i], origin, ku, env)
  {
    seq(|keys|, i requires 0 <= i < |keys| => PlaceKey(keys[i], origin, ku, env))
  }

  lemma MulLe(a: real, b: real, k: real)
    requires a <= b && k >= 0.0
    ensures a * k <= b * k
  {
  }

  /** Placing keys at a non-negative key unit and scale keeps apart keys
      that do not overlap in key units. */
  lemma PlacedKeysDisjoint(a: KeyLayout, b: KeyLayout, origin: Vec2, ku: real, scale: real)
    requires ku >= 0.0 && scale >= 0.0 && KeysDisjoint(a, b)
    ensures Disjoint(KeyBodyRect(a, origin, ku, scale), KeyBodyRect(b, origin, ku, scale))
  {
    if a.x + a.width <= b.x {
      MulLe(a.x + a.width, b.x, ku);
    } else if b.x + b.width <= a.x {
      MulLe(b.x + b.width, a.x, ku);
    } else if a.y + a.height <= b.y {
      MulLe(a.y + a.height, b.y, ku);
    } else {
      MulLe(b.y + b.height, a.y, ku);
    }
  }

  /** The rectangle a `w` by `h` key grid occupies at `origin`. */
  function GridRect(origin: Vec2, w: real, h: real, ku: real): Rect
  {
    Rect(origin, Vec2(origin.x + w * ku, origin.y + h * ku))
  }

  /** A key inside a key grid is painted inside the grid's rectangle. */
  lemma PlacedKeyWithin(k: KeyLayout, w: real, h: real, origin: Vec2, ku: real, scale: real)
    requires ku >= 0.0 && scale >= 0.0 && KeyWithin(k, w, h)
    ensures RectWithin(KeyBodyRect(k, origin, ku, scale), GridRect(origin, w, h, ku))
  {
    MulLe(0.0, k.x, ku);
    MulLe(0.0, k.y, ku);
    MulLe(k.x + k.width, w, ku);
    MulLe(k.y + k.height, h, ku);
  }

  /** Two keys that touch edge to edge in a table are painted exactly two
      scaled pixels apart, with the same top and bottom. */
  lemma AdjacentKeysGap(a: KeyLayout, b: KeyLayout, origin: Vec2, ku: real, scale: real)
    requires b.x == a.x + a.width && b.y == a.y && b.height == a.height
    ensures KeyBodyRect(b, origin, ku, scale).min.x - KeyBodyRect(a, origin, ku, scale).max.x == 2.0 * scale
    ensures KeyBodyRect(b, origin, ku, scale).min.y == KeyBodyRect(a, origin, ku, scale).min.y
    ensures KeyBodyRect(b, origin, ku, scale).max.y == KeyBodyRect(a, origin, ku, scale).max.y
  {
    var ra := KeyBodyRect(a, origin, ku, scale);
    var rb := KeyBodyRect(b, origin, ku, scale);
    MulDistributes(a.x, a.width, ku);
    var ax, aw := a.x * ku, a.width * ku;
    assert rb.min.x == origin.x + (ax + aw);
    assert ra.max.x == origin.x + ax + (aw - 2.0 * scale);
    assert rb.min.x - ra.max.x == 2.0 * scale;
    SameRowBand(a, b, origin, ku, scale);
  }

  /** Keys with the same top and height are painted with the same top and bottom. */
  lemma SameRowBand(a: KeyLayout, b: KeyLayout, origin: Vec2, ku: real, scale: real)
    requires b.y == a.y && b.height == a.height
    ensures KeyBodyRect(b, origin, ku, scale).min.y == KeyBodyRect(a, origin, ku, scale).min.y
    ensures KeyBodyRect(b, origin, ku, scale).max.y == KeyBodyRect(a, origin, ku, scale).max.y
  {
    assert KeyMin(b, origin, ku).y == KeyMin(a, origin, ku).y;
    assert KeySize(b, ku, scale).y == KeySize(a, ku, scale).y;
  }

  lemma MulDistributes(p: real, q: real, k: real)
    ensures (p + q) * k == p * k + q * k
  {
  }

  /** No two painted keys overlap. */
  predicate BodiesDisjoint(ds: seq<KeyDraw>)
  {
    forall i, j :: 0 <= i < j < |ds| ==> Disjoint(ds[i].body, ds[j].body)
  }

  /** A table without overlap is painted without overlap, inside its grid. */
  lemma PlaceRowSound(keys: seq<KeyLayout>, w: real, h: real, origin: Vec2, ku: real, env: RenderEnv)
    requires ku >= 0.0 && env.scale >= 0.0
    requires NonOverlapping(keys) && WithinGrid(keys, w, h)
    ensures BodiesDisjoint(PlaceRow(keys, origin, ku, env))
    ensures forall i :: 0 <= i < |keys| ==>
      RectWithin(PlaceRow(keys, origin, ku, env)[i].body, GridRect(origin, w, h, ku))
  {
    var r := PlaceRow(keys, origin, ku, env);
    forall i, j | 0 <= i < j < |r|
      ensures Disjoint(r[i].body, r[j].body)
    {
      PlacedKeysDisjoint(keys[i], keys[j], origin, ku, env.scale);
    }
    forall i | 0 <= i < |keys|
      ensures RectWithin(r[i].body, GridRect(origin, w, h, ku))
    {
      PlacedKeyWithin(keys[i], w, h, origin, ku, env.scale);
    }
  }

  /** One table drawn by the board, with the key grid (`w` by `h` key
      units) it is known to fit in. */
  datatype Section = Section(keys: seq<KeyLayout>, origin: Vec2, w: real, h: real)

  function Region(sec: Section, ku: real): Rect
  {
    GridRect(sec.origin, sec.w, sec.h, ku)
  }

  /** Every table fits its grid without overlap. */
  predicate SectionsSound(S: seq<Section>)
  {
    forall i :: 0 <= i < |S| ==> NonOverlapping(S[i].keys) && WithinGrid(S[i].keys, S[i].w, S[i].h)
  }

  /** The grids of different sections do not overlap. */
  predicate RegionsSeparated(S: seq<Section>, ku: real)
  {
    forall i, j :: 0 <= i < j < |S| ==> Disjoint(Region(S[i], ku), Region(S[j], ku))
  }

  /** The keys of all sections, painted section after section: the keys
      of the last section come after those of all earlier ones. */
  function DrawSections(S: seq<Section>, ku: real, env: RenderEnv): seq<KeyDraw>
  {
    if S == [] then []
    else DrawSections(S[..|S| - 1], ku, env) + PlaceRow(S[|S| - 1].keys, S[|S| - 1].origin, ku, env)
  }

  /** Painted keys keep away from a rectangle that every section grid keeps away from. */
  lemma {:induction false} DrawnAvoid(S: seq<Section>, R: Rect, ku: real, env: RenderEnv)
    requires ku >= 0.0 && env.scale >= 0.0 && SectionsSound(S)
    requires forall i :: 0 <= i < |S| ==> Disjoint(Region(S[i], ku), R)
    ensures forall k :: 0 <= k < |DrawSections(S, ku, env)| ==> Disjoint(DrawSections(S, ku, env)[k].body, R)
  {
    if S != [] {
      var n := |S| - 1;
      var head := DrawSections(S[..n], ku, env);
      var tail := PlaceRow(S[n].keys, S[n].origin, ku, env);
      PlaceRowSound(S[n].keys, S[n].w, S[n].h, S[n].origin, ku, env);
      DrawnAvoid(S[..n], R, ku, env);
      var ds: seq<KeyDraw> := head + tail;
      forall k | 0 <= k < |ds|
        ensures Disjoint(ds[k].body, R)
      {
        if k >= |head| {
          assert ds[k] == tail[k - |head|];
        } else {
          assert ds[k] == head[k];
        }
      }
    }
  }

  /** Painted keys lie inside a rectangle that contains every section grid. */
  lemma {:induction false} DrawnWithin(S: seq<Section>, B: Rect, ku: real, env: RenderEnv)
    requires ku >= 0.0 && env.scale >= 0.0 && SectionsSound(S)
    requires forall i :: 0 <= i < |S| ==> RectWithin(Region(S[i], ku), B)
    ensures forall k :: 0 <= k < |DrawSections(S, ku, env)| ==> RectWithin(DrawSections(S, ku, env)[k].body, B)
  {
    if S != [] {
      var n := |S| - 1;
      var head := DrawSections(S[..n], ku, env);
      var tail := PlaceRow(S[n].keys, S[n].origin, ku, env);
      PlaceRowSound(S[n].keys, S[n].w, S[n].h, S[n].origin, ku, env);
      DrawnWithin(S[..n], B, ku, env);
      var ds: seq<KeyDraw> := head + tail;
      forall k | 0 <= k < |ds|
        ensures RectWithin(ds[k].body, B)
      {
        if k >= |head| {
          assert ds[k] == tail[k - |head|];
        } else {
          assert ds[k] == head[k];
        }
      }
    }
  }

  /** Sections that fit their grids, with grids apart, are painted with
      no two keys overlapping. */
  lemma {:induction false} DrawnDisjoint(S: seq<Section>, ku: real, env: RenderEnv)
    requires ku >= 0.0 && env.scale >= 0.0
    requires SectionsSound(S) && RegionsSeparated(S, ku)
    ensures BodiesDisjoint(DrawSections(S, ku, env))
  {
    if S != [] {
      var n := |S| - 1;
      var R := Region(S[n], ku);
      var head := DrawSections(S[..n], ku, env);
      var tail := PlaceRow(S[n].keys, S[n].origin, ku, env);
      PlaceRowSound(S[n].keys, S[n].w, S[n].h, S[n].origin, ku, env);
      DrawnDisjoint(S[..n], ku, env);
      DrawnAvoid(S[..n], R, ku, env);
      var ds := head + tail;
      forall i, j | 0 <= i < j < |ds|
        ensures Disjoint(ds[i].body, ds[j].body)
      {
        if j < |head| {
          assert ds[i] == head[i] && ds[j] == head[j];
        } else if i >= |head| {
          assert ds[i] == tail[i - |head|] && ds[j] == tail[j - |head|];
        } else {
          assert ds[i] == head[i] && ds[j] == tail[j - |head|];
          assert RectWithin(tail[j - |head|].body, R);
          assert Disjoint(head[i].body, R);
        }
      }
    }
  }

  /** Every painted key reports exactly whether it is pressed and whether
      it is highlighted. */
  lemma {:induction false} DrawnOverlays(S: seq<Section>, ku: real, env: RenderEnv)
    ensures forall k :: 0 <= k < |DrawSections(S, ku, env)| ==>
      (DrawSections(S, ku, env)[k].overlay.ShowsPressed() <==> IsPressed(env, DrawSections(S, ku, env)[k].key)) &&
      (DrawSections(S, ku, env)[k].overlay.ShowsHighlight() <==> DrawSections(S, ku, env)[k].key in env.highlighted)
  {
    if S != [] {
      var n := |S| - 1;
      var head := DrawSections(S[..n], ku, env);
      var tail := PlaceRow(S[n].keys, S[n].origin, ku, env);
      DrawnOverlays(S[..n], ku, env);
      var ds: seq<KeyDraw> := head + tail;
      forall k | 0 <= k < |ds|
        ensures (ds[k].overlay.ShowsPressed() <==> IsPressed(env, ds[k].key)) &&
          (ds[k].overlay.ShowsHighlight() <==> ds[k].key in env.highlighted)
      {
        if k < |head| {
          assert ds[k] == head[k];
        } else {
          assert ds[k] == tail[k - |head|] == PlaceKey(S[n].keys[k - |head|], S[n].origin, ku, env);
        }
      }
    }
  }

  /** The y coordinate of the number row: one key unit of function row and
      half a key unit of gap below the top of the key area. */
  function MainSectionY(start: Vec2, ku: real): real
  {
    start.y + ku + 0.5 * ku
  }

  function NavX(start: Vec2, ku: real, gap: real): real
  {
    start.x + 15.0 * ku + gap
  }

  function NumpadX(start: Vec2, ku: real, gap: real): real
  {
    NavX(start, ku, gap) + 3.0 * ku + gap
  }

  /** The tables a board draws. */
  datatype BoardTables = BoardTables(functionRow: seq<KeyLayout>, numberRow: seq<KeyLayout>,
                                     letters: LetterRows, bottomRow: seq<KeyLayout>,
                                     navCluster: seq<KeyLayout>, numpad: seq<KeyLayout>)

  /** The tables of a layout selector: the letter rows follow the selector,
      the other tables are shared by all layouts. */
  function TablesFor(layout: int): (t: BoardTables)
    ensures t.letters == LetterRowsFor(layout) && t.numpad == NumpadKeys()
  {
    BoardTables(FunctionRowKeys(), NumberRowKeys(), LetterRowsFor(layout), BottomRowKeys(), NavClusterKeys(), NumpadKeys())
  }

  /** Each table fits the grid its section reserves, without overlap. */
  predicate TablesSound(t: BoardTables)
  {
    && NonOverlapping(t.functionRow) && WithinGrid(t.functionRow, 18.25, 1.0)
    && NonOverlapping(t.numberRow) && WithinGrid(t.numberRow, 15.0, 1.0)
    && NonOverlapping(t.letters.row1) && WithinGrid(t.letters.row1, 15.0, 1.0)
    && NonOverlapping(t.letters.row2) && WithinGrid(t.letters.row2, 15.0, 1.0)
    && NonOverlapping(t.letters.row3) && WithinGrid(t.letters.row3, 15.0, 1.0)
    && NonOverlapping(t.bottomRow) && WithinGrid(t.bottomRow, 15.0, 1.0)
    && NonOverlapping(t.navCluster) && WithinGrid(t.navCluster, 3.0, 5.0)
    && NonOverlapping(t.numpad) && WithinGrid(t.numpad, 4.0, 5.0)
  }

  /** The tables of every layout selector are sound. */
  lemma TablesForSound(layout: int)
    ensures TablesSound(TablesFor(layout))
  {
    var rows := LetterRowsFor(layout);
    FunctionRowLayout();
    NumberAndBottomRowsTile();
    LetterRowsTile(layout);
    MainBlockRowNonOverlapping(NumberRowKeys());
    MainBlockRowNonOverlapping(rows.row1);
    MainBlockRowNonOverlapping(rows.row2);
    MainBlockRowNonOverlapping(rows.row3);
    MainBlockRowNonOverlapping(BottomRowKeys());
    NavClusterGrid();
    NumpadGrid();
  }

  /** The sections a board draws and where: the numeric-pad selector draws
      the keypad alone; every other selector draws the function row, the
      five main rows, the navigation cluster and the keypad. */
  function Sections(layout: int, t: BoardTables, start: Vec2, ku: real, gap: real): (S: seq<Section>)
    ensures layout == NumericPad ==> |S| == 1 && S[0].keys == t.numpad && S[0].origin == start
    ensures layout != NumericPad ==> |S| == 8
    ensures layout != NumericPad ==>
      S[2].keys == t.letters.row1 && S[3].keys == t.letters.row2 && S[4].keys == t.letters.row3
  {
    if layout == NumericPad then
      [Section(t.numpad, start, 4.0, 5.0)]
    else
      var mainY := MainSectionY(start, ku);
      [ Section(t.functionRow, start, 18.25, 1.0),
        Section(t.numberRow, Vec2(start.x, mainY), 15.0, 1.0),
        Section(t.letters.row1, Vec2(start.x, mainY + ku), 15.0, 1.0),
        Section(t.letters.row2, Vec2(start.x, mainY + 2.0 * ku), 15.0, 1.0),
        Section(t.letters.row3, Vec2(start.x, mainY + 3.0 * ku), 15.0, 1.0),
        Section(t.bottomRow, Vec2(start.x, mainY + 4.0 * ku), 15.0, 1.0),
        Section(t.navCluster, Vec2(NavX(start, ku, gap), mainY), 3.0, 5.0),
        Section(t.numpad, Vec2(NumpadX(start, ku, gap), mainY), 4.0, 5.0) ]
  }

  /** The board's extent: 4 by 5 key units for the keypad alone, 22 key
      units and two section gaps by 6.5 key units for the full board, plus
      the padding on both sides. */
  function BoardSize(layout: int, ku: real, gap: real, pad: real): Vec2
  {
    if layout == NumericPad then Vec2(4.0 * ku + pad * 2.0, 5.0 * ku + pad * 2.0)
    else Vec2(15.0 * ku + gap + 3.0 * ku + gap + 4.0 * ku + pad * 2.0, 6.5 * ku + pad * 2.0)
  }

  /** What one call of the widget produces: the board rectangle it
      reserves (and clips to), whether the host reported it visible, and
      the keys painted. */
  datatype KeyboardFrame = KeyboardFrame(board: Rect, visible: bool, keys: seq<KeyDraw>)

  function Scale(fontSize: real): real
  {
    fontSize / 13.0
  }

  /** A style length in pixels at the given font size. */
  function Scaled(len: real, fontSize: real): real
  {
    len * Scale(fontSize)
  }

  /** The frame for given tables and an already scaled key unit, section
      gap and padding: the board is reserved at `origin`, the key area
      starts one padding in, and the keys are painted only when the board
      is visible. */
  function BoardFrame(layout: int, t: BoardTables, origin: Vec2, visible: bool, ku: real, gap: real, pad: real,
                      env: RenderEnv): KeyboardFrame
  {
    var start := Vec2(origin.x + pad, origin.y + pad);
    KeyboardFrame(RectAt(origin, BoardSize(layout, ku, gap, pad)), visible,
                  if visible then DrawSections(Sections(layout, t, start, ku, gap), ku, env) else [])
  }

  /** The parts of a board frame. */
  lemma BoardFrameParts(layout: int, t: BoardTables, origin: Vec2, visible: bool, ku: real, gap: real, pad: real,
                        env: RenderEnv)
    ensures BoardFrame(layout, t, origin, visible, ku, gap, pad, env).board == RectAt(origin, BoardSize(layout, ku, gap, pad))
    ensures BoardFrame(layout, t, origin, visible, ku, gap, pad, env).visible == visible
    ensures visible ==>
      BoardFrame(layout, t, origin, visible, ku, gap, pad, env).keys
        == DrawSections(Sections(layout, t, Vec2(origin.x + pad, origin.y + pad), ku, gap), ku, env)
    ensures !visible ==> BoardFrame(layout, t, origin, visible, ku, gap, pad, env).keys == []
  {
  }

  /** The full board is strictly larger than the keypad-only board, in
      both dimensions, whenever the key unit is positive. */
  lemma NumpadBoardSmaller(ku: real, gap: real, pad: real, layout: int)
    requires ku > 0.0 && gap >= 0.0 && layout != NumericPad
    ensures BoardSize(NumericPad, ku, gap, pad).x < BoardSize(layout, ku, gap, pad).x
    ensures BoardSize(NumericPad, ku, gap, pad).y < BoardSize(layout, ku, gap, pad).y
  {
  }

  /** The sections end exactly at the padding: the keypad is drawn last, and
      its grid's far corner is the board's far corner less the padding, for
      both kinds of board. */
  lemma SectionsFillBoard(layout: int, t: BoardTables, origin: Vec2, ku: real, gap: real, pad: real)
    ensures var start := Vec2(origin.x + pad, origin.y + pad);
      var size := BoardSize(layout, ku, gap, pad);
      var S := Sections(layout, t, start, ku, gap);
      S[|S| - 1].keys == t.numpad &&
      Region(S[|S| - 1], ku).max == Vec2(origin.x + size.x - pad, origin.y + size.y - pad)
  {
  }

  /** The sections of a full board fit their grids without overlap. */
  lemma FullSectionsSound(layout: int, t: BoardTables, start: Vec2, ku: real, gap: real)
    requires layout != NumericPad && TablesSound(t)
    ensures SectionsSound(Sections(layout, t, start, ku, gap))
  {
  }

  /** The grid rectangle of the `i`-th section of a full board. */
  function FullRegion(i: nat, start: Vec2, ku: real, gap: real): Rect
  {
    var mainY := MainSectionY(start, ku);
    if i == 0 then GridRect(start, 18.25, 1.0, ku)
    else if i == 1 then GridRect(Vec2(start.x, mainY), 15.0, 1.0, ku)
    else if i == 2 then GridRect(Vec2(start.x, mainY + ku), 15.0, 1.0, ku)
    else if i == 3 then GridRect(Vec2(start.x, mainY + 2.0 * ku), 15.0, 1.0, ku)
    else if i == 4 then GridRect(Vec2(start.x, mainY + 3.0 * ku), 15.0, 1.0, ku)
    else if i == 5 then GridRect(Vec2(start.x, mainY + 4.0 * ku), 15.0, 1.0, ku)
    else if i == 6 then GridRect(Vec2(NavX(start, ku, gap), mainY), 3.0, 5.0, ku)
    else GridRect(Vec2(NumpadX(start, ku, gap), mainY), 4.0, 5.0, ku)
  }

  lemma FullRegionsMatch(layout: int, t: BoardTables, start: Vec2, ku: real, gap: real)
    requires layout != NumericPad
    ensures forall i :: 0 <= i < 8 ==> Region(Sections(layout, t, start, ku, gap)[i], ku) == FullRegion(i, start, ku, gap)
  {
  }

  /** The eight grids of a full board do not overlap: the function row is
      above the rest, the five main rows are stacked, and the navigation
      cluster and the keypad stand to the right, a section gap apart. */
  lemma FullRegionsApart(start: Vec2, ku: real, gap: real)
    requires ku >= 0.0 && gap >= 0.0
    ensures forall i, j :: 0 <= i < j < 8 ==> Disjoint(FullRegion(i, start, ku, gap), FullRegion(j, start, ku, gap))
  {
  }

  /** The inner area of the full board: 22 key units and two section gaps
      wide, 6.5 key units tall. */
  function FullInner(start: Vec2, ku: real, gap: real): Rect
  {
    Rect(start, Vec2(start.x + 22.0 * ku + 2.0 * gap, start.y + 6.5 * ku))
  }

  /** The eight grids of a full board lie within its inner area. */
  lemma FullRegionsInside(start: Vec2, ku: real, gap: real)
    requires ku >= 0.0 && gap >= 0.0
    ensures forall i :: 0 <= i < 8 ==> RectWithin(FullRegion(i, start, ku, gap), FullInner(start, ku, gap))
  {
  }

  /** The painted keys of a full board lie inside the board and do not overlap. */
  lemma FullBoardSound(layout: int, t: BoardTables, start: Vec2, ku: real, gap: real, board: Rect, env: RenderEnv)
    requires layout != NumericPad && TablesSound(t) && ku >= 0.0 && gap >= 0.0 && env.scale >= 0.0
    requires RectWithin(FullInner(start, ku, gap), board)
    ensures var ds := DrawSections(Sections(layout, t, start, ku, gap), ku, env);
      BodiesDisjoint(ds) && forall k :: 0 <= k < |ds| ==> RectWithin(ds[k].body, board)
  {
    var S := Sections(layout, t, start, ku, gap);
    FullSectionsSound(layout, t, start, ku, gap);
    FullRegionsMatch(layout, t, start, ku, gap);
    FullRegionsApart(start, ku, gap);
    FullRegionsInside(start, ku, gap);
    assert RegionsSeparated(S, ku);
    DrawnDisjoint(S, ku, env);
    DrawnWithin(S, board, ku, env);
  }

  /** The painted keys of the keypad-only board lie inside the board and do not overlap. */
  lemma NumpadBoardSound(t: BoardTables, start: Vec2, ku: real, gap: real, board: Rect, env: RenderEnv)
    requires TablesSound(t) && ku >= 0.0 && env.scale >= 0.0
    requires RectWithin(GridRect(start, 4.0, 5.0, ku), board)
    ensures var ds := DrawSections(Sections(NumericPad, t, start, ku, gap), ku, env);
      BodiesDisjoint(ds) && forall k :: 0 <= k < |ds| ==> RectWithin(ds[k].body, board)
  {
    var S := Sections(NumericPad, t, start, ku, gap);
    assert SectionsSound(S);
    DrawnDisjoint(S, ku, env);
    DrawnWithin(S, board, ku, env);
  }

  /** The area the sections occupy lies within the reserved board, one
      padding in from its corner. */
  lemma InnerWithinBoard(layout: int, origin: Vec2, ku: real, gap: real, pad: real)
    requires ku >= 0.0 && gap >= 0.0 && pad >= 0.0
    ensures var start := Vec2(origin.x + pad, origin.y + pad);
      var board := RectAt(origin, BoardSize(layout, ku, gap, pad));
      (layout == NumericPad ==> RectWithin(GridRect(start, 4.0, 5.0, ku), board)) &&
      (layout != NumericPad ==> RectWithin(FullInner(start, ku, gap), board))
  {
  }

  /** With sound tables and non-negative lengths, every painted key lies
      inside the reserved board and no two painted keys overlap. */
  lemma BoardFrameSound(layout: int, t: BoardTables, origin: Vec2, visible: bool, ku: real, gap: real, pad: real,
                        env: RenderEnv)
    requires TablesSound(t) && ku >= 0.0 && gap >= 0.0 && pad >= 0.0 && env.scale >= 0.0
    ensures var f := BoardFrame(layout, t, origin, visible, ku, gap, pad, env);
      BodiesDisjoint(f.keys) && forall k :: 0 <= k < |f.keys| ==> RectWithin(f.keys[k].body, f.board)
  {
    var start := Vec2(origin.x + pad, origin.y + pad);
    var board := RectAt(origin, BoardSize(layout, ku, gap, pad));
    if visible {
      assert BoardFrame(layout, t, origin, visible, ku, gap, pad, env)
        == KeyboardFrame(board, true, DrawSections(Sections(layout, t, start, ku, gap), ku, env));
      InnerWithinBoard(layout, origin, ku, gap, pad);
      if layout == NumericPad {
        NumpadBoardSound(t, start, ku, gap, board, env);
      } else {
        FullBoardSound(layout, t, start, ku, gap, board, env);
      }
    }
  }

  /** Non-negative style lengths stay non-negative once scaled by a
      non-negative font size. */
  lemma ScaledNonNeg(style: KeyboardStyle, fontSize: real)
    requires fontSize >= 0.0 && style.keyUnit >= 0.0 && style.sectionGap >= 0.0 && style.boardPadding >= 0.0
    ensures Scale(fontSize) >= 0.0
    ensures Scaled(style.keyUnit, fontSize) >= 0.0 && Scaled(style.sectionGap, fontSize) >= 0.0
    ensures Scaled(style.boardPadding, fontSize) >= 0.0
  {
  }

  /** Every painted key shows the pressed colour exactly when the flag is
      set and the key is down, and the highlight colour exactly when it is
      highlighted; nothing is painted when the board is not visible. */
  lemma BoardFrameOverlays(layout: int, t: BoardTables, origin: Vec2, visible: bool, ku: real, gap: real, pad: real,
                           env: RenderEnv)
    ensures var f := BoardFrame(layout, t, origin, visible, ku, gap, pad, env);
      (!visible ==> f.keys == []) &&
      forall k :: 0 <= k < |f.keys| ==>
        (f.keys[k].overlay.ShowsPressed() <==> IsPressed(env, f.keys[k].key)) &&
        (f.keys[k].overlay.ShowsHighlight() <==> f.keys[k].key in env.highlighted)
  {
    DrawnOverlays(Sections(layout, t, Vec2(origin.x + pad, origin.y + pad), ku, gap), ku, env);
  }

  /** Whenever the style lengths and the font size are non-negative, every
      key one call of the widget paints lies inside the board it reserved,
      and no two painted keys overlap. The call's frame is the board frame
      of the selector's own tables with every style length multiplied by
      the scale, the font size over 13. */
  lemma KeyboardKeysSound(layout: int, flags: bv32, origin: Vec2, fontSize: real, visible: bool,
                          style: KeyboardStyle, down: set<Key>, highlighted: seq<Key>)
    requires fontSize >= 0.0 && style.keyUnit >= 0.0 && style.sectionGap >= 0.0 && style.boardPadding >= 0.0
    ensures var f := BoardFrame(layout, TablesFor(layout), origin, visible, Scaled(style.keyUnit, fontSize),
                                Scaled(style.sectionGap, fontSize), Scaled(style.boardPadding, fontSize),
                                RenderEnv(style, Scale(fontSize), flags, down, highlighted));
      BodiesDisjoint(f.keys) && forall k :: 0 <= k < |f.keys| ==> RectWithin(f.keys[k].body, f.board)
  {
    ScaledNonNeg(style, fontSize);
    TablesForSound(layout);
    BoardFrameSound(layout, TablesFor(layout), origin, visible, Scaled(style.keyUnit, fontSize),
                    Scaled(style.sectionGap, fontSize), Scaled(style.boardPadding, fontSize),
                    RenderEnv(style, Scale(fontSize), flags, down, highlighted));
  }

  /** The tables of a full board painted one after the other, each at its
      own origin. */
  function PaintedInOrder(t: BoardTables, start: Vec2, ku: real, gap: real, env: RenderEnv): seq<KeyDraw>
  {
    PlaceRow(t.functionRow, start, ku, env)
    + PlaceRow(t.numberRow, Vec2(start.x, MainSectionY(start, ku)), ku, env)
    + PlaceRow(t.letters.row1, Vec2(start.x, MainSectionY(start, ku) + ku), ku, env)
    + PlaceRow(t.letters.row2, Vec2(start.x, MainSectionY(start, ku) + 2.0 * ku), ku, env)
    + PlaceRow(t.letters.row3, Vec2(start.x, MainSectionY(start, ku) + 3.0 * ku), ku, env)
    + PlaceRow(t.bottomRow, Vec2(start.x, MainSectionY(start, ku) + 4.0 * ku), ku, env)
    + PlaceRow(t.navCluster, Vec2(NavX(start, ku, gap), MainSectionY(start, ku)), ku, env)
    + PlaceRow(t.numpad, Vec2(NumpadX(start, ku, gap), MainSectionY(start, ku)), ku, env)
  }

  /** The painting order of a full board: the function row, the number
      row, the three letter rows, the bottom row, the navigation cluster and
      the keypad, each painted as one table at its own origin. */
  lemma FullPaintOrder(layout: int, t: BoardTables, start: Vec2, ku: real, gap: real, env: RenderEnv)
    requires layout != NumericPad
    ensures DrawSections(Sections(layout, t, start, ku, gap), ku, env) == PaintedInOrder(t, start, ku, gap, env)
  {
    DrawEight(Sections(layout, t, start, ku, gap), ku, env);
  }

  /** Painting the first `k` sections is painting the first `k - 1` and
      then the `k`-th. */
  lemma DrawPrefix(S: seq<Section>, k: nat, ku: real, env: RenderEnv)
    requires 0 < k <= |S|
    ensures DrawSections(S[..k], ku, env) == DrawSections(S[..k - 1], ku, env) + PlaceRow(S[k - 1].keys, S[k - 1].origin, ku, env)
  {
    assert S[..k][..k - 1] == S[..k - 1];
  }

  /** Eight sections are painted one table after the other. */
  lemma DrawEight(S: seq<Section>, ku: real, env: RenderEnv)
    requires |S| == 8
    ensures DrawSections(S, ku, env) ==
      PlaceRow(S[0].keys, S[0].origin, ku, env) + PlaceRow(S[1].keys, S[1].origin, ku, env)
      + PlaceRow(S[2].keys, S[2].origin, ku, env) + PlaceRow(S[3].keys, S[3].origin, ku, env)
      + PlaceRow(S[4].keys, S[4].origin, ku, env) + PlaceRow(S[5].keys, S[5].origin, ku, env)
      + PlaceRow(S[6].keys, S[6].origin, ku, env) + PlaceRow(S[7].keys, S[7].origin, ku, env)
  {
    var p0 := PlaceRow(S[0].keys, S[0].origin, ku, env);
    var p1 := PlaceRow(S[1].keys, S[1].origin, ku, env);
    var p2 := PlaceRow(S[2].keys, S[2].origin, ku, env);
    var p3 := PlaceRow(S[3].keys, S[3].origin, ku, env);
    var p4 := PlaceRow(S[4].keys, S[4].origin, ku, env);
    var p5 := PlaceRow(S[5].keys, S[5].origin, ku, env);
    var p6 := PlaceRow(S[6].keys, S[6].origin, ku, env);
    var p7 := PlaceRow(S[7].keys, S[7].origin, ku, env);
    assert S[..0] == [];
    DrawPrefix(S, 1, ku, env);
    assert DrawSections(S[..1], ku, env) == p0;
    DrawPrefix(S, 2, ku, env);
    assert DrawSections(S[..2], ku, env) == p0 + p1;
    DrawPrefix(S, 3, ku, env);
    assert DrawSections(S[..3], ku, env) == p0 + p1 + p2;
    DrawPrefix(S, 4, ku, env);
    assert DrawSections(S[..4], ku, env) == p0 + p1 + p2 + p3;
    DrawPrefix(S, 5, ku, env);
    assert DrawSections(S[..5], ku, env) == p0 + p1 + p2 + p3 + p4;
    DrawPrefix(S, 6, ku, env);
    assert DrawSections(S[..6], ku, env) == p0 + p1 + p2 + p3 + p4 + p5;
    DrawPrefix(S, 7, ku, env);
    assert DrawSections(S[..7], ku, env) == p0 + p1 + p2 + p3 + p4 + p5 + p6;
    DrawPrefix(S, 8, ku, env);
    assert S[..8] == S;
  }

  /** The keypad-only board paints the keypad table alone, at the start of the key area. */
  lemma NumpadPaintOrder(t: BoardTables, start: Vec2, ku: real, gap: real, env: RenderEnv)
    ensures DrawSections(Sections(NumericPad, t, start, ku, gap), ku, env) == PlaceRow(t.numpad, start, ku, env)
  {
    var S := Sections(NumericPad, t, start, ku, gap);
    assert S[..0] == [];
    assert [] + PlaceRow(t.numpad, start, ku, env) == PlaceRow(t.numpad, start, ku, env);
  }

  /** A frame assembled from the painted tables, in painting order, is the
      board frame of the selector's tables. */
  lemma FrameOfRows(layout: int, t: BoardTables, origin: Vec2, visible: bool, ku: real, gap: real, pad: real,
                    env: RenderEnv, keys: seq<KeyDraw>)
    requires !visible ==> keys == []
    requires visible && layout == NumericPad ==>
      keys == PlaceRow(t.numpad, Vec2(origin.x + pad, origin.y + pad), ku, env)
    requires visible && layout != NumericPad ==>
      keys == PaintedInOrder(t, Vec2(origin.x + pad, origin.y + pad), ku, gap, env)
    ensures KeyboardFrame(RectAt(origin, BoardSize(layout, ku, gap, pad)), visible, keys)
      == BoardFrame(layout, t, origin, visible, ku, gap, pad, env)
  {
    var start := Vec2(origin.x + pad, origin.y + pad);
    BoardFrameParts(layout, t, origin, visible, ku, gap, pad, env);
    if visible {
      if layout == NumericPad {
        NumpadPaintOrder(t, start, ku, gap, env);
      } else {
        FullPaintOrder(layout, t, start, ku, gap, env);
      }
    }
  }

  /** The widget's state: the highlighted keys and the style. */
  class KeyboardContext {
    const highlightedKeys: IdList<Key>
    var style: KeyboardStyle

    ghost predicate Valid()
      reads this, highlightedKeys
    {
      highlightedKeys.Valid()
    }

    constructor ()
      ensures Valid() && fresh(highlightedKeys)
      ensures highlightedKeys.items == [] && style == DefaultStyle
    {
      highlightedKeys := new IdList();
      style := DefaultStyle;
    }

    /** Membership scan of the highlighted keys. */
    method IsKeyHighlighted(key: Key) returns (highlighted: bool)
      ensures highlighted <==> key in highlightedKeys.items
    {
      highlighted := highlightedKeys.Contains(key);
    }

    /** Add the key to the highlighted keys if absent, or erase it. */
    method Highlight(key: Key, on: bool)
      requires Valid()
      modifies highlightedKeys
      ensures Valid()
      ensures highlightedKeys.items == Updated(old(highlightedKeys.items), key, on)
    {
      highlightedKeys.Set(key, on);
    }

    method ClearHighlights()
      modifies highlightedKeys
      ensures Valid() && highlightedKeys.items == []
    {
      highlightedKeys.Clear();
    }

    /** Paint one key: background, face, label, then the overlay the
        pressed and highlighted tests select. */
    method PaintKey(keyMin: Vec2, keySize: Vec2, text: string, key: Key, scale: real, flags: bv32, down: set<Key>)
      returns (d: KeyDraw)
      ensures d == RenderKey(keyMin, keySize, text, key, RenderEnv(style, scale, flags, down, highlightedKeys.items))
    {
      var body := RectAt(keyMin, keySize);
      var inset := FaceInset(style, scale);
      var faceMin := Vec2(keyMin.x + inset.x, keyMin.y + inset.y);
      var faceSize := Vec2(keySize.x - 2.0 * inset.x, keySize.y - 2.0 * inset.y);
      var face := Rect(faceMin, Vec2(faceMin.x + faceSize.x, faceMin.y + faceSize.y));
      var labelPos := Add(keyMin, LabelInset(style, scale));
      var pressed := flags & ShowPressed != 0 && key in down;
      var highlighted := IsKeyHighlighted(key);
      var overlay;
      if pressed && highlighted {
        overlay := PressedHighlightedOverlay;
      } else if pressed {
        overlay := PressedOverlay;
      } else if highlighted {
        overlay := HighlightedOverlay;
      } else {
        overlay := NoOverlay;
      }
      d := KeyDraw(key, text, body, face, labelPos, overlay);
    }

    /** Paint one table at `origin`, key by key. */
    method RenderKeyRow(keys: seq<KeyLayout>, origin: Vec2, ku: real, scale: real, flags: bv32, down: set<Key>)
      returns (drawn: seq<KeyDraw>)
      ensures drawn == PlaceRow(keys, origin, ku, RenderEnv(style, scale, flags, down, highlightedKeys.items))
    {
      var env := RenderEnv(style, scale, flags, down, highlightedKeys.items);
      drawn := [];
      var i := 0;
      while i < |keys|
        invariant 0 <= i <= |keys|
        invariant |drawn| == i
        invariant forall j :: 0 <= j < i ==> drawn[j] == PlaceKey(keys[j], origin, ku, env)
      {
        var k := keys[i];
        var d := PaintKey(KeyMin(k, origin, ku), KeySize(k, ku, scale), k.text, k.key, scale, flags, down);
        drawn := drawn + [d];
        i := i + 1;
      }
    }

    /** Reserve the board at `origin`; when the host reports it visible,
        paint the layout's tables, in order. */
    method Keyboard(layout: int, flags: bv32, origin: Vec2, fontSize: real, visible: bool, down: set<Key>)
      returns (frame: KeyboardFrame)
      ensures frame == BoardFrame(layout, TablesFor(layout), origin, visible, Scaled(style.keyUnit, fontSize),
                                  Scaled(style.sectionGap, fontSize), Scaled(style.boardPadding, fontSize),
                                  RenderEnv(style, Scale(fontSize), flags, down, highlightedKeys.items))
    {
      frame := PaintBoard(layout, TablesFor(layout), origin, visible, Scaled(style.keyUnit, fontSize),
                          Scaled(style.sectionGap, fontSize), Scaled(style.boardPadding, fontSize), Scale(fontSize), flags, down);
    }

    /** The board of `layout` drawn from the tables `t`: the board's
        rectangle, and when visible every table painted at its origin. */
    method PaintBoard(layout: int, t: BoardTables, origin: Vec2, visible: bool, ku: real, gap: real, pad: real,
                      scale: real, flags: bv32, down: set<Key>)
      returns (frame: KeyboardFrame)
      ensures frame == BoardFrame(layout, t, origin, visible, ku, gap, pad,
                                  RenderEnv(style, scale, flags, down, highlightedKeys.items))
    {
      var board := RectAt(origin, BoardSize(layout, ku, gap, pad));
      var start := Vec2(origin.x + pad, origin.y + pad);
      var keys: seq<KeyDraw> := [];
      if visible {
        if layout == NumericPad {
          keys := RenderKeyRow(t.numpad, start, ku, scale, flags, down);
        } else {
          var mainY := MainSectionY(start, ku);
          var navX := NavX(start, ku, gap);
          var numpadX := NumpadX(start, ku, gap);
          var functionRow := RenderKeyRow(t.functionRow, start, ku, scale, flags, down);
          var numberRow := RenderKeyRow(t.numberRow, Vec2(start.x, mainY), ku, scale, flags, down);
          var row1 := RenderKeyRow(t.letters.row1, Vec2(start.x, mainY + ku), ku, scale, flags, down);
          var row2 := RenderKeyRow(t.letters.row2, Vec2(start.x, mainY + 2.0 * ku), ku, scale, flags, down);
          var row3 := RenderKeyRow(t.letters.row3, Vec2(start.x, mainY + 3.0 * ku), ku, scale, flags, down);
          var bottomRow := RenderKeyRow(t.bottomRow, Vec2(start.x, mainY + 4.0 * ku), ku, scale, flags, down);
          var navCluster := RenderKeyRow(t.navCluster, Vec2(navX, mainY), ku, scale, flags, down);
          var numpad := RenderKeyRow(t.numpad, Vec2(numpadX, mainY), ku, scale, flags, down);
          keys := functionRow + numberRow + row1 + row2 + row3 + bottomRow + navCluster + numpad;
        }
      }
      frame := KeyboardFrame(board, visible, keys);
      FrameOfRows(layout, t, origin, visible, ku, gap, pad, RenderEnv(style, scale, flags, down, highlightedKeys.items), keys);
    }
  }
}

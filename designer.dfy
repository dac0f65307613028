/*
 * The designer window (MainWindow): the canvas on which buttons are placed
 * and dragged, the property panel that edits the selected button, and the
 * embedded ImGui preview that draws the design scaled to its container.
 *
 * The window's element collection is a sequence of values, and the
 * selected button is its index in that sequence. In the application the
 * collection and `selectedButton` hold the same object, so changing the
 * selected button changes that entry of the collection; here the entry is
 * replaced. The text boxes, the style box and the two colour swatches of
 * the property panel are one `Panel` value. The text box of the generated
 * code is the field `code`.
 *
 * What lies outside the program is a parameter: the "F0" number format
 * and float.Parse (fixed for the window's lifetime), the mouse position,
 * the canvas and preview-container sizes, and the colour the dialog
 * returns.
 */
module Designer {
  import opened Elements
  import opened Seqs
  import opened Strings
  import opened Widgets
  import CodeGen
  import ImGui
  import Preview

  function MinReal(a: real, b: real): real { if a <= b then a else b }
  function MaxReal(a: real, b: real): real { if a >= b then a else b }
  function MinInt(a: int, b: int): int { if a <= b then a else b }

  // ---------------------------------------------------------------------
  // Hit testing and dragging on the canvas

  /** IsPointInButton: the closed rectangle, so the edges and corners are hits. */
  predicate IsPointInButton(p: Vec2, b: ImGuiElement)
    requires b.ImGuiButton?
  {
    p.x >= b.position.x && p.x <= b.position.x + b.size.x &&
    p.y >= b.position.y && p.y <= b.position.y + b.size.y
  }

  /** Mouse-down looks only at buttons. */
  predicate Hit(p: Vec2, e: ImGuiElement) {
    e.ImGuiButton? && IsPointInButton(p, e)
  }

  function HitAt(p: Vec2): ImGuiElement -> bool {
    e => Hit(p, e)
  }

  /** The index of the button a click at `p` selects, or `|es|` when it misses every button. */
  function FirstHit(es: seq<ImGuiElement>, p: Vec2): nat {
    FirstWhere(es, HitAt(p), 0)
  }

  /**
   * A click selects the first button in list order that contains it, even
   * when a later button lies on top of it; a click outside every button
   * selects none.
   */
  lemma FirstHitSelects(es: seq<ImGuiElement>, p: Vec2)
    ensures var k := FirstHit(es, p);
      && (k < |es| ==> es[k].ImGuiButton? && IsPointInButton(p, es[k]))
      && (forall j :: 0 <= j < k ==> !(es[j].ImGuiButton? && IsPointInButton(p, es[j])))
  {
  }

  /** A button of non-negative size contains its four corners. */
  lemma CornersHit(b: ImGuiElement)
    requires b.ImGuiButton? && b.size.x >= 0.0 && b.size.y >= 0.0
    ensures var x0, y0, x1, y1 := b.position.x, b.position.y, b.position.x + b.size.x, b.position.y + b.size.y;
      && IsPointInButton(Vec2(x0, y0), b) && IsPointInButton(Vec2(x1, y0), b)
      && IsPointInButton(Vec2(x0, y1), b) && IsPointInButton(Vec2(x1, y1), b)
  {
  }

  /**
   * One coordinate of a dragged button: the mouse position less the grab offset,
   * clamped to [0, canvas - size] (`Math.Max(0, Math.Min(..))`, so 0 wins
   * when the button is wider than the canvas).
   */
  function DragClamp(p: real, offset: real, canvas: real, size: real): (v: real)
    ensures v >= 0.0
    ensures canvas >= size ==> v <= canvas - size
    ensures canvas < size ==> v == 0.0
    ensures 0.0 <= p - offset <= canvas - size ==> v == p - offset
  {
    MaxReal(0.0, MinReal(p - offset, canvas - size))
  }

  /** Where a drag to `p` puts a button of size `size` on a canvas of size `canvas`. */
  function Dragged(p: Vec2, offset: Vec2, canvas: Vec2, size: Vec2): Vec2 {
    Vec2(DragClamp(p.x, offset.x, canvas.x, size.x), DragClamp(p.y, offset.y, canvas.y, size.y))
  }

  /** A button that fits on the canvas stays entirely on it while dragged. */
  lemma DragStaysOnCanvas(p: Vec2, offset: Vec2, canvas: Vec2, size: Vec2)
    requires size.x <= canvas.x && size.y <= canvas.y
    ensures var q := Dragged(p, offset, canvas, size);
      0.0 <= q.x && q.x + size.x <= canvas.x && 0.0 <= q.y && q.y + size.y <= canvas.y
  {
  }

  // ---------------------------------------------------------------------
  // Text input of the number boxes

  /** `char.IsDigit` on the ASCII range. */
  predicate IsDigit(c: char) {
    '0' <= c <= '9'
  }

  /** IsNumeric: every character a digit (so also the empty text), or exactly "-" or ".". */
  predicate IsNumeric(text: string) {
    (forall i :: 0 <= i < |text| ==> IsDigit(text[i])) || text == "-" || text == "."
  }

  /**
   * The number boxes accept the empty text, a single digit, '-' or '.',
   * and a longer text only when it is all digits, so "-5" and "1.5" are
   * refused when typed in one piece.
   */
  lemma IsNumericCases(text: string)
    ensures text == [] ==> IsNumeric(text)
    ensures |text| == 1 ==> (IsNumeric(text) <==> IsDigit(text[0]) || text[0] == '-' || text[0] == '.')
    ensures |text| >= 2 ==> (IsNumeric(text) <==> forall i :: 0 <= i < |text| ==> IsDigit(text[i]))
  {
  }

  // ---------------------------------------------------------------------
  // The property panel

  /** The text boxes, the style box and the two colour swatches of the property panel. */
  datatype Panel = Panel(text: string, posX: string, posY: string, width: string, height: string,
                         style: ButtonStyle, background: Color, foreground: Color)

  // The setters of a button's properties.

  function SetText(b: ImGuiElement, text: string): ImGuiElement
    requires b.ImGuiButton?
  {
    ImGuiButton(b.id, b.position, text, b.size, b.style, b.backgroundColor, b.textColor)
  }

  function SetPosition(b: ImGuiElement, position: Vec2): ImGuiElement
    requires b.ImGuiButton?
  {
    ImGuiButton(b.id, position, b.text, b.size, b.style, b.backgroundColor, b.textColor)
  }

  function SetSize(b: ImGuiElement, size: Vec2): ImGuiElement
    requires b.ImGuiButton?
  {
    ImGuiButton(b.id, b.position, b.text, size, b.style, b.backgroundColor, b.textColor)
  }

  function SetStyle(b: ImGuiElement, style: ButtonStyle): ImGuiElement
    requires b.ImGuiButton?
  {
    ImGuiButton(b.id, b.position, b.text, b.size, style, b.backgroundColor, b.textColor)
  }

  function SetBackground(b: ImGuiElement, color: Color): ImGuiElement
    requires b.ImGuiButton?
  {
    ImGuiButton(b.id, b.position, b.text, b.size, b.style, color, b.textColor)
  }

  function SetForeground(b: ImGuiElement, color: Color): ImGuiElement
    requires b.ImGuiButton?
  {
    ImGuiButton(b.id, b.position, b.text, b.size, b.style, b.backgroundColor, color)
  }

  /** ClearPropertyFields: the values a new button starts from. */
  const DefaultPanel := Panel("Button", "100", "100", "120", "30", Default, Green, White)

  /** UpdatePropertyFields: the panel showing button `b`, its numbers formatted with "F0". */
  function PanelOf(b: ImGuiElement, formatF0: real -> string): (panel: Panel)
    requires b.ImGuiButton?
  {
    Panel(b.text, formatF0(b.position.x), formatF0(b.position.y), formatF0(b.size.x), formatF0(b.size.y),
          b.style, b.backgroundColor, b.textColor)
  }

  /** The button AddButton creates from the panel, or None when a number box does not parse. */
  function NewButton(panel: Panel, parse: string -> Option<real>): (b: Option<ImGuiElement>)
    ensures b.Some? <==> parse(panel.posX).Some? && parse(panel.posY).Some? && parse(panel.width).Some? && parse(panel.height).Some?
    ensures b.Some? ==>
      && b.value.ImGuiButton? && b.value.id.None? && b.value.text == panel.text
      && b.value.style == panel.style && b.value.backgroundColor == panel.background && b.value.textColor == panel.foreground
  {
    var x, y, w, h := parse(panel.posX), parse(panel.posY), parse(panel.width), parse(panel.height);
    if x.None? || y.None? || w.None? || h.None? then None
    else Some(ImGuiButton(None, Vec2(x.value, y.value), panel.text, Vec2(w.value, h.value),
                          panel.style, panel.background, panel.foreground))
  }

  /**
   * PropertyChanged applied to button `b`: the new button, and whether
   * every number parsed. The fields are assigned in order (text, position,
   * size, style), so when a parse fails the fields assigned before it keep
   * their new values and the rest keep their old ones.
   */
  function ApplyPanel(b: ImGuiElement, panel: Panel, parse: string -> Option<real>): (r: (ImGuiElement, bool))
    requires b.ImGuiButton?
    ensures r.0.ImGuiButton? && r.0.text == panel.text
    ensures r.0.id == b.id && r.0.backgroundColor == b.backgroundColor && r.0.textColor == b.textColor
    ensures r.1 <==> parse(panel.posX).Some? && parse(panel.posY).Some? && parse(panel.width).Some? && parse(panel.height).Some?
    ensures r.0.position == if parse(panel.posX).Some? && parse(panel.posY).Some?
      then Vec2(parse(panel.posX).value, parse(panel.posY).value) else b.position
    ensures r.0.size == (if r.1 then Vec2(parse(panel.width).value, parse(panel.height).value) else b.size)
    ensures r.0.style == (if r.1 then panel.style else b.style)
  {
    var named := SetText(b, panel.text);
    var x, y := parse(panel.posX), parse(panel.posY);
    if x.None? || y.None? then (named, false)
    else
      var placed := SetPosition(named, Vec2(x.value, y.value));
      var w, h := parse(panel.width), parse(panel.height);
      if w.None? || h.None? then (placed, false)
      else (SetStyle(SetSize(placed, Vec2(w.value, h.value)), panel.style), true)
  }

  /** Applying the same panel twice is applying it once. */
  lemma ApplyPanelIdempotent(b: ImGuiElement, panel: Panel, parse: string -> Option<real>)
    requires b.ImGuiButton?
    ensures ApplyPanel(ApplyPanel(b, panel, parse).0, panel, parse) == ApplyPanel(b, panel, parse)
  {
  }

  /**
   * Showing a button in the panel and applying the panel back leaves the
   * button as it was, when "F0" and float.Parse round-trip its four numbers
   * (they do for whole numbers).
   */
  lemma PanelRoundTrip(b: ImGuiElement, formatF0: real -> string, parse: string -> Option<real>)
    requires b.ImGuiButton?
    requires parse(formatF0(b.position.x)) == Some(b.position.x) && parse(formatF0(b.position.y)) == Some(b.position.y)
    requires parse(formatF0(b.size.x)) == Some(b.size.x) && parse(formatF0(b.size.y)) == Some(b.size.y)
    ensures ApplyPanel(b, PanelOf(b, formatF0), parse) == (b, true)
  {
  }

  /** A freshly added button already agrees with the panel it was made from. */
  lemma NewButtonAgrees(panel: Panel, parse: string -> Option<real>)
    requires NewButton(panel, parse).Some?
    ensures ApplyPanel(NewButton(panel, parse).value, panel, parse) == (NewButton(panel, parse).value, true)
  {
  }

  // ---------------------------------------------------------------------
  // The panel's change events

  /** What the panel's change events read and write: the elements, the panel and the code box. */
  datatype Form = Form(elements: seq<ImGuiElement>, panel: Panel, code: seq<CodeGen.Stmt>)

  predicate Selectable(f: Form, k: nat) {
    k < |f.elements| && f.elements[k].ImGuiButton?
  }

  /**
   * One box of the panel set to a new value while button `k` is selected.
   * The text boxes' TextChanged and the style box's SelectionChanged are
   * raised only when the value differs, and each runs PropertyChanged,
   * which applies the whole panel, the other boxes as they stand, to the
   * button.
   */
  function Shown(f: Form, k: nat, shown: Panel, parse: string -> Option<real>): (g: Form)
    requires Selectable(f, k)
    ensures Selectable(g, k) && |g.elements| == |f.elements| && g.panel == shown
    ensures forall j :: 0 <= j < |f.elements| && j != k ==> g.elements[j] == f.elements[j]
  {
    if shown == f.panel then f
    else
      var r := ApplyPanel(f.elements[k], shown, parse);
      var es := f.elements[k := r.0];
      Form(es, shown, if r.1 then CodeGen.CodeOf(es) else f.code)
  }

  /**
   * What box `box` of panel `p` shows for button `b` once it is set: 0 the
   * text, 1 X, 2 Y, 3 the width, 4 the height ("F0" numbers), 5 the style.
   * The other boxes keep what they show.
   */
  function BoxShowing(p: Panel, box: nat, b: ImGuiElement, formatF0: real -> string): Panel
    requires b.ImGuiButton?
  {
    match box
    case 0 => p.(text := b.text)
    case 1 => p.(posX := formatF0(b.position.x))
    case 2 => p.(posY := formatF0(b.position.y))
    case 3 => p.(width := formatF0(b.size.x))
    case 4 => p.(height := formatF0(b.size.y))
    case _ => p.(style := b.style)
  }

  /**
   * The boxes from `box` on set in order, each from the button as the
   * change events of the boxes before it have left it.
   */
  function SetBoxes(f: Form, k: nat, box: nat, formatF0: real -> string, parse: string -> Option<real>): (g: Form)
    requires Selectable(f, k) && box <= 6
    ensures Selectable(g, k) && |g.elements| == |f.elements|
    ensures forall j :: 0 <= j < |f.elements| && j != k ==> g.elements[j] == f.elements[j]
    decreases 6 - box
  {
    if box == 6 then f
    else SetBoxes(Shown(f, k, BoxShowing(f.panel, box, f.elements[k], formatF0), parse), k, box + 1, formatF0, parse)
  }

  /** UpdatePropertyFields with button `k` selected: the six boxes, then the two swatches. */
  function Refresh(f: Form, k: nat, formatF0: real -> string, parse: string -> Option<real>): (g: Form)
    requires Selectable(f, k)
    ensures Selectable(g, k) && |g.elements| == |f.elements|
    ensures forall j :: 0 <= j < |f.elements| && j != k ==> g.elements[j] == f.elements[j]
  {
    var boxed := SetBoxes(f, k, 0, formatF0, parse);
    var b := boxed.elements[k];
    boxed.(panel := boxed.panel.(background := b.backgroundColor, foreground := b.textColor))
  }

  /** Boxes `box` to 5 of panel `p` already show what they would be set to for button `b`. */
  predicate BoxesShow(p: Panel, b: ImGuiElement, box: nat, formatF0: real -> string)
    requires b.ImGuiButton?
  {
    && (box <= 0 ==> p.text == b.text)
    && (box <= 1 ==> p.posX == formatF0(b.position.x))
    && (box <= 2 ==> p.posY == formatF0(b.position.y))
    && (box <= 3 ==> p.width == formatF0(b.size.x))
    && (box <= 4 ==> p.height == formatF0(b.size.y))
    && (box <= 5 ==> p.style == b.style)
  }

  /** Setting boxes that already show their values raises no event and changes nothing. */
  lemma {:induction false} SetBoxesInSync(f: Form, k: nat, box: nat, formatF0: real -> string, parse: string -> Option<real>)
    requires Selectable(f, k) && box <= 6 && BoxesShow(f.panel, f.elements[k], box, formatF0)
    ensures SetBoxes(f, k, box, formatF0, parse) == f
    decreases 6 - box
  {
    if box < 6 {
      assert BoxShowing(f.panel, box, f.elements[k], formatF0) == f.panel;
      SetBoxesInSync(f, k, box + 1, formatF0, parse);
    }
  }

  /** A panel already showing the button raises no change event: the refresh changes nothing. */
  lemma RefreshInSync(f: Form, k: nat, formatF0: real -> string, parse: string -> Option<real>)
    requires Selectable(f, k) && f.panel == PanelOf(f.elements[k], formatF0)
    ensures Refresh(f, k, formatF0, parse) == f
  {
    SetBoxesInSync(f, k, 0, formatF0, parse);
  }

  /** Whatever the events do, the button keeps its identity and its colours. */
  lemma {:induction false} SetBoxesKeepsColors(f: Form, k: nat, box: nat, formatF0: real -> string, parse: string -> Option<real>)
    requires Selectable(f, k) && box <= 6
    ensures var g, b := SetBoxes(f, k, box, formatF0, parse), f.elements[k];
      g.elements[k].id == b.id && g.elements[k].backgroundColor == b.backgroundColor && g.elements[k].textColor == b.textColor
    decreases 6 - box
  {
    if box < 6 {
      SetBoxesKeepsColors(Shown(f, k, BoxShowing(f.panel, box, f.elements[k], formatF0), parse), k, box + 1, formatF0, parse);
    }
  }

  /** From the text box on, panel and button show the button's text. */
  lemma {:induction false} SetBoxesKeepsText(f: Form, k: nat, box: nat, formatF0: real -> string, parse: string -> Option<real>)
    requires Selectable(f, k) && box <= 6
    requires box == 0 || f.panel.text == f.elements[k].text
    ensures var g := SetBoxes(f, k, box, formatF0, parse);
      g.panel.text == g.elements[k].text == f.elements[k].text
    decreases 6 - box
  {
    if box < 6 {
      var next := Shown(f, k, BoxShowing(f.panel, box, f.elements[k], formatF0), parse);
      assert next.panel.text == next.elements[k].text == f.elements[k].text;
      SetBoxesKeepsText(next, k, box + 1, formatF0, parse);
    }
  }

  /** Once the style box is set, panel and button have the same style. */
  lemma {:induction false} SetBoxesStyle(f: Form, k: nat, box: nat, formatF0: real -> string, parse: string -> Option<real>)
    requires Selectable(f, k) && box <= 5
    ensures var g := SetBoxes(f, k, box, formatF0, parse);
      g.panel.style == g.elements[k].style
    decreases 5 - box
  {
    var next := Shown(f, k, BoxShowing(f.panel, box, f.elements[k], formatF0), parse);
    if box < 5 {
      SetBoxesStyle(next, k, box + 1, formatF0, parse);
    } else {
      assert SetBoxes(next, k, 6, formatF0, parse) == next;
    }
  }

  /**
   * After a refresh the panel shows the button's text, style and colours,
   * and the button keeps its identity, its text and its colours; no other
   * element changes.
   */
  lemma RefreshShowsButton(f: Form, k: nat, formatF0: real -> string, parse: string -> Option<real>)
    requires Selectable(f, k)
    ensures var g, b := Refresh(f, k, formatF0, parse), f.elements[k];
      && g.panel.text == g.elements[k].text == b.text
      && g.panel.style == g.elements[k].style
      && g.panel.background == g.elements[k].backgroundColor == b.backgroundColor
      && g.panel.foreground == g.elements[k].textColor == b.textColor
      && g.elements[k].id == b.id
  {
    SetBoxesKeepsColors(f, k, 0, formatF0, parse);
    SetBoxesKeepsText(f, k, 0, formatF0, parse);
    SetBoxesStyle(f, k, 0, formatF0, parse);
  }

  /**
   * Selecting a button whose text differs from the text box: the text
   * box's change event applies the panel, still showing the previous
   * selection, to the newly selected button. When the four number boxes
   * hold "F0" texts the button takes the panel's position, size and style,
   * no later event changes it, and the code is regenerated.
   */
  lemma SelectTakesPanelGeometry(f: Form, k: nat, formatF0: real -> string, parse: string -> Option<real>)
    requires Selectable(f, k) && f.elements[k].text != f.panel.text
    requires parse(f.panel.posX).Some? && formatF0(parse(f.panel.posX).value) == f.panel.posX
    requires parse(f.panel.posY).Some? && formatF0(parse(f.panel.posY).value) == f.panel.posY
    requires parse(f.panel.width).Some? && formatF0(parse(f.panel.width).value) == f.panel.width
    requires parse(f.panel.height).Some? && formatF0(parse(f.panel.height).value) == f.panel.height
    ensures var g, b := Refresh(f, k, formatF0, parse), f.elements[k];
      && g.elements[k] == ImGuiButton(b.id, Vec2(parse(f.panel.posX).value, parse(f.panel.posY).value), b.text,
                                      Vec2(parse(f.panel.width).value, parse(f.panel.height).value),
                                      f.panel.style, b.backgroundColor, b.textColor)
      && g.panel == PanelOf(g.elements[k], formatF0)
      && g.code == CodeGen.CodeOf(g.elements)
  {
    var named := Shown(f, k, BoxShowing(f.panel, 0, f.elements[k], formatF0), parse);
    SetBoxesInSync(named, k, 1, formatF0, parse);
  }

  /**
   * A drag step that changes the X box's text: its change event applies
   * the panel while the Y box still shows the button's previous Y, so the
   * button lands at the parsed X text and the parsed previous Y text, and
   * the code is regenerated. The Y box then shows the same "F0" text
   * again and raises no event.
   */
  lemma DragKeepsShownY(f: Form, k: nat, q: Vec2, formatF0: real -> string, parse: string -> Option<real>)
    requires Selectable(f, k) && f.panel == PanelOf(f.elements[k], formatF0)
    requires formatF0(q.x) != formatF0(f.elements[k].position.x)
    requires parse(formatF0(q.x)).Some?
    requires var b := f.elements[k];
      && parse(formatF0(b.position.y)).Some? && parse(formatF0(b.size.x)).Some? && parse(formatF0(b.size.y)).Some?
      && formatF0(parse(formatF0(b.position.y)).value) == formatF0(b.position.y)
      && formatF0(parse(formatF0(b.size.x)).value) == formatF0(b.size.x)
      && formatF0(parse(formatF0(b.size.y)).value) == formatF0(b.size.y)
    ensures var b := f.elements[k];
      var g := Refresh(Form(f.elements[k := SetPosition(b, q)], f.panel, f.code), k, formatF0, parse);
      && g.elements[k].position == Vec2(parse(formatF0(q.x)).value, parse(formatF0(b.position.y)).value)
      && g.code == CodeGen.CodeOf(g.elements)
  {
    var moved := Form(f.elements[k := SetPosition(f.elements[k], q)], f.panel, f.code);
    assert BoxShowing(moved.panel, 0, moved.elements[k], formatF0) == moved.panel;
    var placed := Shown(moved, k, BoxShowing(moved.panel, 1, moved.elements[k], formatF0), parse);
    assert SetBoxes(moved, k, 0, formatF0, parse) == SetBoxes(placed, k, 2, formatF0, parse);
    SetBoxesInSync(placed, k, 2, formatF0, parse);
  }

  /**
   * A drag step that keeps the X box's text but changes the Y box's: the
   * Y box's change event applies the panel, so the button lands at the
   * parsed "F0" texts of both coordinates, and the code is regenerated.
   */
  lemma DragRoundsBoth(f: Form, k: nat, q: Vec2, formatF0: real -> string, parse: string -> Option<real>)
    requires Selectable(f, k) && f.panel == PanelOf(f.elements[k], formatF0)
    requires formatF0(q.x) == formatF0(f.elements[k].position.x)
    requires formatF0(q.y) != formatF0(f.elements[k].position.y)
    requires parse(formatF0(q.x)).Some? && parse(formatF0(q.y)).Some?
    requires var b := f.elements[k];
      && parse(formatF0(b.size.x)).Some? && parse(formatF0(b.size.y)).Some?
      && formatF0(parse(formatF0(b.size.x)).value) == formatF0(b.size.x)
      && formatF0(parse(formatF0(b.size.y)).value) == formatF0(b.size.y)
    ensures var b := f.elements[k];
      var g := Refresh(Form(f.elements[k := SetPosition(b, q)], f.panel, f.code), k, formatF0, parse);
      && g.elements[k].position == Vec2(parse(formatF0(q.x)).value, parse(formatF0(q.y)).value)
      && g.code == CodeGen.CodeOf(g.elements)
  {
    var moved := Form(f.elements[k := SetPosition(f.elements[k], q)], f.panel, f.code);
    assert BoxShowing(moved.panel, 0, moved.elements[k], formatF0) == moved.panel;
    assert BoxShowing(moved.panel, 1, moved.elements[k], formatF0) == moved.panel;
    var placed := Shown(moved, k, BoxShowing(moved.panel, 2, moved.elements[k], formatF0), parse);
    assert SetBoxes(moved, k, 0, formatF0, parse) == SetBoxes(placed, k, 3, formatF0, parse);
    SetBoxesInSync(placed, k, 3, formatF0, parse);
  }

  // ---------------------------------------------------------------------
  // The embedded preview: size and scale

  /** `(int)d`: conversion toward zero. */
  function Truncate(d: real): (n: int)
    ensures 0.0 <= d ==> 0 <= n && n as real <= d < n as real + 1.0
    ensures d < 0.0 ==> n <= 0 && n as real - 1.0 < d <= n as real
  {
    if d >= 0.0 then d.Floor else -((-d).Floor)
  }

  /**
   * GetPreviewScale: the largest factor at which the 800 x 400 design
   * canvas fits the container, measured in whole pixels. The scaled canvas
   * fits and touches the container on at least one side.
   */
  function PreviewScale(actualWidth: real, actualHeight: real): (scale: real)
    ensures 800.0 * scale <= Truncate(actualWidth) as real && 400.0 * scale <= Truncate(actualHeight) as real
    ensures 800.0 * scale == Truncate(actualWidth) as real || 400.0 * scale == Truncate(actualHeight) as real
  {
    var width, height := Truncate(actualWidth), Truncate(actualHeight);
    MinReal(width as real / 800.0, height as real / 400.0)
  }

  /** The preview window's size: the container in whole pixels, 400 wide or 300 high where that is not positive. */
  function WindowSize(actualWidth: real, actualHeight: real): (size: Vec2)
    ensures size.x >= 1.0 && size.y >= 1.0
    ensures Truncate(actualWidth) > 0 ==> size.x == Truncate(actualWidth) as real
    ensures Truncate(actualHeight) > 0 ==> size.y == Truncate(actualHeight) as real
    ensures Truncate(actualWidth) <= 0 ==> size.x == 400.0
    ensures Truncate(actualHeight) <= 0 ==> size.y == 300.0
  {
    var width, height := Truncate(actualWidth), Truncate(actualHeight);
    Vec2(if width <= 0 then 400.0 else width as real, if height <= 0 then 300.0 else height as real)
  }

  function Scaled(v: Vec2, scale: real): Vec2 {
    Vec2(v.x * scale, v.y * scale)
  }

  /** Where the designer preview draws an element: its scaled position shifted by (10, 30). */
  function ScaledCursor(e: ImGuiElement, scale: real): Vec2 {
    Vec2(e.position.x * scale + 10.0, e.position.y * scale + 30.0)
  }

  // ---------------------------------------------------------------------
  // The embedded preview: the input text buffer

  /**
   * The buffer RenderInputText hands to ImGui: `maxLength` bytes holding
   * the value's first `min(|bytes|, maxLength - 1)` bytes, then zeros, so
   * it always ends in a terminating zero.
   */
  function InputBuffer(bytes: seq<byte>, maxLength: int): (buf: seq<byte>)
    requires maxLength >= 1
    ensures |buf| == maxLength && buf[maxLength - 1] == 0
  {
    var n := MinInt(|bytes|, maxLength - 1);
    bytes[..n] + seq(maxLength - n, _ => 0)
  }

  predicate IsNul(b: byte) {
    b == 0
  }

  /** The text a zero-terminated buffer holds: its bytes before the first zero. */
  function CString(buf: seq<byte>): (s: seq<byte>)
    ensures |s| <= |buf| && s == buf[..|s|]
    ensures forall j :: 0 <= j < |s| ==> s[j] != 0
    ensures |s| < |buf| ==> buf[|s|] == 0
  {
    buf[..FirstWhere(buf, IsNul, 0)]
  }

  /**
   * The buffer holds the value cut to `maxLength - 1` bytes: the whole
   * value when it is shorter than `maxLength`. The cut is by bytes, so it
   * can fall inside a character's UTF-8 sequence.
   */
  lemma {:induction false} InputBufferHolds(bytes: seq<byte>, maxLength: int)
    requires maxLength >= 1
    requires forall j :: 0 <= j < |bytes| ==> bytes[j] != 0
    ensures CString(InputBuffer(bytes, maxLength)) == bytes[..MinInt(|bytes|, maxLength - 1)]
    ensures |bytes| < maxLength ==> CString(InputBuffer(bytes, maxLength)) == bytes
    ensures var n := MinInt(|bytes|, maxLength - 1);
      && InputBuffer(bytes, maxLength)[..n] == bytes[..n]
      && forall j :: n <= j < maxLength ==> InputBuffer(bytes, maxLength)[j] == 0
  {
    var buf, n := InputBuffer(bytes, maxLength), MinInt(|bytes|, maxLength - 1);
    assert forall j :: 0 <= j < n ==> buf[j] == bytes[j];
    assert buf[n] == 0;
    FirstWhereIs(buf, IsNul, n);
    assert |bytes| < maxLength ==> bytes[..n] == bytes;
  }

  /** An input value without NUL characters is shown whole when its UTF-8 encoding fits the buffer. */
  lemma InputValueShown(value: string, maxLength: int)
    requires maxLength >= 1 && |Utf8(value)| < maxLength
    requires forall i :: 0 <= i < |value| ==> value[i] != '\0'
    ensures CString(InputBuffer(Utf8(value), maxLength)) == Utf8(value)
  {
    Utf8NoZero(value);
    InputBufferHolds(Utf8(value), maxLength);
  }

  /**
   * RenderInputText's buffer: `new byte[MaxLength]` and the copy of the
   * value's bytes. It fails (an exception in the application) when
   * MaxLength is below 1: a negative array size, or a copy of -1 bytes.
   */
  method CopyInputBuffer(bytes: seq<byte>, maxLength: int) returns (buffer: Option<array<byte>>)
    ensures buffer.None? <==> maxLength < 1
    ensures buffer.Some? ==> fresh(buffer.value) && buffer.value[..] == InputBuffer(bytes, maxLength)
  {
    if maxLength < 1 {
      return None;
    }
    var bufferArray := new byte[maxLength](_ => 0);
    var count := MinInt(|bytes|, bufferArray.Length - 1);
    var i := 0;
    while i < count
      invariant 0 <= i <= count
      invariant forall j :: 0 <= j < i ==> bufferArray[j] == bytes[j]
      invariant forall j :: i <= j < bufferArray.Length ==> bufferArray[j] == 0
    {
      bufferArray[i] := bytes[i];
      i := i + 1;
    }
    assert bufferArray[..] == InputBuffer(bytes, maxLength);
    return Some(bufferArray);
  }

  // ---------------------------------------------------------------------
  // The embedded preview: the calls of a frame

  const PreviewFlags := {ImGui.NoMove, ImGui.NoResize, ImGui.NoCollapse, ImGui.NoTitleBar}

  const NoElementsMessage := "No elements to display. Add some elements first!"

  /** The window set-up and the element count every frame starts with. */
  function FrameHead(actualWidth: real, actualHeight: real, count: nat): seq<ImGui.Command> {
    [ ImGui.Begin("Element Preview", PreviewFlags), ImGui.SetWindowPos(Vec2(0.0, 0.0)),
      ImGui.SetWindowSize(WindowSize(actualWidth, actualHeight)),
      ImGui.Text("Elements count: " + NatToString(count)) ]
  }

  /** An input field whose buffer cannot be made; drawing it throws. */
  predicate CopyFails(e: ImGuiElement) {
    e.ImGuiInputText? && e.maxLength < 1
  }

  /**
   * The calls for one element after its cursor. Buttons are drawn at their
   * scaled size, texts without the bold font, input fields through their
   * byte buffer; the widgets' replies are ignored.
   */
  function DesignerKindCommands(e: ImGuiElement, scale: real): seq<ImGui.Command> {
    match e.ElementType()
    case Button => ButtonCommands(e, Scaled(e.size, scale))
    case Text => ColoredText(e)
    case InputText =>
      if e.maxLength < 1 then []
      else [ImGui.InputTextBuffer(e.caption, InputBuffer(Utf8(e.value.GetOr("")), e.maxLength), e.isPassword)]
    case _ => if Preview.Editable(e) then [Preview.WidgetCall(e)] else []
  }

  function DesignerElementCommands(e: ImGuiElement, scale: real): seq<ImGui.Command> {
    [ImGui.SetCursorPos(ScaledCursor(e, scale))] + DesignerKindCommands(e, scale)
  }

  function DesignerCalls(scale: real): ImGuiElement -> seq<ImGui.Command> {
    e => DesignerElementCommands(e, scale)
  }

  /** Whether a frame gets through every element: no input field has a MaxLength below 1. */
  predicate FrameCompletes(es: seq<ImGuiElement>) {
    forall i :: 0 <= i < |es| ==> !CopyFails(es[i])
  }

  /**
   * RenderImGuiElements for the elements `es` in a container of the given
   * size. The frame stops, without ending the window, right after the
   * cursor call of the first input field whose buffer copy fails.
   */
  function DesignerFrame(es: seq<ImGuiElement>, actualWidth: real, actualHeight: real): seq<ImGui.Command> {
    var head := FrameHead(actualWidth, actualHeight, |es|);
    if es == [] then head + [ImGui.Text(NoElementsMessage), ImGui.End]
    else
      var calls, stop := DesignerCalls(PreviewScale(actualWidth, actualHeight)), FirstWhere(es, CopyFails, 0);
      if stop == |es| then head + Concat(es, calls) + [ImGui.End]
      else head + Concat(es[..stop + 1], calls)
  }

  /** Drawing element `i` extends the trace by that element's calls. */
  lemma DesignerStep(t: seq<ImGui.Command>, es: seq<ImGuiElement>, i: nat, scale: real)
    requires i < |es|
    ensures t + Concat(es[..i + 1], DesignerCalls(scale))
         == t + Concat(es[..i], DesignerCalls(scale)) + DesignerElementCommands(es[i], scale)
  {
    TakeSnoc(es, i);
    ConcatSnoc(es[..i], es[i], DesignerCalls(scale));
    AppendAssoc(t, Concat(es[..i], DesignerCalls(scale)), DesignerElementCommands(es[i], scale));
  }

  lemma CompletesStep(es: seq<ImGuiElement>, i: nat)
    requires i < |es| && FrameCompletes(es[..i]) && !CopyFails(es[i])
    ensures FrameCompletes(es[..i + 1])
  {
  }

  /** A frame that meets a failing input field at `i` stops right after that field's cursor. */
  lemma DesignerFrameStops(es: seq<ImGuiElement>, actualWidth: real, actualHeight: real, i: nat)
    requires i < |es| && CopyFails(es[i])
    requires FrameCompletes(es[..i])
    ensures !FrameCompletes(es)
    ensures DesignerFrame(es, actualWidth, actualHeight)
         == FrameHead(actualWidth, actualHeight, |es|) + Concat(es[..i + 1], DesignerCalls(PreviewScale(actualWidth, actualHeight)))
  {
    FirstWhereIs(es, CopyFails, i);
  }

  /** A frame through every element ends the window. */
  lemma DesignerFrameDone(es: seq<ImGuiElement>, actualWidth: real, actualHeight: real)
    requires es != [] && FrameCompletes(es[..|es|])
    ensures FrameCompletes(es)
    ensures DesignerFrame(es, actualWidth, actualHeight)
         == FrameHead(actualWidth, actualHeight, |es|) + Concat(es[..|es|], DesignerCalls(PreviewScale(actualWidth, actualHeight))) + [ImGui.End]
  {
    assert es[..|es|] == es;
    FirstWhereIs(es, CopyFails, |es|);
  }

  /** With no elements the frame shows a count of 0 and the hint, and ends the window. */
  lemma EmptyDesignerFrame(actualWidth: real, actualHeight: real)
    ensures DesignerFrame([], actualWidth, actualHeight)
         == [ ImGui.Begin("Element Preview", PreviewFlags), ImGui.SetWindowPos(Vec2(0.0, 0.0)),
              ImGui.SetWindowSize(WindowSize(actualWidth, actualHeight)), ImGui.Text("Elements count: 0"),
              ImGui.Text(NoElementsMessage), ImGui.End ]
  {
    assert NatToString(0) == "0";
    assert "Elements count: " + NatToString(0) == "Elements count: 0";
  }

  /**
   * Every frame starts with the window set-up. It ends the window exactly
   * when it completes; otherwise its last call is the cursor of the first
   * input field that fails.
   */
  lemma DesignerFrameEnds(es: seq<ImGuiElement>, actualWidth: real, actualHeight: real)
    ensures var frame := DesignerFrame(es, actualWidth, actualHeight);
      && frame[..4] == FrameHead(actualWidth, actualHeight, |es|)
      && (frame[|frame| - 1] == ImGui.End <==> FrameCompletes(es))
      && (!FrameCompletes(es) ==>
            var stop := FirstWhere(es, CopyFails, 0);
            stop < |es| && frame[|frame| - 1] == ImGui.SetCursorPos(ScaledCursor(es[stop], PreviewScale(actualWidth, actualHeight))))
  {
    var head := FrameHead(actualWidth, actualHeight, |es|);
    var frame := DesignerFrame(es, actualWidth, actualHeight);
    var stop := FirstWhere(es, CopyFails, 0);
    if es == [] {
      assert frame == head + [ImGui.Text(NoElementsMessage), ImGui.End];
    } else {
      var scale := PreviewScale(actualWidth, actualHeight);
      var calls := DesignerCalls(scale);
      if stop == |es| {
        assert frame == head + Concat(es, calls) + [ImGui.End];
        assert FrameCompletes(es);
      } else {
        assert CopyFails(es[stop]);
        assert DesignerKindCommands(es[stop], scale) == [];
        DesignerStep(head, es, stop, scale);
        assert frame == head + Concat(es[..stop], calls) + [ImGui.SetCursorPos(ScaledCursor(es[stop], scale))];
      }
    }
  }

  /** In a frame that completes, element `k` is drawn after every earlier one, at its scaled cursor. */
  lemma DesignerElementsInOrder(es: seq<ImGuiElement>, actualWidth: real, actualHeight: real, k: nat)
    requires k < |es| && FrameCompletes(es)
    ensures var calls := DesignerCalls(PreviewScale(actualWidth, actualHeight));
      DesignerFrame(es, actualWidth, actualHeight)
      == FrameHead(actualWidth, actualHeight, |es|)
         + (Concat(es[..k], calls) + calls(es[k]) + Concat(es[k + 1..], calls)) + [ImGui.End]
    ensures DesignerElementCommands(es[k], PreviewScale(actualWidth, actualHeight))[0]
         == ImGui.SetCursorPos(ScaledCursor(es[k], PreviewScale(actualWidth, actualHeight)))
  {
    assert es[..|es|] == es;
    DesignerFrameDone(es, actualWidth, actualHeight);
    ConcatSplit(es, DesignerCalls(PreviewScale(actualWidth, actualHeight)), k);
  }

  /** One element's calls: balanced, except the extra style-var pop of an Invisible button. */
  lemma DesignerElementBalance(e: ImGuiElement, scale: real, s: ImGui.Stack)
    ensures ImGui.NetDelta(DesignerElementCommands(e, scale), s)
         == if s == ImGui.VarStack && Preview.InvisibleButton(e) then -1 else 0
  {
    var cursor := ImGui.SetCursorPos(ScaledCursor(e, scale));
    var kind := DesignerKindCommands(e, scale);
    ImGui.NetDeltaAppend([cursor], kind, s);
    ImGui.NetDeltaSingleton(cursor, s);
    match e.ElementType() {
      case Button => ButtonBalance(e, Scaled(e.size, scale), s);
      case Text => ColoredTextBalance(e, s);
      case _ =>
        if |kind| == 1 {
          ImGui.NetDeltaSingleton(kind[0], s);
        }
    }
  }

  lemma {:induction false} DesignerElementsBalance(es: seq<ImGuiElement>, scale: real, s: ImGui.Stack)
    ensures ImGui.NetDelta(Concat(es, DesignerCalls(scale)), s)
         == if s == ImGui.VarStack then -(Preview.InvisibleCount(es) as int) else 0
    decreases |es|
  {
    if es != [] {
      var n := |es| - 1;
      DesignerElementsBalance(es[..n], scale, s);
      DesignerElementBalance(es[n], scale, s);
      ImGui.NetDeltaAppend(Concat(es[..n], DesignerCalls(scale)), DesignerElementCommands(es[n], scale), s);
    }
  }

  /**
   * A completed designer frame leaves the colour and font stacks as it
   * found them; the style-var stack ends one lower for every Invisible
   * button, as in the preview window.
   */
  lemma DesignerFrameBalance(es: seq<ImGuiElement>, actualWidth: real, actualHeight: real, s: ImGui.Stack)
    requires FrameCompletes(es)
    ensures ImGui.NetDelta(DesignerFrame(es, actualWidth, actualHeight), s)
         == if s == ImGui.VarStack then -(Preview.InvisibleCount(es) as int) else 0
  {
    var head := FrameHead(actualWidth, actualHeight, |es|);
    ImGui.NetDeltaNeutral(head, s);
    ImGui.NetDeltaSingleton(ImGui.End, s);
    if es == [] {
      var tail := [ImGui.Text(NoElementsMessage), ImGui.End];
      ImGui.NetDeltaAppend(head, tail, s);
      ImGui.NetDeltaNeutral(tail, s);
    } else {
      var calls := DesignerCalls(PreviewScale(actualWidth, actualHeight));
      FirstWhereIs(es, CopyFails, |es|);
      ImGui.NetDeltaAppend(head + Concat(es, calls), [ImGui.End], s);
      ImGui.NetDeltaAppend(head, Concat(es, calls), s);
      DesignerElementsBalance(es, PreviewScale(actualWidth, actualHeight), s);
    }
  }

  // ---------------------------------------------------------------------
  // The window

  class MainWindow {
    var elements: seq<ImGuiElement>
    var selected: Option<nat>
    var isDragging: bool
    var dragStart: Vec2
    var dragOffset: Vec2
    var panel: Panel
    var code: seq<CodeGen.Stmt>
    const formatF0: real -> string
    const parse: string -> Option<real>

    /** The selection, when there is one, is a button of the list. */
    predicate Valid()
      reads this
    {
      selected.Some? ==> selected.value < |elements| && elements[selected.value].ImGuiButton?
    }

    /**
     * The window as InitializeApplication leaves it; the panel and the code
     * box start with the texts the window's layout gives them.
     */
    constructor (initialPanel: Panel, initialCode: seq<CodeGen.Stmt>, formatF0: real -> string, parse: string -> Option<real>)
      ensures Valid()
      ensures elements == [] && selected == None && !isDragging && code == initialCode && panel == initialPanel
      ensures dragStart == Vec2(0.0, 0.0) && dragOffset == Vec2(0.0, 0.0)
      ensures this.formatF0 == formatF0 && this.parse == parse
    {
      elements := [];
      selected := None;
      isDragging := false;
      dragStart := Vec2(0.0, 0.0);
      dragOffset := Vec2(0.0, 0.0);
      panel := initialPanel;
      code := initialCode;
      this.formatF0 := formatF0;
      this.parse := parse;
    }

    /** A click on the canvas: select and start dragging the first button hit, or deselect. */
    method MouseDown(p: Vec2)
      requires Valid()
      modifies this
      ensures Valid()
      ensures var k := FirstHit(old(elements), p);
        if k < |old(elements)| then
          && selected == Some(k)
          && Form(elements, panel, code) == Refresh(Form(old(elements), old(panel), old(code)), k, formatF0, parse)
          && isDragging && dragStart == p
          && dragOffset == Vec2(p.x - elements[k].position.x, p.y - elements[k].position.y)
        else
          && selected == None && panel == DefaultPanel && elements == old(elements) && code == old(code)
          && isDragging == old(isDragging) && dragStart == old(dragStart) && dragOffset == old(dragOffset)
    {
      var i := 0;
      while i < |elements|
        invariant 0 <= i <= |elements|
        invariant forall j :: 0 <= j < i ==> !HitAt(p)(elements[j])
      {
        var element := elements[i];
        if element.ImGuiButton? && IsPointInButton(p, element) {
          FirstWhereIs(elements, HitAt(p), i);
          SelectButton(i);
          StartDragging(p, i);
          return;
        }
        i := i + 1;
      }
      FirstWhereIs(elements, HitAt(p), |elements|);
      DeselectButton();
    }

    /** While dragging, the selected button follows the mouse, kept on the canvas. */
    method MouseMove(p: Vec2, canvas: Vec2)
      requires Valid()
      modifies this
      ensures Valid()
      ensures selected == old(selected) && isDragging == old(isDragging)
      ensures dragStart == old(dragStart) && dragOffset == old(dragOffset)
      ensures if old(isDragging) && old(selected).Some? then
          var k := old(selected).value;
          var moved := old(elements)[k := SetPosition(old(elements)[k], Dragged(p, dragOffset, canvas, old(elements)[k].size))];
          Form(elements, panel, code) == Refresh(Form(moved, old(panel), old(code)), k, formatF0, parse)
        else elements == old(elements) && panel == old(panel) && code == old(code)
    {
      if isDragging && selected.Some? {
        var k := selected.value;
        var button := elements[k];
        var newX, newY := p.x - dragOffset.x, p.y - dragOffset.y;
        newX := MaxReal(0.0, MinReal(newX, canvas.x - button.size.x));
        newY := MaxReal(0.0, MinReal(newY, canvas.y - button.size.y));
        assert Vec2(newX, newY) == Dragged(p, dragOffset, canvas, button.size);
        elements := elements[k := SetPosition(button, Vec2(newX, newY))];
        ghost var moved := Form(elements, panel, code);
        UpdatePropertyFields();
        assert Form(elements, panel, code) == Refresh(moved, k, formatF0, parse);
      }
    }

    /** Releasing the mouse ends a drag and regenerates the code. */
    method MouseUp()
      requires Valid()
      modifies this
      ensures Valid()
      ensures !isDragging
      ensures code == if old(isDragging) then CodeGen.CodeOf(elements) else old(code)
      ensures elements == old(elements) && selected == old(selected) && panel == old(panel)
      ensures dragStart == old(dragStart) && dragOffset == old(dragOffset)
    {
      if isDragging {
        isDragging := false;
        code := CodeGen.GenerateCode(elements);
      }
    }

    method StartDragging(p: Vec2, k: nat)
      requires k < |elements|
      modifies this
      ensures elements == old(elements) && selected == old(selected) && panel == old(panel) && code == old(code)
      ensures isDragging && dragStart == p
      ensures dragOffset == Vec2(p.x - elements[k].position.x, p.y - elements[k].position.y)
    {
      isDragging := true;
      dragStart := p;
      dragOffset := Vec2(p.x - elements[k].position.x, p.y - elements[k].position.y);
    }

    /** SelectButton: the button becomes the selection and the panel shows it. */
    method SelectButton(k: nat)
      requires k < |elements| && elements[k].ImGuiButton?
      modifies this
      ensures Valid()
      ensures selected == Some(k)
      ensures Form(elements, panel, code) == Refresh(Form(old(elements), old(panel), old(code)), k, formatF0, parse)
      ensures isDragging == old(isDragging) && dragStart == old(dragStart) && dragOffset == old(dragOffset)
    {
      selected := Some(k);
      UpdatePropertyFields();
    }

    /** DeselectButton: no selection, and the panel back to the defaults. */
    method DeselectButton()
      modifies this
      ensures Valid()
      ensures selected == None && panel == DefaultPanel
      ensures elements == old(elements) && code == old(code) && isDragging == old(isDragging)
      ensures dragStart == old(dragStart) && dragOffset == old(dragOffset)
    {
      selected := None;
      ClearPropertyFields();
    }

    /**
     * A box of the panel set to `shown`'s value. Its change event is raised
     * only when the value differs, and runs PropertyChanged.
     */
    method PanelChanged(shown: Panel)
      requires Valid()
      modifies this
      ensures Valid()
      ensures selected == old(selected) && isDragging == old(isDragging)
      ensures dragStart == old(dragStart) && dragOffset == old(dragOffset)
      ensures if selected.Some? then Form(elements, panel, code) == Shown(Form(old(elements), old(panel), old(code)), selected.value, shown, parse)
        else elements == old(elements) && panel == shown && code == old(code)
    {
      if shown != panel {
        panel := shown;
        PropertyChanged();
      }
    }

    /**
     * UpdatePropertyFields: the boxes are set to the selected button's
     * values one at a time, each raising its change event; without a
     * selection nothing happens.
     */
    method UpdatePropertyFields()
      requires Valid()
      modifies this
      ensures Valid()
      ensures selected == old(selected) && isDragging == old(isDragging)
      ensures dragStart == old(dragStart) && dragOffset == old(dragOffset)
      ensures if selected.Some? then Form(elements, panel, code) == Refresh(Form(old(elements), old(panel), old(code)), selected.value, formatF0, parse)
        else elements == old(elements) && panel == old(panel) && code == old(code)
    {
      if selected.Some? {
        var k := selected.value;
        ghost var boxed := SetBoxes(Form(elements, panel, code), k, 0, formatF0, parse);
        PanelChanged(panel.(text := elements[k].text));
        assert boxed == SetBoxes(Form(elements, panel, code), k, 1, formatF0, parse);
        PanelChanged(panel.(posX := formatF0(elements[k].position.x)));
        assert boxed == SetBoxes(Form(elements, panel, code), k, 2, formatF0, parse);
        PanelChanged(panel.(posY := formatF0(elements[k].position.y)));
        assert boxed == SetBoxes(Form(elements, panel, code), k, 3, formatF0, parse);
        PanelChanged(panel.(width := formatF0(elements[k].size.x)));
        assert boxed == SetBoxes(Form(elements, panel, code), k, 4, formatF0, parse);
        PanelChanged(panel.(height := formatF0(elements[k].size.y)));
        assert boxed == SetBoxes(Form(elements, panel, code), k, 5, formatF0, parse);
        PanelChanged(panel.(style := elements[k].style));
        assert boxed == Form(elements, panel, code);
        panel := panel.(background := elements[k].backgroundColor, foreground := elements[k].textColor);
      }
    }

    /**
     * ClearPropertyFields: the panel back to the defaults. It runs only
     * after the selection is dropped, so the change events it raises find
     * no selected button and do nothing.
     */
    method ClearPropertyFields()
      requires selected.None?
      modifies this
      ensures panel == DefaultPanel
      ensures elements == old(elements) && selected == old(selected) && code == old(code) && isDragging == old(isDragging)
      ensures dragStart == old(dragStart) && dragOffset == old(dragOffset)
    {
      panel := Panel("Button", "100", "100", "120", "30", Default, Green, White);
    }

    /**
     * AddButtonButton_Click: a button made from the panel is appended,
     * selected and the code regenerated. When a number box does not parse
     * the click fails and nothing changes.
     */
    method AddButton() returns (added: bool)
      requires Valid()
      modifies this
      ensures Valid()
      ensures added <==> NewButton(old(panel), parse).Some?
      ensures added ==>
        && selected == Some(|old(elements)|)
        && var shown := Refresh(Form(old(elements) + [NewButton(old(panel), parse).value], old(panel), old(code)),
                                |old(elements)|, formatF0, parse);
           elements == shown.elements && panel == shown.panel && code == CodeGen.CodeOf(elements)
      ensures !added ==> elements == old(elements) && selected == old(selected) && panel == old(panel) && code == old(code)
      ensures isDragging == old(isDragging) && dragStart == old(dragStart) && dragOffset == old(dragOffset)
    {
      var x, y, w, h := parse(panel.posX), parse(panel.posY), parse(panel.width), parse(panel.height);
      if x.None? || y.None? || w.None? || h.None? {
        return false;
      }
      var newButton := ImGuiButton(None, Vec2(x.value, y.value), panel.text, Vec2(w.value, h.value),
                                   panel.style, panel.background, panel.foreground);
      assert newButton == NewButton(panel, parse).value;
      AppendAndSelect(newButton);
      code := CodeGen.GenerateCode(elements);
      return true;
    }

    /** The new button appended to the collection and selected. */
    method AppendAndSelect(newButton: ImGuiElement)
      requires Valid() && newButton.ImGuiButton?
      modifies this
      ensures Valid()
      ensures selected == Some(|old(elements)|)
      ensures Form(elements, panel, code) == Refresh(Form(old(elements) + [newButton], old(panel), old(code)), |old(elements)|, formatF0, parse)
      ensures isDragging == old(isDragging) && dragStart == old(dragStart) && dragOffset == old(dragOffset)
    {
      elements := elements + [newButton];
      SelectButton(|elements| - 1);
    }

    /** ClearAllButton_Click: no elements, no selection, default panel, the placeholder code. */
    method ClearAll()
      modifies this
      ensures Valid()
      ensures elements == [] && selected == None && panel == DefaultPanel && code == CodeGen.CodeOf([])
      ensures isDragging == old(isDragging) && dragStart == old(dragStart) && dragOffset == old(dragOffset)
    {
      elements := [];
      DeselectButton();
      code := CodeGen.GenerateCode(elements);
    }

    /**
     * PropertyChanged: the panel is written to the selected button field
     * by field. The code is regenerated only when every number parses;
     * a failed parse keeps what was assigned before it.
     */
    method PropertyChanged()
      requires Valid()
      modifies this
      ensures Valid()
      ensures selected == old(selected) && panel == old(panel) && isDragging == old(isDragging)
      ensures dragStart == old(dragStart) && dragOffset == old(dragOffset)
      ensures if old(selected).Some? then
          var k := old(selected).value;
          var r := ApplyPanel(old(elements)[k], panel, parse);
          elements == old(elements)[k := r.0] && code == (if r.1 then CodeGen.CodeOf(elements) else old(code))
        else elements == old(elements) && code == old(code)
    {
      if selected.Some? {
        var k := selected.value;
        elements := elements[k := SetText(elements[k], panel.text)];
        var x := parse(panel.posX);
        if x.None? {
          return;
        }
        var y := parse(panel.posY);
        if y.None? {
          return;
        }
        elements := elements[k := SetPosition(elements[k], Vec2(x.value, y.value))];
        var w := parse(panel.width);
        if w.None? {
          return;
        }
        var h := parse(panel.height);
        if h.None? {
          return;
        }
        elements := elements[k := SetSize(elements[k], Vec2(w.value, h.value))];
        elements := elements[k := SetStyle(elements[k], panel.style)];
        code := CodeGen.GenerateCode(elements);
      }
    }

    /**
     * BackgroundColorButton_Click with the colour the dialog returned
     * (None when it was cancelled): the swatch takes it, and so does the
     * selected button, whose code is then regenerated.
     */
    method SetBackgroundColor(picked: Option<Color>)
      requires Valid()
      modifies this
      ensures Valid()
      ensures selected == old(selected) && isDragging == old(isDragging)
      ensures dragStart == old(dragStart) && dragOffset == old(dragOffset)
      ensures picked.None? ==> elements == old(elements) && panel == old(panel) && code == old(code)
      ensures picked.Some? ==> panel == old(panel).(background := picked.value)
      ensures picked.Some? && selected.Some? ==>
        && elements == old(elements)[selected.value := SetBackground(old(elements)[selected.value], picked.value)]
        && code == CodeGen.CodeOf(elements)
      ensures picked.Some? && selected.None? ==> elements == old(elements) && code == old(code)
    {
      if picked.Some? {
        var color := picked.value;
        panel := panel.(background := color);
        if selected.Some? {
          var k := selected.value;
          elements := elements[k := SetBackground(elements[k], color)];
          code := CodeGen.GenerateCode(elements);
        }
      }
    }

    /** TextColorButton_Click, the same for the text colour. */
    method SetTextColor(picked: Option<Color>)
      requires Valid()
      modifies this
      ensures Valid()
      ensures selected == old(selected) && isDragging == old(isDragging)
      ensures dragStart == old(dragStart) && dragOffset == old(dragOffset)
      ensures picked.None? ==> elements == old(elements) && panel == old(panel) && code == old(code)
      ensures picked.Some? ==> panel == old(panel).(foreground := picked.value)
      ensures picked.Some? && selected.Some? ==>
        && elements == old(elements)[selected.value := SetForeground(old(elements)[selected.value], picked.value)]
        && code == CodeGen.CodeOf(elements)
      ensures picked.Some? && selected.None? ==> elements == old(elements) && code == old(code)
    {
      if picked.Some? {
        var color := picked.value;
        panel := panel.(foreground := color);
        if selected.Some? {
          var k := selected.value;
          elements := elements[k := SetForeground(elements[k], color)];
          code := CodeGen.GenerateCode(elements);
        }
      }
    }

    /**
     * RenderImGuiElements, drawing into a container of the given size. It
     * reads the elements and never changes them. It returns false when the
     * frame stops at an input field whose buffer cannot be made.
     */
    method RenderImGuiElements(ui: ImGui.Context, actualWidth: real, actualHeight: real) returns (completed: bool)
      modifies ui
      ensures ui.trace == old(ui.trace) + DesignerFrame(elements, actualWidth, actualHeight)
      ensures completed <==> FrameCompletes(elements)
    {
      ghost var es, t0 := elements, ui.trace;
      ghost var head := FrameHead(actualWidth, actualHeight, |es|);
      OpenPreviewWindow(ui, actualWidth, actualHeight);
      if |elements| > 0 {
        var scale := PreviewScale(actualWidth, actualHeight);
        var i := 0;
        while i < |elements|
          invariant 0 <= i <= |es|
          invariant FrameCompletes(es[..i])
          invariant ui.trace == t0 + head + Concat(es[..i], DesignerCalls(scale))
        {
          var element := elements[i];
          assert element == es[i];
          var drawn := RenderElement(ui, element, scale, actualWidth, actualHeight);
          DesignerStep(t0 + head, es, i, scale);
          if !drawn {
            DesignerFrameStops(es, actualWidth, actualHeight, i);
            AppendAssoc(t0, head, Concat(es[..i + 1], DesignerCalls(scale)));
            assert ui.trace == t0 + DesignerFrame(es, actualWidth, actualHeight);
            return false;
          }
          CompletesStep(es, i);
          i := i + 1;
        }
        assert i == |es| && es != [];
        var _ := ui.Call(ImGui.End);
        DesignerFrameDone(es, actualWidth, actualHeight);
        AppendAssoc3(t0, head, Concat(es[..|es|], DesignerCalls(scale)), [ImGui.End]);
        assert ui.trace == t0 + DesignerFrame(es, actualWidth, actualHeight);
      } else {
        var _ := ui.Call(ImGui.Text(NoElementsMessage));
        var _ := ui.Call(ImGui.End);
        assert es == [];
        AppendAssoc(t0, head, [ImGui.Text(NoElementsMessage), ImGui.End]);
        assert ui.trace == t0 + DesignerFrame(es, actualWidth, actualHeight);
      }
      return true;
    }

    /** The window set-up of every frame: the container size, at least 400 x 300 when it is not positive, and the element count. */
    method OpenPreviewWindow(ui: ImGui.Context, actualWidth: real, actualHeight: real)
      modifies ui
      ensures ui.trace == old(ui.trace) + FrameHead(actualWidth, actualHeight, |elements|)
    {
      var width, height := Truncate(actualWidth), Truncate(actualHeight);
      if width <= 0 {
        width := 400;
      }
      if height <= 0 {
        height := 300;
      }
      assert Vec2(width as real, height as real) == WindowSize(actualWidth, actualHeight);
      var _ := ui.Call(ImGui.Begin("Element Preview", PreviewFlags));
      var _ := ui.Call(ImGui.SetWindowPos(Vec2(0.0, 0.0)));
      var _ := ui.Call(ImGui.SetWindowSize(Vec2(width as real, height as real)));
      var _ := ui.Call(ImGui.Text("Elements count: " + NatToString(|elements|)));
    }

    /** One element: its scaled cursor, then the widget its kind calls for; false when its buffer fails. */
    method RenderElement(ui: ImGui.Context, element: ImGuiElement, scale: real, actualWidth: real, actualHeight: real)
      returns (drawn: bool)
      requires scale == PreviewScale(actualWidth, actualHeight)
      modifies ui
      ensures ui.trace == old(ui.trace) + DesignerElementCommands(element, scale)
      ensures drawn <==> !CopyFails(element)
    {
      ghost var t0 := ui.trace;
      var scaledX, scaledY := element.position.x * scale + 10.0, element.position.y * scale + 30.0;
      var _ := ui.Call(ImGui.SetCursorPos(Vec2(scaledX, scaledY)));
      ghost var t1 := ui.trace;
      assert Vec2(scaledX, scaledY) == ScaledCursor(element, scale);
      assert t1 == t0 + [ImGui.SetCursorPos(Vec2(scaledX, scaledY))];
      assert t1 == t0 + [ImGui.SetCursorPos(ScaledCursor(element, scale))];
      drawn := true;
      match element.ElementType() {
        case Button => RenderButton(ui, element, actualWidth, actualHeight);
        case Text => RenderColoredText(ui, element);
        case InputText => drawn := RenderInputText(ui, element);
        case Checkbox => RenderCheckbox(ui, element);
        case Slider => RenderSlider(ui, element);
        case ComboBox => RenderComboBox(ui, element);
      }
      assert ui.trace == t1 + DesignerKindCommands(element, scale);
      AppendAssoc(t0, [ImGui.SetCursorPos(ScaledCursor(element, scale))], DesignerKindCommands(element, scale));
    }

    /** The designer's RenderButton: the button at its size times the preview scale. */
    method RenderButton(ui: ImGui.Context, button: ImGuiElement, actualWidth: real, actualHeight: real)
      requires button.ImGuiButton?
      modifies ui
      ensures ui.trace == old(ui.trace) + ButtonCommands(button, Scaled(button.size, PreviewScale(actualWidth, actualHeight)))
    {
      var scale := PreviewScale(actualWidth, actualHeight);
      var scaledSize := Scaled(button.size, scale);
      Widgets.RenderButton(ui, button, scaledSize);
    }

    /** The designer's RenderInputText: the value copied into a byte buffer; false when that fails. */
    method RenderInputText(ui: ImGui.Context, input: ImGuiElement) returns (drawn: bool)
      requires input.ImGuiInputText?
      modifies ui
      ensures drawn <==> input.maxLength >= 1
      ensures ui.trace == old(ui.trace) +
        if input.maxLength < 1 then []
        else [ImGui.InputTextBuffer(input.caption, InputBuffer(Utf8(input.value.GetOr("")), input.maxLength), input.isPassword)]
    {
      var buffer := input.value.GetOr("");
      var bufferArray := CopyInputBuffer(Utf8(buffer), input.maxLength);
      if bufferArray.None? {
        return false;
      }
      var bytes := bufferArray.value[..];
      if input.isPassword {
        var _ := ui.Call(ImGui.InputTextBuffer(input.caption, bytes, true));
      } else {
        var _ := ui.Call(ImGui.InputTextBuffer(input.caption, bytes, false));
      }
      return true;
    }

    /** The checkbox at its stored state; the reply is ignored. */
    method RenderCheckbox(ui: ImGui.Context, checkbox: ImGuiElement)
      requires checkbox.ImGuiCheckbox?
      modifies ui
      ensures ui.trace == old(ui.trace) + [Preview.WidgetCall(checkbox)]
    {
      var isChecked := checkbox.isChecked;
      var _ := ui.Call(ImGui.Checkbox(checkbox.caption, isChecked));
    }

    /** The slider at its stored value; the reply is ignored. */
    method RenderSlider(ui: ImGui.Context, slider: ImGuiElement)
      requires slider.ImGuiSlider?
      modifies ui
      ensures ui.trace == old(ui.trace) + [Preview.WidgetCall(slider)]
    {
      var value := slider.sliderValue;
      var _ := ui.Call(ImGui.SliderFloat(slider.caption, value, slider.minValue, slider.maxValue));
    }

    /** The combo box, only when it has items; the reply is ignored. */
    method RenderComboBox(ui: ImGui.Context, comboBox: ImGuiElement)
      requires comboBox.ImGuiComboBox?
      modifies ui
      ensures ui.trace == old(ui.trace) + DesignerKindCommands(comboBox, 0.0)
    {
      var selectedIndex := comboBox.selectedIndex;
      if comboBox.items.Some? && |comboBox.items.value| > 0 {
        var _ := ui.Call(ImGui.Combo(comboBox.caption, selectedIndex, comboBox.items.value, |comboBox.items.value|));
      }
    }
  }
}

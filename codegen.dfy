/*
 * The code generator of the designer window (MainWindow.GenerateCode and
 * the Generate*Code helpers): the ordered element list becomes the lines of
 * a C# fragment that re-creates the layout with ImGui.NET calls.
 *
 * The generator appends one line at a time to a StringBuilder. Here every
 * line it can append is a `Stmt` value, and `Render` gives that line's
 * exact text, so the builder's content is a `seq<Stmt>` and the text is
 * `Lines(code, fmt)`. Float-to-text conversion is the culture-dependent
 * `float.ToString()` of .NET, so it is a parameter, `fmt`.
 */
module CodeGen {
  import opened Elements
  import opened Strings
  import opened Seqs

  /** `float.ToString()` in the current culture. */
  type Formatter = real -> string

  datatype ColorSlot = SlotButton | SlotButtonHovered | SlotButtonActive | SlotText

  /** One generated line. */
  datatype Stmt =
    | Verbatim(line: string)
    | Blank
    | ElementComment(kind: ImGuiElementType, id: Option<string>)
    | SetCursorPos(x: real, y: real)
    | PushFramePadding(px: int, py: int)
    | PushColor(slot: ColorSlot, color: Color)
    | PushTransparent(slot: ColorSlot)
    | ButtonIf(text: string, width: real, height: real)
    | OpenBrace
    | ClickComment(text: string)
    | CloseBrace
    | PopStyleVar
    | PopStyleColor(count: Option<int>)
    | TextCall(text: string)
    | DeclareString(name: string, str: string)
    | DeclareBool(name: string, flag: bool)
    | DeclareFloat(name: string, number: real)
    | DeclareInt(name: string, index: int)
    | DeclareStrings(name: string, items: seq<string>)
    | InputTextCall(caption: Option<string>, name: string, maxLength: int, password: bool)
    | CheckboxCall(caption: Option<string>, name: string)
    | SliderCall(caption: Option<string>, name: string, min: real, max: real)
    | ComboCall(caption: Option<string>, name: string, itemsName: string, itemCount: int)

  // ---------------------------------------------------------------------
  // The text of each line

  /** `ImGuiElementType.ToString()`. */
  function TypeName(k: ImGuiElementType): string {
    match k
    case Button => "Button"
    case Text => "Text"
    case InputText => "InputText"
    case Checkbox => "Checkbox"
    case Slider => "Slider"
    case ComboBox => "ComboBox"
  }

  function SlotName(s: ColorSlot): string {
    match s
    case SlotButton => "Button"
    case SlotButtonHovered => "ButtonHovered"
    case SlotButtonActive => "ButtonActive"
    case SlotText => "Text"
  }

  /** A colour channel as the formatted quotient `channel/255f`, then `f`. */
  function Channel(v: byte, fmt: Formatter): string {
    fmt(v as real / 255.0) + "f"
  }

  /** A string as interpolated between double quotes: null reads as empty, nothing is escaped. */
  function Quoted(s: Option<string>): string {
    "\"" + s.GetOr("") + "\""
  }

  /** Each item in double quotes. */
  function QuoteAll(items: seq<string>): (r: seq<string>)
    ensures |r| == |items|
  {
    seq(|items|, i requires 0 <= i < |items| => "\"" + items[i] + "\"")
  }

  /** The text that opens a call `ImGui.{name}(`. */
  function CallPrefix(name: string): string {
    "ImGui." + name + "("
  }

  /** A statement `ImGui.{name}({args});`. */
  function CallLine(name: string, args: string): string {
    CallPrefix(name) + args + ");"
  }

  /** Whether the line is an ImGui call statement `ImGui.{name}({args});`. */
  predicate IsCall(s: Stmt) {
    || s.SetCursorPos? || s.PushFramePadding? || s.PushColor? || s.PushTransparent?
    || s.PopStyleVar? || s.PopStyleColor? || s.TextCall?
    || s.InputTextCall? || s.CheckboxCall? || s.SliderCall? || s.ComboCall?
  }

  /** The ImGui function a call statement invokes. */
  function CallName(s: Stmt): string
    requires IsCall(s)
  {
    match s
    case SetCursorPos(_, _) => "SetCursorPos"
    case PushFramePadding(_, _) => "PushStyleVar"
    case PushColor(_, _) => "PushStyleColor"
    case PushTransparent(_) => "PushStyleColor"
    case PopStyleVar => "PopStyleVar"
    case PopStyleColor(_) => "PopStyleColor"
    case TextCall(_) => "Text"
    case InputTextCall(_, _, _, _) => "InputText"
    case CheckboxCall(_, _) => "Checkbox"
    case SliderCall(_, _, _, _) => "SliderFloat"
    case ComboCall(_, _, _, _) => "Combo"
  }

  /** The argument list of a call statement. */
  function CallArgs(s: Stmt, fmt: Formatter): string
    requires IsCall(s)
  {
    match s
    case SetCursorPos(x, y) => "new Vector2(" + fmt(x) + "f, " + fmt(y) + "f)"
    case PushFramePadding(px, py) =>
      "ImGuiStyleVar.FramePadding, new Vector2(" + IntToString(px) + ", " + IntToString(py) + ")"
    case PushColor(slot, c) =>
      "ImGuiCol." + SlotName(slot) + ", new Vector4("
        + Channel(c.r, fmt) + ", " + Channel(c.g, fmt) + ", " + Channel(c.b, fmt) + ", 1.0f)"
    case PushTransparent(slot) => "ImGuiCol." + SlotName(slot) + ", new Vector4(0, 0, 0, 0)"
    case PopStyleVar => ""
    case PopStyleColor(n) => if n.Some? then IntToString(n.value) else ""
    case TextCall(t) => "\"" + t + "\""
    case InputTextCall(c, n, m, p) =>
      Quoted(c) + ", ref " + n + ", " + IntToString(m) + (if p then ", ImGuiInputTextFlags.Password" else "")
    case CheckboxCall(c, n) => Quoted(c) + ", ref " + n
    case SliderCall(c, n, lo, hi) => Quoted(c) + ", ref " + n + ", " + fmt(lo) + "f, " + fmt(hi) + "f"
    case ComboCall(c, sel, items, k) => Quoted(c) + ", ref " + sel + ", " + items + ", " + IntToString(k)
  }

  /** The exact text AppendLine receives for each line. */
  function Render(s: Stmt, fmt: Formatter): string {
    if IsCall(s) then CallLine(CallName(s), CallArgs(s, fmt))
    else match s
      case Verbatim(line) => line
      case ElementComment(k, id) => "// " + TypeName(k) + ": " + id.GetOr("Unnamed")
      case ButtonIf(t, w, h) => "if (ImGui.Button(\"" + t + "\", new Vector2(" + fmt(w) + "f, " + fmt(h) + "f)))"
      case OpenBrace => "{"
      case ClickComment(t) => "    // Handle button click for: " + t
      case CloseBrace => "}"
      case DeclareString(n, v) => "string " + n + " = \"" + v + "\";"
      case DeclareBool(n, b) => "bool " + n + " = " + (if b then "true" else "false") + ";"
      case DeclareFloat(n, v) => "float " + n + " = " + fmt(v) + "f;"
      case DeclareInt(n, i) => "int " + n + " = " + IntToString(i) + ";"
      case DeclareStrings(n, items) => "string[] " + n + " = { " + Join(", ", QuoteAll(items)) + " };"
      case _ => ""
  }

  /** The text of a generated fragment, line by line. */
  function Lines(code: seq<Stmt>, fmt: Formatter): (lines: seq<string>)
    ensures |lines| == |code|
    ensures forall i :: 0 <= i < |code| ==> lines[i] == Render(code[i], fmt)
  {
    seq(|code|, i requires 0 <= i < |code| => Render(code[i], fmt))
  }

  // ---------------------------------------------------------------------
  // What each GenerateXxxCode appends

  const HeaderCode: seq<Stmt> :=
    [Verbatim("// ImGUI Code Generated by ImGUI Maker"), Verbatim("// Add this code to your ImGUI render loop"), Blank]

  const PlaceholderCode: seq<Stmt> :=
    [Verbatim("// No elements defined"), Verbatim("// Use the designer to add elements")]

  /** The frame-padding push a style asks for: Small and Large only. */
  function StyleVarPushCode(style: ButtonStyle): seq<Stmt> {
    if style == Small then [PushFramePadding(4, 2)]
    else if style == Large then [PushFramePadding(12, 8)]
    else []
  }

  function ColorPushCode(b: ImGuiElement): seq<Stmt>
    requires b.ImGuiButton?
  {
    if b.style == Invisible then
      [PushTransparent(SlotButton), PushTransparent(SlotButtonHovered), PushTransparent(SlotButtonActive)]
    else
      [PushColor(SlotButton, b.backgroundColor), PushColor(SlotText, b.textColor)]
  }

  /** The button statement and its empty click handler. */
  function ClickCode(b: ImGuiElement): seq<Stmt>
    requires b.ImGuiButton?
  {
    [ButtonIf(b.text, b.size.x, b.size.y), OpenBrace, ClickComment(b.text), CloseBrace]
  }

  /** The pops: the style var first (for every non-Default style), then the colours. */
  function PopCode(style: ButtonStyle): seq<Stmt> {
    (if style != Default then [PopStyleVar] else [])
    + [PopStyleColor(Some(if style == Invisible then 3 else 2))]
  }

  /** GenerateButtonCode. */
  function ButtonCode(b: ImGuiElement): seq<Stmt>
    requires b.ImGuiButton?
  {
    StyleVarPushCode(b.style) + ColorPushCode(b) + ClickCode(b) + PopCode(b.style)
  }

  /** GenerateTextCode: colour, text, pop; IsBold and FontSize are not consulted. */
  function TextCode(t: ImGuiElement): seq<Stmt>
    requires t.ImGuiText?
  {
    [PushColor(SlotText, t.textColor), TextCall(t.text), PopStyleColor(None)]
  }

  /** GenerateInputTextCode. */
  function InputTextCode(e: ImGuiElement): seq<Stmt>
    requires e.ImGuiInputText?
  {
    var name := BindingToken(e.caption, "input") + "Value";
    [DeclareString(name, e.value.GetOr("")), InputTextCall(e.caption, name, e.maxLength, e.isPassword)]
  }

  /** GenerateCheckboxCode. */
  function CheckboxCode(e: ImGuiElement): seq<Stmt>
    requires e.ImGuiCheckbox?
  {
    var name := BindingToken(e.caption, "checkbox") + "Value";
    [DeclareBool(name, e.isChecked), CheckboxCall(e.caption, name)]
  }

  /** GenerateSliderCode. */
  function SliderCode(e: ImGuiElement): seq<Stmt>
    requires e.ImGuiSlider?
  {
    var name := BindingToken(e.caption, "slider") + "Value";
    [DeclareFloat(name, e.sliderValue), SliderCall(e.caption, name, e.minValue, e.maxValue)]
  }

  /** GenerateComboBoxCode: nothing at all unless the item list is non-null and non-empty. */
  function ComboBoxCode(e: ImGuiElement): seq<Stmt>
    requires e.ImGuiComboBox?
  {
    if e.HasItems() then
      var token := BindingToken(e.caption, "combo");
      [ DeclareStrings(token + "Items", e.items.value),
        DeclareInt(token + "Selected", e.selectedIndex),
        ComboCall(e.caption, token + "Selected", token + "Items", |e.items.value|) ]
    else []
  }

  /** The kind-specific lines, chosen by the element's kind tag. */
  function KindCode(e: ImGuiElement): seq<Stmt> {
    match e.ElementType()
    case Button => ButtonCode(e)
    case Text => TextCode(e)
    case InputText => InputTextCode(e)
    case Checkbox => CheckboxCode(e)
    case Slider => SliderCode(e)
    case ComboBox => ComboBoxCode(e)
  }

  /** One element's block: comment, cursor on the raw position, kind lines, blank line. */
  function Block(e: ImGuiElement): seq<Stmt> {
    [ElementComment(e.ElementType(), e.id), SetCursorPos(e.position.x, e.position.y)] + KindCode(e) + [Blank]
  }

  /** The blocks of the elements, one after another. */
  function Blocks(es: seq<ImGuiElement>): seq<Stmt> {
    Concat(es, Block)
  }

  /** Everything GenerateCode appends for the element list `es`. */
  function CodeOf(es: seq<ImGuiElement>): seq<Stmt> {
    HeaderCode + (if es == [] then PlaceholderCode else Blocks(es))
  }

  // ---------------------------------------------------------------------
  // Push and pop lines, by statement and by text

  datatype LineClass = PushVarLine | PushColorLine | PopVarLine | PopColorLine | OtherLine

  /** The class of a text line, read off its prefix. */
  function Classify(line: string): LineClass {
    if StartsWith(line, CallPrefix("PushStyleVar")) then PushVarLine
    else if StartsWith(line, CallPrefix("PushStyleColor")) then PushColorLine
    else if StartsWith(line, CallPrefix("PopStyleVar")) then PopVarLine
    else if StartsWith(line, CallPrefix("PopStyleColor")) then PopColorLine
    else OtherLine
  }

  /** The class of a statement, read off its constructor (a fixed line by its text). */
  function StmtClass(s: Stmt): LineClass {
    match s
    case Verbatim(line) => Classify(line)
    case PushFramePadding(_, _) => PushVarLine
    case PushColor(_, _) => PushColorLine
    case PushTransparent(_) => PushColorLine
    case PopStyleVar => PopVarLine
    case PopStyleColor(_) => PopColorLine
    case _ => OtherLine
  }

  /** Number of statements of class `c`. */
  function Count(code: seq<Stmt>, c: LineClass): nat {
    if code == [] then 0
    else Count(code[..|code| - 1], c) + (if StmtClass(code[|code| - 1]) == c then 1 else 0)
  }

  lemma {:induction false} CountAppend(a: seq<Stmt>, b: seq<Stmt>, c: LineClass)
    ensures Count(a + b, c) == Count(a, c) + Count(b, c)
    decreases |b|
  {
    if b == [] {
      assert a + b == a;
    } else {
      assert (a + b)[..|a + b| - 1] == a + b[..|b| - 1];
      CountAppend(a, b[..|b| - 1], c);
    }
  }

  lemma CountSingleton(s: Stmt, c: LineClass)
    ensures Count([s], c) == if StmtClass(s) == c then 1 else 0
  {
  }

  /** Statements that all share one class: all of them count for it and none for another. */
  lemma {:induction false} CountUniform(code: seq<Stmt>, k: LineClass, c: LineClass)
    requires forall i :: 0 <= i < |code| ==> StmtClass(code[i]) == k
    ensures Count(code, c) == if c == k then |code| else 0
    decreases |code|
  {
    if code != [] {
      CountUniform(code[..|code| - 1], k, c);
    }
  }

  lemma CallLineAt(name: string, args: string, j: nat)
    requires j < |name|
    ensures |CallLine(name, args)| > 6 + j && CallLine(name, args)[6 + j] == name[j]
  {
  }

  /** A call whose name starts with anything but 'P' is no push or pop. */
  lemma OtherCallClass(name: string, args: string)
    requires |name| > 0 && name[0] != 'P'
    ensures Classify(CallLine(name, args)) == OtherLine
  {
    var line := CallLine(name, args);
    CallLineAt(name, args, 0);
    DiffersAt(line, CallPrefix("PushStyleVar"), 6);
    DiffersAt(line, CallPrefix("PushStyleColor"), 6);
    DiffersAt(line, CallPrefix("PopStyleVar"), 6);
    DiffersAt(line, CallPrefix("PopStyleColor"), 6);
  }

  lemma PushVarCallClass(args: string)
    ensures Classify(CallLine("PushStyleVar", args)) == PushVarLine
  {
  }

  lemma PushColorCallClass(args: string)
    ensures Classify(CallLine("PushStyleColor", args)) == PushColorLine
  {
    var line := CallLine("PushStyleColor", args);
    StartsWithAppend(CallPrefix("PushStyleColor"), args, ");");
    CallLineAt("PushStyleColor", args, 9);
    DiffersAt(line, CallPrefix("PushStyleVar"), 15);
  }

  lemma PopVarCallClass(args: string)
    ensures Classify(CallLine("PopStyleVar", args)) == PopVarLine
  {
    var line := CallLine("PopStyleVar", args);
    StartsWithAppend(CallPrefix("PopStyleVar"), args, ");");
    CallLineAt("PopStyleVar", args, 1);
    DiffersAt(line, CallPrefix("PushStyleVar"), 7);
    DiffersAt(line, CallPrefix("PushStyleColor"), 7);
  }

  lemma PopColorCallClass(args: string)
    ensures Classify(CallLine("PopStyleColor", args)) == PopColorLine
  {
    var line := CallLine("PopStyleColor", args);
    StartsWithAppend(CallPrefix("PopStyleColor"), args, ");");
    CallLineAt("PopStyleColor", args, 1);
    CallLineAt("PopStyleColor", args, 8);
    DiffersAt(line, CallPrefix("PushStyleVar"), 7);
    DiffersAt(line, CallPrefix("PushStyleColor"), 7);
    DiffersAt(line, CallPrefix("PopStyleVar"), 14);
  }

  /** A line that does not start with 'I' is no push or pop. */
  lemma NonCallLineClass(line: string)
    requires |line| == 0 || line[0] != 'I'
    ensures Classify(line) == OtherLine
  {
  }

  /**
   * The class given to a statement is the class its text has: a line of
   * the generated fragment starts with `ImGui.PushStyleVar(`,
   * `ImGui.PushStyleColor(`, `ImGui.PopStyleVar(` or `ImGui.PopStyleColor(`
   * exactly when its statement is of that class.
   */
  lemma RenderClass(s: Stmt, fmt: Formatter)
    ensures Classify(Render(s, fmt)) == StmtClass(s)
  {
    if IsCall(s) {
      CallClass(s, CallArgs(s, fmt));
    } else if !s.Verbatim? {
      NonCallLineClass(Render(s, fmt));
    }
  }

  /** A call is classified by the function it invokes, whatever its arguments. */
  lemma CallClass(s: Stmt, args: string)
    requires IsCall(s)
    ensures Classify(CallLine(CallName(s), args)) == StmtClass(s)
  {
    if s.PushFramePadding? || s.PushColor? || s.PushTransparent? || s.PopStyleVar? || s.PopStyleColor? {
      StackCallClass(s, args);
    } else {
      OtherCallClass(CallName(s), args);
    }
  }

  lemma StackCallClass(s: Stmt, args: string)
    requires s.PushFramePadding? || s.PushColor? || s.PushTransparent? || s.PopStyleVar? || s.PopStyleColor?
    ensures Classify(CallLine(CallName(s), args)) == StmtClass(s)
  {
    if s.PushFramePadding? {
      PushVarCallClass(args);
    } else if s.PushColor? || s.PushTransparent? {
      PushColorCallClass(args);
    } else if s.PopStyleVar? {
      PopVarCallClass(args);
    } else {
      PopColorCallClass(args);
    }
  }

  /** Every line of the text has the class of the statement it renders. */
  lemma LinesClassified(code: seq<Stmt>, fmt: Formatter)
    ensures forall i :: 0 <= i < |code| ==> Classify(Lines(code, fmt)[i]) == StmtClass(code[i])
  {
    forall i | 0 <= i < |code| ensures Classify(Lines(code, fmt)[i]) == StmtClass(code[i]) {
      RenderClass(code[i], fmt);
    }
  }

  // ---------------------------------------------------------------------
  // The generator itself

  /** GenerateCode: header, then the placeholder or one block per element in order. */
  method GenerateCode(elements: seq<ImGuiElement>) returns (code: seq<Stmt>)
    ensures code == CodeOf(elements)
  {
    code := HeaderCode;
    if |elements| == 0 {
      code := code + PlaceholderCode;
    } else {
      for i := 0 to |elements|
        invariant code == HeaderCode + Blocks(elements[..i])
      {
        var element := elements[i];
        TakeSnoc(elements, i);
        ConcatSnoc(elements[..i], element, Block);
        AppendAssoc(HeaderCode, Blocks(elements[..i]), Block(element));
        code := code + Block(element);
      }
      assert elements[..|elements|] == elements;
    }
  }

  // ---------------------------------------------------------------------
  // Properties of the output

  /** An empty design gives exactly the three header lines and the two placeholder comments. */
  lemma EmptyDesignCode(fmt: Formatter)
    ensures var lines := Lines(CodeOf([]), fmt);
      && |lines| == 5
      && lines[0] == "// ImGUI Code Generated by ImGUI Maker"
      && lines[1] == "// Add this code to your ImGUI render loop"
      && lines[2] == ""
      && lines[3] == "// No elements defined"
      && lines[4] == "// Use the designer to add elements"
  {
  }

  /**
   * For a non-empty design the output is the header followed by the blocks
   * in collection order: whatever element `k` is, its block comes right
   * after the blocks of the elements before it and right before those of
   * the elements after it.
   */
  lemma BlocksInOrder(es: seq<ImGuiElement>, k: nat)
    requires k < |es|
    ensures CodeOf(es) == HeaderCode + (Blocks(es[..k]) + Block(es[k]) + Blocks(es[k + 1..]))
  {
    ConcatSplit(es, Block, k);
  }

  /**
   * A block opens with the `// {ElementType}: {Id ?? "Unnamed"}` comment
   * and the cursor statement on the raw (unscaled) position, and ends with
   * a blank line.
   */
  lemma BlockShape(e: ImGuiElement)
    ensures |Block(e)| >= 3
    ensures Block(e)[0] == ElementComment(e.ElementType(), e.id)
    ensures Block(e)[1] == SetCursorPos(e.position.x, e.position.y)
    ensures Block(e)[|Block(e)| - 1] == Blank
  {
  }

  /** Generating code for one more element appends exactly that element's block. */
  lemma CodeOfAppend(es: seq<ImGuiElement>, e: ImGuiElement)
    requires es != []
    ensures CodeOf(es + [e]) == CodeOf(es) + Block(e)
  {
    ConcatSnoc(es, e, Block);
    AppendAssoc(HeaderCode, Blocks(es), Block(e));
  }

  /**
   * The pushes and pops of button code follow the style: one padding push
   * iff Small or Large, a style-var pop iff the style is not Default (so an
   * Invisible button pops a style var it never pushed), three colour pushes
   * for Invisible and two otherwise, closed by one `PopStyleColor` whose
   * count is that number of pushes.
   */
  lemma ButtonCodeCounts(b: ImGuiElement)
    requires b.ImGuiButton?
    ensures var code := ButtonCode(b);
      && Count(code, PushVarLine) == (if b.style == Small || b.style == Large then 1 else 0)
      && Count(code, PopVarLine) == (if b.style != Default then 1 else 0)
      && Count(code, PushColorLine) == (if b.style == Invisible then 3 else 2)
      && Count(code, PopColorLine) == 1
      && code[|code| - 1] == PopStyleColor(Some(Count(code, PushColorLine)))
  {
    ButtonClassCount(b, PushVarLine);
    ButtonClassCount(b, PopVarLine);
    ButtonClassCount(b, PushColorLine);
    ButtonClassCount(b, PopColorLine);
  }

  /** The count of one class in button code, segment by segment. */
  lemma ButtonClassCount(b: ImGuiElement, c: LineClass)
    requires b.ImGuiButton?
    ensures Count(ButtonCode(b), c) ==
      (if c == PushVarLine then |StyleVarPushCode(b.style)| else 0)
      + (if c == PushColorLine then |ColorPushCode(b)| else 0)
      + (if c == OtherLine then 4 else 0)
      + (if c == PopVarLine && b.style != Default then 1 else 0)
      + (if c == PopColorLine then 1 else 0)
  {
    ButtonCountSplit(b, c);
    CountUniform(StyleVarPushCode(b.style), PushVarLine, c);
    CountUniform(ColorPushCode(b), PushColorLine, c);
    CountUniform(ClickCode(b), OtherLine, c);
    PopCodeCount(b.style, c);
  }

  lemma ButtonCountSplit(b: ImGuiElement, c: LineClass)
    requires b.ImGuiButton?
    ensures Count(ButtonCode(b), c) ==
      Count(StyleVarPushCode(b.style), c) + Count(ColorPushCode(b), c) + Count(ClickCode(b), c) + Count(PopCode(b.style), c)
  {
    var vars, colors, click, pops := StyleVarPushCode(b.style), ColorPushCode(b), ClickCode(b), PopCode(b.style);
    CountAppend(vars + colors + click, pops, c);
    CountAppend(vars + colors, click, c);
    CountAppend(vars, colors, c);
  }

  lemma PopCodeCount(style: ButtonStyle, c: LineClass)
    ensures Count(PopCode(style), c) == (if c == PopVarLine && style != Default then 1 else 0) + (if c == PopColorLine then 1 else 0)
  {
    var last := PopStyleColor(Some(if style == Invisible then 3 else 2));
    if style != Default {
      CountAppend([PopStyleVar], [last], c);
      CountSingleton(PopStyleVar, c);
    } else {
      assert PopCode(style) == [last];
    }
    CountSingleton(last, c);
  }

  /**
   * Button code is the pushes, then the button statement with its empty
   * click handler, then the pops; the style-var pop comes before the
   * colour pop.
   */
  lemma ButtonCodeLayout(b: ImGuiElement)
    requires b.ImGuiButton?
    ensures var code, pushes := ButtonCode(b), (if b.style == Small || b.style == Large then 1 else 0) + (if b.style == Invisible then 3 else 2);
      && |code| == pushes + 4 + (if b.style != Default then 2 else 1)
      && (forall k :: 0 <= k < pushes ==> StmtClass(code[k]) == PushVarLine || StmtClass(code[k]) == PushColorLine)
      && code[pushes..pushes + 4] == [ButtonIf(b.text, b.size.x, b.size.y), OpenBrace, ClickComment(b.text), CloseBrace]
      && (forall k :: pushes + 4 <= k < |code| ==> StmtClass(code[k]) == PopVarLine || StmtClass(code[k]) == PopColorLine)
      && (b.style != Default ==> code[|code| - 2] == PopStyleVar)
  {
  }

  /** A text block pushes one colour and pops one, and ignores IsBold and FontSize. */
  lemma TextCodeBalanced(t: ImGuiElement, bold: bool, fontSize: real)
    requires t.ImGuiText?
    ensures Count(TextCode(t), PushColorLine) == 1 && Count(TextCode(t), PopColorLine) == 1
    ensures Count(TextCode(t), PushVarLine) == 0 && Count(TextCode(t), PopVarLine) == 0
    ensures TextCode(t.(isBold := bold, fontSize := fontSize)) == TextCode(t)
  {
    TextClassCount(t, PushColorLine);
    TextClassCount(t, PopColorLine);
    TextClassCount(t, PushVarLine);
    TextClassCount(t, PopVarLine);
  }

  lemma TextClassCount(t: ImGuiElement, c: LineClass)
    requires t.ImGuiText?
    ensures Count(TextCode(t), c) == (if c == PushColorLine then 1 else 0) + (if c == PopColorLine then 1 else 0) + (if c == OtherLine then 1 else 0)
  {
    CountSingleton(PushColor(SlotText, t.textColor), c);
    CountSingleton(TextCall(t.text), c);
    CountSingleton(PopStyleColor(None), c);
    CountTriple(PushColor(SlotText, t.textColor), TextCall(t.text), PopStyleColor(None), c);
  }

  lemma CountTriple(a: Stmt, b: Stmt, d: Stmt, c: LineClass)
    ensures Count([a, b, d], c) == Count([a], c) + Count([b], c) + Count([d], c)
  {
    assert [a, b, d] == [a, b] + [d];
    assert [a, b] == [a] + [b];
    CountAppend([a, b], [d], c);
    CountAppend([a], [b], c);
  }

  /** The token a null label falls back to, per bound kind. */
  function DefaultToken(k: ImGuiElementType): string {
    match k
    case InputText => "input"
    case Checkbox => "checkbox"
    case Slider => "slider"
    case ComboBox => "combo"
    case _ => ""
  }

  /**
   * Input, checkbox and slider code declares `{token}Value` and passes that
   * same variable by reference to the widget statement, under the
   * element's own label; the token is the kind's default for a null label
   * and the empty string for an empty one.
   */
  lemma BindingCode(e: ImGuiElement)
    requires e.ImGuiInputText? || e.ImGuiCheckbox? || e.ImGuiSlider?
    ensures var code, token := KindCode(e), BindingToken(e.caption, DefaultToken(e.ElementType()));
      && |code| == 2
      && code[0].name == token + "Value" == code[1].name
      && code[1].caption == e.caption
      && (e.caption.None? ==> token == DefaultToken(e.ElementType()))
      && (e.caption == Some("") ==> token == "")
  {
  }

  /**
   * Combo code is three lines when Items is non-null and non-empty, and
   * nothing otherwise: the items array holding exactly the items, the
   * selected-index variable holding SelectedIndex, and the Combo statement
   * over those two variables with the item count.
   */
  lemma ComboCodeNeedsItems(e: ImGuiElement)
    requires e.ImGuiComboBox?
    ensures |ComboBoxCode(e)| == if e.items.Some? && |e.items.value| > 0 then 3 else 0
    ensures e.HasItems() ==>
      var code := ComboBoxCode(e);
      && code[0].DeclareStrings? && code[0].items == e.items.value
      && code[1].DeclareInt? && code[1].index == e.selectedIndex
      && code[2] == ComboCall(e.caption, code[1].name, code[0].name, |e.items.value|)
  {
  }
}

/*
 * The generated C++ code and the preview window's ImGui calls, side by
 * side. The code generator (GenerateCode and its Generate*Code helpers)
 * and the preview's renderer (RenderElements and its Render* helpers)
 * are written separately and are meant to produce the same widgets; the
 * lemmas here state, element kind by element kind, where they agree and
 * the two places where they do not: the order of a button's pops and the
 * bold font of a text element.
 */
module LockStep {
  import opened Elements
  import CodeGen
  import Widgets
  import Preview
  import ImGui

  /** The ImGui colour slot a generated `ImGuiCol_*` constant names. */
  function SlotStyle(slot: CodeGen.ColorSlot): ImGui.StyleColor {
    match slot
    case SlotButton => ImGui.ColButton
    case SlotButtonHovered => ImGui.ColButtonHovered
    case SlotButtonActive => ImGui.ColButtonActive
    case SlotText => ImGui.ColText
  }

  /** The colour a generated colour push passes: the RGB channels over 255, or transparent. */
  function PushedColor(s: CodeGen.Stmt): ImGui.Vec4
    requires s.PushColor? || s.PushTransparent?
  {
    if s.PushColor? then ImGui.ColorVec(s.color) else ImGui.Transparent
  }

  /** The preview call a generated colour push stands for. */
  function ColorCall(s: CodeGen.Stmt): ImGui.Command
    requires s.PushColor? || s.PushTransparent?
  {
    ImGui.PushStyleColor(SlotStyle(s.slot), PushedColor(s))
  }

  /**
   * A button, counted: the generated code pushes a style var exactly when
   * the preview does and as many colours, pops a style var exactly when
   * the preview does, and so changes the style-var depth by the same
   * amount (-1 for Invisible, 0 otherwise).
   */
  lemma ButtonCountsLockStep(b: ImGuiElement)
    requires b.ImGuiButton?
    ensures var code, cmds := CodeGen.ButtonCode(b), Widgets.ButtonCommands(b, b.size);
      && CodeGen.Count(code, CodeGen.PushVarLine) == |Widgets.PaddingPush(b.style)|
      && CodeGen.Count(code, CodeGen.PushColorLine) == |Widgets.ColorPushes(b)|
      && (CodeGen.Count(code, CodeGen.PopVarLine) == 1 <==> ImGui.PopStyleVar in cmds)
      && CodeGen.Count(code, CodeGen.PushVarLine) - CodeGen.Count(code, CodeGen.PopVarLine) == ImGui.NetDelta(cmds, ImGui.VarStack)
  {
    var cmds := Widgets.ButtonCommands(b, b.size);
    CodeGen.ButtonCodeCounts(b);
    Widgets.ButtonBalance(b, b.size, ImGui.VarStack);
    if b.style == Default {
      assert cmds == Widgets.ColorPushes(b) + [ImGui.Button(b.text, b.size), ImGui.PopStyleColor(2)];
      assert ImGui.PopStyleVar !in cmds;
    } else {
      Widgets.ButtonLayout(b, b.size);
      assert cmds[|Widgets.PaddingPush(b.style)| + |Widgets.ColorPushes(b)| + 2] == ImGui.PopStyleVar;
    }
  }

  /**
   * A button's pushes, call by call: the same padding, the same colours
   * into the same slots in the same order, then the same text at the same
   * size.
   */
  lemma ButtonPushesLockStep(b: ImGuiElement)
    requires b.ImGuiButton?
    ensures var code, cmds := CodeGen.ButtonCode(b), Widgets.ButtonCommands(b, b.size);
      var vars, colors := Widgets.PaddingPush(b.style), Widgets.ColorPushes(b);
      && |vars| + |colors| < |code| && |vars| + |colors| < |cmds|
      && (forall i :: 0 <= i < |vars| ==>
            vars[i] == ImGui.PushFramePadding(Vec2(code[i].px as real, code[i].py as real)))
      && (forall i :: 0 <= i < |colors| ==>
            (code[|vars| + i].PushColor? || code[|vars| + i].PushTransparent?) && colors[i] == ColorCall(code[|vars| + i]))
      && code[|vars| + |colors|] == CodeGen.ButtonIf(b.text, b.size.x, b.size.y)
      && cmds[|vars| + |colors|] == ImGui.Button(b.text, b.size)
  {
    var vars, colors := CodeGen.StyleVarPushCode(b.style), CodeGen.ColorPushCode(b);
    assert CodeGen.ButtonCode(b) == vars + colors + CodeGen.ClickCode(b) + CodeGen.PopCode(b.style);
    assert Widgets.ButtonCommands(b, b.size)
      == Widgets.PaddingPush(b.style) + Widgets.ColorPushes(b) + [ImGui.Button(b.text, b.size)] + Widgets.ButtonPops(b.style);
  }

  /**
   * A button's pops: both pop as many colours as were pushed, and for
   * every style but Default both pop a style var, in opposite orders: the
   * code pops the style var first, the preview last.
   */
  lemma ButtonPopsLockStep(b: ImGuiElement)
    requires b.ImGuiButton?
    ensures var code, cmds := CodeGen.ButtonCode(b), Widgets.ButtonCommands(b, b.size);
      var pushes := |Widgets.PaddingPush(b.style)| + |Widgets.ColorPushes(b)|;
      && |code| >= 2 && pushes + 1 < |cmds|
      && code[|code| - 1] == CodeGen.PopStyleColor(Some(|Widgets.ColorPushes(b)|))
      && cmds[pushes + 1] == ImGui.PopStyleColor(|Widgets.ColorPushes(b)|)
      && (b.style != Default ==>
            && code[|code| - 2] == CodeGen.PopStyleVar && code[|code| - 1].PopStyleColor?
            && cmds[|cmds| - 2].PopStyleColor? && cmds[|cmds| - 1] == ImGui.PopStyleVar)
  {
    CodeGen.ButtonCodeCounts(b);
    CodeGen.ButtonCodeLayout(b);
    Widgets.ButtonLayout(b, b.size);
  }

  /**
   * A text element: the code and the preview push the same colour, show
   * the same text and pop one colour. The code ignores IsBold, while the
   * preview wraps bold text in the bold font: setting IsBold changes the
   * preview and leaves the code as it was.
   */
  lemma TextLockStep(t: ImGuiElement)
    requires t.ImGuiText?
    ensures var code, colored := CodeGen.TextCode(t), Widgets.ColoredText(t);
      && |code| == |colored| == 3
      && colored[0] == ColorCall(code[0])
      && colored[1] == ImGui.Text(code[1].text)
      && code[2].PopStyleColor? && colored[2] == ImGui.PopStyleColor(1)
      && Preview.TextCommands(t) == (if t.isBold then [ImGui.PushFont] + colored + [ImGui.PopFont] else colored)
    ensures var bold, plain := t.(isBold := true), t.(isBold := false);
      && CodeGen.TextCode(bold) == CodeGen.TextCode(plain)
      && ImGui.PushFont in Preview.TextCommands(bold)
      && ImGui.PushFont !in Preview.TextCommands(plain)
  {
    Preview.TextFont(t.(isBold := true), ImGui.FontStack);
    Preview.TextFont(t.(isBold := false), ImGui.FontStack);
  }

  /**
   * An input text, checkbox or slider: the code declares a variable with
   * the value the preview shows (a null input value as ""), and its call
   * takes the same label and bounds as the preview's widget, bound to that
   * variable.
   */
  lemma WidgetLockStep(e: ImGuiElement)
    requires e.ImGuiInputText? || e.ImGuiCheckbox? || e.ImGuiSlider?
    ensures Preview.Editable(e) && |CodeGen.KindCode(e)| == 2
    ensures var decl, call, widget := CodeGen.KindCode(e)[0], CodeGen.KindCode(e)[1], Preview.WidgetCall(e);
      && Preview.KindCommands(e) == [widget]
      && (e.ImGuiInputText? ==>
            && decl.DeclareString? && call.InputTextCall? && call.name == decl.name
            && widget == ImGui.InputText(call.caption, decl.str, call.maxLength, call.password))
      && (e.ImGuiCheckbox? ==>
            && decl.DeclareBool? && call.CheckboxCall? && call.name == decl.name
            && widget == ImGui.Checkbox(call.caption, decl.flag))
      && (e.ImGuiSlider? ==>
            && decl.DeclareFloat? && call.SliderCall? && call.name == decl.name
            && widget == ImGui.SliderFloat(call.caption, decl.number, call.min, call.max))
  {
  }

  /**
   * A combo box: the code emits anything exactly when the preview draws a
   * combo (a non-null, non-empty item list), and then it declares the same
   * items and the same selected index the preview passes, and its call
   * takes the same label and item count.
   */
  lemma ComboLockStep(e: ImGuiElement)
    requires e.ImGuiComboBox?
    ensures CodeGen.ComboBoxCode(e) != [] <==> Preview.Editable(e)
    ensures CodeGen.ComboBoxCode(e) != [] <==> Preview.KindCommands(e) != []
    ensures Preview.Editable(e) ==>
      var code := CodeGen.ComboBoxCode(e);
      && |code| == 3 && code[0].DeclareStrings? && code[1].DeclareInt? && code[2].ComboCall?
      && code[2].itemsName == code[0].name && code[2].name == code[1].name
      && Preview.KindCommands(e) == [ImGui.Combo(code[2].caption, code[1].index, code[0].items, code[2].itemCount)]
  {
  }

  /**
   * Element by element, the generated code and the preview change the
   * style-var depth by the same amount: -1 for an Invisible button (both
   * pop a style var nobody pushed), 0 for everything else.
   */
  lemma StyleVarLockStep(e: ImGuiElement)
    ensures var code := CodeGen.KindCode(e);
      CodeGen.Count(code, CodeGen.PushVarLine) - CodeGen.Count(code, CodeGen.PopVarLine)
        == ImGui.NetDelta(Preview.KindCommands(e), ImGui.VarStack)
        == (if Preview.InvisibleButton(e) then -1 else 0)
  {
    var code := CodeGen.KindCode(e);
    match e.ElementType() {
      case Button =>
        ButtonCountsLockStep(e);
        Widgets.ButtonBalance(e, e.size, ImGui.VarStack);
      case Text =>
        CodeGen.TextCodeBalanced(e, e.isBold, e.fontSize);
        Preview.TextFont(e, ImGui.VarStack);
      case _ =>
        CodeGen.CountUniform(code, CodeGen.OtherLine, CodeGen.PushVarLine);
        CodeGen.CountUniform(code, CodeGen.OtherLine, CodeGen.PopVarLine);
        if Preview.Editable(e) {
          ImGui.NetDeltaSingleton(Preview.WidgetCall(e), ImGui.VarStack);
        }
    }
  }
}

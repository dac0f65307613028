/*
 * The ImGui calls both renderers make for a button and for a text element
 * (RenderButton and RenderText in MainWindow and in ImGuiPreviewWindow).
 * The two windows differ only in the size the button is drawn at and in
 * the bold font, so the shared sequences are defined once here.
 */
module Widgets {
  import opened Elements
  import opened Seqs
  import ImGui

  /** The frame-padding push: (4, 2) for Small, (12, 8) for Large, none otherwise. */
  function PaddingPush(style: ButtonStyle): (cmds: seq<ImGui.Command>)
    ensures |cmds| == (if style == Small || style == Large then 1 else 0)
    ensures forall i :: 0 <= i < |cmds| ==> cmds[i].PushFramePadding?
  {
    if style == Small then [ImGui.PushFramePadding(Vec2(4.0, 2.0))]
    else if style == Large then [ImGui.PushFramePadding(Vec2(12.0, 8.0))]
    else []
  }

  /** Three transparent slots for Invisible, else the background and text colours. */
  function ColorPushes(b: ImGuiElement): (cmds: seq<ImGui.Command>)
    requires b.ImGuiButton?
    ensures |cmds| == (if b.style == Invisible then 3 else 2)
    ensures forall i :: 0 <= i < |cmds| ==> cmds[i].PushStyleColor?
  {
    if b.style == Invisible then
      [ ImGui.PushStyleColor(ImGui.ColButton, ImGui.Transparent),
        ImGui.PushStyleColor(ImGui.ColButtonHovered, ImGui.Transparent),
        ImGui.PushStyleColor(ImGui.ColButtonActive, ImGui.Transparent) ]
    else
      [ ImGui.PushStyleColor(ImGui.ColButton, ImGui.ColorVec(b.backgroundColor)),
        ImGui.PushStyleColor(ImGui.ColText, ImGui.ColorVec(b.textColor)) ]
  }

  /** The pops: the colours first, then a style var for every style but Default. */
  function ButtonPops(style: ButtonStyle): seq<ImGui.Command> {
    [ImGui.PopStyleColor(if style == Invisible then 3 else 2)]
    + (if style != Default then [ImGui.PopStyleVar] else [])
  }

  /** RenderButton, drawing the button at `size`. */
  function ButtonCommands(b: ImGuiElement, size: Vec2): seq<ImGui.Command>
    requires b.ImGuiButton?
  {
    PaddingPush(b.style) + ColorPushes(b) + [ImGui.Button(b.text, size)] + ButtonPops(b.style)
  }

  /** The text in its colour: one colour push, the text, one pop. */
  function ColoredText(t: ImGuiElement): seq<ImGui.Command>
    requires t.ImGuiText?
  {
    [ImGui.PushStyleColor(ImGui.ColText, ImGui.ColorVec(t.textColor)), ImGui.Text(t.text), ImGui.PopStyleColor(1)]
  }

  // ---------------------------------------------------------------------
  // Stack balance

  lemma PaddingPushDelta(style: ButtonStyle, s: ImGui.Stack)
    ensures ImGui.NetDelta(PaddingPush(style), s) == if s == ImGui.VarStack then |PaddingPush(style)| else 0
  {
  }

  lemma {:induction false} ColorPushesDelta(cmds: seq<ImGui.Command>, s: ImGui.Stack)
    requires forall i :: 0 <= i < |cmds| ==> cmds[i].PushStyleColor?
    ensures ImGui.NetDelta(cmds, s) == if s == ImGui.ColorStack then |cmds| else 0
    decreases |cmds|
  {
    if cmds != [] {
      ColorPushesDelta(cmds[..|cmds| - 1], s);
    }
  }

  lemma ButtonPopsDelta(style: ButtonStyle, s: ImGui.Stack)
    ensures ImGui.NetDelta(ButtonPops(style), s) ==
      (if s == ImGui.ColorStack then -(if style == Invisible then 3 else 2) else 0)
      + (if s == ImGui.VarStack && style != Default then -1 else 0)
  {
    var pop := ImGui.PopStyleColor(if style == Invisible then 3 else 2);
    ImGui.NetDeltaSingleton(pop, s);
    if style != Default {
      ImGui.NetDeltaAppend([pop], [ImGui.PopStyleVar], s);
      ImGui.NetDeltaSingleton(ImGui.PopStyleVar, s);
    } else {
      assert ButtonPops(style) == [pop];
    }
  }

  /**
   * A button pops as many colours as it pushes: three for Invisible, two
   * otherwise. It pushes a style var only for Small and Large but pops one
   * for every style but Default, so its style-var depth change is -1 for
   * Invisible and 0 otherwise. It touches no font. The colours are popped
   * before the style var.
   */
  lemma ButtonBalance(b: ImGuiElement, size: Vec2, s: ImGui.Stack)
    requires b.ImGuiButton?
    ensures ImGui.NetDelta(ButtonCommands(b, size), s) == if s == ImGui.VarStack && b.style == Invisible then -1 else 0
  {
    var pad, colors, button, pops := PaddingPush(b.style), ColorPushes(b), [ImGui.Button(b.text, size)], ButtonPops(b.style);
    ImGui.NetDeltaAppend(pad + colors + button, pops, s);
    ImGui.NetDeltaAppend(pad + colors, button, s);
    ImGui.NetDeltaAppend(pad, colors, s);
    PaddingPushDelta(b.style, s);
    ColorPushesDelta(colors, s);
    ImGui.NetDeltaSingleton(button[0], s);
    ButtonPopsDelta(b.style, s);
  }

  /**
   * The button call sits between the pushes and the pops; the colour pop
   * removes exactly the number of colours pushed, and for every style but
   * Default the style-var pop comes last.
   */
  lemma ButtonLayout(b: ImGuiElement, size: Vec2)
    requires b.ImGuiButton?
    ensures var cmds, pushes := ButtonCommands(b, size), |PaddingPush(b.style)| + |ColorPushes(b)|;
      && |cmds| == pushes + 1 + (if b.style != Default then 2 else 1)
      && (forall i :: 0 <= i < pushes ==> cmds[i].PushFramePadding? || cmds[i].PushStyleColor?)
      && cmds[pushes] == ImGui.Button(b.text, size)
      && cmds[pushes + 1] == ImGui.PopStyleColor(|ColorPushes(b)|)
      && (b.style != Default ==> cmds[pushes + 2] == ImGui.PopStyleVar)
  {
  }

  /** Coloured text pushes and pops one colour and nothing else. */
  lemma ColoredTextBalance(t: ImGuiElement, s: ImGui.Stack)
    requires t.ImGuiText?
    ensures ImGui.NetDelta(ColoredText(t), s) == 0
  {
    var push, text, pop := ColoredText(t)[0], ColoredText(t)[1], ColoredText(t)[2];
    assert ColoredText(t) == [push, text] + [pop];
    assert [push, text] == [push] + [text];
    ImGui.NetDeltaAppend([push, text], [pop], s);
    ImGui.NetDeltaAppend([push], [text], s);
    ImGui.NetDeltaSingleton(push, s);
    ImGui.NetDeltaSingleton(text, s);
    ImGui.NetDeltaSingleton(pop, s);
  }

  // ---------------------------------------------------------------------
  // Issuing the calls

  /**
   * RenderButton of either window, drawing the button at `size`: the
   * preview window passes the button's own size, the designer its scaled
   * size. The message box the preview window shows on a click is not part
   * of this model.
   */
  method RenderButton(ui: ImGui.Context, button: ImGuiElement, size: Vec2)
    requires button.ImGuiButton?
    modifies ui
    ensures ui.trace == old(ui.trace) + ButtonCommands(button, size)
  {
    ghost var t0 := ui.trace;
    if button.style == Small {
      var _ := ui.Call(ImGui.PushFramePadding(Vec2(4.0, 2.0)));
    } else if button.style == Large {
      var _ := ui.Call(ImGui.PushFramePadding(Vec2(12.0, 8.0)));
    } else {
      assert ui.trace == t0 + [];
    }
    ghost var t1 := ui.trace;
    assert t1 == t0 + PaddingPush(button.style);
    if button.style == Invisible {
      var _ := ui.Call(ImGui.PushStyleColor(ImGui.ColButton, ImGui.Transparent));
      var _ := ui.Call(ImGui.PushStyleColor(ImGui.ColButtonHovered, ImGui.Transparent));
      var _ := ui.Call(ImGui.PushStyleColor(ImGui.ColButtonActive, ImGui.Transparent));
    } else {
      var bgColor, textColor := button.backgroundColor, button.textColor;
      var _ := ui.Call(ImGui.PushStyleColor(ImGui.ColButton, ImGui.ColorVec(bgColor)));
      var _ := ui.Call(ImGui.PushStyleColor(ImGui.ColText, ImGui.ColorVec(textColor)));
    }
    ghost var t2 := ui.trace;
    assert t2 == t1 + ColorPushes(button);
    var _ := ui.Call(ImGui.Button(button.text, size));
    ghost var t3 := ui.trace;
    if button.style == Invisible {
      var _ := ui.Call(ImGui.PopStyleColor(3));
    } else {
      var _ := ui.Call(ImGui.PopStyleColor(2));
    }
    ghost var t4, colorPop := ui.trace, [ImGui.PopStyleColor(if button.style == Invisible then 3 else 2)];
    assert t4 == t3 + colorPop;
    if button.style != Default {
      var _ := ui.Call(ImGui.PopStyleVar);
    } else {
      assert ui.trace == t4 + [];
    }
    ghost var varPop: seq<ImGui.Command> := if button.style != Default then [ImGui.PopStyleVar] else [];
    assert ui.trace == t4 + varPop;
    AppendAssoc(t3, colorPop, varPop);
    AppendAssoc4(t0, PaddingPush(button.style), ColorPushes(button), [ImGui.Button(button.text, size)], ButtonPops(button.style));
  }

  /** The coloured text both windows draw; the preview window wraps it in the bold font. */
  method RenderColoredText(ui: ImGui.Context, text: ImGuiElement)
    requires text.ImGuiText?
    modifies ui
    ensures ui.trace == old(ui.trace) + ColoredText(text)
  {
    var _ := ui.Call(ImGui.PushStyleColor(ImGui.ColText, ImGui.ColorVec(text.textColor)));
    var _ := ui.Call(ImGui.Text(text.text));
    var _ := ui.Call(ImGui.PopStyleColor(1));
  }
}

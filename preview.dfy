/*
 * The stand-alone preview window (ImGuiPreviewWindow): it keeps its own
 * list of the elements and, every frame, draws them with ImGui in list
 * order. Unlike the designer's embedded preview, it stores what the user
 * edits back into the elements: a widget that reports a change has its
 * new value written to the element's field.
 *
 * In the application the list holds references to the designer's element
 * objects, so a write-back is visible to the designer as well. Here
 * elements are values, and the write-back replaces the element in this
 * window's list.
 */
module Preview {
  import opened Elements
  import opened Seqs
  import opened Widgets
  import ImGui

  const WindowFlags := {ImGui.NoMove, ImGui.NoResize, ImGui.NoCollapse}

  /** Every frame opens the window at (10, 10) with size 780 x 580. */
  const FrameOpen: seq<ImGui.Command> :=
    [ImGui.Begin("ImGui Preview", WindowFlags), ImGui.SetWindowPos(Vec2(10.0, 10.0)), ImGui.SetWindowSize(Vec2(780.0, 580.0))]

  /** Where an element is drawn: its position shifted by (10, 30). */
  function Cursor(e: ImGuiElement): Vec2 {
    Vec2(e.position.x + 10.0, e.position.y + 30.0)
  }

  /** RenderText: coloured text, wrapped in the bold font when IsBold. */
  function TextCommands(t: ImGuiElement): seq<ImGui.Command>
    requires t.ImGuiText?
  {
    (if t.isBold then [ImGui.PushFont] else []) + ColoredText(t) + (if t.isBold then [ImGui.PopFont] else [])
  }

  /** An element whose widget edits one of its fields: a combo box only when it has items to show. */
  predicate Editable(e: ImGuiElement) {
    e.ImGuiInputText? || e.ImGuiCheckbox? || e.ImGuiSlider? || (e.ImGuiComboBox? && e.HasItems())
  }

  /** The widget call of an editable element; a null input value is passed as "". */
  function WidgetCall(e: ImGuiElement): (c: ImGui.Command)
    requires Editable(e)
    ensures c.InputText? <==> e.ImGuiInputText?
    ensures c.Checkbox? <==> e.ImGuiCheckbox?
    ensures c.SliderFloat? <==> e.ImGuiSlider?
    ensures c.Combo? <==> e.ImGuiComboBox?
  {
    match e
    case ImGuiInputText(_, _, caption, value, _, maxLength, password) =>
      ImGui.InputText(caption, value.GetOr(""), maxLength, password)
    case ImGuiCheckbox(_, _, caption, checked) => ImGui.Checkbox(caption, checked)
    case ImGuiSlider(_, _, caption, v, lo, hi, _) => ImGui.SliderFloat(caption, v, lo, hi)
    case ImGuiComboBox(_, _, caption, items, index, _) => ImGui.Combo(caption, index, items.value, |items.value|)
  }

  /** The calls for one element after its cursor, chosen by the kind tag. */
  function KindCommands(e: ImGuiElement): seq<ImGui.Command> {
    match e.ElementType()
    case Button => ButtonCommands(e, e.size)
    case Text => TextCommands(e)
    case _ => if Editable(e) then [WidgetCall(e)] else []
  }

  function ElementCommands(e: ImGuiElement): seq<ImGui.Command> {
    [ImGui.SetCursorPos(Cursor(e))] + KindCommands(e)
  }

  /** RenderElements: open the window, draw every element in order, close the window. */
  function FrameCommands(es: seq<ImGuiElement>): seq<ImGui.Command> {
    FrameOpen + Concat(es, ElementCommands) + [ImGui.End]
  }

  /** The element once its widget answered `r`: the edited field is stored only on a change. */
  function WriteBack(e: ImGuiElement, r: ImGui.Reply): ImGuiElement
    requires Editable(e)
  {
    if !r.changed then e
    else match e
      case ImGuiInputText(_, _, _, _, _, _, _) => e.(value := Some(r.text))
      case ImGuiCheckbox(_, _, _, _) => e.(isChecked := r.checked)
      case ImGuiSlider(_, _, _, _, _, _, _) => e.(sliderValue := r.value)
      case ImGuiComboBox(_, _, _, _, _, _) => e.(selectedIndex := r.index)
  }

  /**
   * The element after a frame in which its calls start at trace position
   * `at`: its widget call comes right after the cursor call.
   */
  function Rendered(e: ImGuiElement, oracle: (nat, ImGui.Command) -> ImGui.Reply, at: nat): ImGuiElement {
    if Editable(e) then WriteBack(e, oracle(at + 1, WidgetCall(e))) else e
  }

  /**
   * The elements after a frame whose element calls start at trace position
   * `at`: each one rendered with the replies its own calls received.
   */
  function RenderedAll(es: seq<ImGuiElement>, oracle: (nat, ImGui.Command) -> ImGui.Reply, at: nat): seq<ImGuiElement> {
    Positioned(es, ElementCommands, RenderedWith(oracle), at)
  }

  function RenderedWith(oracle: (nat, ImGui.Command) -> ImGui.Reply): (ImGuiElement, nat) -> ImGuiElement {
    (e: ImGuiElement, pos: nat) => Rendered(e, oracle, pos)
  }

  /** Storing element `i`'s result extends the rendered prefix by one element. */
  lemma RenderedStep(elements: seq<ImGuiElement>, es: seq<ImGuiElement>, i: nat,
                     oracle: (nat, ImGui.Command) -> ImGui.Reply, at: nat, updated: ImGuiElement)
    requires i < |es|
    requires elements == RenderedAll(es[..i], oracle, at) + es[i..]
    requires updated == Rendered(es[i], oracle, Start(es, ElementCommands, at, i))
    ensures elements[i] == es[i]
    ensures elements[i := updated] == RenderedAll(es[..i + 1], oracle, at) + es[i + 1..]
  {
    PositionedSnoc(es, ElementCommands, RenderedWith(oracle), at, i);
    assert RenderedWith(oracle)(es[i], Start(es, ElementCommands, at, i)) == updated;
    UpdateAfter(elements, RenderedAll(es[..i], oracle, at), es, i, updated);
  }

  /** Drawing element `i` extends the frame's trace by that element's calls. */
  lemma FrameStep(t0: seq<ImGui.Command>, es: seq<ImGuiElement>, i: nat)
    requires i < |es|
    ensures t0 + FrameOpen + Concat(es[..i + 1], ElementCommands)
         == t0 + FrameOpen + Concat(es[..i], ElementCommands) + ElementCommands(es[i])
  {
    TakeSnoc(es, i);
    ConcatSnoc(es[..i], es[i], ElementCommands);
    AppendAssoc(t0 + FrameOpen, Concat(es[..i], ElementCommands), ElementCommands(es[i]));
  }

  /** Once every element is drawn, the frame is complete. */
  lemma FrameClose(t0: seq<ImGui.Command>, es: seq<ImGuiElement>, elements: seq<ImGuiElement>, oracle: (nat, ImGui.Command) -> ImGui.Reply)
    requires elements == RenderedAll(es[..|es|], oracle, |t0| + |FrameOpen|) + es[|es|..]
    ensures t0 + FrameOpen + Concat(es[..|es|], ElementCommands) + [ImGui.End] == t0 + FrameCommands(es)
    ensures elements == RenderedAll(es, oracle, |t0| + |FrameOpen|)
  {
    assert es[..|es|] == es;
    assert es[|es|..] == [];
  }

  class PreviewWindow {
    var elements: seq<ImGuiElement>

    constructor ()
      ensures elements == []
    {
      elements := [];
    }

    /** UpdateElements: a snapshot of the given list, same elements in the same order. */
    method UpdateElements(list: seq<ImGuiElement>)
      modifies this
      ensures elements == list
    {
      elements := list;
    }

    /** UpdateButtons: the same, for a list of buttons. */
    method UpdateButtons(buttons: seq<ImGuiElement>)
      requires forall i :: 0 <= i < |buttons| ==> buttons[i].ImGuiButton?
      modifies this
      ensures elements == buttons
    {
      elements := buttons;
    }

    method RenderElements(ui: ImGui.Context)
      modifies this, ui
      ensures ui.trace == old(ui.trace) + FrameCommands(old(elements))
      ensures elements == RenderedAll(old(elements), ui.oracle, |old(ui.trace)| + |FrameOpen|)
    {
      ghost var es, t0 := elements, ui.trace;
      var _ := ui.Call(ImGui.Begin("ImGui Preview", WindowFlags));
      var _ := ui.Call(ImGui.SetWindowPos(Vec2(10.0, 10.0)));
      var _ := ui.Call(ImGui.SetWindowSize(Vec2(780.0, 580.0)));
      var i := 0;
      while i < |elements|
        invariant 0 <= i <= |es|
        invariant ui.trace == t0 + FrameOpen + Concat(es[..i], ElementCommands)
        invariant elements == RenderedAll(es[..i], ui.oracle, |t0| + |FrameOpen|) + es[i..]
      {
        ghost var at := Start(es, ElementCommands, |t0| + |FrameOpen|, i);
        assert |ui.trace| == at;
        var element := elements[i];
        assert element == es[i];
        var updated := RenderElement(ui, element);
        FrameStep(t0, es, i);
        RenderedStep(elements, es, i, ui.oracle, |t0| + |FrameOpen|, updated);
        elements := elements[i := updated];
        i := i + 1;
      }
      var _ := ui.Call(ImGui.End);
      FrameClose(t0, es, elements, ui.oracle);
    }

    /** One element of the frame: its cursor, then the widget its kind calls for. */
    method RenderElement(ui: ImGui.Context, element: ImGuiElement) returns (updated: ImGuiElement)
      modifies ui
      ensures ui.trace == old(ui.trace) + ElementCommands(element)
      ensures updated == Rendered(element, ui.oracle, |old(ui.trace)|)
    {
      ghost var t0 := ui.trace;
      var _ := ui.Call(ImGui.SetCursorPos(Vec2(element.position.x + 10.0, element.position.y + 30.0)));
      ghost var t1 := ui.trace;
      assert |t1| == |t0| + 1;
      updated := element;
      match element.ElementType() {
        case Button => Widgets.RenderButton(ui, element, element.size);
        case Text => RenderText(ui, element);
        case InputText => updated := RenderInputText(ui, element);
        case Checkbox => updated := RenderCheckbox(ui, element);
        case Slider => updated := RenderSlider(ui, element);
        case ComboBox => updated := RenderComboBox(ui, element);
      }
      assert ui.trace == t1 + KindCommands(element);
      AppendAssoc(t0, [ImGui.SetCursorPos(Cursor(element))], KindCommands(element));
    }

    method RenderText(ui: ImGui.Context, text: ImGuiElement)
      requires text.ImGuiText?
      modifies ui
      ensures ui.trace == old(ui.trace) + TextCommands(text)
    {
      ghost var t0 := ui.trace;
      if text.isBold {
        var _ := ui.Call(ImGui.PushFont);
      }
      RenderColoredText(ui, text);
      if text.isBold {
        var _ := ui.Call(ImGui.PopFont);
      }
    }

    method RenderInputText(ui: ImGui.Context, inputText: ImGuiElement) returns (updated: ImGuiElement)
      requires inputText.ImGuiInputText?
      modifies ui
      ensures ui.trace == old(ui.trace) + [WidgetCall(inputText)]
      ensures updated == WriteBack(inputText, ui.oracle(|old(ui.trace)|, WidgetCall(inputText)))
    {
      var value := inputText.value.GetOr("");
      updated := inputText;
      var r;
      if inputText.isPassword {
        r := ui.Call(ImGui.InputText(inputText.caption, value, inputText.maxLength, true));
      } else {
        r := ui.Call(ImGui.InputText(inputText.caption, value, inputText.maxLength, false));
      }
      if r.changed {
        updated := updated.(value := Some(r.text));
      }
    }

    method RenderCheckbox(ui: ImGui.Context, checkbox: ImGuiElement) returns (updated: ImGuiElement)
      requires checkbox.ImGuiCheckbox?
      modifies ui
      ensures ui.trace == old(ui.trace) + [WidgetCall(checkbox)]
      ensures updated == WriteBack(checkbox, ui.oracle(|old(ui.trace)|, WidgetCall(checkbox)))
    {
      updated := checkbox;
      var r := ui.Call(ImGui.Checkbox(checkbox.caption, checkbox.isChecked));
      if r.changed {
        updated := updated.(isChecked := r.checked);
      }
    }

    method RenderSlider(ui: ImGui.Context, slider: ImGuiElement) returns (updated: ImGuiElement)
      requires slider.ImGuiSlider?
      modifies ui
      ensures ui.trace == old(ui.trace) + [WidgetCall(slider)]
      ensures updated == WriteBack(slider, ui.oracle(|old(ui.trace)|, WidgetCall(slider)))
    {
      updated := slider;
      var r := ui.Call(ImGui.SliderFloat(slider.caption, slider.sliderValue, slider.minValue, slider.maxValue));
      if r.changed {
        updated := updated.(sliderValue := r.value);
      }
    }

    /** A combo box is drawn only when its item list is non-null and non-empty. */
    method RenderComboBox(ui: ImGui.Context, comboBox: ImGuiElement) returns (updated: ImGuiElement)
      requires comboBox.ImGuiComboBox?
      modifies ui
      ensures ui.trace == old(ui.trace) + KindCommands(comboBox)
      ensures updated == if Editable(comboBox) then WriteBack(comboBox, ui.oracle(|old(ui.trace)|, WidgetCall(comboBox))) else comboBox
    {
      updated := comboBox;
      if comboBox.items.Some? && |comboBox.items.value| > 0 {
        var items := comboBox.items.value;
        var r := ui.Call(ImGui.Combo(comboBox.caption, comboBox.selectedIndex, items, |items|));
        if r.changed {
          updated := updated.(selectedIndex := r.index);
        }
      }
    }
  }

  // ---------------------------------------------------------------------
  // What a frame does

  /** Element `k` of the frame after the window set-up: drawn at its shifted position, after every earlier element. */
  lemma ElementsInOrder(es: seq<ImGuiElement>, k: nat)
    requires k < |es|
    ensures FrameCommands(es)
         == FrameOpen + (Concat(es[..k], ElementCommands) + ElementCommands(es[k]) + Concat(es[k + 1..], ElementCommands)) + [ImGui.End]
    ensures ElementCommands(es[k])[0] == ImGui.SetCursorPos(Vec2(es[k].position.x + 10.0, es[k].position.y + 30.0))
  {
    ConcatSplit(es, ElementCommands, k);
  }

  /** After a frame, element `k` is the element as it was, rendered with the replies to its own calls. */
  lemma RenderedAllIndex(es: seq<ImGuiElement>, oracle: (nat, ImGui.Command) -> ImGui.Reply, at: nat, k: nat)
    requires k < |es|
    ensures RenderedAll(es, oracle, at)[k] == Rendered(es[k], oracle, Start(es, ElementCommands, at, k))
  {
    PositionedIndex(es, ElementCommands, RenderedWith(oracle), at, k);
  }

  /** Text pushes the bold font exactly when it is bold, and pops what it pushes. */
  lemma TextFont(t: ImGuiElement, s: ImGui.Stack)
    requires t.ImGuiText?
    ensures ImGui.PushFont in TextCommands(t) <==> t.isBold
    ensures ImGui.PopFont in TextCommands(t) <==> t.isBold
    ensures ImGui.NetDelta(TextCommands(t), s) == 0
  {
    var pre: seq<ImGui.Command> := if t.isBold then [ImGui.PushFont] else [];
    var post: seq<ImGui.Command> := if t.isBold then [ImGui.PopFont] else [];
    assert ColoredText(t)[0].PushStyleColor? && ColoredText(t)[1].Text? && ColoredText(t)[2].PopStyleColor?;
    ImGui.NetDeltaAppend(pre + ColoredText(t), post, s);
    ImGui.NetDeltaAppend(pre, ColoredText(t), s);
    ColoredTextBalance(t, s);
    if t.isBold {
      ImGui.NetDeltaSingleton(ImGui.PushFont, s);
      ImGui.NetDeltaSingleton(ImGui.PopFont, s);
    }
  }

  predicate InvisibleButton(e: ImGuiElement) {
    e.ImGuiButton? && e.style == Invisible
  }

  /** How many of the elements are Invisible buttons. */
  function InvisibleCount(es: seq<ImGuiElement>): nat {
    if es == [] then 0
    else InvisibleCount(es[..|es| - 1]) + (if InvisibleButton(es[|es| - 1]) then 1 else 0)
  }

  /** One element's calls: balanced, except the extra style-var pop of an Invisible button. */
  lemma ElementBalance(e: ImGuiElement, s: ImGui.Stack)
    ensures ImGui.NetDelta(ElementCommands(e), s) == if s == ImGui.VarStack && InvisibleButton(e) then -1 else 0
  {
    var cursor := ImGui.SetCursorPos(Cursor(e));
    ImGui.NetDeltaAppend([cursor], KindCommands(e), s);
    ImGui.NetDeltaSingleton(cursor, s);
    match e.ElementType() {
      case Button => ButtonBalance(e, e.size, s);
      case Text => TextFont(e, s);
      case _ =>
        if Editable(e) {
          ImGui.NetDeltaSingleton(WidgetCall(e), s);
        }
    }
  }

  lemma {:induction false} ElementsBalance(es: seq<ImGuiElement>, s: ImGui.Stack)
    ensures ImGui.NetDelta(Concat(es, ElementCommands), s) == if s == ImGui.VarStack then -(InvisibleCount(es) as int) else 0
    decreases |es|
  {
    if es != [] {
      var n := |es| - 1;
      ElementsBalance(es[..n], s);
      ElementBalance(es[n], s);
      ImGui.NetDeltaAppend(Concat(es[..n], ElementCommands), ElementCommands(es[n]), s);
    }
  }

  /**
   * A frame leaves the colour and font stacks as it found them; the
   * style-var stack ends one lower for every Invisible button.
   */
  lemma FrameBalance(es: seq<ImGuiElement>, s: ImGui.Stack)
    ensures ImGui.NetDelta(FrameCommands(es), s) == if s == ImGui.VarStack then -(InvisibleCount(es) as int) else 0
  {
    ImGui.NetDeltaAppend(FrameOpen + Concat(es, ElementCommands), [ImGui.End], s);
    ImGui.NetDeltaAppend(FrameOpen, Concat(es, ElementCommands), s);
    ImGui.NetDeltaNeutral(FrameOpen, s);
    ImGui.NetDeltaSingleton(ImGui.End, s);
    ElementsBalance(es, s);
  }

  /** Elements without an editable widget (buttons, texts, combo boxes without items) come out of a frame as they went in. */
  lemma NotEditableUnchanged(e: ImGuiElement, oracle: (nat, ImGui.Command) -> ImGui.Reply, at: nat)
    requires !Editable(e)
    ensures Rendered(e, oracle, at) == e
    ensures e.ImGuiComboBox? ==> ElementCommands(e) == [ImGui.SetCursorPos(Cursor(e))]
  {
  }

  /** The element with its edited field cleared; write-back never changes anything else. */
  function Fixed(e: ImGuiElement): ImGuiElement
    requires Editable(e)
  {
    match e
    case ImGuiInputText(_, _, _, _, _, _, _) => e.(value := None)
    case ImGuiCheckbox(_, _, _, _) => e.(isChecked := false)
    case ImGuiSlider(_, _, _, _, _, _, _) => e.(sliderValue := 0.0)
    case ImGuiComboBox(_, _, _, _, _, _) => e.(selectedIndex := 0)
  }

  /**
   * Write-back changes the element only when the widget reports a change,
   * and then only the field the widget edits; the next frame's widget call
   * shows the value the user entered.
   */
  lemma WriteBackShown(e: ImGuiElement, r: ImGui.Reply)
    requires Editable(e)
    ensures !r.changed ==> WriteBack(e, r) == e
    ensures Editable(WriteBack(e, r)) && Fixed(WriteBack(e, r)) == Fixed(e)
    ensures r.changed && e.ImGuiInputText? ==> WidgetCall(WriteBack(e, r)).text == r.text
    ensures r.changed && e.ImGuiCheckbox? ==> WidgetCall(WriteBack(e, r)).checked == r.checked
    ensures r.changed && e.ImGuiSlider? ==> WidgetCall(WriteBack(e, r)).value == r.value
    ensures r.changed && e.ImGuiComboBox? ==> WidgetCall(WriteBack(e, r)).index == r.index
  {
  }

  /** A null input value is shown as the empty string, and is left null unless the user edits it. */
  lemma NullValueShownEmpty(e: ImGuiElement, r: ImGui.Reply)
    requires e.ImGuiInputText? && e.value.None?
    ensures WidgetCall(e).text == ""
    ensures WriteBack(e, r).value == if r.changed then Some(r.text) else None
  {
  }
}

# ImGUI-Maker, modelled in Dafny

ImGUI-Maker is a WPF designer for Dear ImGui layouts. The user places
buttons on a canvas, drags them and edits them in a property panel. From
the ordered element list the program builds two things:

- a C# fragment of ImGui.NET calls that re-creates the layout (the code
  generator);
- a live ImGui drawing of the layout. The designer window embeds one, and
  the stand-alone preview window draws another.

This project models those parts:

| file | module | models |
|---|---|---|
| `elements.dfy` | `Elements` | the element classes and the `ImGuiElementType` and `ButtonStyle` enums. It is one datatype with six constructors; the property setters become plain field updates. |
| `strings.dfy` | `Strings` | `int.ToString()`, the label-to-token expression `Replace(" ", "").ToLower()`, and UTF-8 encoding. |
| `seqs.dfy` | `Seqs` | sequence helpers: concatenation over a list, a first-match search and the position of each element's calls in a trace. |
| `codegen.dfy` | `CodeGen` | `GenerateCode` and the `Generate*Code` helpers. Each line is a `Stmt` value, and `Render` gives its exact text. |
| `imgui.dfy` | `ImGui` | ImGui as a trace of calls, with an oracle that answers widget calls, and the depths of the style-colour, style-var and font stacks. |
| `widgets.dfy` | `Widgets` | the button and text call sequences that both renderers share. |
| `preview.dfy` | `Preview` | `ImGuiPreviewWindow`: the frame, each element's calls, and the write-back of a changed widget value. |
| `designer.dfy` | `Designer` | `MainWindow`: hit testing, dragging, selection, the property panel and its change events, adding and clearing buttons, the colour setters, and the scaled embedded preview with its input-text buffer copy. |
| `lockstep.dfy` | `LockStep` | the generated code set against the preview window's calls, element kind by element kind. |

Several behaviours are kept exactly as the program has them:

- An Invisible button pushes no style var but pops one. In a frame, the
  style-var stack therefore drops by one for every Invisible button.
- The generated code pops the style var before the colours. The renderers
  pop the colours first.
- A colour channel in generated code is the formatted quotient `R/255f`
  followed by `f`.
- A null label gives the default binding token. An empty label gives the
  empty token.
- Mouse-down selects the first button, in list order, that contains the
  point.
- `PropertyChanged` assigns the text first and then parses the numbers one
  pair at a time. A later parse failure leaves the earlier assignments in
  place and skips the code regeneration.
- `IsNumeric("")` holds.
- `UpdatePropertyFields` sets the panel's boxes one at a time, and each
  box that changes raises its change event, which runs `PropertyChanged`
  with the other boxes as they stand. Selecting a button whose text
  differs from the text box therefore gives it the previous selection's
  position, size and style, as far as those boxes parse, and regenerates
  the code. During a drag, a change of the X text re-applies the Y box,
  which still shows the previous Y.
- The generated code ignores a text element's `IsBold`; the preview draws
  bold text in the bold font.

Float-to-text conversion, `ToString("F0")` and `float.Parse` depend on the
.NET culture, so they are parameters: `fmt`, `formatF0` and `parse`. The
same goes for the mouse position, the canvas and preview-container sizes,
the colour the dialog returns, and what each ImGui widget reports. An
operation that throws in the program becomes a result value:

- `AddButton` returns `false` when a parse fails.
- The designer frame returns `completed == false` and has no `End` call
  when an input-text buffer cannot be allocated.

## Model

| member | source | states |
|---|---|---|
| Elements.ElementType | ImGUI-Maker/MainWindow.xaml.cs:939 | each variant reports its own kind: Button, Text, InputText, Checkbox, Slider, ComboBox |
| Strings.NatToString | ImGUI-Maker/MainWindow.xaml.cs:501 | the decimal text of a count is non-empty and made of digits only |
| Strings.NatToStringValue | ImGUI-Maker/MainWindow.xaml.cs:501 | the decimal text of n reads back as n |
| Strings.IntToString | ImGUI-Maker/MainWindow.xaml.cs:826 | an integer's text is non-empty and starts with '-' exactly when the integer is negative |
| Strings.IntToStringValue | ImGUI-Maker/MainWindow.xaml.cs:826 | the text of a non-negative integer reads back as it; the text of a negative one is '-' followed by digits only, which read back as its magnitude |
| Strings.NegativeText | ImGUI-Maker/MainWindow.xaml.cs:826 | a negative integer's text has digits after the '-', and those digits read back as the magnitude |
| Strings.RemoveSpaces | ImGUI-Maker/MainWindow.xaml.cs:822 | `Replace(" ", "")` is no longer than its input and leaves no space |
| Strings.RemoveSpacesNoop | ImGUI-Maker/MainWindow.xaml.cs:822 | removing spaces from a text without spaces changes nothing |
| Strings.RemoveSpacesKeepsOthers | ImGUI-Maker/MainWindow.xaml.cs:822 | removing spaces keeps every other character as often as it occurred |
| Strings.RemoveSpacesAppend | ImGUI-Maker/MainWindow.xaml.cs:822 | removing spaces from a concatenation concatenates the results, so the kept characters stay in order |
| Strings.ToLower | ImGUI-Maker/MainWindow.xaml.cs:822 | `ToLower` keeps the length and lowers each character, leaving no upper-case ASCII letter |
| Strings.BindingTokenShape | ImGUI-Maker/MainWindow.xaml.cs:822 | a null label gives the default token; otherwise the token has no space and no capital, is no longer than the label, is empty for an empty label, and is the lowered label when the label has no space |
| Strings.Utf8Char | ImGUI-Maker/MainWindow.xaml.cs:587 | a character encodes to 1 to 4 bytes; exactly ASCII takes one byte, equal to its code; every byte of a longer encoding is at least 0x80 |
| Strings.Utf8Append | ImGUI-Maker/MainWindow.xaml.cs:587 | UTF-8 of a concatenation is the concatenation of the encodings, between 1 and 4 bytes per character |
| Strings.Utf8NoZero | ImGUI-Maker/MainWindow.xaml.cs:587 | a text without NUL encodes to bytes without 0 |
| CodeGen.Render | ImGUI-Maker/MainWindow.xaml.cs:720-851 | definition: the exact text of each generated line |
| CodeGen.CodeOf | ImGUI-Maker/MainWindow.xaml.cs:720-767 | definition: the header, then the placeholder for an empty list or each element's block in list order |
| CodeGen.ButtonCode | ImGUI-Maker/MainWindow.xaml.cs:768-812 | definition: GenerateButtonCode's statements |
| CodeGen.TextCode | ImGUI-Maker/MainWindow.xaml.cs:813-819 | definition: GenerateTextCode's statements |
| CodeGen.InputTextCode | ImGUI-Maker/MainWindow.xaml.cs:820-832 | definition: GenerateInputTextCode's statements |
| CodeGen.CheckboxCode | ImGUI-Maker/MainWindow.xaml.cs:833-837 | definition: GenerateCheckboxCode's statements |
| CodeGen.SliderCode | ImGUI-Maker/MainWindow.xaml.cs:838-842 | definition: GenerateSliderCode's statements |
| CodeGen.ComboBoxCode | ImGUI-Maker/MainWindow.xaml.cs:843-851 | definition: GenerateComboBoxCode's statements |
| CodeGen.Lines | ImGUI-Maker/MainWindow.xaml.cs:720-767 | the generated text has one line per appended statement, each that statement's rendering |
| CodeGen.RenderClass | ImGUI-Maker/MainWindow.xaml.cs:768-819 | whether a rendered line is a style-var or colour push or pop, read off its text, agrees with the statement it renders |
| CodeGen.LinesClassified | ImGUI-Maker/MainWindow.xaml.cs:720-767 | every line of the generated text is classified as its statement |
| CodeGen.GenerateCode | ImGUI-Maker/MainWindow.xaml.cs:720-767 | the builder loop appends exactly the header, then the placeholder for an empty list or each element's block in list order |
| CodeGen.EmptyDesignCode | ImGUI-Maker/MainWindow.xaml.cs:724-732 | an empty design yields exactly five lines: the two header comments, a blank, the two placeholder comments |
| CodeGen.BlocksInOrder | ImGUI-Maker/MainWindow.xaml.cs:735-763 | element k's block lies between the blocks of the elements before it and those after it, behind the header |
| CodeGen.BlockShape | ImGUI-Maker/MainWindow.xaml.cs:737-762 | a block opens with the kind-and-id comment (null id as "Unnamed"), then SetCursorPos at the raw position, and ends with a blank line |
| CodeGen.CodeOfAppend | ImGUI-Maker/MainWindow.xaml.cs:735-763 | appending an element to a non-empty design appends exactly its block |
| CodeGen.ButtonCodeCounts | ImGUI-Maker/MainWindow.xaml.cs:768-812 | a style-var push iff Small or Large, a style-var pop iff not Default, 3 colour pushes for Invisible and 2 otherwise, one colour pop, last, popping as many as were pushed |
| CodeGen.ButtonClassCount | ImGUI-Maker/MainWindow.xaml.cs:768-812 | the number of lines of each push/pop class in a button's code, with four other lines |
| CodeGen.ButtonCodeLayout | ImGUI-Maker/MainWindow.xaml.cs:768-812 | pushes, then the `if (ImGui.Button(...))` line, the braces and the click comment, then only pops, the style-var pop second to last |
| CodeGen.PopCodeCount | ImGUI-Maker/MainWindow.xaml.cs:799-811 | the pops: a style-var pop unless Default, and one colour pop |
| CodeGen.TextCodeBalanced | ImGUI-Maker/MainWindow.xaml.cs:813-819 | text code pushes and pops one colour and no style var, and does not depend on IsBold or FontSize |
| CodeGen.TextClassCount | ImGUI-Maker/MainWindow.xaml.cs:813-819 | text code is one colour push, one other line, one colour pop |
| CodeGen.BindingCode | ImGUI-Maker/MainWindow.xaml.cs:820-842 | input text, checkbox and slider emit a declaration and a call that bind the same variable, named by the label token plus "Value" |
| CodeGen.ComboCodeNeedsItems | ImGUI-Maker/MainWindow.xaml.cs:843-851 | combo code is three lines when Items is non-null and non-empty, and none otherwise: the items array, the selected index, and the Combo call over both with the item count |
| ImGui.ColorVec | ImGUI-Maker/MainWindow.xaml.cs:563-564 | every colour channel becomes a value in [0, 1], with alpha 1 |
| ImGui.Context.Call | ImGUI-Maker/ImGuiPreviewWindow.xaml.cs:89-230 | an ImGui call is appended to the trace, and a widget's reply is the oracle's answer at that position |
| ImGui.NetDeltaAppend | ImGUI-Maker/ImGuiPreviewWindow.xaml.cs:89-123 | the stack depth change of consecutive calls is the sum of their changes |
| Widgets.PaddingPush | ImGUI-Maker/ImGuiPreviewWindow.xaml.cs:126-129 | one frame-padding push for Small or Large, none otherwise |
| Widgets.ColorPushes | ImGUI-Maker/ImGuiPreviewWindow.xaml.cs:131-143 | three colour pushes for Invisible, two otherwise |
| Widgets.ButtonBalance | ImGUI-Maker/ImGuiPreviewWindow.xaml.cs:124-167 | a button leaves every stack balanced except the style-var stack of an Invisible button, which drops by one |
| Widgets.ButtonLayout | ImGUI-Maker/MainWindow.xaml.cs:548-575 | the button call sits between the pushes and the pops, the colour pop comes first and pops as many as were pushed, and the style-var pop comes last |
| Widgets.ColoredTextBalance | ImGUI-Maker/MainWindow.xaml.cs:577-582 | coloured text pushes and pops one colour and nothing else |
| Widgets.ButtonCommands | ImGUI-Maker/ImGuiPreviewWindow.xaml.cs:124-167 | definition: the calls RenderButton makes in either window |
| Widgets.RenderButton | ImGUI-Maker/ImGuiPreviewWindow.xaml.cs:124-167 | the calls a button issues, at the size it is given |
| Widgets.RenderColoredText | ImGUI-Maker/MainWindow.xaml.cs:577-582 | the calls coloured text issues |
| Preview.FrameCommands | ImGUI-Maker/ImGuiPreviewWindow.xaml.cs:89-123 | definition: the calls of one preview frame |
| Preview.WriteBack | ImGUI-Maker/ImGuiPreviewWindow.xaml.cs:185-230 | definition: the element after its widget answered |
| Preview.WidgetCall | ImGUI-Maker/ImGuiPreviewWindow.xaml.cs:185-230 | each editable kind issues its own widget call |
| Preview.PreviewWindow.constructor | ImGUI-Maker/ImGuiPreviewWindow.xaml.cs:25-33 | a new preview window holds no elements |
| Preview.PreviewWindow.UpdateElements | ImGUI-Maker/ImGuiPreviewWindow.xaml.cs:231-235 | the window's list becomes the given elements in the given order |
| Preview.PreviewWindow.UpdateButtons | ImGUI-Maker/ImGuiPreviewWindow.xaml.cs:236-240 | the window's list becomes the given buttons in the given order |
| Preview.PreviewWindow.RenderElements | ImGUI-Maker/ImGuiPreviewWindow.xaml.cs:89-123 | the frame is Begin, window position and size, each element's calls in list order, End; each element is replaced by its rendered version |
| Preview.PreviewWindow.RenderElement | ImGUI-Maker/ImGuiPreviewWindow.xaml.cs:95-119 | an element's calls are its cursor placement at (x+10, y+30) and then its kind's calls, and the element is rendered by its kind |
| Preview.PreviewWindow.RenderText | ImGUI-Maker/ImGuiPreviewWindow.xaml.cs:169-184 | coloured text, wrapped in the bold font when IsBold |
| Preview.PreviewWindow.RenderInputText | ImGUI-Maker/ImGuiPreviewWindow.xaml.cs:185-203 | one InputText call, and the value written back only when it changed |
| Preview.PreviewWindow.RenderCheckbox | ImGUI-Maker/ImGuiPreviewWindow.xaml.cs:204-211 | one Checkbox call, and IsChecked written back only when it changed |
| Preview.PreviewWindow.RenderSlider | ImGUI-Maker/ImGuiPreviewWindow.xaml.cs:212-219 | one SliderFloat call, and Value written back only when it changed |
| Preview.PreviewWindow.RenderComboBox | ImGUI-Maker/ImGuiPreviewWindow.xaml.cs:220-230 | a Combo call only for non-null, non-empty Items, and SelectedIndex written back only when it changed |
| Preview.ElementsInOrder | ImGUI-Maker/ImGuiPreviewWindow.xaml.cs:95-119 | element k's calls lie between those of the elements before and after it, and start with SetCursorPos(x+10, y+30) |
| Preview.RenderedAllIndex | ImGUI-Maker/ImGuiPreviewWindow.xaml.cs:95-119 | element k is rendered with the oracle's answer at the position of its own calls in the frame |
| Preview.TextFont | ImGUI-Maker/ImGuiPreviewWindow.xaml.cs:169-184 | text pushes a font iff IsBold, pops one iff IsBold, and leaves every stack balanced |
| Preview.ElementBalance | ImGUI-Maker/ImGuiPreviewWindow.xaml.cs:95-167 | an element leaves every stack balanced, except that an Invisible button drops the style-var stack by one |
| Preview.ElementsBalance | ImGUI-Maker/ImGuiPreviewWindow.xaml.cs:95-119 | a run of elements drops the style-var stack by its number of Invisible buttons and leaves the other stacks balanced |
| Preview.FrameBalance | ImGUI-Maker/ImGuiPreviewWindow.xaml.cs:89-123 | the whole frame drops the style-var stack by the number of Invisible buttons and leaves the other stacks balanced |
| Preview.NotEditableUnchanged | ImGUI-Maker/ImGuiPreviewWindow.xaml.cs:220-230 | buttons, texts and combos without items are never changed by rendering, and such a combo issues only its cursor placement |
| Preview.WriteBackShown | ImGUI-Maker/ImGuiPreviewWindow.xaml.cs:185-230 | with no change the element stays as it was; with a change, exactly the widget's value field takes the reported value, which the next frame shows |
| Preview.NullValueShownEmpty | ImGUI-Maker/ImGuiPreviewWindow.xaml.cs:187 | a null input value is shown as the empty string, and stays null unless the user edits it |
| Preview.RenderedStep | ImGUI-Maker/ImGuiPreviewWindow.xaml.cs:95-119 | rendering element i extends the prefix of rendered elements by one, leaving the rest as it was |
| Designer.IsPointInButton | ImGUI-Maker/MainWindow.xaml.cs:161-167 | definition: the closed rectangle test |
| Designer.IsNumeric | ImGUI-Maker/MainWindow.xaml.cs:860-863 | definition: the digit test, with "" and one '-' or '.' accepted |
| Designer.FirstHitSelects | ImGUI-Maker/MainWindow.xaml.cs:121-129 | the first hit is a button containing the point, and no earlier button contains it |
| Designer.CornersHit | ImGUI-Maker/MainWindow.xaml.cs:161-167 | the four corners of a button are hits, because the rectangle is closed |
| Designer.DragClamp | ImGUI-Maker/MainWindow.xaml.cs:143-144 | the dragged coordinate is at least 0; at most canvas − size when the button fits; 0 when it does not; p − offset when that is in range |
| Designer.DragStaysOnCanvas | ImGUI-Maker/MainWindow.xaml.cs:138-146 | a button that fits the canvas is dragged to a position where it lies wholly on the canvas |
| Designer.IsNumericCases | ImGUI-Maker/MainWindow.xaml.cs:860-863 | "" is numeric; one character is numeric iff it is a digit, '-' or '.'; longer text iff it is all digits |
| Designer.NewButton | ImGUI-Maker/MainWindow.xaml.cs:242-256 | a button is built iff all four numbers parse, and it has the panel's text, style and colours and no id |
| Designer.ApplyPanel | ImGUI-Maker/MainWindow.xaml.cs:615-636 | the text is always taken; the position is taken iff X and Y parse; the size and style iff all four numbers parse, and only then is the code regenerated; id and colours are kept |
| Designer.ApplyPanelIdempotent | ImGUI-Maker/MainWindow.xaml.cs:615-636 | applying the same panel twice gives what applying it once gives |
| Designer.PanelRoundTrip | ImGUI-Maker/MainWindow.xaml.cs:191-204 | filling the panel from a button and applying it back changes nothing, when the four numbers survive formatting and parsing |
| Designer.NewButtonAgrees | ImGUI-Maker/MainWindow.xaml.cs:240-263 | a button just added agrees with the panel that built it |
| Designer.Shown | ImGUI-Maker/MainWindow.xaml.cs:105-110 | the panel takes the new value and only the selected button can change, staying a button; by definition an unchanged value raises no event, and a changed one applies the whole panel to the button, regenerating the code iff every number parses |
| Designer.SetBoxes | ImGUI-Maker/MainWindow.xaml.cs:195-200 | only the selected button can change, staying a button; by definition the boxes are set in order, each from the button as the events before it left it |
| Designer.Refresh | ImGUI-Maker/MainWindow.xaml.cs:191-204 | only the selected button can change, staying a button; by definition the six boxes, then the two swatches |
| Designer.SetBoxesInSync | ImGUI-Maker/MainWindow.xaml.cs:195-200 | boxes that already show the button's values raise no event and change nothing |
| Designer.RefreshInSync | ImGUI-Maker/MainWindow.xaml.cs:191-204 | refreshing a panel that already shows the selected button changes nothing |
| Designer.SetBoxesKeepsColors | ImGUI-Maker/MainWindow.xaml.cs:615-630 | the events never change the button's id or colours |
| Designer.SetBoxesKeepsText | ImGUI-Maker/MainWindow.xaml.cs:195 | once the text box is set, panel and button both show the button's text |
| Designer.SetBoxesStyle | ImGUI-Maker/MainWindow.xaml.cs:200 | once the style box is set, panel and button have the same style |
| Designer.RefreshShowsButton | ImGUI-Maker/MainWindow.xaml.cs:191-204 | after a refresh the panel shows the button's text, style and colours, and the button keeps its id, text and colours |
| Designer.SelectTakesPanelGeometry | ImGUI-Maker/MainWindow.xaml.cs:177-204 | selecting a button whose text differs from the text box gives it the position, size and style the panel shows, keeps them, regenerates the code, and leaves the panel showing the button |
| Designer.DragKeepsShownY | ImGUI-Maker/MainWindow.xaml.cs:133-151 | a drag step that changes the X text puts the button at the parsed X text and the parsed previous Y text, and regenerates the code |
| Designer.DragRoundsBoth | ImGUI-Maker/MainWindow.xaml.cs:133-151 | a drag step that keeps the X text but changes the Y text puts the button at the parsed texts of both, and regenerates the code |
| Designer.Truncate | ImGUI-Maker/MainWindow.xaml.cs:481-482 | the `(int)` cast truncates toward zero |
| Designer.PreviewScale | ImGUI-Maker/MainWindow.xaml.cs:479-488 | the scale fits the 800 x 400 canvas into the truncated container on both axes, and fills it on one |
| Designer.WindowSize | ImGUI-Maker/MainWindow.xaml.cs:491-499 | the preview window takes the truncated container size on each positive axis, 400 wide or 300 high where the truncated size is not positive, and at least 1 on each axis |
| Designer.InputBuffer | ImGUI-Maker/MainWindow.xaml.cs:585-588 | the buffer is MaxLength bytes long and its last byte is 0 |
| Designer.CString | ImGUI-Maker/MainWindow.xaml.cs:591-593 | the text ImGui reads from a buffer is its prefix up to the first NUL, with no NUL inside it, and that NUL follows the text unless the text fills the buffer |
| Designer.InputBufferHolds | ImGUI-Maker/MainWindow.xaml.cs:585-588 | the buffer holds exactly min(byte count, MaxLength − 1) bytes from the start of the value and zeros in every byte after them; ImGui reads back that prefix, so a value shorter than MaxLength is read back whole |
| Designer.InputValueShown | ImGUI-Maker/MainWindow.xaml.cs:585-593 | a value without NUL whose UTF-8 fits in MaxLength − 1 bytes is shown unchanged |
| Designer.CopyInputBuffer | ImGUI-Maker/MainWindow.xaml.cs:586-588 | the copy fails iff MaxLength < 1; otherwise a new array holds the bounded copy followed by zeros |
| Designer.DesignerFrame | ImGUI-Maker/MainWindow.xaml.cs:489-542 | definition: the calls of one designer frame, stopping at the first failing buffer copy |
| Designer.DesignerStep | ImGUI-Maker/MainWindow.xaml.cs:507-534 | each loop pass appends the next element's calls to the frame |
| Designer.CompletesStep | ImGUI-Maker/MainWindow.xaml.cs:507-534 | the frame goes on past an element whose buffer can be allocated |
| Designer.DesignerFrameStops | ImGUI-Maker/MainWindow.xaml.cs:452-478 | at the first input text with MaxLength < 1, the frame stops after that element's cursor placement, with no End |
| Designer.DesignerFrameDone | ImGUI-Maker/MainWindow.xaml.cs:489-542 | a frame with no failing element ends with End after every element's calls |
| Designer.EmptyDesignerFrame | ImGUI-Maker/MainWindow.xaml.cs:489-542 | an empty design draws exactly: Begin, position (0, 0), size, "Elements count: 0", the no-elements message, End |
| Designer.DesignerFrameEnds | ImGUI-Maker/MainWindow.xaml.cs:489-542 | every frame opens with the four head calls; it ends with End iff no element fails, and otherwise with the cursor placement of the first failing element |
| Designer.DesignerElementsInOrder | ImGUI-Maker/MainWindow.xaml.cs:507-534 | element k's calls lie between those of the elements before and after it, and start with SetCursorPos(x·scale+10, y·scale+30) |
| Designer.DesignerElementBalance | ImGUI-Maker/MainWindow.xaml.cs:509-612 | an element leaves every stack balanced, except that an Invisible button drops the style-var stack by one |
| Designer.DesignerElementsBalance | ImGUI-Maker/MainWindow.xaml.cs:507-534 | a run of elements drops the style-var stack by its number of Invisible buttons |
| Designer.DesignerFrameBalance | ImGUI-Maker/MainWindow.xaml.cs:489-542 | a completed frame drops the style-var stack by the number of Invisible buttons and leaves the other stacks balanced |
| Designer.MainWindow.constructor | ImGUI-Maker/MainWindow.xaml.cs:97-116 | the window starts with no elements, no selection and no drag; the panel and the code box hold the layout's initial texts |
| Designer.MainWindow.MouseDown | ImGUI-Maker/MainWindow.xaml.cs:117-132 | the first button containing the point is selected, the panel is refreshed with its change events, and dragging starts with offset = point − the refreshed position; with no hit the selection is cleared, the panel reset, and the elements and code are unchanged |
| Designer.MainWindow.MouseMove | ImGUI-Maker/MainWindow.xaml.cs:133-151 | while dragging a selection, the selected button moves to the clamped drag position and the panel is refreshed with its change events; otherwise nothing changes |
| Designer.MainWindow.MouseUp | ImGUI-Maker/MainWindow.xaml.cs:152-160 | the drag ends, and the code is regenerated iff a drag was in progress |
| Designer.MainWindow.StartDragging | ImGUI-Maker/MainWindow.xaml.cs:168-176 | dragging starts at the point, with offset = point − position |
| Designer.MainWindow.SelectButton | ImGUI-Maker/MainWindow.xaml.cs:177-183 | the button is selected and the panel refreshed from it, with its change events |
| Designer.MainWindow.DeselectButton | ImGUI-Maker/MainWindow.xaml.cs:184-190 | nothing is selected and the panel shows the defaults |
| Designer.MainWindow.PanelChanged | ImGUI-Maker/MainWindow.xaml.cs:105-110 | setting a box runs PropertyChanged iff its value changes |
| Designer.MainWindow.UpdatePropertyFields | ImGUI-Maker/MainWindow.xaml.cs:191-204 | with a selection, the boxes are set one by one with their change events, as Refresh says; with none, nothing changes |
| Designer.MainWindow.ClearPropertyFields | ImGUI-Maker/MainWindow.xaml.cs:205-215 | the panel shows "Button", 100, 100, 120, 30, Default, green and white; with no selection its change events do nothing |
| Designer.MainWindow.AddButton | ImGUI-Maker/MainWindow.xaml.cs:240-263 | when the panel parses, the new button is appended and selected (the panel refreshed with its change events) and the code regenerated; otherwise nothing changes |
| Designer.MainWindow.AppendAndSelect | ImGUI-Maker/MainWindow.xaml.cs:258-260 | the new button is appended and selected, and the panel refreshed from it |
| Designer.MainWindow.ClearAll | ImGUI-Maker/MainWindow.xaml.cs:264-271 | the list is emptied, nothing is selected, the panel is reset and the code is the empty-design code |
| Designer.MainWindow.PropertyChanged | ImGUI-Maker/MainWindow.xaml.cs:613-638 | only the selected button changes, as ApplyPanel says, and the code is regenerated iff every number parsed |
| Designer.MainWindow.SetBackgroundColor | ImGUI-Maker/MainWindow.xaml.cs:639-654 | a picked colour goes to the panel, and to the selected button with the code regenerated; a cancelled dialog changes nothing |
| Designer.MainWindow.SetTextColor | ImGUI-Maker/MainWindow.xaml.cs:655-670 | a picked colour goes to the panel, and to the selected button with the code regenerated; a cancelled dialog changes nothing |
| Designer.MainWindow.RenderImGuiElements | ImGUI-Maker/MainWindow.xaml.cs:489-542 | the loop issues exactly the designer frame, and completes iff no element's buffer copy fails |
| Designer.MainWindow.OpenPreviewWindow | ImGUI-Maker/MainWindow.xaml.cs:491-501 | every frame opens the window at (0, 0) with the container size, 400 x 300 in place of a non-positive axis, and shows the element count |
| Designer.MainWindow.RenderElement | ImGUI-Maker/MainWindow.xaml.cs:509-533 | an element's calls are its scaled cursor placement and its kind's calls; it is drawn iff its buffer copy does not fail |
| Designer.MainWindow.RenderButton | ImGUI-Maker/MainWindow.xaml.cs:543-576 | the button's calls, drawn at its size times the preview scale |
| Designer.MainWindow.RenderInputText | ImGUI-Maker/MainWindow.xaml.cs:583-594 | one InputText call over the buffer built from the UTF-8 of the value (null as "") and MaxLength, with the caption and password flag, iff MaxLength ≥ 1, and no call otherwise |
| Designer.MainWindow.RenderCheckbox | ImGUI-Maker/MainWindow.xaml.cs:595-599 | one Checkbox call on a copy of IsChecked, so the element is never changed |
| Designer.MainWindow.RenderSlider | ImGUI-Maker/MainWindow.xaml.cs:600-604 | one SliderFloat call on a copy of Value, so the element is never changed |
| Designer.MainWindow.RenderComboBox | ImGUI-Maker/MainWindow.xaml.cs:605-612 | a Combo call only for non-null, non-empty Items |
| LockStep.ButtonCountsLockStep | ImGUI-Maker/MainWindow.xaml.cs:768-812 | a button's code pushes a style var iff the preview does and as many colours, pops a style var iff the preview does, and changes the style-var depth by the same amount |
| LockStep.ButtonPushesLockStep | ImGUI-Maker/ImGuiPreviewWindow.xaml.cs:124-153 | a button's code pushes the same padding and the same colours into the same slots, in the same order, as the preview, then draws the same text at the same size |
| LockStep.ButtonPopsLockStep | ImGUI-Maker/MainWindow.xaml.cs:799-811 | both pop as many colours as were pushed; for every style but Default both pop a style var, the code before the colours and the preview after them |
| LockStep.TextLockStep | ImGUI-Maker/MainWindow.xaml.cs:813-819 | text code and preview push the same colour, show the same text and pop one colour; IsBold adds the bold font to the preview and leaves the code as it was |
| LockStep.WidgetLockStep | ImGUI-Maker/MainWindow.xaml.cs:820-842 | the code of an input text, checkbox or slider declares the value the preview shows and calls the same widget with the same label and bounds, bound to that variable |
| LockStep.ComboLockStep | ImGUI-Maker/MainWindow.xaml.cs:843-851 | combo code is non-empty iff the preview draws the combo, and then declares the same items and index and calls Combo with the same label and item count |
| LockStep.StyleVarLockStep | ImGUI-Maker/MainWindow.xaml.cs:735-812 | element by element, code and preview change the style-var depth by the same amount: −1 for an Invisible button, 0 otherwise |

## Left out

- Element aliasing: in the program, the preview window's list and the
  designer's collection share element objects, so a preview write-back is
  seen by the designer. Here elements are values; each window's write-back
  replaces the entry in its own list.
- Floating point: positions, sizes and the scale are `real`. The `(float)`
  casts, rounding and NaN are not modelled. `ToString()`,
  `ToString("F0")` and `float.Parse` are parameters.
- Integer width: the `(uint)` cast of MaxLength and the `(int)` cast of a
  container size that does not fit in 32 bits are not modelled.
- Change events: a box's change event is taken to be raised only when its
  value changes, and to run before the setter returns.
- The initial texts of the property panel and of the code box come from
  the XAML, which is not part of this model. They are constructor
  parameters.
- The colour dialog is a foreign modal window. Its result is a parameter,
  with `None` for a cancelled dialog.
- Designer.MainWindow.AddButton: in the program, a parse failure throws an
  unhandled `FormatException`. Here the operation returns `false` and
  changes nothing.
- Designer.MainWindow.RenderImGuiElements: in the program, the failed
  buffer allocation throws, and `PreviewTimer_Tick` swallows the exception
  along with the rest of the frame (`ImGui.End` and the drawing). Here the
  frame stops with `completed == false`. The tick itself is not modelled.
- Enum casts: a `ButtonStyle` is always one of the four styles. An
  out-of-range `SelectedIndex` cast and the index −1 are not modelled.
- Characters: `char.IsDigit` is taken as ASCII digits, and `ToLower` as
  ASCII lower-casing. Other Unicode digits and letters are not modelled.
  A string is a sequence of Unicode scalar values, so a lone surrogate,
  which `Encoding.UTF8.GetBytes` would write as EF BF BD, cannot occur.
- Null strings: a button's and a text element's `Text` are strings, while
  the source's backing fields start out null (MainWindow.xaml.cs:951,
  1012); the designer creates only buttons, and sets their text from
  the text box (MainWindow.xaml.cs:242-252). A combo box's
  item list may be null, but no single item can be null (the generator
  would write it as "").
- Generated text: the code is a sequence of `Stmt` values. `Render`
  gives the exact text of each line; the newline characters of
  `AppendLine` and the text box are not modelled.
- Plumbing: WPF visuals, the selection highlight, status messages, the
  Win32 window embedding, Veldrid/SDL set-up, timers, `OnClosed`, and the
  `MessageBox` a preview button shows on a click.

/*
 * The designer's element model: the six kinds of ImGui element a layout is
 * made of, the kind tag every consumer dispatches on, and the button styles.
 *
 * In the application each element is an object whose property setters
 * assign one field and raise a change notification. Here an element is a
 * value and a setter is a field update `e.(position := p)`; the collection
 * that holds the elements is a sequence owned by the window that edits it.
 */
module Elements {

  datatype Option<T> = None | Some(value: T) {
    /** The value, or `default` for None (C#'s `x ?? default`). */
    function GetOr(default: T): T {
      match this
      case Some(v) => v
      case None => default
    }
  }

  /** An 8-bit channel or a UTF-8 code unit. */
  newtype byte = x: int | 0 <= x < 256

  /**
   * A System.Numerics.Vector2. Single-precision floats are modelled as
   * reals: rounding is not part of this model.
   */
  datatype Vec2 = Vec2(x: real, y: real)

  /** An opaque RGB colour (System.Windows.Media.Color with alpha 255). */
  datatype Color = Color(r: byte, g: byte, b: byte)

  const Green := Color(0, 128, 0)
  const White := Color(255, 255, 255)

  datatype ImGuiElementType = Button | Text | InputText | Checkbox | Slider | ComboBox

  datatype ButtonStyle = Default | Small | Large | Invisible

  /**
   * One designable element. Every kind carries `id` (null in the
   * application unless set) and `position`. A string property that the
   * application may leave null is an Option. The slider's `Value` is
   * named `sliderValue` here because the input field's `Value` is a
   * (nullable) string, and every `Label` is named `caption` because
   * `label` is a Dafny keyword.
   */
  datatype ImGuiElement =
    | ImGuiButton(id: Option<string>, position: Vec2,
                  text: string, size: Vec2, style: ButtonStyle,
                  backgroundColor: Color, textColor: Color)
    | ImGuiText(id: Option<string>, position: Vec2,
                text: string, textColor: Color, fontSize: real, isBold: bool)
    | ImGuiInputText(id: Option<string>, position: Vec2,
                     caption: Option<string>, value: Option<string>, size: Vec2,
                     maxLength: int, isPassword: bool)
    | ImGuiCheckbox(id: Option<string>, position: Vec2,
                    caption: Option<string>, isChecked: bool)
    | ImGuiSlider(id: Option<string>, position: Vec2,
                  caption: Option<string>, sliderValue: real, minValue: real, maxValue: real,
                  size: Vec2)
    | ImGuiComboBox(id: Option<string>, position: Vec2,
                    caption: Option<string>, items: Option<seq<string>>, selectedIndex: int,
                    size: Vec2)
  {
    /** The kind tag each variant reports. */
    function ElementType(): (k: ImGuiElementType)
      ensures k == Button <==> ImGuiButton?
      ensures k == Text <==> ImGuiText?
      ensures k == InputText <==> ImGuiInputText?
      ensures k == Checkbox <==> ImGuiCheckbox?
      ensures k == Slider <==> ImGuiSlider?
      ensures k == ComboBox <==> ImGuiComboBox?
    {
      match this
      case ImGuiButton(_, _, _, _, _, _, _) => Button
      case ImGuiText(_, _, _, _, _, _) => Text
      case ImGuiInputText(_, _, _, _, _, _, _) => InputText
      case ImGuiCheckbox(_, _, _, _) => Checkbox
      case ImGuiSlider(_, _, _, _, _, _, _) => Slider
      case ImGuiComboBox(_, _, _, _, _, _) => ComboBox
    }

    /** True when a combo box has a non-null, non-empty item list. */
    predicate HasItems()
      requires ImGuiComboBox?
    {
      items.Some? && |items.value| > 0
    }
  }
}

/*
 * ImGui as the two renderers use it. Every call a renderer makes is a
 * `Command` appended to the frame's trace. A widget call also answers with
 * a `Reply`: whether the user changed the value this frame, and the new
 * value. What a widget answers is decided outside the program, so a
 * context carries an oracle, a fixed function from the call's position in
 * the trace and the call itself to the reply.
 */
module ImGui {
  import opened Elements

  datatype WindowFlag = NoMove | NoResize | NoCollapse | NoTitleBar

  /** The colour slots the renderers push (ImGuiCol). */
  datatype StyleColor = ColButton | ColButtonHovered | ColButtonActive | ColText

  /** A System.Numerics.Vector4 colour, channels in [0, 1]. */
  datatype Vec4 = Vec4(x: real, y: real, z: real, w: real)

  const Transparent := Vec4(0.0, 0.0, 0.0, 0.0)

  /** `new Vector4(c.R/255f, c.G/255f, c.B/255f, 1.0f)`. */
  function ColorVec(c: Color): (v: Vec4)
    ensures 0.0 <= v.x <= 1.0 && 0.0 <= v.y <= 1.0 && 0.0 <= v.z <= 1.0 && v.w == 1.0
  {
    Vec4(c.r as real / 255.0, c.g as real / 255.0, c.b as real / 255.0, 1.0)
  }

  /** One ImGui call, with the arguments it receives. */
  datatype Command =
    | Begin(title: string, flags: set<WindowFlag>)
    | End
    | SetWindowPos(pos: Vec2)
    | SetWindowSize(size: Vec2)
    | SetCursorPos(pos: Vec2)
    | PushFramePadding(padding: Vec2)
    | PopStyleVar
    | PushStyleColor(slot: StyleColor, color: Vec4)
    | PopStyleColor(count: nat)
    | PushFont
    | PopFont
    | Button(text: string, size: Vec2)
    | Text(text: string)
    | InputText(caption: Option<string>, text: string, maxLength: int, password: bool)
    | InputTextBuffer(caption: Option<string>, buffer: seq<byte>, password: bool)
    | Checkbox(caption: Option<string>, checked: bool)
    | SliderFloat(caption: Option<string>, value: real, min: real, max: real)
    | Combo(caption: Option<string>, index: int, items: seq<string>, itemCount: int)

  /** A widget's answer: the return value, and what it wrote through its `ref` argument. */
  datatype Reply = Reply(changed: bool, text: string, checked: bool, value: real, index: int)

  /** The ImGui context of a frame: the calls made so far. */
  class Context {
    var trace: seq<Command>
    const oracle: (nat, Command) -> Reply

    constructor (oracle: (nat, Command) -> Reply)
      ensures trace == [] && this.oracle == oracle
    {
      trace := [];
      this.oracle := oracle;
    }

    /** Make one call; a widget's reply is the oracle's answer for this position. */
    method Call(c: Command) returns (r: Reply)
      modifies this
      ensures trace == old(trace) + [c]
      ensures r == oracle(|old(trace)|, c)
    {
      r := oracle(|trace|, c);
      trace := trace + [c];
    }
  }

  // ---------------------------------------------------------------------
  // The style and font stacks

  datatype Stack = ColorStack | VarStack | FontStack

  /** How a call changes the depth of a stack: a push adds one, a pop removes its count. */
  function Delta(c: Command, s: Stack): int {
    match c
    case PushStyleColor(_, _) => if s == ColorStack then 1 else 0
    case PopStyleColor(n) => if s == ColorStack then -(n as int) else 0
    case PushFramePadding(_) => if s == VarStack then 1 else 0
    case PopStyleVar => if s == VarStack then -1 else 0
    case PushFont => if s == FontStack then 1 else 0
    case PopFont => if s == FontStack then -1 else 0
    case _ => 0
  }

  /** The net change a run of calls makes to a stack's depth; zero means balanced. */
  function NetDelta(t: seq<Command>, s: Stack): int {
    if t == [] then 0 else NetDelta(t[..|t| - 1], s) + Delta(t[|t| - 1], s)
  }

  lemma {:induction false} NetDeltaAppend(a: seq<Command>, b: seq<Command>, s: Stack)
    ensures NetDelta(a + b, s) == NetDelta(a, s) + NetDelta(b, s)
    decreases |b|
  {
    if b == [] {
      assert a + b == a;
    } else {
      assert (a + b)[..|a + b| - 1] == a + b[..|b| - 1];
      NetDeltaAppend(a, b[..|b| - 1], s);
    }
  }

  lemma NetDeltaSingleton(c: Command, s: Stack)
    ensures NetDelta([c], s) == Delta(c, s)
  {
  }

  /** Calls that touch no stack leave every depth as it was. */
  lemma {:induction false} NetDeltaNeutral(t: seq<Command>, s: Stack)
    requires forall i :: 0 <= i < |t| ==> Delta(t[i], s) == 0
    ensures NetDelta(t, s) == 0
    decreases |t|
  {
    if t != [] {
      NetDeltaNeutral(t[..|t| - 1], s);
    }
  }
}

/** The part of a browser 2D drawing context the renderers use. The context
    state (fill style, font, text alignment, filter and current transform)
    is saved and restored as a whole; every drawing call is appended to a
    command log together with the state it was drawn under. Pixels are not
    modelled. */
module Canvas2D {
  import opened Common

  /** A rotation angle: radians as given, or a multiple of pi (Math.PI is
      kept symbolic). */
  datatype Angle = Radians(r: real) | HalfTurns(k: real)

  datatype Op = Translate(dx: real, dy: real) | Rotate(angle: Angle)

  datatype Point = Point(x: real, y: real)

  datatype Filter = NoFilter | Blur(px: real)

  /** A CSS font shorthand: optional `bold`, a pixel size and a family. */
  datatype Font = Font(bold: bool, sizePx: real, family: string)

  /** The state `save()` pushes and `restore()` pops. The transform is the
      sequence of `translate`/`rotate` calls applied since the last reset,
      outermost first. */
  datatype DrawState = DrawState(
    fillStyle: string,
    font: Font,
    textAlign: string,
    textBaseline: string,
    filter: Filter,
    transform: seq<Op>)

  /** The state of a freshly reset context. */
  const InitialState := DrawState("#000000", Font(false, 10.0, "sans-serif"), "start", "alphabetic", NoFilter, [])

  datatype Command =
    | FillRect(x: real, y: real, w: real, h: real, state: DrawState)
    | FillText(text: string, x: real, y: real, state: DrawState)
    | BeginPath
    | Arc(cx: real, cy: real, radius: real, startAngle: Angle, endAngle: Angle, transform: seq<Op>)
    | Fill(state: DrawState)
    | DrawImage(image: string, x: real, y: real, w: real, h: real, state: DrawState)

  /** The fill style a command paints with, if it paints. */
  function Paint(c: Command): Option<string>
  {
    match c
    case FillRect(_, _, _, _, st) => Some(st.fillStyle)
    case FillText(_, _, _, st) => Some(st.fillStyle)
    case Fill(st) => Some(st.fillStyle)
    case _ => None
  }

  function Paints(cs: seq<Command>): (ps: seq<Option<string>>)
    ensures |ps| == |cs| && forall i :: 0 <= i < |cs| ==> ps[i] == Paint(cs[i])
  {
    if cs == [] then [] else [Paint(cs[0])] + Paints(cs[1..])
  }

  /** A canvas element with its 2D context, as a value. */
  datatype Surface = Surface(width: nat, height: nat, state: DrawState, stack: seq<DrawState>, commands: seq<Command>)
  {
    function W(): real { width as real }
    function H(): real { height as real }

    /** Assigning `canvas.width` or `canvas.height` clears the bitmap and
        resets the context state and its save stack. */
    function Resize(w: nat, h: nat): Surface
    {
      Surface(w, h, InitialState, [], [])
    }

    function WithFillStyle(v: string): Surface { this.(state := state.(fillStyle := v)) }
    function WithFont(v: Font): Surface { this.(state := state.(font := v)) }
    function WithTextAlign(v: string): Surface { this.(state := state.(textAlign := v)) }
    function WithTextBaseline(v: string): Surface { this.(state := state.(textBaseline := v)) }
    function WithFilter(v: Filter): Surface { this.(state := state.(filter := v)) }

    function Save(): Surface { this.(stack := stack + [state]) }

    /** `restore()` with an empty stack does nothing. */
    function Restore(): Surface
    {
      if stack == [] then this else this.(state := stack[|stack| - 1], stack := stack[..|stack| - 1])
    }

    function Translate(dx: real, dy: real): Surface
    {
      this.(state := state.(transform := state.transform + [Op.Translate(dx, dy)]))
    }

    function Rotate(a: Angle): Surface
    {
      this.(state := state.(transform := state.transform + [Op.Rotate(a)]))
    }

    function Draw(c: Command): Surface { this.(commands := commands + [c]) }

    function FillRect(x: real, y: real, w: real, h: real): Surface { Draw(Command.FillRect(x, y, w, h, state)) }
    function FillText(t: string, x: real, y: real): Surface { Draw(Command.FillText(t, x, y, state)) }
    function BeginPath(): Surface { Draw(Command.BeginPath) }
    function Arc(x: real, y: real, r: real, a0: Angle, a1: Angle): Surface { Draw(Command.Arc(x, y, r, a0, a1, state.transform)) }
    function Fill(): Surface { Draw(Command.Fill(state)) }
    function DrawImage(image: string, x: real, y: real, w: real, h: real): Surface
    {
      Draw(Command.DrawImage(image, x, y, w, h, state))
    }
  }

  /** Save then restore gives back the state and the stack. */
  lemma SaveRestore(s: Surface)
    ensures s.Save().Restore() == s
  {
  }

  /** One transform step applied to a point, where it is known exactly:
      translations and rotations by 0, pi or 2 pi. */
  function ApplyOp(op: Op, p: Point): Option<Point>
  {
    match op
    case Translate(dx, dy) => Some(Point(p.x + dx, p.y + dy))
    case Rotate(HalfTurns(k)) =>
      if k == 1.0 then Some(Point(-p.x, -p.y))
      else if k == 0.0 || k == 2.0 then Some(p)
      else None
    case Rotate(Radians(r)) => if r == 0.0 then Some(p) else None
  }

  /** Where a point given in the current coordinate system lands on the
      canvas: the innermost (last) step applies first. None when an
      arbitrary rotation is involved. */
  function DevicePoint(t: seq<Op>, p: Point): Option<Point>
    decreases |t|
  {
    if t == [] then Some(p)
    else match ApplyOp(t[|t| - 1], p)
      case None => None
      case Some(q) => DevicePoint(t[..|t| - 1], q)
  }

  /** `translate(w, h); rotate(Math.PI)` maps (x, y) to (w - x, h - y): the
      point mirrored through the centre of a w-by-h card. */
  lemma {:induction false} HalfTurnMirrors(base: seq<Op>, w: real, h: real, p: Point)
    ensures DevicePoint(base + [Op.Translate(w, h), Op.Rotate(HalfTurns(1.0))], p)
         == DevicePoint(base, Point(w - p.x, h - p.y))
  {
    var t := base + [Op.Translate(w, h), Op.Rotate(HalfTurns(1.0))];
    assert t[|t| - 1] == Op.Rotate(HalfTurns(1.0));
    assert t[..|t| - 1] == base + [Op.Translate(w, h)];
    var t1 := base + [Op.Translate(w, h)];
    assert t1[|t1| - 1] == Op.Translate(w, h);
    assert t1[..|t1| - 1] == base;
    assert DevicePoint(t, p) == DevicePoint(t1, Point(-p.x, -p.y));
    assert DevicePoint(t1, Point(-p.x, -p.y)) == DevicePoint(base, Point(w - p.x, h - p.y));
  }

  /** The canvas element and its context as one mutable object. */
  class Canvas {
    var width: nat
    var height: nat
    var fillStyle: string
    var font: Font
    var textAlign: string
    var textBaseline: string
    var filter: Filter
    var transform: seq<Op>
    var stack: seq<DrawState>
    var commands: seq<Command>
    /** `measureText(t).width` under a font; text layout is not modelled. */
    const measureText: (Font, string) -> real

    function State(): DrawState
      reads this
    {
      DrawState(fillStyle, font, textAlign, textBaseline, filter, transform)
    }

    function Snapshot(): Surface
      reads this
    {
      Surface(width, height, State(), stack, commands)
    }

    /** A new 300 by 150 canvas (the HTML default size). */
    constructor (measure: (Font, string) -> real)
      ensures Snapshot() == Surface(300, 150, InitialState, [], [])
      ensures measureText == measure
    {
      width, height := 300, 150;
      fillStyle, font, textAlign, textBaseline, filter, transform := "#000000", Font(false, 10.0, "sans-serif"), "start", "alphabetic", NoFilter, [];
      stack, commands := [], [];
      measureText := measure;
    }

    method Reset(w: nat, h: nat)
      modifies this
      ensures Snapshot() == Surface(w, h, InitialState, [], [])
    {
      width, height := w, h;
      fillStyle, font, textAlign, textBaseline, filter, transform := "#000000", Font(false, 10.0, "sans-serif"), "start", "alphabetic", NoFilter, [];
      stack, commands := [], [];
    }

    /** `canvas.width = w`. */
    method SetWidth(w: nat)
      modifies this
      ensures Snapshot() == old(Snapshot()).Resize(w, old(height))
    {
      Reset(w, height);
    }

    /** `canvas.height = h`. */
    method SetHeight(h: nat)
      modifies this
      ensures Snapshot() == old(Snapshot()).Resize(old(width), h)
    {
      Reset(width, h);
    }

    method SetFillStyle(v: string)
      modifies this
      ensures Snapshot() == old(Snapshot()).WithFillStyle(v)
    {
      fillStyle := v;
    }

    method SetFont(v: Font)
      modifies this
      ensures Snapshot() == old(Snapshot()).WithFont(v)
    {
      font := v;
    }

    method SetTextAlign(v: string)
      modifies this
      ensures Snapshot() == old(Snapshot()).WithTextAlign(v)
    {
      textAlign := v;
    }

    method SetTextBaseline(v: string)
      modifies this
      ensures Snapshot() == old(Snapshot()).WithTextBaseline(v)
    {
      textBaseline := v;
    }

    method SetFilter(v: Filter)
      modifies this
      ensures Snapshot() == old(Snapshot()).WithFilter(v)
    {
      filter := v;
    }

    method Save()
      modifies this
      ensures Snapshot() == old(Snapshot()).Save()
    {
      stack := stack + [State()];
    }

    method Restore()
      modifies this
      ensures Snapshot() == old(Snapshot()).Restore()
    {
      if stack != [] {
        var top := stack[|stack| - 1];
        fillStyle, font, textAlign, textBaseline, filter, transform := top.fillStyle, top.font, top.textAlign, top.textBaseline, top.filter, top.transform;
        stack := stack[..|stack| - 1];
      }
    }

    method Translate(dx: real, dy: real)
      modifies this
      ensures Snapshot() == old(Snapshot()).Translate(dx, dy)
    {
      transform := transform + [Op.Translate(dx, dy)];
    }

    method Rotate(a: Angle)
      modifies this
      ensures Snapshot() == old(Snapshot()).Rotate(a)
    {
      transform := transform + [Op.Rotate(a)];
    }

    method FillRect(x: real, y: real, w: real, h: real)
      modifies this
      ensures Snapshot() == old(Snapshot()).FillRect(x, y, w, h)
    {
      commands := commands + [Command.FillRect(x, y, w, h, State())];
    }

    method FillText(t: string, x: real, y: real)
      modifies this
      ensures Snapshot() == old(Snapshot()).FillText(t, x, y)
    {
      commands := commands + [Command.FillText(t, x, y, State())];
    }

    method BeginPath()
      modifies this
      ensures Snapshot() == old(Snapshot()).BeginPath()
    {
      commands := commands + [Command.BeginPath];
    }

    method Arc(x: real, y: real, r: real, a0: Angle, a1: Angle)
      modifies this
      ensures Snapshot() == old(Snapshot()).Arc(x, y, r, a0, a1)
    {
      commands := commands + [Command.Arc(x, y, r, a0, a1, transform)];
    }

    method Fill()
      modifies this
      ensures Snapshot() == old(Snapshot()).Fill()
    {
      commands := commands + [Command.Fill(State())];
    }

    method DrawImage(image: string, x: real, y: real, w: real, h: real)
      modifies this
      ensures Snapshot() == old(Snapshot()).DrawImage(image, x, y, w, h)
    {
      commands := commands + [Command.DrawImage(image, x, y, w, h, State())];
    }

    /** `measureText(t).width` under the current font. */
    method MeasureText(t: string) returns (textWidth: real)
      ensures textWidth == measureText(font, t)
    {
      textWidth := measureText(font, t);
    }
  }
}

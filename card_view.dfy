/** The drawing effect of src/components/Card.tsx: the older inline renderer
    that sizes its canvas, paints the background, the corner numerals (with
    circles around them on the mask variant) and the centre character. */
module CardView {
  import opened Common
  import opened Cards
  import opened Canvas2D
  import opened Renderers

  /** `ASPECT_RATIO`: a card is one and a half times as tall as it is wide. */
  const AspectRatio: real := 1.5

  /** `WIDTH`, the default card width. */
  const DefaultWidth: nat := 300

  /** The props the effect reads. */
  datatype CardProps = CardProps(
    number: int,
    backgroundColor: Color,
    width: nat,
    font: string,
    renderText: bool,
    mask: bool,
    roundAroundText: bool)

  /** The props as the component defaults them when the caller omits them. */
  function WithDefaults(number: int, backgroundColor: Color, width: Option<nat>, font: Option<string>,
                        renderText: Option<bool>, mask: Option<bool>, roundAroundText: Option<bool>): (p: CardProps)
    ensures width == None ==> p.width == DefaultWidth
    ensures font == None ==> p.font == "sans-serif"
    ensures renderText == None ==> p.renderText
    ensures mask == None ==> !p.mask
    ensures roundAroundText == None ==> p.roundAroundText
    ensures width.Some? ==> p.width == width.value
  {
    CardProps(number, backgroundColor,
              if width.Some? then width.value else DefaultWidth,
              if font.Some? then font.value else "sans-serif",
              if renderText.Some? then renderText.value else true,
              if mask.Some? then mask.value else false,
              if roundAroundText.Some? then roundAroundText.value else true)
  }

  /** `canvas.height = width * ASPECT_RATIO`: the canvas keeps the integer
      part of the product. */
  function CanvasHeight(width: nat): (h: nat)
    ensures h as real <= width as real * AspectRatio < h as real + 1.0
  {
    var h := (3 * width) / 2;
    assert 2 * h <= 3 * width <= 2 * h + 1;
    h
  }

  function BackgroundFill(p: CardProps): string { if p.mask then "white" else p.backgroundColor }
  function TextColor(p: CardProps): string { if p.mask then "black" else "white" }
  function CardFilter(p: CardProps): Filter { if p.mask then Blur(1.0) else NoFilter }
  /** `multiplier`: the mask's centre character is drawn one percent larger. */
  function Multiplier(p: CardProps): real { if p.mask then 1.01 else 1.0 }

  /** `NUMBER_TO_CHINESE[number]`, which the effect checks before drawing. */
  function Glyph(glyphs: map<int, string>, n: int): (g: Option<string>)
    ensures g.Some? <==> n in glyphs
    ensures g.Some? ==> g.value == glyphs[n]
  {
    if n in glyphs then Some(glyphs[n]) else None
  }

  // ---- specification functions ----

  /** After resizing, the filter, the background rectangle and the corner
      text style. */
  function Base(p: CardProps): Surface
  {
    var w := p.width as real;
    var h := CanvasHeight(p.width) as real;
    var bg := InitialState.(filter := CardFilter(p), fillStyle := BackgroundFill(p));
    var text := bg.(fillStyle := TextColor(p), font := Font(true, 0.15 * w, "sans-serif"),
                    textAlign := "left", textBaseline := "top");
    Surface(p.width, CanvasHeight(p.width), text, [], [Command.FillRect(0.0, 0.0, w, h, bg)])
  }

  /** A circle of radius 0.1 w around a corner numeral, centred by the
      measured widths of the numeral and of "0". */
  function Circle(st: DrawState, w: real, t: string, d: real, measure: (Font, string) -> real): seq<Command>
  {
    [Command.BeginPath,
     Command.Arc(d + 0.5 * measure(st.font, t), d + 0.7 * measure(st.font, "0"), 0.1 * w, Radians(0.0), HalfTurns(2.0), st.transform),
     Command.Fill(st)]
  }

  /** The corner numerals at (d, d), the second under the mirrored transform;
      with `circles` the first is preceded and the second followed by a
      circle. The transform and the stack are left as they were. */
  function Corners(s: Surface, t: string, d: real, circles: bool, measure: (Font, string) -> real): Surface
  {
    var m := s.state.(transform := Mirrored(s, s.state.transform));
    var pre := if circles then Circle(s.state, s.W(), t, d, measure) else [];
    var post := if circles then Circle(m, s.W(), t, d, measure) else [];
    s.(commands := s.commands + pre + [Command.FillText(t, d, d, s.state), Command.FillText(t, d, d, m)] + post)
  }

  /** The centre character at (w/2, h/2), size 0.9 w times the multiplier. */
  function Centre(s: Surface, ch: string, p: CardProps): Surface
  {
    var st := s.state.(fillStyle := TextColor(p), font := Font(false, 0.9 * s.W() * Multiplier(p), p.font),
                       textAlign := "center", textBaseline := "middle");
    s.(state := st, commands := s.commands + [Command.FillText(ch, s.W() / 2.0, s.H() / 2.0, st)])
  }

  /** The canvas the effect leaves, whatever it held before. */
  function CardSurface(p: CardProps, glyphs: map<int, string>, measure: (Font, string) -> real): Surface
  {
    var b := Base(p);
    if !p.renderText then b
    else
      var c := Corners(b, IntToString(p.number), 0.1 * b.W(), p.mask && p.roundAroundText, measure);
      var g := Glyph(glyphs, p.number);
      if Truthy(g) then Centre(c, g.value, p) else c
  }

  // ---- the effect ----

  method DrawCircle(canvas: Canvas, t: string, d: real)
    modifies canvas
    ensures canvas.Snapshot() == old(canvas.Snapshot()).(commands := old(canvas.commands)
                                   + Circle(old(canvas.State()), old(canvas.width) as real, t, d, canvas.measureText))
  {
    ghost var s := canvas.Snapshot();
    canvas.BeginPath();
    var tw := canvas.MeasureText(t);
    var zw := canvas.MeasureText("0");
    canvas.Arc(d + 0.5 * tw, d + 0.7 * zw, 0.1 * canvas.width as real, Radians(0.0), HalfTurns(2.0));
    canvas.Fill();
    assert canvas.commands[|s.commands| + 1] == Circle(s.state, s.W(), t, d, canvas.measureText)[1];
  }

  method DrawCorners(canvas: Canvas, t: string, d: real, circles: bool)
    modifies canvas
    ensures canvas.Snapshot() == Corners(old(canvas.Snapshot()), t, d, circles, canvas.measureText)
  {
    ghost var s := canvas.Snapshot();
    ghost var m := s.state.(transform := Mirrored(s, s.state.transform));
    ghost var pre := if circles then Circle(s.state, s.W(), t, d, canvas.measureText) else [];
    ghost var post := if circles then Circle(m, s.W(), t, d, canvas.measureText) else [];
    if circles {
      DrawCircle(canvas, t, d);
    }
    canvas.FillText(t, d, d);
    assert canvas.commands == s.commands + pre + [Command.FillText(t, d, d, s.state)];
    canvas.Save();
    canvas.Translate(canvas.width as real, canvas.height as real);
    canvas.Rotate(HalfTurns(1.0));
    assert canvas.transform == s.state.transform + [Op.Translate(s.W(), s.H()), Op.Rotate(HalfTurns(1.0))];
    assert canvas.State() == m;
    canvas.FillText(t, d, d);
    if circles {
      DrawCircle(canvas, t, d);
    }
    assert canvas.commands == s.commands + pre + [Command.FillText(t, d, d, s.state)] + [Command.FillText(t, d, d, m)] + post;
    canvas.Restore();
    assert [Command.FillText(t, d, d, s.state)] + [Command.FillText(t, d, d, m)] == [Command.FillText(t, d, d, s.state), Command.FillText(t, d, d, m)];
  }

  method DrawCentre(canvas: Canvas, ch: string, p: CardProps)
    modifies canvas
    ensures canvas.Snapshot() == Centre(old(canvas.Snapshot()), ch, p)
  {
    ghost var s := canvas.Snapshot();
    canvas.SetFillStyle(TextColor(p));
    canvas.SetFont(Font(false, 0.9 * canvas.width as real * Multiplier(p), p.font));
    canvas.SetTextAlign("center");
    canvas.SetTextBaseline("middle");
    canvas.FillText(ch, canvas.width as real / 2.0, canvas.height as real / 2.0);
    ghost var r := Centre(s, ch, p);
    assert canvas.commands[|s.commands|] == r.commands[|s.commands|];
  }

  /** The effect body. A canvas that is not mounted is left alone; otherwise
      the canvas ends as `CardSurface` and `onRender`, when given, receives
      it after the last drawing call. */
  method RenderCard(canvas: Canvas?, p: CardProps, glyphs: map<int, string>, hasOnRender: bool)
    returns (rendered: Option<Surface>)
    modifies canvas
    ensures canvas == null ==> rendered == None
    ensures canvas != null ==> canvas.Snapshot() == CardSurface(p, glyphs, canvas.measureText)
    ensures canvas != null ==> rendered == (if hasOnRender then Some(canvas.Snapshot()) else None)
  {
    if canvas == null {
      return None;
    }
    canvas.SetWidth(p.width);
    canvas.SetHeight(CanvasHeight(p.width));
    if p.mask {
      canvas.SetFilter(Blur(1.0));
    } else {
      canvas.SetFilter(NoFilter);
    }
    canvas.SetFillStyle(BackgroundFill(p));
    canvas.FillRect(0.0, 0.0, canvas.width as real, canvas.height as real);
    canvas.SetFillStyle(TextColor(p));
    canvas.SetFont(Font(true, 0.15 * canvas.width as real, "sans-serif"));
    canvas.SetTextAlign("left");
    canvas.SetTextBaseline("top");
    assert canvas.Snapshot() == Base(p);
    var cornerDistance := 0.1 * canvas.width as real;
    if p.renderText {
      DrawCorners(canvas, IntToString(p.number), cornerDistance, p.mask && p.roundAroundText);
      var ch := Glyph(glyphs, p.number);
      if Truthy(ch) {
        DrawCentre(canvas, ch.value, p);
      }
    }
    rendered := if hasOnRender then Some(canvas.Snapshot()) else None;
  }

  // ---- properties ----

  /** The canvas is `width` wide and the integer part of 1.5 `width` tall. */
  lemma CardSize(p: CardProps, glyphs: map<int, string>, measure: (Font, string) -> real)
    ensures var r := CardSurface(p, glyphs, measure);
      && r.width == p.width
      && r.height as real <= p.width as real * AspectRatio < r.height as real + 1.0
  {
  }

  /** The log the effect leaves, piece by piece. */
  lemma CardLog(p: CardProps, glyphs: map<int, string>, measure: (Font, string) -> real)
    ensures var b := Base(p);
      var circles := p.mask && p.roundAroundText;
      var t, d := IntToString(p.number), 0.1 * b.W();
      var m := b.state.(transform := Mirrored(b, b.state.transform));
      var pre := if circles then Circle(b.state, b.W(), t, d, measure) else [];
      var post := if circles then Circle(m, b.W(), t, d, measure) else [];
      var c := Corners(b, t, d, circles, measure);
      var g := Glyph(glyphs, p.number);
      var centre := if Truthy(g) then [Centre(c, g.value, p).commands[|c.commands|]] else [];
      CardSurface(p, glyphs, measure).commands
        == if !p.renderText then b.commands
           else b.commands + pre + [Command.FillText(t, d, d, b.state), Command.FillText(t, d, d, m)] + post + centre
  {
    var b := Base(p);
    var t, d := IntToString(p.number), 0.1 * b.W();
    var c := Corners(b, t, d, p.mask && p.roundAroundText, measure);
    var g := Glyph(glyphs, p.number);
    if p.renderText && Truthy(g) {
      var r := Centre(c, g.value, p);
      assert r.commands == c.commands + [r.commands[|c.commands|]];
    }
  }

  /** Every command in `cs` that paints uses `color`, and every text has
      `filter`. */
  predicate PaintsIn(cs: seq<Command>, color: string, filter: Filter)
  {
    forall i :: 0 <= i < |cs| ==>
      (Paint(cs[i]) == None || Paint(cs[i]) == Some(color)) && (cs[i].FillText? ==> cs[i].state.filter == filter)
  }

  lemma PaintsInConcat(a: seq<Command>, b: seq<Command>, color: string, filter: Filter)
    requires PaintsIn(a, color, filter) && PaintsIn(b, color, filter)
    ensures PaintsIn(a + b, color, filter)
  {
    assert forall i :: |a| <= i < |a + b| ==> (a + b)[i] == b[i - |a|];
  }

  /** Mask: blurred, white background, black text. Otherwise: no filter,
      the card's colour as background, white text. Every later command that
      paints uses the text colour. */
  lemma CardVariantStyles(p: CardProps, glyphs: map<int, string>, measure: (Font, string) -> real)
    ensures var a := CardSurface(p, glyphs, measure).commands;
      && |a| >= 1
      && a[0].FillRect? && a[0].x == 0.0 && a[0].y == 0.0
      && a[0].w == p.width as real && a[0].h == CanvasHeight(p.width) as real
      && a[0].state.fillStyle == (if p.mask then "white" else p.backgroundColor)
      && a[0].state.filter == (if p.mask then Blur(1.0) else NoFilter)
      && PaintsIn(a[1..], if p.mask then "black" else "white", a[0].state.filter)
  {
    CardLog(p, glyphs, measure);
    var a := CardSurface(p, glyphs, measure).commands;
    var color, filter := TextColor(p), CardFilter(p);
    var b := Base(p);
    if p.renderText {
      var circles := p.mask && p.roundAroundText;
      var t, d := IntToString(p.number), 0.1 * b.W();
      var m := b.state.(transform := Mirrored(b, b.state.transform));
      var pre := if circles then Circle(b.state, b.W(), t, d, measure) else [];
      var post := if circles then Circle(m, b.W(), t, d, measure) else [];
      var c := Corners(b, t, d, circles, measure);
      var g := Glyph(glyphs, p.number);
      var centre := if Truthy(g) then [Centre(c, g.value, p).commands[|c.commands|]] else [];
      var texts := [Command.FillText(t, d, d, b.state), Command.FillText(t, d, d, m)];
      assert PaintsIn(pre, color, filter);
      assert PaintsIn(texts, color, filter);
      assert PaintsIn(post, color, filter);
      assert PaintsIn(centre, color, filter);
      PaintsInConcat(pre, texts, color, filter);
      PaintsInConcat(pre + texts, post, color, filter);
      PaintsInConcat(pre + texts + post, centre, color, filter);
      assert a[1..] == pre + texts + post + centre;
    } else {
      assert a[1..] == [];
    }
  }

  /** Without `renderText` only the background is painted. */
  lemma CardWithoutText(p: CardProps, glyphs: map<int, string>, measure: (Font, string) -> real)
    requires !p.renderText
    ensures var a := CardSurface(p, glyphs, measure).commands;
      |a| == 1 && a[0].FillRect?
  {
  }

  /** The circles appear exactly when the card is a mask drawn with
      `roundAroundText` and text; there are then two of radius 0.1 w, the
      second centred on the mirror image of the first. */
  lemma CardCircles(p: CardProps, glyphs: map<int, string>, measure: (Font, string) -> real)
    ensures var a := CardSurface(p, glyphs, measure).commands;
      (exists i :: 0 <= i < |a| && a[i].Arc?) <==> p.renderText && p.mask && p.roundAroundText
    ensures var a := CardSurface(p, glyphs, measure).commands;
      var w, h := p.width as real, CanvasHeight(p.width) as real;
      p.renderText && p.mask && p.roundAroundText ==>
        && |a| >= 8 && a[2].Arc? && a[7].Arc?
        && a[2].radius == 0.1 * w == a[7].radius
        && a[2].cx == a[7].cx && a[2].cy == a[7].cy
        && a[2].transform == []
        && DevicePoint(a[7].transform, Point(a[7].cx, a[7].cy)) == Some(Point(w - a[2].cx, h - a[2].cy))
  {
    CardLog(p, glyphs, measure);
    var a := CardSurface(p, glyphs, measure).commands;
    var b := Base(p);
    if p.renderText && p.mask && p.roundAroundText {
      assert a[2].Arc?;
      HalfTurnMirrors([], b.W(), b.H(), Point(a[7].cx, a[7].cy));
    } else {
      assert forall i :: 0 <= i < |a| ==> !a[i].Arc?;
    }
  }

  /** With text, the numeral is drawn at (0.1 w, 0.1 w) and again at the
      same local position under translate(w, h) and a half turn, which puts
      it at the point mirrored through the card centre. */
  lemma CardCornerNumbers(p: CardProps, glyphs: map<int, string>, measure: (Font, string) -> real)
    requires p.renderText
    ensures var a := CardSurface(p, glyphs, measure).commands;
      var k := if p.mask && p.roundAroundText then 4 else 1;
      var w, h := p.width as real, CanvasHeight(p.width) as real;
      var d := 0.1 * w;
      && |a| >= k + 2
      && a[k].FillText? && a[k + 1].FillText?
      && a[k].text == IntToString(p.number) == a[k + 1].text
      && a[k].x == d == a[k + 1].x && a[k].y == d == a[k + 1].y
      && a[k].state.transform == []
      && a[k + 1].state.transform == [Op.Translate(w, h), Op.Rotate(HalfTurns(1.0))]
      && DevicePoint(a[k + 1].state.transform, Point(d, d)) == Some(Point(w - d, h - d))
  {
    CardLog(p, glyphs, measure);
    var b := Base(p);
    HalfTurnMirrors([], b.W(), b.H(), Point(0.1 * b.W(), 0.1 * b.W()));
  }

  /** The centre character is drawn, last, exactly when there is text and
      the table has a non-empty entry for the number: at (w/2, h/2), in the
      configured font, 0.9 w wide (1 percent more on the mask). */
  lemma CardCentreCharacter(p: CardProps, glyphs: map<int, string>, measure: (Font, string) -> real)
    ensures var a := CardSurface(p, glyphs, measure).commands;
      var g := Glyph(glyphs, p.number);
      var w, h := p.width as real, CanvasHeight(p.width) as real;
      && |a| == 1 + (if p.renderText then (if p.mask && p.roundAroundText then 8 else 2) + (if Truthy(g) then 1 else 0) else 0)
      && (p.renderText && Truthy(g) ==>
            && a[|a| - 1].FillText? && a[|a| - 1].text == g.value
            && a[|a| - 1].x == w / 2.0 && a[|a| - 1].y == h / 2.0
            && a[|a| - 1].state.font == Font(false, 0.9 * w * (if p.mask then 1.01 else 1.0), p.font)
            && a[|a| - 1].state.textAlign == "center" && a[|a| - 1].state.textBaseline == "middle")
      && (forall i :: 0 <= i < |a| && a[i].FillText? && a[i].text != IntToString(p.number) ==>
            p.renderText && Truthy(g) && a[i].text == g.value)
  {
    CardLog(p, glyphs, measure);
  }
}

/** The layer renderers of src/services/canvas.ts, each a method on the
    canvas proved against a function that gives the resulting surface. The
    number-to-character table is a parameter `glyphs`; its contents are not
    part of this model. */
module Renderers {
  import opened Common
  import opened Cards
  import opened Config
  import opened Canvas2D

  /** `NUMBER_TO_CHINESE[n]` passed to `fillText` without a check: a number
      the table lacks is drawn as the text "undefined". */
  function GlyphArg(glyphs: map<int, string>, n: int): (t: string)
    ensures n !in glyphs ==> t == "undefined"
    ensures n in glyphs ==> t == glyphs[n]
  {
    if n in glyphs then glyphs[n] else "undefined"
  }

  // ---- specification functions: the surface each routine leaves ----

  /** Background: fill style set to `color`, one rectangle over the canvas. */
  function BG(s: Surface, color: string): Surface
  {
    var st := s.state.(fillStyle := color);
    s.(state := st, commands := s.commands + [Command.FillRect(0.0, 0.0, s.W(), s.H(), st)])
  }

  /** Centre character: text style set, `rotate(rotation)` added to the
      transform (and left there), one text at (w/2 offsetX, h/2 offsetY). */
  function ChineseCharacter(s: Surface, ch: string, cfg: CardsConfig): Surface
  {
    var st := s.state.(fillStyle := cfg.textColor,
                       font := Font(false, 0.9 * s.W() * cfg.centerChar.scale, cfg.font),
                       textAlign := "center", textBaseline := "middle",
                       transform := s.state.transform + [Op.Rotate(Radians(cfg.centerChar.rotation))]);
    var x, y := (s.W() / 2.0) * cfg.centerChar.offsetX, (s.H() / 2.0) * cfg.centerChar.offsetY;
    s.(state := st, commands := s.commands + [Command.FillText(ch, x, y, st)])
  }

  /** The transform of the mirrored corner: `translate(w, h); rotate(pi)`. */
  function Mirrored(s: Surface, t: seq<Op>): seq<Op>
  {
    t + [Op.Translate(s.W(), s.H()), Op.Rotate(HalfTurns(1.0))]
  }

  /** Corner numerals: text style set, the numeral at
      (0.1 w offsetX, 0.1 w offsetY) and again at the same local position
      under the mirrored transform; the transform is left as it was. */
  function NumberInCorners(s: Surface, number: int, cfg: CardsConfig): Surface
  {
    var st := s.state.(fillStyle := cfg.textColor,
                       font := Font(true, 0.15 * s.W() * cfg.numberInCorner.scale, cfg.font),
                       textAlign := "left", textBaseline := "top");
    var d := 0.1 * s.W();
    var t := IntToString(number);
    var x, y := d * cfg.numberInCorner.offsetX, d * cfg.numberInCorner.offsetY;
    s.(state := st,
       commands := s.commands + [Command.FillText(t, x, y, st),
                                 Command.FillText(t, x, y, st.(transform := Mirrored(s, st.transform)))])
  }

  /** Corner rounds: fill style set to the configured background colour, a
      filled circle of radius 0.1 w at (0.15 w + 0.5, 0.15 w + 0.7) and the
      same circle under the mirrored transform; the transform is left as it
      was. */
  function RoundsInCorners(s: Surface, cfg: CardsConfig): Surface
  {
    var st := s.state.(fillStyle := cfg.backgroundColor);
    var d := 0.15 * s.W();
    var m := st.(transform := Mirrored(s, st.transform));
    s.(state := st,
       commands := s.commands + [Command.BeginPath,
                                 Command.Arc(d + 0.5, d + 0.7, 0.1 * s.W(), Radians(0.0), HalfTurns(2.0), st.transform),
                                 Command.Fill(st),
                                 Command.BeginPath,
                                 Command.Arc(d + 0.5, d + 0.7, 0.1 * s.W(), Radians(0.0), HalfTurns(2.0), m.transform),
                                 Command.Fill(m)])
  }

  function Mask(s: Surface, card: Card, cfg: CardsConfig, glyphs: map<int, string>): Surface
  {
    var s1 := BG(s, "white");
    var s2 := ChineseCharacter(s1, GlyphArg(glyphs, card.number), cfg.(textColor := "black"));
    RoundsInCorners(s2, cfg.(backgroundColor := "black"))
  }

  function FullCard(s: Surface, card: Card, cfg: CardsConfig, glyphs: map<int, string>, imageLoads: bool): Surface
  {
    if Truthy(card.resultbase64) && !imageLoads then BG(s, card.backgroundColor)
    else Overlay(Picture(s, card), card, cfg, glyphs)
  }

  /** The background of the full card, with the result image scaled over the
      whole canvas when `resultbase64` is set. */
  function Picture(s: Surface, card: Card): Surface
  {
    var s1 := BG(s, card.backgroundColor);
    if Truthy(card.resultbase64) then s1.DrawImage(card.resultbase64.value, 0.0, 0.0, s1.W(), s1.H()) else s1
  }

  /** What the full card draws over its picture: the rounds, then the white
      corner numerals, then the white centre character. */
  function Overlay(s: Surface, card: Card, cfg: CardsConfig, glyphs: map<int, string>): Surface
  {
    var s1 := RoundsInCorners(s, cfg);
    var s2 := NumberInCorners(s1, card.number, cfg.(textColor := "white"));
    ChineseCharacter(s2, GlyphArg(glyphs, card.number), cfg.(textColor := "white"))
  }

  /** The commands a routine added to the log. */
  function Added(before: Surface, after: Surface): seq<Command>
  {
    if |before.commands| <= |after.commands| then after.commands[|before.commands|..] else []
  }

  /** A routine that only appends to the log adds exactly what it appended. */
  lemma AddedAppend(s: Surface, r: Surface, a: seq<Command>)
    requires r.commands == s.commands + a
    ensures Added(s, r) == a
  {
    assert r.commands[|s.commands|..] == a;
  }

  // ---- the routines ----

  /** `blur(context, radius)`. */
  method Blur(canvas: Canvas, radius: real)
    modifies canvas
    ensures canvas.Snapshot() == old(canvas.Snapshot()).WithFilter(Filter.Blur(radius))
  {
    canvas.SetFilter(Filter.Blur(radius));
  }

  /** `unblur(context)`. */
  method Unblur(canvas: Canvas)
    modifies canvas
    ensures canvas.Snapshot() == old(canvas.Snapshot()).WithFilter(NoFilter)
  {
    canvas.SetFilter(NoFilter);
  }

  method DrawBG(canvas: Canvas, color: string)
    modifies canvas
    ensures canvas.Snapshot() == BG(old(canvas.Snapshot()), color)
  {
    canvas.SetFillStyle(color);
    canvas.FillRect(0.0, 0.0, canvas.width as real, canvas.height as real);
  }

  method DrawChineseCharacter(canvas: Canvas, ch: string, cfg: CardsConfig)
    modifies canvas
    ensures canvas.Snapshot() == ChineseCharacter(old(canvas.Snapshot()), ch, cfg)
  {
    ghost var s := canvas.Snapshot();
    canvas.SetFillStyle(cfg.textColor);
    canvas.SetFont(Font(false, 0.9 * canvas.width as real * cfg.centerChar.scale, cfg.font));
    canvas.SetTextAlign("center");
    canvas.SetTextBaseline("middle");
    canvas.Rotate(Radians(cfg.centerChar.rotation));
    canvas.FillText(ch, (canvas.width as real / 2.0) * cfg.centerChar.offsetX, (canvas.height as real / 2.0) * cfg.centerChar.offsetY);
    ghost var r := ChineseCharacter(s, ch, cfg);
    assert canvas.commands[|s.commands|] == r.commands[|s.commands|];
  }

  method DrawNumberInCorners(canvas: Canvas, card: Card, cfg: CardsConfig)
    modifies canvas
    ensures canvas.Snapshot() == NumberInCorners(old(canvas.Snapshot()), card.number, cfg)
  {
    ghost var s := canvas.Snapshot();
    canvas.SetFillStyle(cfg.textColor);
    canvas.SetFont(Font(true, 0.15 * canvas.width as real * cfg.numberInCorner.scale, cfg.font));
    canvas.SetTextAlign("left");
    canvas.SetTextBaseline("top");
    var cornerDistance := 0.1 * canvas.width as real;
    canvas.FillText(IntToString(card.number), cornerDistance * cfg.numberInCorner.offsetX, cornerDistance * cfg.numberInCorner.offsetY);
    canvas.Save();
    canvas.Translate(canvas.width as real, canvas.height as real);
    canvas.Rotate(HalfTurns(1.0));
    canvas.FillText(IntToString(card.number), cornerDistance * cfg.numberInCorner.offsetX, cornerDistance * cfg.numberInCorner.offsetY);
    canvas.Restore();
    ghost var r := NumberInCorners(s, card.number, cfg);
    assert canvas.commands[|s.commands|] == r.commands[|s.commands|];
    assert canvas.commands[|s.commands| + 1] == r.commands[|s.commands| + 1];
  }

  method DrawRoundsInCorners(canvas: Canvas, card: Card, cfg: CardsConfig)
    modifies canvas
    ensures canvas.Snapshot() == RoundsInCorners(old(canvas.Snapshot()), cfg)
  {
    ghost var s := canvas.Snapshot();
    var cornerDistance := 0.15 * canvas.width as real;
    canvas.SetFillStyle(cfg.backgroundColor);
    canvas.BeginPath();
    canvas.Arc(cornerDistance + 0.5, cornerDistance + 0.7, 0.1 * canvas.width as real, Radians(0.0), HalfTurns(2.0));
    canvas.Fill();
    canvas.Save();
    canvas.Translate(canvas.width as real, canvas.height as real);
    canvas.Rotate(HalfTurns(1.0));
    canvas.BeginPath();
    canvas.Arc(cornerDistance + 0.5, cornerDistance + 0.7, 0.1 * canvas.width as real, Radians(0.0), HalfTurns(2.0));
    canvas.Fill();
    canvas.Restore();
    ghost var r := RoundsInCorners(s, cfg);
    assert canvas.commands[|s.commands| + 1] == r.commands[|s.commands| + 1];
    assert canvas.commands[|s.commands| + 2] == r.commands[|s.commands| + 2];
    assert canvas.commands[|s.commands| + 4] == r.commands[|s.commands| + 4];
    assert canvas.commands[|s.commands| + 5] == r.commands[|s.commands| + 5];
  }

  /** `drawImage(canvas, context, image)`: the image scaled to the canvas. */
  method DrawImage(canvas: Canvas, image: string)
    modifies canvas
    ensures canvas.Snapshot() == old(canvas.Snapshot()).DrawImage(image, 0.0, 0.0, old(canvas.Snapshot()).W(), old(canvas.Snapshot()).H())
  {
    canvas.DrawImage(image, 0.0, 0.0, canvas.width as real, canvas.height as real);
  }

  method DrawSourceImage(canvas: Canvas, card: Card, cfg: CardsConfig)
    modifies canvas
    ensures canvas.Snapshot() == BG(old(canvas.Snapshot()), card.backgroundColor)
  {
    DrawBG(canvas, card.backgroundColor);
  }

  method DrawMask(canvas: Canvas, card: Card, cfg: CardsConfig, glyphs: map<int, string>)
    modifies canvas
    ensures canvas.Snapshot() == Mask(old(canvas.Snapshot()), card, cfg, glyphs)
  {
    DrawBG(canvas, "white");
    DrawChineseCharacter(canvas, GlyphArg(glyphs, card.number), cfg.(textColor := "black"));
    DrawRoundsInCorners(canvas, card, cfg.(backgroundColor := "black"));
  }

  /** The full card; `imageLoads` says whether decoding `resultbase64`
      succeeds. A failed decode rejects the call after the background. */
  method DrawFullCard(canvas: Canvas, card: Card, cfg: CardsConfig, glyphs: map<int, string>, imageLoads: bool)
    returns (ok: bool)
    modifies canvas
    ensures ok <==> !Truthy(card.resultbase64) || imageLoads
    ensures canvas.Snapshot() == FullCard(old(canvas.Snapshot()), card, cfg, glyphs, imageLoads)
  {
    DrawBG(canvas, card.backgroundColor);
    if Truthy(card.resultbase64) {
      if !imageLoads {
        return false;
      }
      DrawImage(canvas, card.resultbase64.value);
    }
    DrawRoundsInCorners(canvas, card, cfg);
    DrawNumberInCorners(canvas, card, cfg.(textColor := "white"));
    DrawChineseCharacter(canvas, GlyphArg(glyphs, card.number), cfg.(textColor := "white"));
    ok := true;
  }

  // ---- properties ----

  /** drawBG paints one rectangle covering the canvas in the given colour,
      and leaves that colour as the fill style. */
  lemma BackgroundFill(s: Surface, color: string)
    ensures Added(s, BG(s, color)) == [Command.FillRect(0.0, 0.0, s.W(), s.H(), s.state.(fillStyle := color))]
    ensures BG(s, color).state.fillStyle == color
    ensures BG(s, color).commands == s.commands + Added(s, BG(s, color))
  {
  }

  /** The source layer is the background only, in the card's colour. */
  lemma SourceLayerIsBackground(s: Surface, card: Card)
    ensures |Added(s, BG(s, card.backgroundColor))| == 1
    ensures Paints(Added(s, BG(s, card.backgroundColor))) == [Some(card.backgroundColor)]
  {
  }

  /** The centre character: font 0.9 w scale, drawn at (w/2 offsetX,
      h/2 offsetY) after `rotate(rotation)`, which stays in effect. */
  lemma {:induction false} CentreCharacter(s: Surface, ch: string, cfg: CardsConfig)
    ensures Added(s, ChineseCharacter(s, ch, cfg))
         == [Command.FillText(ch, (s.W() / 2.0) * cfg.centerChar.offsetX, (s.H() / 2.0) * cfg.centerChar.offsetY,
               DrawState(cfg.textColor, Font(false, 0.9 * s.W() * cfg.centerChar.scale, cfg.font), "center", "middle",
                         s.state.filter, s.state.transform + [Op.Rotate(Radians(cfg.centerChar.rotation))]))]
    ensures ChineseCharacter(s, ch, cfg).state.transform == s.state.transform + [Op.Rotate(Radians(cfg.centerChar.rotation))]
    ensures ChineseCharacter(s, ch, cfg).stack == s.stack
    ensures ChineseCharacter(s, ch, cfg).commands == s.commands + Added(s, ChineseCharacter(s, ch, cfg))
  {
    var r := ChineseCharacter(s, ch, cfg);
    var st := DrawState(cfg.textColor, Font(false, 0.9 * s.W() * cfg.centerChar.scale, cfg.font), "center", "middle",
                        s.state.filter, s.state.transform + [Op.Rotate(Radians(cfg.centerChar.rotation))]);
    assert r.state == st;
    assert r.commands[|s.commands|..] == [r.commands[|s.commands|]];
    assert r.commands[|s.commands|] == Command.FillText(ch, (s.W() / 2.0) * cfg.centerChar.offsetX, (s.H() / 2.0) * cfg.centerChar.offsetY, st);
  }

  /** The corner numerals: the same text at the same local position twice,
      the second under translate(w, h) and a half turn, which lands it on
      the point mirrored through the card centre; save/restore leaves the
      transform and the stack as they were. */
  lemma {:induction false} CornerNumbersMirror(s: Surface, number: int, cfg: CardsConfig)
    ensures var r := NumberInCorners(s, number, cfg);
      var a := Added(s, r);
      var x, y := 0.1 * s.W() * cfg.numberInCorner.offsetX, 0.1 * s.W() * cfg.numberInCorner.offsetY;
      && |a| == 2
      && a[0].FillText? && a[1].FillText?
      && a[0].text == IntToString(number) == a[1].text
      && a[0].x == x == a[1].x && a[0].y == y == a[1].y
      && a[0].state.fillStyle == cfg.textColor == a[1].state.fillStyle
      && a[0].state.transform == s.state.transform
      && a[1].state.transform == s.state.transform + [Op.Translate(s.W(), s.H()), Op.Rotate(HalfTurns(1.0))]
      && DevicePoint(a[1].state.transform, Point(x, y)) == DevicePoint(s.state.transform, Point(s.W() - x, s.H() - y))
      && r.state.transform == s.state.transform && r.stack == s.stack
      && r.commands == s.commands + a
  {
    var x, y := 0.1 * s.W() * cfg.numberInCorner.offsetX, 0.1 * s.W() * cfg.numberInCorner.offsetY;
    HalfTurnMirrors(s.state.transform, s.W(), s.H(), Point(x, y));
  }

  /** The corner rounds: two arcs of radius 0.1 w at (0.15 w + 0.5,
      0.15 w + 0.7), the second mirrored through the card centre; both are
      filled in the configured background colour. */
  lemma {:induction false} CornerRoundsMirror(s: Surface, cfg: CardsConfig)
    ensures var r := RoundsInCorners(s, cfg);
      var a := Added(s, r);
      var d := 0.15 * s.W();
      && |a| == 6
      && a[1] == Command.Arc(d + 0.5, d + 0.7, 0.1 * s.W(), Radians(0.0), HalfTurns(2.0), s.state.transform)
      && a[4] == Command.Arc(d + 0.5, d + 0.7, 0.1 * s.W(), Radians(0.0), HalfTurns(2.0),
                             s.state.transform + [Op.Translate(s.W(), s.H()), Op.Rotate(HalfTurns(1.0))])
      && Paints(a) == [None, None, Some(cfg.backgroundColor), None, None, Some(cfg.backgroundColor)]
      && DevicePoint(a[4].transform, Point(d + 0.5, d + 0.7)) == DevicePoint(s.state.transform, Point(s.W() - (d + 0.5), s.H() - (d + 0.7)))
      && r.state.transform == s.state.transform && r.stack == s.stack
      && r.commands == s.commands + a
  {
    var d := 0.15 * s.W();
    var r := RoundsInCorners(s, cfg);
    var st := s.state.(fillStyle := cfg.backgroundColor);
    var m := st.(transform := Mirrored(s, st.transform));
    var arc := Command.Arc(d + 0.5, d + 0.7, 0.1 * s.W(), Radians(0.0), HalfTurns(2.0), st.transform);
    var a := [Command.BeginPath, arc, Command.Fill(st), Command.BeginPath, arc.(transform := m.transform), Command.Fill(m)];
    assert r.commands == s.commands + a;
    assert Added(s, r) == a;
    var p := Paints(a);
    assert p[0] == None && p[1] == None && p[3] == None && p[4] == None;
    HalfTurnMirrors(s.state.transform, s.W(), s.H(), Point(d + 0.5, d + 0.7));
  }

  /** The mask layer: white background, then the centre character in black,
      then the two corner rounds filled black, and nothing else. */
  lemma {:induction false} MaskLayerOrder(s: Surface, card: Card, cfg: CardsConfig, glyphs: map<int, string>)
    ensures var a := Added(s, Mask(s, card, cfg, glyphs));
      && |a| == 8
      && a[0].FillRect? && a[1].FillText? && a[1].text == GlyphArg(glyphs, card.number)
      && a[2].BeginPath? && a[3].Arc? && a[4].Fill? && a[5].BeginPath? && a[6].Arc? && a[7].Fill?
      && Paints(a) == [Some("white"), Some("black"), None, None, Some("black"), None, None, Some("black")]
  {
    var s1 := BG(s, "white");
    var s2 := ChineseCharacter(s1, GlyphArg(glyphs, card.number), cfg.(textColor := "black"));
    var s3 := RoundsInCorners(s2, cfg.(backgroundColor := "black"));
    assert s3 == Mask(s, card, cfg, glyphs);
    BackgroundFill(s, "white");
    CentreCharacter(s1, GlyphArg(glyphs, card.number), cfg.(textColor := "black"));
    CornerRoundsMirror(s2, cfg.(backgroundColor := "black"));
    var a1, a2, a3 := Added(s, s1), Added(s1, s2), Added(s2, s3);
    assert s3.commands == s.commands + (a1 + a2 + a3);
    AddedAppend(s, s3, a1 + a2 + a3);
    MaskShape(a1, a2, a3, GlyphArg(glyphs, card.number));
  }

  lemma MaskShape(a1: seq<Command>, a2: seq<Command>, a3: seq<Command>, text: string)
    requires |a1| == 1 && a1[0].FillRect? && a1[0].state.fillStyle == "white"
    requires |a2| == 1 && a2[0].FillText? && a2[0].text == text && a2[0].state.fillStyle == "black"
    requires |a3| == 6 && a3[0].BeginPath? && a3[1].Arc? && a3[2].Fill? && a3[3].BeginPath? && a3[4].Arc? && a3[5].Fill?
    requires Paints(a3) == [None, None, Some("black"), None, None, Some("black")]
    ensures var a := a1 + a2 + a3;
      && |a| == 8
      && a[0].FillRect? && a[1].FillText? && a[1].text == text
      && a[2].BeginPath? && a[3].Arc? && a[4].Fill? && a[5].BeginPath? && a[6].Arc? && a[7].Fill?
      && Paints(a) == [Some("white"), Some("black"), None, None, Some("black"), None, None, Some("black")]
  {
    var a := a1 + a2 + a3;
    var p, p3 := Paints(a), Paints(a3);
    assert forall i :: 2 <= i < 8 ==> a[i] == a3[i - 2] && p[i] == p3[i - 2];
  }

  /** The overlay of the full card: six path commands for the rounds, then
      the numeral twice and the centre character, all three in white. */
  lemma {:induction false} OverlayOrder(s: Surface, card: Card, cfg: CardsConfig, glyphs: map<int, string>)
    ensures var r := Overlay(s, card, cfg, glyphs);
      var a := Added(s, r);
      && r.commands == s.commands + a
      && |a| == 9
      && a[0].BeginPath? && a[1].Arc? && a[2].Fill? && a[3].BeginPath? && a[4].Arc? && a[5].Fill?
      && a[6].FillText? && a[6].text == IntToString(card.number) && a[6].state.fillStyle == "white"
      && a[7].FillText? && a[7].text == IntToString(card.number) && a[7].state.fillStyle == "white"
      && a[8].FillText? && a[8].text == GlyphArg(glyphs, card.number) && a[8].state.fillStyle == "white"
  {
    var s1 := RoundsInCorners(s, cfg);
    var s2 := NumberInCorners(s1, card.number, cfg.(textColor := "white"));
    var s3 := ChineseCharacter(s2, GlyphArg(glyphs, card.number), cfg.(textColor := "white"));
    CornerRoundsMirror(s, cfg);
    CornerNumbersMirror(s1, card.number, cfg.(textColor := "white"));
    CentreCharacter(s2, GlyphArg(glyphs, card.number), cfg.(textColor := "white"));
    var a1, a2, a3 := Added(s, s1), Added(s1, s2), Added(s2, s3);
    assert s3.commands == s.commands + (a1 + a2 + a3);
    AddedAppend(s, s3, a1 + a2 + a3);
    var a := a1 + a2 + a3;
    assert forall i :: 0 <= i < 6 ==> a[i] == a1[i];
    assert a[6] == a2[0] && a[7] == a2[1] && a[8] == a3[0];
  }

  /** The picture of the full card: the background rectangle, then the
      result image scaled to the whole canvas only when `resultbase64` is
      set. */
  lemma PictureOrder(s: Surface, card: Card)
    ensures var r := Picture(s, card);
      var k := if Truthy(card.resultbase64) then 1 else 0;
      var a := Added(s, r);
      && r.commands == s.commands + a
      && |a| == 1 + k
      && a[0] == Command.FillRect(0.0, 0.0, s.W(), s.H(), s.state.(fillStyle := card.backgroundColor))
      && (Truthy(card.resultbase64) ==>
            a[1].DrawImage? && a[1].image == card.resultbase64.value
            && a[1].x == 0.0 && a[1].y == 0.0 && a[1].w == s.W() && a[1].h == s.H())
  {
    var s1 := BG(s, card.backgroundColor);
    var a2 := if Truthy(card.resultbase64) then [Command.DrawImage(card.resultbase64.value, 0.0, 0.0, s.W(), s.H(), s1.state)] else [];
    var a := [Command.FillRect(0.0, 0.0, s.W(), s.H(), s1.state)] + a2;
    assert Picture(s, card).commands == s.commands + a;
    AddedAppend(s, Picture(s, card), a);
  }

  /** A decoded full card is its picture followed by its overlay. */
  lemma FullCardOrder(s: Surface, card: Card, cfg: CardsConfig, glyphs: map<int, string>)
    ensures var p := Picture(s, card);
      Added(s, FullCard(s, card, cfg, glyphs, true)) == Added(s, p) + Added(p, Overlay(p, card, cfg, glyphs))
  {
    var p := Picture(s, card);
    var r := Overlay(p, card, cfg, glyphs);
    PictureOrder(s, card);
    OverlayOrder(p, card, cfg, glyphs);
    assert r.commands == s.commands + (Added(s, p) + Added(p, r));
    AddedAppend(s, r, Added(s, p) + Added(p, r));
  }

  /** A result image that fails to decode stops the full card after its
      background. */
  lemma FullCardStopsOnDecodeFailure(s: Surface, card: Card, cfg: CardsConfig, glyphs: map<int, string>)
    requires Truthy(card.resultbase64)
    ensures FullCard(s, card, cfg, glyphs, false) == BG(s, card.backgroundColor)
  {
  }
}

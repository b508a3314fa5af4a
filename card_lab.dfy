/** The single-card orchestrator of src/components/CardLab.tsx: the selected
    card, the clicks that choose it, the capture callbacks that store its
    source and mask layers, and `renderCurrentCard`, which sends one
    inpainting request and stores the result on the selection. The request
    itself is a parameter: its response, null when the fetch or the parse
    failed. */
module CardLab {
  import opened Common
  import opened Cards
  import opened Rounding
  import opened InpaintBatch
  import Batch

  /** The width `onClickCard` gives a newly selected card. */
  const ClickWidth: int := 200

  /** The selection: the card record plus the `width` and `font` properties
      the click handler adds and every later spread carries along. */
  datatype Selection = Selection(card: Card, width: Option<int>, font: Option<string>)

  /** What `renderCurrentCard` passes to `inpaintImage`. */
  datatype InpaintRequest = InpaintRequest(image: string, mask: string, width: int, height: int, prompt: string)

  /** `"data:image/png;base64," + resultbase64`, where `resultbase64` is the
      whole response object: string concatenation turns any plain object
      into "[object Object]", so the stored layer never depends on the
      response. */
  function ResultLayerAsWritten(response: InpaintResult): (layer: string)
    ensures layer == Batch.DataUrlPrefix + "[object Object]"
  {
    Batch.DataUrlPrefix + "[object Object]"
  }

  /** The layer the response evidently should give, as the batch write-back
      stores it: the data URL of the first output image. A response with no
      output gives none. */
  function ResultLayer(response: InpaintResult): (layer: Option<string>)
    ensures layer.Some? <==> |response.outputs| > 0
    ensures layer.Some? ==>
              |layer.value| == |Batch.DataUrlPrefix| + |response.outputs[0]|
              && layer.value[..|Batch.DataUrlPrefix|] == Batch.DataUrlPrefix
              && layer.value[|Batch.DataUrlPrefix|..] == response.outputs[0]
  {
    if |response.outputs| > 0 then Some(Batch.DataUrlPrefix + response.outputs[0]) else None
  }

  /** As written, two responses with different images store the same
      layer, which is the data URL of neither. */
  lemma ResultLayerAsWrittenIgnoresImage()
    ensures var a := InpaintResult("a", "p", ["iVBORw0KGgo"]);
      var b := InpaintResult("b", "p", ["R0lGODlh"]);
      && ResultLayerAsWritten(a) == ResultLayerAsWritten(b)
      && ResultLayer(a) != ResultLayer(b)
      && Some(ResultLayerAsWritten(a)) != ResultLayer(a)
  {
    var a := InpaintResult("a", "p", ["iVBORw0KGgo"]);
    var b := InpaintResult("b", "p", ["R0lGODlh"]);
    assert ResultLayer(a).value[|Batch.DataUrlPrefix|] == 'i';
    assert ResultLayer(b).value[|Batch.DataUrlPrefix|] == 'R';
    assert ResultLayerAsWritten(a)[|Batch.DataUrlPrefix|] == '[';
  }

  /** The corrected layer tells responses apart: two responses whose first
      images differ store different layers, and the image can be read back
      from the layer. */
  lemma ResultLayerInjective(a: InpaintResult, b: InpaintResult)
    requires |a.outputs| > 0 && |b.outputs| > 0
    ensures ResultLayer(a) == ResultLayer(b) <==> a.outputs[0] == b.outputs[0]
  {
    if ResultLayer(a) == ResultLayer(b) {
      assert a.outputs[0] == ResultLayer(a).value[|Batch.DataUrlPrefix|..];
    }
  }

  /** The request for a selection with both layers. */
  function Request(s: Selection, renderWidth: int, prompt: string): (r: InpaintRequest)
    requires s.card.rawbase64.Some? && s.card.maskbase64.Some?
    ensures r.image == s.card.rawbase64.value && r.mask == s.card.maskbase64.value
    ensures r.width % 8 == 0 && -4 <= r.width - renderWidth <= 4
    ensures r.height % 8 == 0 && -8 <= 2 * r.height - 3 * renderWidth <= 9
    ensures |r.prompt| == |prompt| + |Batch.PromptSuffix| + |s.card.backgroundColor|
    ensures r.prompt[..|prompt|] == prompt
    ensures r.prompt[|prompt|..] == Batch.PromptSuffix + s.card.backgroundColor
  {
    InpaintRequest(s.card.rawbase64.value, s.card.maskbase64.value, RequestWidth(renderWidth),
                   RequestHeight(renderWidth), Batch.CardPrompt(prompt, s.card))
  }

  /** The state `renderCurrentCard` reads and writes. */
  class Lab {
    var selected: Option<Selection>
    var showMask: bool
    var selectedFont: string
    var renderWidth: int
    var prompt: string

    constructor (font: string, prompt: string)
      ensures selected.None? && !showMask && selectedFont == font && renderWidth == 512 && this.prompt == prompt
    {
      selected, showMask, selectedFont, renderWidth := None, false, font, 512;
      this.prompt := prompt;
    }

    /** `onClickCard(number, backgroundColor)`: the selection becomes a
        fresh card with no layers, the click width and the selected font,
        whatever was selected before. */
    method ClickCard(number: int, color: Color)
      modifies this
      ensures selected == Some(Selection(Bare(number, color), Some(ClickWidth), Some(selectedFont)))
      ensures selected.value.card.rawbase64.None? && selected.value.card.maskbase64.None?
      ensures selected.value.card.resultbase64.None?
      ensures showMask == old(showMask) && selectedFont == old(selectedFont)
      ensures renderWidth == old(renderWidth) && prompt == old(prompt)
    {
      selected := Some(Selection(Bare(number, color), Some(ClickWidth), Some(selectedFont)));
    }

    /** The `onRender` callbacks of the source and the mask card: the
        canvas's data URL becomes `rawbase64` or `maskbase64` of the
        selection; no selection stays no selection. */
    method CaptureLayer(layer: Batch.Layer, dataUrl: string)
      modifies this
      ensures old(selected).None? ==> selected.None?
      ensures old(selected).Some? ==>
                selected == Some(old(selected).value.(card := Batch.WithLayer(old(selected).value.card, layer, dataUrl)))
      ensures showMask == old(showMask) && selectedFont == old(selectedFont)
      ensures renderWidth == old(renderWidth) && prompt == old(prompt)
    {
      if selected.Some? {
        var s := selected.value;
        selected := Some(s.(card := Batch.WithLayer(s.card, layer, dataUrl)));
      }
    }

    /** `renderCurrentCard`: the mask is shown, then without a selection, or
        without a truthy source or mask layer, nothing is sent; otherwise
        the request goes out and a non-null response sets the selection's
        result layer, keeping every other property. */
    method RenderCurrentCard(response: Option<InpaintResult>) returns (sent: Option<InpaintRequest>)
      modifies this
      ensures showMask
      ensures selectedFont == old(selectedFont) && renderWidth == old(renderWidth) && prompt == old(prompt)
      ensures sent.Some? <==>
                old(selected).Some? && Truthy(old(selected).value.card.rawbase64)
                && Truthy(old(selected).value.card.maskbase64)
      ensures sent.Some? ==> sent.value == Request(old(selected).value, renderWidth, prompt)
      ensures sent.None? || response.None? || ResultLayer(response.value).None? ==> selected == old(selected)
      ensures sent.Some? && response.Some? && ResultLayer(response.value).Some? ==>
                selected == Some(old(selected).value.(card := old(selected).value.card.(resultbase64 := ResultLayer(response.value))))
    {
      showMask := true;
      if selected.None? {
        return None;
      }
      var s := selected.value;
      if !Truthy(s.card.rawbase64) {
        return None;
      } else if !Truthy(s.card.maskbase64) {
        return None;
      }
      sent := Some(Request(s, renderWidth, prompt));
      if response.None? {
        return;
      }
      var layer := ResultLayer(response.value);
      if layer.Some? {
        selected := Some(s.(card := s.card.(resultbase64 := layer)));
      }
    }
  }
}

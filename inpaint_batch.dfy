/** The batch request hook of src/hooks/useInpaintBatch.ts: one request body
    per image, index-aligned with the masks and prompts, carrying the
    configured model and the inpainting parameters merged with the explicit
    ones; plus the loading and error flags. The network call is a
    parameter: its outcome, and the fresh ids `uuidv4()` returns. */
module InpaintBatch {
  import opened Common
  import opened Config

  /** One generated result: `{ id, prompt, outputs: [{ base64_image }] }`. */
  datatype InpaintResult = InpaintResult(id: string, prompt: string, outputs: seq<string>)

  /** What the fetch and the JSON parse produce: the response body (JSON
      `null` as None), or a thrown error with its `message`, if any. */
  datatype FetchOutcome = Responds(data: Option<seq<InpaintResult>>) | Fails(message: Option<string>)

  /** A request body; keys whose value is `undefined` are absent, as
      `JSON.stringify` drops them. */
  type RequestBody = map<string, Value>

  /** An object that several holders share: lodash `merge` writes into it. */
  class ParamsObject {
    var fields: Params

    constructor (fields: Params)
      ensures this.fields == fields
    {
      this.fields := fields;
    }
  }

  /** `merge(target, source)` on flat scalar objects: the source wins on
      shared keys. */
  function Merge(target: Params, source: Params): (r: Params)
    ensures r.Keys == target.Keys + source.Keys
    ensures forall k :: k in source ==> r[k] == source[k]
    ensures forall k :: k in target && k !in source ==> r[k] == target[k]
  {
    target + source
  }

  /** An optional string property: present with its value, or absent. */
  function Optional(key: string, v: Option<string>): (m: RequestBody)
    ensures key in m <==> v.Some?
    ensures v.Some? ==> m[key] == Str(v.value)
    ensures m.Keys <= {key}
  {
    if v.Some? then map[key := Str(v.value)] else map[]
  }

  /** `{ id, model, mask: masks[i], image, prompt: prompts[i], ...merged }`:
      an index past the end of `masks` or `prompts` reads `undefined`. */
  function Body(i: nat, id: string, model: string, images: seq<Option<string>>, masks: seq<Option<string>>,
                prompts: seq<Option<string>>, merged: Params): RequestBody
    requires i < |images|
  {
    var mask := if i < |masks| then masks[i] else None;
    var prompt := if i < |prompts| then prompts[i] else None;
    map["id" := Str(id), "model" := Str(model)] + Optional("mask", mask) + Optional("image", images[i])
      + Optional("prompt", prompt) + merged
  }

  /** `images.map(...)`: the bodies, one per image in order. */
  function Bodies(images: seq<Option<string>>, masks: seq<Option<string>>, prompts: seq<Option<string>>,
                  model: string, merged: Params, freshId: nat -> string): (r: seq<RequestBody>)
    ensures |r| == |images|
    ensures forall i :: 0 <= i < |r| ==> r[i] == Body(i, freshId(i), model, images, masks, prompts, merged)
  {
    seq(|images|, i requires 0 <= i < |images| => Body(i, freshId(i), model, images, masks, prompts, merged))
  }

  /** Index pairing: body i carries image i, mask i and prompt i (absent
      when the array is too short or the entry undefined), the configured
      model and a fresh id, unless the merged parameters name the same key,
      in which case the parameter wins. */
  lemma BodiesPairIndexes(images: seq<Option<string>>, masks: seq<Option<string>>, prompts: seq<Option<string>>,
                          model: string, merged: Params, freshId: nat -> string, i: nat)
    requires i < |images|
    ensures var b := Bodies(images, masks, prompts, model, merged, freshId)[i];
      && (forall k :: k in merged ==> k in b && b[k] == merged[k])
      && ("id" !in merged ==> b["id"] == Str(freshId(i)))
      && ("model" !in merged ==> b["model"] == Str(model))
      && ("image" !in merged ==> ("image" in b <==> images[i].Some?) && (images[i].Some? ==> b["image"] == Str(images[i].value)))
      && ("mask" !in merged ==> ("mask" in b <==> i < |masks| && masks[i].Some?))
      && ("mask" !in merged && i < |masks| && masks[i].Some? ==> b["mask"] == Str(masks[i].value))
      && ("prompt" !in merged ==> ("prompt" in b <==> i < |prompts| && prompts[i].Some?))
      && ("prompt" !in merged && i < |prompts| && prompts[i].Some? ==> b["prompt"] == Str(prompts[i].value))
      && b.Keys <= {"id", "model", "mask", "image", "prompt"} + merged.Keys
  {
    var mask := if i < |masks| then masks[i] else None;
    var prompt := if i < |prompts| then prompts[i] else None;
    var b := Bodies(images, masks, prompts, model, merged, freshId)[i];
    assert b == map["id" := Str(freshId(i)), "model" := Str(model)] + Optional("mask", mask) + Optional("image", images[i])
      + Optional("prompt", prompt) + merged;
  }

  /** The state of the hook. */
  class InpaintBatchHook {
    var loading: bool
    var error: Option<string>
    const model: string
    /** `config.inpaintParams`, the object the configuration holds. */
    const inpaintParams: ParamsObject

    constructor (model: string, inpaintParams: ParamsObject)
      ensures !loading && error.None? && this.model == model && this.inpaintParams == inpaintParams
    {
      loading, error := false, None;
      this.model, this.inpaintParams := model, inpaintParams;
    }

    /** `inpaintImageBatch({ images, masks, prompts, ...params })`. The
        bodies are built with `merge(inpaintParams, params)`, which also
        writes `params` into the configuration's own object, once per image
        (so not at all for an empty batch). A failed fetch or parse returns
        None and records the message; any response body is returned as is.
        `loading` is false afterwards either way. */
    method InpaintImageBatch(images: seq<Option<string>>, masks: seq<Option<string>>, prompts: seq<Option<string>>,
                             params: Params, freshId: nat -> string, outcome: FetchOutcome)
      returns (result: Option<seq<InpaintResult>>, sent: seq<RequestBody>)
      modifies this, inpaintParams
      ensures inpaintParams.fields == if |images| > 0 then Merge(old(inpaintParams.fields), params) else old(inpaintParams.fields)
      ensures sent == Bodies(images, masks, prompts, model, Merge(old(inpaintParams.fields), params), freshId)
      ensures result == if outcome.Responds? then outcome.data else None
      ensures error == if outcome.Fails? then outcome.message else None
      ensures !loading
    {
      loading := true;
      error := None;
      var bodies: seq<RequestBody> := [];
      var i := 0;
      while i < |images|
        invariant 0 <= i <= |images| && error.None?
        invariant inpaintParams.fields == if i > 0 then Merge(old(inpaintParams.fields), params) else old(inpaintParams.fields)
        invariant bodies == Bodies(images, masks, prompts, model, Merge(old(inpaintParams.fields), params), freshId)[..i]
      {
        inpaintParams.fields := Merge(inpaintParams.fields, params);
        bodies := bodies + [Body(i, freshId(i), model, images, masks, prompts, inpaintParams.fields)];
        i := i + 1;
      }
      assert bodies == Bodies(images, masks, prompts, model, Merge(old(inpaintParams.fields), params), freshId);
      sent := bodies;
      match outcome {
        case Responds(data) =>
          result := data;
        case Fails(message) =>
          error := message;
          result := None;
      }
      loading := false;
    }
  }

  /** Merging the same parameters twice is merging them once, which is why
      the per-image merge builds every body from the same parameters. */
  lemma MergeIdempotent(target: Params, source: Params)
    ensures Merge(Merge(target, source), source) == Merge(target, source)
  {
  }
}

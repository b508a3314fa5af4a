/** The request logic of api/main.py with the constants of api/settings.py:
    the assembly of the model parameters into the module-level per-model
    dictionary, which every request shares and mutates in place; the
    bounded retry loop around the image model; the formatting of the
    outputs; and the mapping of exceptions to responses in the single and
    the batch endpoint. The image model, the image download and encoding,
    and the fresh uuid are parameters. */
module Api {
  import opened Common

  /** A Python value as the request attributes and the parameter
      dictionaries hold them. */
  datatype PyValue = Int(i: int) | Float(f: real) | Str(s: string) | NoneValue

  /** `not v` is false. */
  predicate PyTruthy(v: PyValue)
  {
    match v
    case Int(i) => i != 0
    case Float(f) => f != 0.0
    case Str(s) => s != ""
    case NoneValue => false
  }

  /** The names a parameter dictionary uses: the request's attribute names
      and the one model parameter that is none (Scheduler). */
  datatype Key =
    | Id | Model | Image | Mask | Prompt | NumOutputs | Strength | GuidanceScale
    | NumInferenceSteps | OutputFormat | Width | Height | OutputQuality | Scheduler

  /** The Python name of a key. */
  function Name(k: Key): string
  {
    match k
    case Id => "id"
    case Model => "model"
    case Image => "image"
    case Mask => "mask"
    case Prompt => "prompt"
    case NumOutputs => "num_outputs"
    case Strength => "strength"
    case GuidanceScale => "guidance_scale"
    case NumInferenceSteps => "num_inference_steps"
    case OutputFormat => "output_format"
    case Width => "width"
    case Height => "height"
    case OutputQuality => "output_quality"
    case Scheduler => "scheduler"
  }

  /** A parameter dictionary. */
  type Dict = map<Key, PyValue>

  // ---- api/settings.py ----

  const LogImages: bool := true

  const FluxModel: string := "flux-dev-inpainting"
  const StableDiffusionModel: string := "stable-diffusion-inpainting"

  /** `MODELS`: model name -> model version on the image service. */
  const Models: map<string, string> := map[
    FluxModel := "zsxkib/flux-dev-inpainting:ca8350ff748d56b3ebbd5a12bd3436c2214262a4ff8619de9890ecc41751a008",
    StableDiffusionModel := "stability-ai/stable-diffusion-inpainting:95b7223104132402a9ae91cc677285bc5eb997834bd2349fa486f53910fd68b3"]

  /** `BASE_PARAMS`: the request attributes every call needs. */
  const BaseParams: seq<Key> := [Image, Mask, Prompt]
  const BaseKeys: set<Key> := {Image, Mask, Prompt}

  const FluxParams: Dict := map[
    Width := Int(1024), Height := Int(1024), Strength := Float(1.0), GuidanceScale := Float(7.0),
    NumInferenceSteps := Int(30), OutputFormat := Str("webp"), OutputQuality := Int(90)]

  const StableDiffusionParams: Dict := map[
    Width := Int(1024), Height := Int(1024), GuidanceScale := Float(7.5),
    NumInferenceSteps := Int(25), Scheduler := Str("DPMSolverMultistep")]

  /** `PARAMS` as the module defines it, before any request. */
  const Params: map<string, Dict> := map[FluxModel := FluxParams, StableDiffusionModel := StableDiffusionParams]

  // ---- the request ----

  /** `InpaintRequest`, every field holding its value or its default. */
  datatype Request = Request(
    id: Option<string>,
    model: string,
    image: string,
    mask: string,
    prompt: string,
    numOutputs: int,
    strength: real,
    guidanceScale: real,
    numInferenceSteps: int,
    outputFormat: string,
    width: int,
    height: int,
    outputQuality: int)

  /** A request that sets only the required fields. */
  function DefaultRequest(image: string, mask: string, prompt: string): Request
  {
    Request(None, FluxModel, image, mask, prompt, 1, 1.0, 7.0, 30, "webp", 1024, 1024, 90)
  }

  /** The keys that name an attribute of the request. */
  predicate IsAttribute(k: Key)
  {
    !k.Scheduler?
  }

  /** `getattr(request, name)`, or nothing when the request has no such
      attribute. */
  function Attr(r: Request, k: Key): (v: Option<PyValue>)
    ensures v.Some? <==> IsAttribute(k)
    ensures k in BaseKeys ==> v.Some? && v.value.Str?
  {
    match k
    case Id => Some(if r.id.Some? then Str(r.id.value) else NoneValue)
    case Model => Some(Str(r.model))
    case Image => Some(Str(r.image))
    case Mask => Some(Str(r.mask))
    case Prompt => Some(Str(r.prompt))
    case NumOutputs => Some(Int(r.numOutputs))
    case Strength => Some(Float(r.strength))
    case GuidanceScale => Some(Float(r.guidanceScale))
    case NumInferenceSteps => Some(Int(r.numInferenceSteps))
    case OutputFormat => Some(Str(r.outputFormat))
    case Width => Some(Int(r.width))
    case Height => Some(Int(r.height))
    case OutputQuality => Some(Int(r.outputQuality))
    case Scheduler => None
  }

  /** `getattr(request, name, default)`. */
  function AttrOr(r: Request, k: Key, default: PyValue): (v: PyValue)
    ensures IsAttribute(k) ==> v == Attr(r, k).value
    ensures !IsAttribute(k) ==> v == default
  {
    var a := Attr(r, k);
    if a.Some? then a.value else default
  }

  /** The position in `BASE_PARAMS` of the first falsy attribute, or its
      length. */
  function FirstMissing(r: Request): (m: nat)
    ensures m <= |BaseParams|
    ensures forall i :: 0 <= i < m ==> PyTruthy(Attr(r, BaseParams[i]).value)
    ensures m < |BaseParams| ==> !PyTruthy(Attr(r, BaseParams[m]).value)
  {
    if r.image == "" then 0 else if r.mask == "" then 1 else if r.prompt == "" then 2 else 3
  }

  // ---- parameter assembly (lines 81-91) ----

  /** The dictionary after `pop("id")` and the first `j` base attributes. */
  function PartialBase(d: Dict, r: Request, j: nat): (p: Dict)
    requires j <= |BaseParams|
    ensures p.Keys == d.Keys - {Id} + set i | 0 <= i < j :: BaseParams[i]
    ensures forall i :: 0 <= i < j ==> p[BaseParams[i]] == Attr(r, BaseParams[i]).value
    ensures forall k :: k in d && k != Id && k !in BaseParams[..j] ==> p[k] == d[k]
  {
    if j == 0 then d - {Id}
    else PartialBase(d, r, j - 1)[BaseParams[j - 1] := Attr(r, BaseParams[j - 1]).value]
  }

  /** The dictionary after the assembly, when no base attribute is
      missing: every key takes the request's attribute of that name if the
      request has one, and keeps its value otherwise. */
  function Assembled(d: Dict, r: Request): Dict
  {
    var b := PartialBase(d, r, |BaseParams|);
    map k | k in b :: AttrOr(r, k, b[k])
  }

  /** What the assembly sends: the dictionary's keys without "id" and with
      the base attributes; a key the request has as an attribute carries
      the request's value, any other key its value in the dictionary. */
  lemma AssembledContents(d: Dict, r: Request)
    ensures Assembled(d, r).Keys == d.Keys - {Id} + BaseKeys
    ensures forall k :: k in Assembled(d, r) && IsAttribute(k) ==> Assembled(d, r)[k] == Attr(r, k).value
    ensures forall k :: k in Assembled(d, r) && !IsAttribute(k) ==> Assembled(d, r)[k] == d[k]
  {
    assert (set i | 0 <= i < |BaseParams| :: BaseParams[i]) == BaseKeys by {
      assert BaseParams[0] == Image && BaseParams[1] == Mask && BaseParams[2] == Prompt;
    }
  }

  /** `for param in BASE_PARAMS` and `for additional_param in
      PARAMS[model].keys()` on the shared dictionary: a falsy base attribute
      raises after the earlier ones have been written. */
  method AssembleParams(dict: PyDict, r: Request) returns (missing: bool)
    modifies dict
    ensures missing <==> FirstMissing(r) < |BaseParams|
    ensures missing ==> dict.entries == PartialBase(old(dict.entries), r, FirstMissing(r))
    ensures !missing ==> dict.entries == Assembled(old(dict.entries), r)
  {
    ghost var original := dict.entries;
    dict.entries := dict.entries - {Id};
    var i := 0;
    while i < |BaseParams|
      invariant i <= FirstMissing(r)
      invariant dict.entries == PartialBase(original, r, i)
    {
      var v := Attr(r, BaseParams[i]).value;
      if !PyTruthy(v) {
        return true;
      }
      dict.entries := dict.entries[BaseParams[i] := v];
      i := i + 1;
    }
    OverrideFromRequest(dict, r);
    missing := false;
  }

  /** `for additional_param in PARAMS[model].keys()`: each key takes the
      request's attribute of that name, or keeps its value when the request
      has none; no key is added or removed. */
  method OverrideFromRequest(dict: PyDict, r: Request)
    modifies dict
    ensures dict.entries == map k | k in old(dict.entries) :: AttrOr(r, k, old(dict.entries)[k])
  {
    ghost var base := dict.entries;
    var keys := dict.entries.Keys;
    ghost var done: set<Key> := {};
    while keys != {}
      invariant keys + done == base.Keys && keys !! done
      invariant dict.entries.Keys == base.Keys
      invariant forall k :: k in done ==> dict.entries[k] == AttrOr(r, k, base[k])
      invariant forall k :: k in keys ==> dict.entries[k] == base[k]
      decreases keys
    {
      var k :| k in keys;
      dict.entries := dict.entries[k := AttrOr(r, k, dict.entries[k])];
      keys := keys - {k};
      done := done + {k};
    }
  }

  /** A dictionary some earlier requests have written still agrees with the
      module's defaults `p`: its keys are those of `p` besides the base
      attributes, and a key no request attribute names keeps its default. */
  ghost predicate Conforms(d: Dict, p: Dict)
  {
    && d.Keys - BaseKeys == p.Keys - {Id}
    && (Scheduler in p ==> Scheduler in d && d[Scheduler] == p[Scheduler])
  }

  /** Every request overwrites every key a request attribute names, so the
      shared dictionary carries nothing from one request to the next: the
      assembly from any conforming dictionary is the assembly from the
      defaults, and it conforms again, after a completed assembly or one cut
      short by a missing attribute. */
  lemma AssemblyForgetsEarlierRequests(d: Dict, p: Dict, r: Request)
    requires Conforms(d, p)
    ensures Assembled(d, r) == Assembled(p, r)
    ensures Conforms(Assembled(d, r), p)
    ensures forall j :: 0 <= j <= |BaseParams| ==> Conforms(PartialBase(d, r, j), p)
  {
    AssembledAgree(d, p, r);
    forall j | 0 <= j <= |BaseParams|
      ensures Conforms(PartialBase(d, r, j), p)
    {
      PartialBaseConforms(d, p, r, j);
    }
    PartialBaseConforms(d, p, r, |BaseParams|);
  }

  lemma AssembledAgree(d: Dict, p: Dict, r: Request)
    requires Conforms(d, p)
    ensures Assembled(d, r) == Assembled(p, r)
  {
    var a, b := Assembled(d, r), Assembled(p, r);
    assert a.Keys == b.Keys by {
      AssembledContents(d, r);
      AssembledContents(p, r);
      forall k
        ensures k in a <==> k in b
      {
        if k !in BaseKeys {
          assert k in d.Keys - BaseKeys <==> k in p.Keys - {Id};
        }
      }
    }
    forall k | k in a
      ensures a[k] == b[k]
    {
      AssembledValue(d, r, k);
      AssembledValue(p, r, k);
      if !IsAttribute(k) {
        assert k !in BaseKeys && k != Id;
        assert k in d.Keys - BaseKeys;
      }
    }
  }

  lemma AssembledValue(d: Dict, r: Request, k: Key)
    requires k in Assembled(d, r) || (k in d && k != Id) || k in BaseKeys
    ensures k in Assembled(d, r)
    ensures IsAttribute(k) ==> Assembled(d, r)[k] == Attr(r, k).value
    ensures !IsAttribute(k) ==> k in d && Assembled(d, r)[k] == d[k]
  {
    AssembledContents(d, r);
  }

  lemma PartialBaseConforms(d: Dict, p: Dict, r: Request, j: nat)
    requires Conforms(d, p) && j <= |BaseParams|
    ensures Conforms(PartialBase(d, r, j), p)
    ensures j == |BaseParams| ==> Conforms(Assembled(d, r), p)
  {
    var b := PartialBase(d, r, j);
    assert (set i | 0 <= i < j :: BaseParams[i]) <= BaseKeys;
    forall k | k in b.Keys - BaseKeys
      ensures k in p.Keys - {Id}
    {
      assert k in d.Keys - BaseKeys;
    }
    if j == |BaseParams| {
      AssembledContents(d, r);
    }
  }


  /** The module's own defaults conform to themselves. */
  lemma DefaultsConform()
    ensures forall m :: m in Params ==> Conforms(Params[m], Params[m])
  {
    assert Conforms(FluxParams, FluxParams);
    assert Conforms(StableDiffusionParams, StableDiffusionParams);
  }

  /** The request's field defaults shadow the model's: a request that sets
      only the required fields is sent the request class's guidance scale
      and step count, not the stable-diffusion ones; only the scheduler,
      which is no request attribute, keeps its model default. */
  lemma RequestDefaultsShadowModelDefaults(image: string, mask: string, prompt: string)
    requires image != "" && mask != "" && prompt != ""
    ensures var sent := Assembled(StableDiffusionParams, DefaultRequest(image, mask, prompt));
      && GuidanceScale in sent && sent[GuidanceScale] == Float(7.0)
      && StableDiffusionParams[GuidanceScale] == Float(7.5)
      && NumInferenceSteps in sent && sent[NumInferenceSteps] == Int(30)
      && StableDiffusionParams[NumInferenceSteps] == Int(25)
      && Scheduler in sent && sent[Scheduler] == Str("DPMSolverMultistep")
      && Image in sent && sent[Image] == Str(image)
  {
    var r := DefaultRequest(image, mask, prompt);
    var sent := Assembled(StableDiffusionParams, r);
    assert GuidanceScale in StableDiffusionParams;
    AssembledValue(StableDiffusionParams, r, GuidanceScale);
    assert NumInferenceSteps in StableDiffusionParams;
    AssembledValue(StableDiffusionParams, r, NumInferenceSteps);
    assert Scheduler in StableDiffusionParams;
    AssembledValue(StableDiffusionParams, r, Scheduler);
    AssembledValue(StableDiffusionParams, r, Image);
  }

  // ---- the retry loop (lines 94-111) ----

  /** What one call of the image model does: return output URLs, raise
      `ModelError` (swallowed), raise `ReplicateError` with a status, or
      raise anything else. */
  datatype Call = Returned(outputs: seq<string>) | ModelError | ReplicateFailure(status: int) | OtherFailure

  /** `max(1, RETRY_LIMIT)`: the loop always makes a first call. */
  function RetryBound(limit: int): (b: nat)
    ensures b >= 1 && b >= limit
  {
    if limit >= 1 then limit else 1
  }

  /** A call after which the loop does not go on: enough outputs, or an
      exception the loop does not catch. */
  predicate Decisive(c: Call, need: int)
  {
    !(c.ModelError? || (c.Returned? && |c.outputs| < need))
  }

  /** The first decisive call from `k` on, or `bound`. */
  function FirstDecisive(call: nat -> Call, need: int, k: nat, bound: nat): (n: nat)
    requires k <= bound
    ensures k <= n <= bound
    ensures forall j :: k <= j < n ==> !Decisive(call(j), need)
    ensures n < bound ==> Decisive(call(n), need)
    decreases bound - k
  {
    if k == bound then bound
    else if Decisive(call(k), need) then k
    else FirstDecisive(call, need, k + 1, bound)
  }

  /** The loop's outcome and the number of calls it made. */
  datatype Fetched = Fetched(outputs: seq<string>, calls: nat) | TooFew(calls: nat) | Raised(failure: Call, calls: nat)

  /** The retry policy: no call when no output is wanted; otherwise calls
      until the first decisive one, at most `max(1, RETRY_LIMIT)` of them. */
  function RetrySpec(call: nat -> Call, need: int, limit: int): (f: Fetched)
    ensures f.calls <= RetryBound(limit)
    ensures need <= 0 <==> f == Fetched([], 0)
    ensures f.TooFew? <==> need > 0 && forall j :: 0 <= j < RetryBound(limit) ==> !Decisive(call(j), need)
    ensures f.Fetched? && need > 0 ==>
              f.calls >= 1 && call(f.calls - 1) == Returned(f.outputs) && |f.outputs| >= need
    ensures f.Raised? ==> f.calls >= 1 && call(f.calls - 1) == f.failure
                          && (f.failure.ReplicateFailure? || f.failure.OtherFailure?)
  {
    if need <= 0 then Fetched([], 0)
    else
      var n := FirstDecisive(call, need, 0, RetryBound(limit));
      if n == RetryBound(limit) then TooFew(n)
      else if call(n).Returned? then Fetched(call(n).outputs, n + 1)
      else Raised(call(n), n + 1)
  }

  /** `while len(output) < request.num_outputs`: a `ModelError` keeps the
      previous (short) output, and the loop stops once `tries` reaches
      `RETRY_LIMIT`. */
  method Retry(call: nat -> Call, need: int, limit: int) returns (f: Fetched)
    ensures f == RetrySpec(call, need, limit)
  {
    ghost var n := FirstDecisive(call, need, 0, RetryBound(limit));
    var output: seq<string> := [];
    var tries := 0;
    var calls := 0;
    while |output| < need
      invariant need <= 0 ==> output == [] && calls == 0
      invariant |output| < need ==> tries == calls && calls <= n && calls < RetryBound(limit)
      invariant need > 0 && |output| >= need ==> n < RetryBound(limit) && calls == n + 1 && call(n) == Returned(output)
      decreases RetryBound(limit) - calls
    {
      var c := call(calls);
      calls := calls + 1;
      match c {
        case Returned(o) =>
          output := o;
        case ModelError =>
        case ReplicateFailure(_) =>
          return Raised(c, calls);
        case OtherFailure =>
          return Raised(c, calls);
      }
      if |output| < need {
        tries := tries + 1;
        if tries >= limit {
          break;
        }
      }
    }
    if |output| < need {
      return TooFew(calls);
    }
    f := Fetched(output, calls);
  }

  /** A `ModelError` counts as a short output: replacing one by an empty
      output changes nothing, as long as at least one output is wanted. */
  lemma ModelErrorCountsAsShort(call: nat -> Call, need: int, limit: int, j: nat)
    requires need > 0 && call(j) == ModelError
    ensures RetrySpec(call, need, limit) == RetrySpec((k: nat) => if k == j then Returned([]) else call(k), need, limit)
  {
    var other := (k: nat) => if k == j then Returned([]) else call(k);
    FirstDecisiveAgree(call, other, need, 0, RetryBound(limit));
  }

  lemma {:induction false} FirstDecisiveAgree(c1: nat -> Call, c2: nat -> Call, need: int, k: nat, bound: nat)
    requires k <= bound
    requires forall j :: k <= j < bound ==> (Decisive(c1(j), need) <==> Decisive(c2(j), need))
    requires forall j :: k <= j < bound && Decisive(c1(j), need) ==> c1(j) == c2(j)
    ensures FirstDecisive(c1, need, k, bound) == FirstDecisive(c2, need, k, bound)
    decreases bound - k
  {
    if k < bound && !Decisive(c1(k), need) {
      FirstDecisiveAgree(c1, c2, need, k + 1, bound);
    }
  }

  // ---- format_output (lines 54-68) ----

  /** The response of one request. */
  datatype ApiResult = ApiResult(id: string, outputs: seq<string>, prompt: string)

  /** `request.id or uuid.uuid4()`. */
  function ResultId(id: Option<string>, newId: string): (r: string)
    ensures Truthy(id) ==> r == id.value
    ensures !Truthy(id) ==> r == newId
  {
    if Truthy(id) then id.value else newId
  }

  /** The formatted result, when every output image downloads and encodes
      (`encode` gives its base64 text, or nothing when
      `fetch_image_and_encode_base64` raises). */
  function Formatted(outputs: seq<string>, r: Request, encode: string -> Option<string>, newId: string): (f: Option<ApiResult>)
    ensures f.Some? <==> forall i :: 0 <= i < |outputs| ==> encode(outputs[i]).Some?
    ensures f.Some? ==> f.value.id == ResultId(r.id, newId) && f.value.prompt == r.prompt
    ensures f.Some? ==> |f.value.outputs| == |outputs|
                        && forall i :: 0 <= i < |outputs| ==> f.value.outputs[i] == encode(outputs[i]).value
  {
    if forall i :: 0 <= i < |outputs| ==> encode(outputs[i]).Some? then
      Some(ApiResult(ResultId(r.id, newId), seq(|outputs|, i requires 0 <= i < |outputs| => encode(outputs[i]).value), r.prompt))
    else None
  }

  /** `format_output`: one encoded image per output URL, in order; the
      first image that fails raises. */
  method FormatOutput(outputs: seq<string>, r: Request, encode: string -> Option<string>, newId: string)
    returns (f: Option<ApiResult>)
    ensures f == Formatted(outputs, r, encode, newId)
  {
    var output: seq<string> := [];
    for i := 0 to |outputs|
      invariant |output| == i
      invariant forall j :: 0 <= j < i ==> encode(outputs[j]).Some? && output[j] == encode(outputs[j]).value
    {
      var e := encode(outputs[i]);
      if e.None? {
        return None;
      }
      output := output + [e.value];
    }
    assert output == seq(|outputs|, i requires 0 <= i < |outputs| => encode(outputs[i]).value);
    f := Some(ApiResult(ResultId(r.id, newId), output, r.prompt));
  }

  // ---- inpaint (lines 78-113) ----

  /** How `inpaint` ends: with a result or with an exception. */
  datatype Outcome =
    | Done(result: ApiResult)
    | HttpError(status: int)
    | ReplicateError(status: int)
    | KeyError
    | OtherError

  /** `inpaint(request)` from the module's defaults `p` for the request's
      model; `backend(params, k)` is the k-th call of the image model with
      `params`. */
  function Serve(p: Dict, r: Request, backend: (Dict, nat) -> Call, encode: string -> Option<string>,
                 newId: string, limit: int): Outcome
  {
    if FirstMissing(r) < |BaseParams| then HttpError(400)
    else Answer(Assembled(p, r), r, backend, encode, newId, limit)
  }

  /** The outcome once the parameters `sent` are assembled: the retry loop
      and the formatting. Too few outputs reaches
      `ReplicateError(status=500, message=...)`, whose constructor takes no
      `message` keyword, so the raise itself fails with a `TypeError`. */
  function Answer(sent: Dict, r: Request, backend: (Dict, nat) -> Call, encode: string -> Option<string>,
                  newId: string, limit: int): Outcome
  {
    match RetrySpec(Calls(backend, sent), r.numOutputs, limit)
    case TooFew(_) => OtherError
    case Raised(c, _) => if c.ReplicateFailure? then ReplicateError(c.status) else OtherError
    case Fetched(outputs, _) =>
      var f := Formatted(outputs, r, encode, newId);
      if f.Some? then Done(f.value) else HttpError(500)
  }

  /** The successive calls of the image model with `sent`. */
  function Calls(backend: (Dict, nat) -> Call, sent: Dict): nat -> Call
  {
    (k: nat) => backend(sent, k)
  }

  /** The retry loop and `format_output` on the assembled parameters. */
  method CallModel(sent: Dict, r: Request, backend: (Dict, nat) -> Call, encode: string -> Option<string>,
                   newId: string, limit: int)
    returns (o: Outcome)
    ensures o == Answer(sent, r, backend, encode, newId, limit)
  {
    var fetched := Retry(Calls(backend, sent), r.numOutputs, limit);
    match fetched {
      case TooFew(_) =>
        o := OtherError;
      case Raised(c, _) =>
        o := if c.ReplicateFailure? then ReplicateError(c.status) else OtherError;
      case Fetched(outputs, _) =>
        var f := FormatOutput(outputs, r, encode, newId);
        o := if f.Some? then Done(f.value) else HttpError(500);
    }
  }

  /** The outcomes of `inpaint`: a missing attribute is a 400 before any
      call; too few outputs after the retries ends in the `TypeError` of
      the failed raise, which is answered with the generic 500; a replicate
      error comes only from a call that raised one; a result carries one image per output, at least the
      number asked for, and the request's prompt. */
  lemma ServeOutcomes(p: Dict, r: Request, backend: (Dict, nat) -> Call, encode: string -> Option<string>,
                      newId: string, limit: int)
    ensures FirstMissing(r) < |BaseParams| <==> Serve(p, r, backend, encode, newId, limit) == HttpError(400)
    ensures FirstMissing(r) == |BaseParams| ==>
              var f := RetrySpec(Calls(backend, Assembled(p, r)), r.numOutputs, limit);
              && (f.TooFew? ==>
                    Serve(p, r, backend, encode, newId, limit) == OtherError
                    && Respond(Serve(p, r, backend, encode, newId, limit)) == ErrorResponse(500, InternalServerError))
              && (Serve(p, r, backend, encode, newId, limit).ReplicateError? <==> f.Raised? && f.failure.ReplicateFailure?)
              && (Serve(p, r, backend, encode, newId, limit).Done? ==>
                    f.Fetched? && |Serve(p, r, backend, encode, newId, limit).result.outputs| == |f.outputs|
                    && |f.outputs| >= r.numOutputs
                    && Serve(p, r, backend, encode, newId, limit).result.prompt == r.prompt)
  {
  }

  /** A shared, mutable parameter dictionary. */
  class PyDict {
    var entries: Dict

    constructor (entries: Dict)
      ensures this.entries == entries
    {
      this.entries := entries;
    }
  }

  /** The server's module state: `PARAMS`, one dictionary object per model,
      which `inpaint` takes as `params` and writes into. */
  class Server {
    const flux: PyDict
    const stableDiffusion: PyDict

    /** `PARAMS[model]`, or nothing for a model it lacks. */
    function ParamsFor(model: string): (d: Option<PyDict>)
      ensures d.Some? <==> model in Params
      ensures model == FluxModel ==> d == Some(flux)
      ensures model == StableDiffusionModel ==> d == Some(stableDiffusion)
    {
      if model == FluxModel then Some(flux)
      else if model == StableDiffusionModel then Some(stableDiffusion)
      else None
    }

    /** Two distinct dictionaries, each conforming to its model's defaults. */
    ghost predicate Valid()
      reads flux, stableDiffusion
    {
      && flux != stableDiffusion
      && Conforms(flux.entries, FluxParams)
      && Conforms(stableDiffusion.entries, StableDiffusionParams)
    }

    constructor ()
      ensures Valid()
      ensures flux.entries == FluxParams && stableDiffusion.entries == StableDiffusionParams
    {
      flux := new PyDict(FluxParams);
      stableDiffusion := new PyDict(StableDiffusionParams);
      new;
      DefaultsConform();
    }

    /** `inpaint(request)`: an unknown model is a `KeyError`; otherwise the
        model's own dictionary is assembled in place (and left partly
        written by a missing attribute), and the outcome is the one from
        the module's defaults, whatever earlier requests wrote. */
    method Inpaint(r: Request, backend: (Dict, nat) -> Call, encode: string -> Option<string>, newId: string, limit: int)
      returns (o: Outcome)
      requires Valid()
      modifies flux, stableDiffusion
      ensures Valid()
      ensures r.model !in Params ==> o == KeyError
      ensures r.model in Params ==> o == Serve(Params[r.model], r, backend, encode, newId, limit)
      ensures r.model in Params ==>
                var dict := ParamsFor(r.model).value;
                dict.entries ==
                  if FirstMissing(r) < |BaseParams| then PartialBase(old(dict.entries), r, FirstMissing(r))
                  else Assembled(old(dict.entries), r)
      ensures r.model != FluxModel ==> flux.entries == old(flux.entries)
      ensures r.model != StableDiffusionModel ==> stableDiffusion.entries == old(stableDiffusion.entries)
    {
      var found := ParamsFor(r.model);
      if found.None? {
        return KeyError;
      }
      var dict := found.value;
      AssemblyForgetsEarlierRequests(dict.entries, Params[r.model], r);
      var missing := AssembleParams(dict, r);
      if missing {
        return HttpError(400);
      }
      o := CallModel(dict.entries, r, backend, encode, newId, limit);
    }

    /** `inpaint_post`: an unknown model is rejected before `inpaint`. */
    method InpaintPost(r: Request, backend: (Dict, nat) -> Call, encode: string -> Option<string>, newId: string, limit: int)
      returns (o: Outcome)
      requires Valid()
      modifies flux, stableDiffusion
      ensures Valid()
      ensures r.model !in Models ==> o == HttpError(400)
      ensures r.model !in Models ==> flux.entries == old(flux.entries) && stableDiffusion.entries == old(stableDiffusion.entries)
      ensures r.model in Models ==> o == Serve(Params[r.model], r, backend, encode, newId, limit)
    {
      if r.model !in Models {
        return HttpError(400);
      }
      o := Inpaint(r, backend, encode, newId, limit);
    }

    /** `inpaint(request, True)` for request i of a batch. */
    method InpaintInBatch(requests: seq<Request>, backend: (nat, Dict, nat) -> Call, encode: string -> Option<string>,
                          newId: nat -> string, limit: int, i: nat)
      returns (o: Outcome)
      requires Valid() && i < |requests|
      modifies flux, stableDiffusion
      ensures Valid()
      ensures o == Served(requests, backend, encode, newId, limit, i)
    {
      o := Inpaint(requests[i], ForRequest(backend, i), encode, newId(i), limit);
    }

    /** `inpaint_batch_post`, one request after another: the first request
        that raises ends the batch; otherwise the results in request order. */
    method InpaintBatchPost(requests: seq<Request>, backend: (nat, Dict, nat) -> Call, encode: string -> Option<string>,
                            newId: nat -> string, limit: int)
      returns (o: BatchOutcome)
      requires Valid()
      modifies flux, stableDiffusion
      ensures Valid()
      ensures o == BatchOf(Outcomes(requests, backend, encode, newId, limit), |requests|)
    {
      ghost var outs := Outcomes(requests, backend, encode, newId, limit);
      var results: seq<ApiResult> := [];
      for i := 0 to |requests|
        invariant Valid()
        invariant BatchOf(outs, i) == BatchDone(results)
      {
        var one := InpaintInBatch(requests, backend, encode, newId, limit, i);
        assert one == outs[i];
        if !one.Done? {
          BatchFailureStays(outs, i, i + 1);
          return BatchFailed(i);
        }
        results := results + [one.result];
      }
      o := BatchDone(results);
    }
  }

  /** The image model as request i of a batch calls it. */
  function ForRequest(backend: (nat, Dict, nat) -> Call, i: nat): (Dict, nat) -> Call
  {
    (p: Dict, k: nat) => backend(i, p, k)
  }

  /** The outcome of request i of a batch. */
  function Served(requests: seq<Request>, backend: (nat, Dict, nat) -> Call, encode: string -> Option<string>,
                  newId: nat -> string, limit: int, i: nat): Outcome
    requires i < |requests|
  {
    var r := requests[i];
    if r.model in Params then Serve(Params[r.model], r, ForRequest(backend, i), encode, newId(i), limit)
    else KeyError
  }

  datatype BatchOutcome = BatchDone(results: seq<ApiResult>) | BatchFailed(index: nat)

  /** The batch over the first `n` of the requests' outcomes: their results
      in order, or the first request that raised. */
  function BatchOf(outs: seq<Outcome>, n: nat): BatchOutcome
    requires n <= |outs|
  {
    if n == 0 then BatchDone([])
    else match BatchOf(outs, n - 1)
      case BatchFailed(j) => BatchFailed(j)
      case BatchDone(rs) => if outs[n - 1].Done? then BatchDone(rs + [outs[n - 1].result]) else BatchFailed(n - 1)
  }

  /** The outcome each request of a batch would have on its own. */
  function Outcomes(requests: seq<Request>, backend: (nat, Dict, nat) -> Call, encode: string -> Option<string>,
                    newId: nat -> string, limit: int): (outs: seq<Outcome>)
    ensures |outs| == |requests|
  {
    seq(|requests|, (i: nat) requires i < |requests| => Served(requests, backend, encode, newId, limit, i))
  }

  /** Once a request has raised, the later ones do not change the outcome. */
  lemma {:induction false} BatchFailureStays(outs: seq<Outcome>, j: nat, n: nat)
    requires j < n <= |outs|
    requires BatchOf(outs, n) == BatchFailed(j)
    ensures BatchOf(outs, |outs|) == BatchFailed(j)
    decreases |outs| - n
  {
    if n < |outs| {
      BatchFailureStays(outs, j, n + 1);
    }
  }

  /** All or nothing: the batch succeeds exactly when every request does,
      with one result per request in request order; otherwise it names the
      first request that raised. */
  lemma {:induction false} BatchAllOrNothing(outs: seq<Outcome>, n: nat)
    requires n <= |outs|
    ensures var o := BatchOf(outs, n);
      && (o.BatchDone? <==> forall i :: 0 <= i < n ==> outs[i].Done?)
      && (o.BatchDone? ==> |o.results| == n && forall i :: 0 <= i < n ==> o.results[i] == outs[i].result)
      && (o.BatchFailed? ==> o.index < n && !outs[o.index].Done? && forall i :: 0 <= i < o.index ==> outs[i].Done?)
  {
    if n > 0 {
      BatchAllOrNothing(outs, n - 1);
    }
  }

  // ---- error mapping (lines 118-136, 145-167) ----

  datatype ErrorBody = ReplicateDetail(status: int) | HttpDetail(status: int) | InternalServerError

  datatype Response = Single(result: ApiResult) | Many(results: seq<ApiResult>) | ErrorResponse(status: int, body: ErrorBody)

  /** `inpaint_post`'s handlers as written: a replicate error answers with
      its own status, every other exception, the `HTTPException`s included,
      with 500. */
  function Respond(o: Outcome): (resp: Response)
    ensures o.Done? <==> resp.Single?
    ensures o.ReplicateError? ==> resp == ErrorResponse(o.status, ReplicateDetail(o.status))
    ensures !o.Done? && !o.ReplicateError? ==> resp == ErrorResponse(500, InternalServerError)
  {
    match o
    case Done(result) => Single(result)
    case ReplicateError(s) => ErrorResponse(s, ReplicateDetail(s))
    case _ => ErrorResponse(500, InternalServerError)
  }

  /** The handlers as evidently intended: an `HTTPException` keeps its own
      status, as FastAPI answers it when nothing catches it. */
  function RespondIntended(o: Outcome): (resp: Response)
    ensures o.Done? <==> resp.Single?
    ensures o.HttpError? ==> resp == ErrorResponse(o.status, HttpDetail(o.status))
    ensures o.ReplicateError? ==> resp == ErrorResponse(o.status, ReplicateDetail(o.status))
    ensures o.KeyError? || o.OtherError? ==> resp == ErrorResponse(500, InternalServerError)
  {
    match o
    case Done(result) => Single(result)
    case HttpError(s) => ErrorResponse(s, HttpDetail(s))
    case ReplicateError(s) => ErrorResponse(s, ReplicateDetail(s))
    case _ => ErrorResponse(500, InternalServerError)
  }

  /** As written, an unknown model or a request with an empty image is
      answered with 500 "Internal Server Error", never with 400. */
  lemma ClientErrorsAnswer500(r: Request, backend: (Dict, nat) -> Call, encode: string -> Option<string>, newId: string, limit: int)
    requires r.model !in Models || (r.model in Params && r.image == "")
    ensures var o := if r.model !in Models then HttpError(400) else Serve(Params[r.model], r, backend, encode, newId, limit);
      Respond(o) == ErrorResponse(500, InternalServerError)
  {
  }

  /** As intended, the same requests are answered with 400. */
  lemma ClientErrorsAnswer400(r: Request, backend: (Dict, nat) -> Call, encode: string -> Option<string>, newId: string, limit: int)
    requires r.model !in Models || (r.model in Params && r.image == "")
    ensures var o := if r.model !in Models then HttpError(400) else Serve(Params[r.model], r, backend, encode, newId, limit);
      RespondIntended(o) == ErrorResponse(400, HttpDetail(400))
  {
  }

  /** `inpaint_batch_post`: the task group wraps any failure in an
      `ExceptionGroup`, which the `except ReplicateError` clause does not
      match, so every failure, a replicate error included, is a 500 with no
      partial results. */
  function RespondBatch(o: BatchOutcome): (resp: Response)
    ensures o.BatchDone? ==> resp == Many(o.results)
    ensures o.BatchFailed? ==> resp == ErrorResponse(500, InternalServerError)
  {
    match o
    case BatchDone(results) => Many(results)
    case BatchFailed(_) => ErrorResponse(500, InternalServerError)
  }
}

/** The configuration record, the result store operations and the
    empty-results effect of the config context provider
    (src/types/config.tsx). */
module Config {
  import opened Common
  import opened Cards

  /** Scale, rotation (passed to `rotate` unchanged) and position factors of
      a drawn element. */
  datatype Transform = Transform(scale: real, rotation: real, offsetX: real, offsetY: real)

  datatype CardsConfig = CardsConfig(
    colors: seq<Color>,
    font: string,
    textColor: string,
    centerChar: Transform,
    numberInCorner: Transform,
    backgroundColor: string)

  datatype DisplayConfig = DisplayConfig(viewWidth: int, showMask: bool, showSource: bool, showResult: bool)

  /** A JSON scalar held in a parameter object. */
  datatype Value = Num(n: real) | Str(s: string) | Bool(b: bool)

  /** A plain object of scalar parameters, keyed by property name. */
  type Params = map<string, Value>

  /** The persisted configuration. `results` is not part of the declared
      interface: only the empty-results effect ever sets it. */
  datatype Config = Config(
    colors: seq<Color>,
    cardsConfig: CardsConfig,
    displayConfig: DisplayConfig,
    prompt: string,
    renderWidth: int,
    model: string,
    inpaintParams: Params,
    results: Option<Results>)

  /** A `(key, value)` argument of `setConfigValue`, one case per key of the
      declared interface. */
  datatype ConfigEntry =
    | ColorsEntry(colors: seq<Color>)
    | CardsConfigEntry(cardsConfig: CardsConfig)
    | DisplayConfigEntry(displayConfig: DisplayConfig)
    | PromptEntry(prompt: string)
    | RenderWidthEntry(renderWidth: int)
    | ModelEntry(model: string)
    | InpaintParamsEntry(inpaintParams: Params)

  datatype ConfigKey = ColorsKey | CardsConfigKey | DisplayConfigKey | PromptKey | RenderWidthKey | ModelKey | InpaintParamsKey

  function KeyOf(e: ConfigEntry): ConfigKey
  {
    match e
    case ColorsEntry(_) => ColorsKey
    case CardsConfigEntry(_) => CardsConfigKey
    case DisplayConfigEntry(_) => DisplayConfigKey
    case PromptEntry(_) => PromptKey
    case RenderWidthEntry(_) => RenderWidthKey
    case ModelEntry(_) => ModelKey
    case InpaintParamsEntry(_) => InpaintParamsKey
  }

  /** `config[key]`, packaged with its key. */
  function Get(c: Config, k: ConfigKey): (e: ConfigEntry)
    ensures KeyOf(e) == k
  {
    match k
    case ColorsKey => ColorsEntry(c.colors)
    case CardsConfigKey => CardsConfigEntry(c.cardsConfig)
    case DisplayConfigKey => DisplayConfigEntry(c.displayConfig)
    case PromptKey => PromptEntry(c.prompt)
    case RenderWidthKey => RenderWidthEntry(c.renderWidth)
    case ModelKey => ModelEntry(c.model)
    case InpaintParamsKey => InpaintParamsEntry(c.inpaintParams)
  }

  /** `setConfigValue(key, value)`: `{ ...prevConfig, [key]: value }`. The
      named field takes the new value and every other field, including the
      undeclared `results`, keeps its old one. */
  function SetConfigValue(c: Config, e: ConfigEntry): (r: Config)
    ensures Get(r, KeyOf(e)) == e
    ensures forall k :: k != KeyOf(e) ==> Get(r, k) == Get(c, k)
    ensures r.results == c.results
  {
    match e
    case ColorsEntry(v) => c.(colors := v)
    case CardsConfigEntry(v) => c.(cardsConfig := v)
    case DisplayConfigEntry(v) => c.(displayConfig := v)
    case PromptEntry(v) => c.(prompt := v)
    case RenderWidthEntry(v) => c.(renderWidth := v)
    case ModelEntry(v) => c.(model := v)
    case InpaintParamsEntry(v) => c.(inpaintParams := v)
  }

  /** Setting a field to the value it already has changes nothing. */
  lemma {:induction false} SetConfigValueOwnValue(c: Config, k: ConfigKey)
    ensures SetConfigValue(c, Get(c, k)) == c
  {
    match k
    case ColorsKey =>
    case CardsConfigKey =>
    case DisplayConfigKey =>
    case PromptKey =>
    case RenderWidthKey =>
    case ModelKey =>
    case InpaintParamsKey =>
  }

  /** DEFAULT_TRANSFORM. */
  const DefaultTransform := Transform(1.0, 0.0, 1.0, 1.0)

  const DefaultPrompt := "A steampunk inspired card design featuring intricate gears and cogs, with a color palette of brass, copper, and iron."

  /** DEFAULT_CONFIG; `firstFont` is `FONTS[0]`, whose value is not part of
      this model. */
  function DefaultConfig(firstFont: string): (c: Config)
    ensures c.colors == ["red", "green", "blue"] && c.cardsConfig.colors == c.colors
    ensures c.cardsConfig.centerChar == DefaultTransform && c.cardsConfig.numberInCorner == DefaultTransform
    ensures c.renderWidth == 512 && c.model == "stable-diffusion-inpainting"
    ensures c.results.None?
  {
    Config(
      ["red", "green", "blue"],
      CardsConfig(["red", "green", "blue"], firstFont, "white", DefaultTransform, DefaultTransform, "black"),
      DisplayConfig(300, false, false, true),
      DefaultPrompt,
      512,
      "stable-diffusion-inpainting",
      map["strength" := Num(1.0), "num_outputs" := Num(1.0), "output_format" := Str("png"),
          "guidance_scale" := Num(7.0), "output_quality" := Num(90.0), "num_inference_steps" := Num(30.0)],
      None)
  }

  /** `setResult(color, number, card)`: `{ ...prev, [color]: { ...prev[color],
      [number]: card } }`. Upsert of one slot; the slot is the given pair,
      not the card's own `backgroundColor`/`number`. */
  function SetResult(results: Results, color: Color, number: int, card: Card): (r: Results)
    ensures Lookup(r, color, number) == Some(card)
    ensures forall n :: n != number ==> Lookup(r, color, n) == Lookup(results, color, n)
    ensures forall c :: c != color ==> (c in r <==> c in results) && (c in r ==> r[c] == results[c])
    ensures r.Keys == results.Keys + {color}
  {
    var row := if color in results then results[color] else map[];
    results[color := row[number := card]]
  }

  /** `getResult(card)`: the card stored under the card's own slot, or null. */
  function GetResult(results: Results, card: Card): (r: Option<Card>)
    ensures r.None? <==> card.backgroundColor !in results || card.number !in results[card.backgroundColor]
    ensures r.Some? ==> r.value == results[card.backgroundColor][card.number]
  {
    Lookup(results, card.backgroundColor, card.number)
  }

  /** Get after put: any card naming the slot reads back what was put. */
  lemma GetAfterSetResult(results: Results, color: Color, number: int, card: Card, probe: Card)
    requires probe.backgroundColor == color && probe.number == number
    ensures GetResult(SetResult(results, color, number, card), probe) == Some(card)
  {
  }

  /** Putting the same card twice leaves the same store as putting it once. */
  lemma {:induction false} SetResultIdempotent(results: Results, color: Color, number: int, card: Card)
    ensures SetResult(SetResult(results, color, number, card), color, number, card)
         == SetResult(results, color, number, card)
  {
    var once := SetResult(results, color, number, card);
    var twice := SetResult(once, color, number, card);
    assert once[color][number := card] == once[color];
    assert twice.Keys == once.Keys;
  }

  /** No identity check: a card whose own slot differs from the one it is
      stored under is stored anyway, and reading it back by its own slot
      does not find it. */
  lemma SetResultIgnoresCardIdentity(card: Card, color: Color)
    requires card.backgroundColor != color
    ensures Lookup(SetResult(map[], color, card.number, card), color, card.number) == Some(card)
    ensures GetResult(SetResult(map[], color, card.number, card), card).None?
  {
  }

  /** The empty-results effect as written: when the store has no colour at
      all, a `results` field with empty red, green and blue maps is added to
      the configuration, and the result store itself is left as it was. */
  function EmptyResultsEffect(config: Config, results: Results): (r: (Config, Results))
    ensures r.1 == results
    ensures |results| == 0 ==> r.0 == config.(results := Some(map["red" := map[], "green" := map[], "blue" := map[]]))
    ensures |results| != 0 ==> r.0 == config
    ensures forall k :: Get(r.0, k) == Get(config, k)
  {
    if |results| == 0 then
      (config.(results := Some(map["red" := map[], "green" := map[], "blue" := map[]])), results)
    else
      (config, results)
  }

  /** Names of the members of the context value the provider publishes
      (config, setConfigValue, results, setResult, getResult). */
  const ProviderMembers: set<string> := {"config", "setConfigValue", "results", "setResult", "getResult"}

  /** The members the batch orchestrator destructures: it also expects a
      `setResults`, which the provider does not publish. */
  lemma ProviderLacksSetResults()
    ensures "setResults" !in ProviderMembers
    ensures "setResult" in ProviderMembers
  {
  }

  /** The provider value with the store setter published as well, which is
      what the batch orchestrator's final `setResults(newResults)` needs. */
  function ProviderMembersFixed(): (s: set<string>)
    ensures "setResults" in s && ProviderMembers < s
  {
    ProviderMembers + {"setResults"}
  }
}

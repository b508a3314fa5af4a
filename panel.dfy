/** The configuration handlers of src/components/ConfigurableCardPanel.tsx:
    the colour toggle, the font choice and the one-field handlers. Each
    computes the new value from one snapshot of the configuration and hands
    it to `setConfigValue`. */
module Panel {
  import opened Common
  import opened Cards
  import opened Config

  /** `colors.filter(c => c !== color)`. */
  function Without(colors: seq<Color>, color: Color): (r: seq<Color>)
    ensures color !in r
    ensures forall c :: c != color ==> (c in r <==> c in colors)
    ensures |r| <= |colors|
  {
    if colors == [] then []
    else if colors[0] == color then Without(colors[1..], color)
    else [colors[0]] + Without(colors[1..], color)
  }

  /** Filtering out a colour the list lacks gives the list back. */
  lemma {:induction false} WithoutAbsent(colors: seq<Color>, color: Color)
    requires color !in colors
    ensures Without(colors, color) == colors
  {
    if colors != [] {
      WithoutAbsent(colors[1..], color);
      assert colors == [colors[0]] + colors[1..];
    }
  }

  /** Filtering keeps the number of occurrences of every other colour. */
  lemma {:induction false} WithoutKeepsOthers(colors: seq<Color>, color: Color)
    ensures multiset(Without(colors, color)) == multiset(colors)[color := 0]
  {
    if colors != [] {
      WithoutKeepsOthers(colors[1..], color);
      assert colors == [colors[0]] + colors[1..];
    }
  }

  /** Filtering a single colour keeps it exactly when it is not the one
      removed. */
  lemma WithoutSingle(c: Color, color: Color)
    ensures Without([c], color) == if c == color then [] else [c]
  {
    assert [c][1..] == [];
  }

  /** Filtering distributes over concatenation, so the remaining colours
      keep their relative order: the grid's rows and the batch's colour-major
      order follow the list that is left. */
  lemma {:induction false} WithoutConcat(a: seq<Color>, b: seq<Color>, color: Color)
    ensures Without(a + b, color) == Without(a, color) + Without(b, color)
  {
    if a == [] {
      assert [] + b == b;
    } else {
      WithoutConcat(a[1..], b, color);
      assert (a + b)[0] == a[0];
      assert (a + b)[1..] == a[1..] + b;
      if a[0] != color {
        var wa, wb := Without(a[1..], color), Without(b, color);
        assert [a[0]] + (wa + wb) == ([a[0]] + wa) + wb;
      }
    }
  }

  /** `handleColorToggle(color)`: the new `colors` list. */
  function ToggleColor(colors: seq<Color>, color: Color): seq<Color>
  {
    if color in colors then Without(colors, color) else colors + [color]
  }

  /** A present colour loses all its occurrences, and nothing else changes
      in count; an absent colour is appended once at the end. */
  lemma ToggleColorEffect(colors: seq<Color>, color: Color)
    ensures color in colors ==>
              color !in ToggleColor(colors, color)
              && multiset(ToggleColor(colors, color)) == multiset(colors)[color := 0]
    ensures color !in colors ==> ToggleColor(colors, color) == colors + [color]
  {
    WithoutKeepsOthers(colors, color);
  }

  /** Membership of the toggled colour flips; every other colour keeps its
      membership. */
  lemma ToggleColorMembership(colors: seq<Color>, color: Color)
    ensures color in ToggleColor(colors, color) <==> color !in colors
    ensures forall c :: c != color ==> (c in ToggleColor(colors, color) <==> c in colors)
  {
  }

  /** Toggling an absent colour twice gives the original list back. */
  lemma ToggleColorTwice(colors: seq<Color>, color: Color)
    requires color !in colors
    ensures ToggleColor(ToggleColor(colors, color), color) == colors
  {
    var once := colors + [color];
    assert color in once;
    WithoutAbsent(colors, color);
    WithoutAppend(colors, color);
  }

  lemma {:induction false} WithoutAppend(colors: seq<Color>, color: Color)
    ensures Without(colors + [color], color) == Without(colors, color)
  {
    if colors == [] {
      assert [] + [color] == [color];
      assert [color][1..] == [];
    } else {
      WithoutAppend(colors[1..], color);
      assert (colors + [color])[1..] == colors[1..] + [color];
    }
  }

  /** The configuration after the colour toggle. */
  function HandleColorToggle(config: Config, color: Color): (r: Config)
    ensures r.colors == ToggleColor(config.colors, color)
    ensures forall k :: k != ColorsKey ==> Get(r, k) == Get(config, k)
    ensures r.results == config.results
  {
    SetConfigValue(config, ColorsEntry(ToggleColor(config.colors, color)))
  }

  /** `FONTS.find(font => font === value)`. */
  function FindFont(fonts: seq<string>, value: string): (r: Option<string>)
    ensures r.Some? <==> value in fonts
    ensures r.Some? ==> r.value == value
  {
    if value in fonts then Some(value) else None
  }

  /** `handleFontChange`: a value from the font list (and not the empty
      string, which is falsy) becomes `cardsConfig.font`; any other value
      leaves the configuration as it was. */
  function HandleFontChange(config: Config, fonts: seq<string>, value: string): (r: Config)
    ensures value in fonts && value != "" ==>
              r.cardsConfig == config.cardsConfig.(font := value)
              && (forall k :: k != CardsConfigKey ==> Get(r, k) == Get(config, k))
              && r.results == config.results
    ensures !(value in fonts && value != "") ==> r == config
    ensures r.cardsConfig.colors == config.cardsConfig.colors
    ensures r.cardsConfig.centerChar == config.cardsConfig.centerChar
    ensures r.cardsConfig.numberInCorner == config.cardsConfig.numberInCorner
    ensures r.cardsConfig.textColor == config.cardsConfig.textColor
    ensures r.cardsConfig.backgroundColor == config.cardsConfig.backgroundColor
  {
    var selected := FindFont(fonts, value);
    if Truthy(selected) then
      SetConfigValue(config, CardsConfigEntry(config.cardsConfig.(font := selected.value)))
    else
      config
  }

  /** The prompt text area. */
  function HandlePromptChange(config: Config, value: string): (r: Config)
    ensures r.prompt == value
    ensures forall k :: k != PromptKey ==> Get(r, k) == Get(config, k)
    ensures r.results == config.results
  {
    SetConfigValue(config, PromptEntry(value))
  }

  /** The model select. */
  function HandleModelChange(config: Config, value: string): (r: Config)
    ensures r.model == value
    ensures forall k :: k != ModelKey ==> Get(r, k) == Get(config, k)
    ensures r.results == config.results
  {
    SetConfigValue(config, ModelEntry(value))
  }

  /** Which display checkbox was clicked. */
  datatype DisplayFlag = ShowMask | ShowSource | ShowResult

  /** The three display checkboxes: the chosen flag takes the checkbox
      state, the other flags and the view width are kept, and no other
      configuration field changes. */
  function HandleDisplayToggle(config: Config, flag: DisplayFlag, checked: bool): (r: Config)
    ensures r.displayConfig.viewWidth == config.displayConfig.viewWidth
    ensures r.displayConfig.showMask == (if flag == ShowMask then checked else config.displayConfig.showMask)
    ensures r.displayConfig.showSource == (if flag == ShowSource then checked else config.displayConfig.showSource)
    ensures r.displayConfig.showResult == (if flag == ShowResult then checked else config.displayConfig.showResult)
    ensures forall k :: k != DisplayConfigKey ==> Get(r, k) == Get(config, k)
    ensures r.results == config.results
  {
    var d := config.displayConfig;
    var nd := match flag
      case ShowMask => d.(showMask := checked)
      case ShowSource => d.(showSource := checked)
      case ShowResult => d.(showResult := checked);
    SetConfigValue(config, DisplayConfigEntry(nd))
  }

  /** Which transform widget reported a change. */
  datatype TransformTarget = CenterChar | NumberInCorner

  /** The two transform widgets: the chosen transform is replaced, the rest
      of `cardsConfig` and every other configuration field are kept. */
  function HandleTransformChange(config: Config, target: TransformTarget, t: Transform): (r: Config)
    ensures r.cardsConfig.centerChar == (if target == CenterChar then t else config.cardsConfig.centerChar)
    ensures r.cardsConfig.numberInCorner == (if target == NumberInCorner then t else config.cardsConfig.numberInCorner)
    ensures r.cardsConfig.colors == config.cardsConfig.colors && r.cardsConfig.font == config.cardsConfig.font
    ensures r.cardsConfig.textColor == config.cardsConfig.textColor
    ensures r.cardsConfig.backgroundColor == config.cardsConfig.backgroundColor
    ensures forall k :: k != CardsConfigKey ==> Get(r, k) == Get(config, k)
    ensures r.results == config.results
  {
    var c := config.cardsConfig;
    var nc := match target
      case CenterChar => c.(centerChar := t)
      case NumberInCorner => c.(numberInCorner := t);
    SetConfigValue(config, CardsConfigEntry(nc))
  }
}

# Gang-of-four card deck generator, modelled in Dafny

The system generates a deck of illustrated playing cards. Each card is a
slot (a colour and a number from 1 to 10) in a result store. The browser
front end draws two layers for each card on a canvas: a plain source layer
and a black-and-white mask layer. It then asks a small Python server to
inpaint them, which in turn calls an image model. The returned image is
stored as the card's `resultbase64` and drawn as the full card.

The model covers:
- the result store and the configuration record, including the
  empty-results effect of the context provider;
- the card grid, and the configuration panel's handlers;
- the persistence hook, which writes through to browser storage;
- the two orchestrators:
  - the single-card lab, with its selection, its capture callbacks and
    `renderCurrentCard`;
  - the batch button, with its work set, its keyed reference map, the
    request arrays, the count check and the write-back into the store;
- the batch request hook;
- the rounding of the request size;
- the canvas layer renderers, and the older inline card renderer;
- on the server:
  - parameter assembly into the shared per-model dictionary;
  - the bounded retry loop and output formatting;
  - the mapping of exceptions to responses in the single and batch
    endpoints;
  - the log-file name sanitiser.

The model takes the source's own form:
- **Code that changes state is imperative.** Each of these is a `class` whose methods are proved against pure specification functions:
  - the drawing routines on a canvas object;
  - the batch button and its result store;
  - the lab's selection;
  - the hook's flags and the shared parameter object;
  - the storage hook;
  - the server's shared parameter dictionaries.
- **Code that only computes is functions and lemmas:** the grid, the handlers, the store updates, rounding and the sanitiser.

| file | module |
|---|---|
| common.dfy | Common: options, JavaScript truthiness, integer to decimal text |
| cards.dfy | Cards: the card record and the result store |
| config.dfy | Config: src/types/config.tsx |
| rounding.dfy | Rounding: src/services/helpers.ts and the request size |
| canvas.dfy | Canvas2D: the 2D drawing context as an object with a command log |
| renderers.dfy | Renderers: src/services/canvas.ts |
| card_view.dfy | CardView: src/components/Card.tsx |
| card_list.dfy | CardList: src/components/CardList.tsx |
| panel.dfy | Panel: src/components/ConfigurableCardPanel.tsx |
| local_storage.dfy | LocalStorage: src/hooks/useLocalStorage.ts |
| inpaint_batch.dfy | InpaintBatch: src/hooks/useInpaintBatch.ts |
| js_object.dfy | JsObject: key-ordered plain objects, lodash `fromPairs` and `values` |
| batch.dfy | Batch: src/components/BatchButton.tsx |
| card_lab.dfy | CardLab: src/components/CardLab.tsx |
| api_helpers.dfy | ApiHelpers: `sanitize_filename` of api/helpers.py |
| api.dfy | Api: api/main.py with the constants of api/settings.py |

## Model

| member | source | states |
|---|---|---|
| Cards.Respread | src/components/CardList.tsx:33-35 | spreading a stored card (or nothing) under a slot keeps the stored layers and takes number and colour from the slot; an absent card gives a bare card |
| Cards.Lookup | src/types/config.tsx:140 | `results?.[color]?.[number]` is present exactly when both levels exist, and is then the stored card |
| Rounding.RoundToNearest | src/services/helpers.ts:4-5 | the result is a multiple of `nearest`, at most half a step above and less than half a step below `n` |
| Rounding.RoundToNearestUnique | src/services/helpers.ts:4-5 | any multiple within that half-step window equals the result, so the contract determines it |
| Rounding.RoundToNearestFixesMultiples | src/services/helpers.ts:5 | exact multiples are fixed points |
| Rounding.RoundToNearestIdempotent | src/services/helpers.ts:5 | rounding twice equals rounding once |
| Rounding.RoundToNearestMonotone | src/services/helpers.ts:5 | rounding is monotone non-decreasing in `n` |
| Rounding.RoundToNearestTies | src/services/helpers.ts:5 | ties go towards +infinity as `Math.round` does: 4 to 8, -4 to 0, 12 to 16 |
| Rounding.RoundThreeHalves | src/components/BatchButton.tsx:94 | `Math.round(w * 1.5)` for an integer width: twice the result is 3w or 3w + 1 |
| Rounding.RequestWidth | src/components/BatchButton.tsx:93 | the request width is a multiple of 8 within 4 of the render width |
| Rounding.RequestHeight | src/components/BatchButton.tsx:94 | the request height is a multiple of 8 and twice it lies between 3w - 8 and 3w + 9 |
| Config.SetConfigValue | src/types/config.tsx:122-127 | the named field takes the new value; every other field, the undeclared `results` included, is unchanged |
| Config.SetConfigValueOwnValue | src/types/config.tsx:122-127 | writing a field's own value back leaves the configuration equal |
| Config.DefaultConfig | src/types/config.tsx:57-85 | the default palette is red, green, blue in both places; both transforms are the default transform; the render width is 512; the model is stable-diffusion-inpainting; there is no `results` field |
| Config.SetResult | src/types/config.tsx:129-137 | upsert of one slot: the slot reads the card; other numbers of the colour and other colours are unchanged; the colour set gains the colour |
| Config.GetResult | src/types/config.tsx:139-141 | null exactly when the card's colour or its number has no entry; otherwise the card stored under that colour and number |
| Config.GetAfterSetResult | src/types/config.tsx:129-141 | get after put: any card naming the slot reads back the stored card |
| Config.SetResultIdempotent | src/types/config.tsx:129-137 | putting the same card twice equals putting it once |
| Config.SetResultIgnoresCardIdentity | src/types/config.tsx:129-137 | the slot is the argument pair, not the card's own colour and number: a mismatched card is stored and cannot be read back by itself |
| Config.EmptyResultsEffect | src/types/config.tsx:143-153 | on an empty store, a `results` field with empty red, green and blue maps is added to the configuration; the store itself and every declared field are untouched |
| Config.ProviderLacksSetResults | src/types/config.tsx:155-164 | the provider publishes `setResult` but no `setResults` |
| Config.ProviderMembersFixed | src/types/config.tsx:155-164 | the corrected provider value publishes `setResults` in addition to every existing member |
| Canvas2D.HalfTurnMirrors | src/services/canvas.ts:60-62 | `translate(w, h)` then `rotate(Math.PI)` maps a point (x, y) to (w - x, h - y), its mirror image through the card centre |
| Canvas2D.SaveRestore | src/services/canvas.ts:60-68 | `save` followed by `restore` gives back the drawing state and the stack |
| Renderers.GlyphArg | src/services/canvas.ts:129 | the character table is indexed without a check: a missing number draws the text "undefined" |
| Renderers.Blur | src/services/canvas.ts:5-7 | only the filter changes, to a blur of the given radius |
| Renderers.Unblur | src/services/canvas.ts:9-11 | only the filter changes, back to none |
| Renderers.DrawBG | src/services/canvas.ts:13-20 | the canvas ends as `BG`: the fill style is set and one full-canvas rectangle is logged |
| Renderers.DrawChineseCharacter | src/services/canvas.ts:22-39 | the canvas ends as `ChineseCharacter`: the text style is set, the rotation is appended and one text is drawn |
| Renderers.DrawNumberInCorners | src/services/canvas.ts:41-69 | the canvas ends as `NumberInCorners`: two numerals, with save and restore balanced |
| Renderers.DrawRoundsInCorners | src/services/canvas.ts:71-103 | the canvas ends as `RoundsInCorners`: two filled circles, with save and restore balanced |
| Renderers.DrawImage | src/services/canvas.ts:105-111 | one image is logged, scaled to (0, 0, w, h) |
| Renderers.DrawSourceImage | src/services/canvas.ts:113-120 | the source layer is the background in the card's colour |
| Renderers.DrawMask | src/services/canvas.ts:122-137 | the canvas ends as `Mask`: white background, black character, black rounds |
| Renderers.DrawFullCard | src/services/canvas.ts:148-168 | it succeeds unless a truthy result image fails to load; the canvas ends as `FullCard` |
| Renderers.BackgroundFill | src/services/canvas.ts:13-20 | `drawBG` sets the fill style and adds exactly one rectangle (0, 0, width, height) in that colour |
| Renderers.SourceLayerIsBackground | src/services/canvas.ts:113-120 | the source layer adds a single command, painting in the card's background colour |
| Renderers.CentreCharacter | src/services/canvas.ts:22-39 | one text is drawn: font 0.9 w scale, at (w/2 offsetX, h/2 offsetY), centred; the rotation stays in the transform afterwards; the stack is untouched |
| Renderers.CornerNumbersMirror | src/services/canvas.ts:41-69 | the numeral is drawn twice at the same local position; the second copy lands on the point mirrored through the centre; the transform and the stack are restored |
| Renderers.CornerRoundsMirror | src/services/canvas.ts:71-103 | two arcs of radius 0.1 w at (0.15 w + 0.5, 0.15 w + 0.7); the second is mirrored through the centre; both are filled in the configured colour; the transform is restored |
| Renderers.MaskLayerOrder | src/services/canvas.ts:122-137 | the mask is, in order and nothing else: a white rectangle, the black character, then two black-filled circles |
| Renderers.OverlayOrder | src/services/canvas.ts:159-167 | after the picture come the rounds, the numeral twice in white and the centre character in white |
| Renderers.PictureOrder | src/services/canvas.ts:154-158 | the background rectangle comes first; the result image over the whole canvas follows only when `resultbase64` is truthy |
| Renderers.FullCardOrder | src/services/canvas.ts:148-168 | a full card is its picture followed by its overlay |
| Renderers.FullCardStopsOnDecodeFailure | src/services/canvas.ts:155-157 | when the result image fails to load, only the background has been drawn |
| CardView.WithDefaults | src/components/Card.tsx:20-30 | omitted props default to width 300, "sans-serif", text on, no mask, rounds on |
| CardView.CanvasHeight | src/components/Card.tsx:41-42 | the canvas height is the integer part of 1.5 times the width |
| CardView.Glyph | src/components/Card.tsx:100-101 | the centre character is present exactly when the table has the number |
| CardView.DrawCircle | src/components/Card.tsx:66-75 | a path, an arc centred by the measured text widths and a fill are appended |
| CardView.DrawCorners | src/components/Card.tsx:78-97 | the canvas ends as `Corners`: the numeral at (d, d), then again under the mirrored transform, with circles before and after on request |
| CardView.DrawCentre | src/components/Card.tsx:102-111 | the canvas ends as `Centre`: the character at (w/2, h/2) in the configured font |
| CardView.RenderCard | src/components/Card.tsx:35-118 | an unmounted canvas is left alone; otherwise the canvas ends as `CardSurface`, and `onRender` receives it after the last drawing call |
| CardView.CardSize | src/components/Card.tsx:41-42 | the canvas is `width` wide and the integer part of 1.5 `width` tall |
| CardView.CardLog | src/components/Card.tsx:50-112 | the command log is the background, then the optional circle, the two numerals, the optional circle and the optional centre character |
| CardView.CardVariantStyles | src/components/Card.tsx:44-58 | the mask variant is blurred with a white background and black painting; the other has no filter, the card's colour as background and white painting |
| CardView.CardWithoutText | src/components/Card.tsx:62 | with `renderText` off, only the background is drawn |
| CardView.CardCircles | src/components/Card.tsx:65-96 | circles appear exactly for a mask with text and `roundAroundText`; there are then two of radius 0.1 w, the second mirrored through the centre |
| CardView.CardCornerNumbers | src/components/Card.tsx:78-84 | the numeral is at (0.1 w, 0.1 w) and again under translate(w, h) and a half turn, which lands it at (w - 0.1 w, h - 0.1 w) |
| CardView.CardCentreCharacter | src/components/Card.tsx:99-112 | the centre character is drawn last, exactly when there is text and a truthy table entry; it is at (w/2, h/2) with size 0.9 w, or 1.01 times that on the mask; the log length follows |
| CardList.StoredCard | src/components/CardList.tsx:33 | an absent store gives nothing, otherwise the two-level lookup |
| CardList.Row | src/components/CardList.tsx:28-40 | ten cards, card i being the card data of slot i + 1 |
| CardList.Grid | src/components/CardList.tsx:23-42 | one row per colour, in order |
| CardList.GridShape | src/components/CardList.tsx:23-36 | every row has 10 cards numbered 1 to 10 in order, each in its row's colour |
| CardList.CardDataFromStore | src/components/CardList.tsx:32-36 | the card data is the stored card with number and colour overwritten; an absent entry gives a bare card |
| CardList.GridShowsOnlyOneToTen | src/components/CardList.tsx:28-35 | every card the grid shows is numbered 1 to 10, never 0 |
| CardList.OnClick | src/components/CardList.tsx:38 | a click calls `onClickCard(index + 1, color)` exactly when a handler is given |
| Panel.Without | src/components/ConfigurableCardPanel.tsx:23 | the filter removes the colour and keeps membership of every other colour |
| Panel.WithoutSingle | src/components/ConfigurableCardPanel.tsx:23 | a one-colour list is kept exactly when its colour is not the one removed |
| Panel.WithoutConcat | src/components/ConfigurableCardPanel.tsx:23 | filtering distributes over concatenation, so the remaining colours keep their relative order |
| Panel.WithoutAbsent | src/components/ConfigurableCardPanel.tsx:23 | filtering out an absent colour returns the list unchanged |
| Panel.WithoutKeepsOthers | src/components/ConfigurableCardPanel.tsx:23 | the count of every other colour is unchanged and the removed colour's count is zero |
| Panel.WithoutAppend | src/components/ConfigurableCardPanel.tsx:23 | filtering after appending the colour equals filtering the original list |
| Panel.ToggleColorEffect | src/components/ConfigurableCardPanel.tsx:18-26 | a present colour loses all its occurrences and nothing else changes in count; an absent colour is appended once at the end |
| Panel.ToggleColorMembership | src/components/ConfigurableCardPanel.tsx:18-26 | membership of the toggled colour flips; every other colour keeps its membership |
| Panel.ToggleColorTwice | src/components/ConfigurableCardPanel.tsx:22-24 | toggling an absent colour twice restores the list |
| Panel.HandleColorToggle | src/components/ConfigurableCardPanel.tsx:18-26 | only `colors` changes, to the toggled list; every other field and the undeclared `results` are unchanged |
| Panel.FindFont | src/components/ConfigurableCardPanel.tsx:30 | `FONTS.find` finds the value exactly when it is in the list |
| Panel.HandleFontChange | src/components/ConfigurableCardPanel.tsx:29-37 | a listed, non-empty font becomes `cardsConfig.font`, and every other field, `results` included, is unchanged; any other value changes nothing |
| Panel.HandlePromptChange | src/components/ConfigurableCardPanel.tsx:64 | only the prompt changes; every other field and `results` are unchanged |
| Panel.HandleModelChange | src/components/ConfigurableCardPanel.tsx:87 | only the model changes; every other field and `results` are unchanged |
| Panel.HandleDisplayToggle | src/components/ConfigurableCardPanel.tsx:103-138 | only the clicked display flag takes the checkbox state; the other flags, the view width, every other field and `results` are unchanged |
| Panel.HandleTransformChange | src/components/ConfigurableCardPanel.tsx:146-162 | only the chosen transform of `cardsConfig` is replaced; the rest of `cardsConfig`, every other field and `results` are unchanged |
| LocalStorage.GetFromLocalStorage | src/hooks/useLocalStorage.ts:3-9 | an absent or empty entry reads as null; a non-empty entry that parses to a value reads as that value, and one that parses to JSON null reads as null; a parse error throws exactly for a non-empty entry that does not parse |
| LocalStorage.InitialValue | src/hooks/useLocalStorage.ts:16-19 | the stored value when one is found, else the initial value; nothing when reading throws |
| LocalStorage.UseLocalStorage | src/hooks/useLocalStorage.ts:15-19 | a new hook on the key holding the initial value, unless reading throws |
| LocalStorage.LocalStorageHook.SetValue | src/hooks/useLocalStorage.ts:21-25 | the state becomes the value or the function's result on the old state, the entry under the key becomes its encoding, and no other entry changes |
| LocalStorage.StoredValueRoundTrip | src/hooks/useLocalStorage.ts:3-25 | a hook created after `setValue(v)` starts from v when the codec round-trips v |
| LocalStorage.OtherKeysUnaffected | src/hooks/useLocalStorage.ts:11-13 | writing one key does not change what a hook on another key reads |
| InpaintBatch.Merge | src/hooks/useInpaintBatch.ts:42 | the merged object has the keys of both; the source wins on shared keys |
| InpaintBatch.MergeIdempotent | src/hooks/useInpaintBatch.ts:42 | merging the same parameters again changes nothing |
| InpaintBatch.Optional | src/hooks/useInpaintBatch.ts:39-41 | an undefined property is absent from the serialised body |
| InpaintBatch.Bodies | src/hooks/useInpaintBatch.ts:35-44 | one body per image, in order |
| InpaintBatch.BodiesPairIndexes | src/hooks/useInpaintBatch.ts:36-42 | body i carries image i, mask i and prompt i (absent past the end), the model and a fresh id, unless a merged parameter of the same name wins |
| InpaintBatch.InpaintBatchHook.InpaintImageBatch | src/hooks/useInpaintBatch.ts:24-64 | the bodies are sent; the configured parameters are merged in place once there is an image; the response body is returned unchecked; a failure returns null and records its message; `loading` ends false |
| JsObject.PutProperties | src/components/BatchButton.tsx:61-63 | a key reads back the put value, other keys are unchanged, existing keys keep their position, and a new key goes last |
| JsObject.FromPairs | src/components/BatchButton.tsx:61-63 | `fromPairs` puts the pairs in one after another |
| JsObject.FromPairsDedup | src/components/BatchButton.tsx:61-63 | the object has one entry per distinct key of the pairs, each entry one of the pairs |
| JsObject.FromPairsLastWins | src/components/BatchButton.tsx:61-63 | the value under a key is that of the last pair with the key |
| JsObject.FromPairsDistinct | src/components/BatchButton.tsx:61-63 | pairs with distinct keys come back unchanged and in order |
| JsObject.Values | src/components/BatchButton.tsx:74 | `values` lists the entries' values in enumeration order |
| Common.NatToStringInjective | src/components/BatchButton.tsx:11 | different natural numbers have different decimal renderings |
| Batch.CardKeyInjective | src/components/BatchButton.tsx:11 | for non-negative numbers, equal keys mean the same slot |
| Batch.SlotItem | src/components/BatchButton.tsx:33-40 | a slot gives no item exactly when its stored card has a truthy result; otherwise the stored card spread with the slot |
| Batch.RowWorkItems | src/components/BatchButton.tsx:32-40 | every item of a colour's run is a pending slot of that colour, carried over from the store |
| Batch.RowWorkAscending | src/components/BatchButton.tsx:32 | within a colour, numbers strictly ascend |
| Batch.RowWorkComplete | src/components/BatchButton.tsx:32-40 | every pending slot of the range is in the colour's run |
| Batch.SweepContents | src/components/BatchButton.tsx:30-45 | the swept items are exactly the pending slots of the listed colours in the range |
| Batch.SweepAscending | src/components/BatchButton.tsx:30-45 | with distinct colours, items of the same colour appear in ascending number |
| Batch.SweepColours | src/components/BatchButton.tsx:30-45 | every item's colour is listed |
| Batch.SweepColourMajor | src/components/BatchButton.tsx:30-45 | items are colour-major, in the order of `colors` |
| Batch.WorkSetContents | src/components/BatchButton.tsx:30-45 | the work set holds exactly the pending slots 0 to 9 of the listed colours, with stored fields kept and slot fields overwritten |
| Batch.WorkSetMissesSlotTen | src/components/BatchButton.tsx:32 | no item is numbered 10; an empty slot 0 yields an item the grid never shows |
| Batch.SecondLoopAddsNothing | src/components/BatchButton.tsx:47-59 | the `for ... in colors.values()` loop appends nothing to the work set |
| Batch.IntendedWorkSetMatchesGrid | src/components/CardList.tsx:28-36 | the corrected work set is exactly the grid's cards without a result, each equal to the card the grid shows |
| Batch.KeyPairs | src/components/BatchButton.tsx:62 | pair i is the key of item i and its position |
| Batch.RefMapInRange | src/components/BatchButton.tsx:61-63 | every reference-map entry points into the work list |
| Batch.RefCards | src/components/BatchButton.tsx:74 | `values` of the map gives, per entry, the card object it names |
| Batch.WorkSetRefMapAligned | src/components/BatchButton.tsx:61-74 | with distinct colours no key repeats, so the map lists the work items in work-list order |
| Batch.RefMapLastCardWins | src/components/BatchButton.tsx:61-63 | a key names the last work item that carries it |
| Batch.Images | src/components/BatchButton.tsx:76 | one image entry per card, its `rawbase64` |
| Batch.Masks | src/components/BatchButton.tsx:77 | one mask entry per card, its `maskbase64` |
| Batch.CardPrompt | src/components/BatchButton.tsx:67-72 | the prompt is the configured prompt, then the fixed sentence, then the card's colour |
| Batch.Prompts | src/components/BatchButton.tsx:78-81 | one prompt per card, in order |
| Batch.CountCheckFailsIffEmpty | src/components/BatchButton.tsx:74-88 | the three arrays map the same list, so the count check fails exactly when the work list is empty |
| Batch.RequestParams | src/components/BatchButton.tsx:89-96 | the rounded width and height, each overridden by a configured parameter of the same name |
| Batch.FirstFailure | src/components/BatchButton.tsx:101-108 | the first item whose write throws: no result entry, no output or no row for its colour; every item before it is writable |
| Batch.WriteBack | src/components/BatchButton.tsx:100-108 | the writes keep the set of colours |
| Batch.WriteBackEffect | src/components/BatchButton.tsx:100-108 | each written item's slot holds the item with its data-URL result; every other slot is as before |
| Batch.ShortResultStopsAtItsEnd | src/components/BatchButton.tsx:101-108 | a short result list stops the writes exactly at its end |
| Batch.WriteResults | src/components/BatchButton.tsx:100-108 | the `forEach` writes the shared rows in place up to the first failure, and the store ends as `WriteBack` of that prefix |
| Batch.WithLayer | src/components/BatchButton.tsx:136-150 | a capture sets only `rawbase64` or only `maskbase64` |
| Batch.BatchButton.constructor | src/components/BatchButton.tsx:20-25 | not loading, with an empty work list and reference map |
| Batch.BatchButton.Start | src/components/BatchButton.tsx:26-63 | a call while loading changes nothing; otherwise `loading` is set, the work list is the work set and the map is built from it |
| Batch.BatchButton.CaptureLayer | src/components/BatchButton.tsx:136-150 | a known key sets the layer of the card object it names, and nothing else; an unknown key throws and changes nothing |
| Batch.BatchButton.Submit | src/components/BatchButton.tsx:65-111 | an empty map aborts before the request; the request holds the aligned arrays with merged parameters; a null result aborts with the store untouched; otherwise the writes land in the store; `loading` is cleared only on a commit |
| CardLab.ResultLayerAsWritten | src/components/CardLab.tsx:58-61 | the stored layer is the prefix and "[object Object]", whatever the response |
| CardLab.ResultLayerAsWrittenIgnoresImage | src/components/CardLab.tsx:58-61 | two responses with different images store the same layer, which is neither image's data URL |
| CardLab.ResultLayer | src/components/CardLab.tsx:57-61 | the layer exists exactly when the response has an output; it is then the data-URL prefix followed by the first image |
| CardLab.ResultLayerInjective | src/components/CardLab.tsx:57-61 | different first images give different layers |
| CardLab.Request | src/components/CardLab.tsx:46-55 | the source and mask layers; the rounded width and height; the prompt followed by the fixed sentence and the card's colour |
| CardLab.Lab.constructor | src/components/CardLab.tsx:19-27 | no selection, no mask shown, render width 512 |
| CardLab.Lab.ClickCard | src/components/CardLab.tsx:83-90 | the selection becomes a bare card of the slot with width 200 and the selected font |
| CardLab.Lab.CaptureLayer | src/components/CardLab.tsx:100-130 | a selection gets the layer and keeps everything else; no selection stays no selection |
| CardLab.Lab.RenderCurrentCard | src/components/CardLab.tsx:29-62 | the mask is shown; a request is sent exactly when there is a selection with truthy source and mask layers; a missing response or output leaves the selection unchanged; otherwise only its result layer is set |
| ApiHelpers.Sanitized | api/helpers.py:32 | same length as the prompt; every character is alphanumeric or '_' |
| ApiHelpers.SanitizedPositions | api/helpers.py:32 | character i is `prompt[i]` when alphanumeric and '_' otherwise |
| ApiHelpers.SanitizeFilename | api/helpers.py:30-32 | the date, then '-', then min(10, len(prompt)) characters |
| ApiHelpers.SanitizeFilenameSuffix | api/helpers.py:32 | each suffix character is the prompt's character in that position when alphanumeric, else '_' |
| ApiHelpers.SanitizeFilenameKeepsAlnum | api/helpers.py:32 | an alphanumeric prompt keeps its first ten characters |
| Api.Attr | api/main.py:35-51 | every request field is an attribute, and the base ones are strings; "scheduler" is not an attribute |
| Api.AttrOr | api/main.py:89-91 | `getattr` with a default gives the attribute when there is one, else the default |
| Api.FirstMissing | api/main.py:84-86 | the first falsy base attribute, in the order image, mask, prompt |
| Api.PartialBase | api/main.py:81-87 | after `pop("id")` and j base assignments: the keys gain those attributes and lose "id"; other keys keep their value |
| Api.AssembledContents | api/main.py:81-91 | the sent keys are the dictionary's keys without "id", plus the base ones; attribute keys carry the request's value, others keep theirs |
| Api.AssembleParams | api/main.py:81-91 | a falsy base attribute stops the assembly after the earlier ones are written into the shared dictionary; otherwise the dictionary is the full assembly |
| Api.OverrideFromRequest | api/main.py:88-91 | each key takes the request's attribute or keeps its value; no key is added or removed |
| Api.AssemblyForgetsEarlierRequests | api/main.py:81-91 | from a dictionary earlier requests wrote, the assembly equals the assembly from the defaults, and the dictionary conforms again |
| Api.AssembledAgree | api/main.py:81-91 | conforming dictionaries assemble to the same parameters |
| Api.AssembledValue | api/main.py:88-91 | a key's sent value is the request's attribute, or the dictionary's value for a non-attribute |
| Api.PartialBaseConforms | api/main.py:81-87 | partial and full assemblies keep the dictionary conforming |
| Api.DefaultsConform | api/settings.py:16-33 | the settings' dictionaries conform to themselves |
| Api.RequestDefaultsShadowModelDefaults | api/main.py:88-91 | the request class's defaults (guidance 7.0, 30 steps) replace stable diffusion's (7.5, 25); only the scheduler keeps its model default |
| Api.RetryBound | api/main.py:102-106 | at least one call is made, and at least `RETRY_LIMIT` are allowed |
| Api.FirstDecisive | api/main.py:96-106 | every call before it is short or a `ModelError`, and the call at it is decisive |
| Api.RetrySpec | api/main.py:94-111 | no call when no output is wanted; otherwise at most `max(1, RETRY_LIMIT)` calls; too few only when every allowed call is short; a success is the last call's output with enough entries; uncaught errors pass through |
| Api.Retry | api/main.py:94-111 | the loop's outcome and call count are `RetrySpec` |
| Api.ModelErrorCountsAsShort | api/main.py:97-100 | a `ModelError` behaves exactly like an empty output |
| Api.ResultId | api/main.py:65 | `request.id or uuid4()` |
| Api.Formatted | api/main.py:54-68 | succeeds exactly when every output encodes; then one encoded image per output in order, the request's id or a fresh one, and the prompt |
| Api.FormatOutput | api/main.py:54-68 | the loop computes `Formatted` |
| Api.CallModel | api/main.py:94-113 | the retry loop and formatting give `Answer`: too few outputs ends in the `TypeError` of the failed raise, a replicate error only in a call that raised one |
| Api.ServeOutcomes | api/main.py:78-113 | a missing attribute is exactly the 400 case; too few outputs is answered with the generic 500; a replicate error comes exactly from a call that raised one; a result has at least `num_outputs` images and echoes the prompt |
| Api.Server.ParamsFor | api/main.py:81 | `PARAMS[model]` is the model's own shared dictionary, and nothing for another model |
| Api.Server.constructor | api/settings.py:16-33 | the dictionaries start as the settings' values and conform |
| Api.Server.Inpaint | api/main.py:78-113 | an unknown model is a `KeyError`; otherwise the outcome is the one from the settings' defaults; the model's dictionary is left partly or fully assembled; the other model's dictionary is unchanged |
| Api.Server.InpaintPost | api/main.py:116-123 | a model not in `MODELS` is rejected with 400 before any change; otherwise `inpaint` |
| Api.Server.InpaintInBatch | api/main.py:149 | request i is served with its own backend calls and fresh id |
| Api.Server.InpaintBatchPost | api/main.py:143-154 | the requests run in order, stopping at the first that raises; the outcome is `BatchOf` of the per-request outcomes |
| Api.Outcomes | api/main.py:148-150 | one outcome per request |
| Api.BatchFailureStays | api/main.py:147-152 | once a request has raised, later requests do not change the batch outcome |
| Api.BatchAllOrNothing | api/main.py:147-154 | the batch succeeds exactly when every request does, with one result per request in order; otherwise it names the first request that raised |
| Api.Respond | api/main.py:118-136 | a result is returned; a replicate error keeps its status; every other exception, the `HTTPException`s included, is 500 |
| Api.RespondIntended | api/main.py:118-136 | an `HTTPException` keeps its status; the other cases are as written |
| Api.ClientErrorsAnswer500 | api/main.py:118-136 | as written, an unknown model or an empty image is answered with 500 |
| Api.ClientErrorsAnswer400 | api/main.py:118-136 | as intended, the same requests are answered with 400 |
| Api.RespondBatch | api/main.py:156-167 | the results, or a single generic 500 with no partial results on any failure |

## Left out

- React rendering, effect scheduling and stale closures are left out. Each handler is modelled on one explicit snapshot of its state.
- Settling delays (`sleep`, `wait`) are left out. They only order the capture callbacks before the request; the model takes the callbacks as separate calls.
- Network I/O is left out: `fetch`, and the image model on the server.
  - The front-end response is a parameter: the parsed body, or a failure with its message.
  - The server's calls are a function from the parameters and the call index to what the call does.
- `uuidv4`/`uuid4` are parameters giving fresh ids.
- The clock in `sanitize_filename` is a parameter, the formatted date.
- Image fetching, decoding and base64 encoding are left out.
  - `fetch_image_and_encode_base64` is a parameter that gives the encoded text, or fails. A failure raises the 500 `HTTPException`.
  - `loadImage` in canvas.ts is a flag saying whether the result image loads.
- The `LOG_IMAGES` file save (api/main.py:58-60) is left out, because it is file I/O. The file name it uses is modelled (ApiHelpers).
- Pixels, blur, font rasterisation and `measureText` are left out.
  - `measureText` is an uninterpreted function.
  - `Math.PI` is symbolic: angles are whole or half turns.
  - Coordinates are exact reals, not floating point.
- `NUMBER_TO_CHINESE`, `COLORS` and `FONTS` are parameters, because their contents are not part of this model.
- `rotation` is passed to `rotate` unchanged and kept opaque.
- `useInpaint.ts` is left out: it is a fetch wrapper. Its response is the `response` parameter of `RenderCurrentCard`.
- TransformWidget, AssetsLoader, App and the process configuration are left out (UI and deployment).
- FastAPI routing, CORS and pydantic validation are left out. A request arrives with every field holding its value or its default.
- Api.Server.InpaintBatchPost runs the batch requests one after another, stopping at the first that raises.
  - The source runs them concurrently in a task group that cancels the rest on a failure.
  - Concurrent tasks share the same per-model dictionary. With that, a call may be sent another request's parameters; the model does not capture this.
  - Api.AssemblyForgetsEarlierRequests shows only that requests run one after another do not affect each other.
- Api.Answer treats too few outputs as the `TypeError` of `ReplicateError(status=500, message=...)`: the `ReplicateError` that has the `to_dict` used at api/main.py:129 takes no `message` keyword. The replicate library is not part of this model, so this rests on its published constructor.
- `RETRY_LIMIT` is a parameter: api/settings.py does not define it, so the import at api/main.py:17 fails as written.
- Api.Server.Inpaint merges the `KeyError` of `MODELS[request.model]` into the one of `PARAMS[model]`. Both dictionaries have the same two keys in the settings.
- ApiHelpers.IsAlnum covers ASCII letters and digits only. Python's `str.isalnum` also accepts other Unicode letters and digits.
- Rounding.RoundToNearest is modelled for integer inputs only. Widths are integers throughout the interface.
- Batch.SweepAscending and Batch.WorkSetRefMapAligned assume the configured colours are distinct. With a repeated colour, `fromPairs` merges the duplicated keys; Batch.RefMapLastCardWins covers that case.
- Batch.CardKeyInjective is stated for non-negative numbers, the only numbers the work set produces. A negative number can collide: ("a-", 1) and ("a", -1) both give "a--1".
- Batch.BatchButton.Submit takes whether the context provides `setResults` as a parameter. As written it never does (see Findings).
- Batch.BatchButton.Submit rejects a failed write-back with the writes before it already in the store. The `loading` flag then stays set, so every later click returns at the guard.
- CardLab.Lab.RenderCurrentCard uses the corrected result layer (see Findings). A response with no output leaves the selection unchanged.
- LocalStorage.LocalStorageHook.SetValue writes the storage entry from the hook's state at the time of the call. React's batching of state updates is not modelled.

## Findings

| source | as written | input that shows it | evidently intended | confidence | as-written member | corrected member |
|---|---|---|---|---|---|---|
| src/components/BatchButton.tsx:32 | the work set numbers slots with the array index 0 to 9 | a store with no entry for ("red", 10): the grid shows card red 10 without a result, the batch never generates it, and it generates a red 0 the grid never shows | slots 1 to 10, the numbers the grid shows (src/components/CardList.tsx:28-34) | high, not executed | Batch.WorkSetMissesSlotTen | Batch.IntendedWorkSetMatchesGrid |
| src/components/BatchButton.tsx:16 | `setResults` is destructured from the context, which publishes only `setResult` (src/types/config.tsx:155-164) | any batch whose write-back completes: `setResults(newResults)` throws a TypeError and `loading` stays set | the provider publishes the store setter as well, so that Batch.BatchButton.Submit takes its commit case: the store holds the write-back and `loading` is cleared | high, not executed | Config.ProviderLacksSetResults | Config.ProviderMembersFixed |
| src/components/CardLab.tsx:60 | the whole response object is concatenated to the data-URL prefix | responses with images "iVBORw0KGgo" and "R0lGODlh" both store "data:image/png;base64,[object Object]" | the prefix followed by the first output's `base64_image`, as the batch write-back does | high, not executed | CardLab.ResultLayerAsWrittenIgnoresImage | CardLab.ResultLayerInjective |
| api/main.py:131-136 | `except Exception` also catches the `HTTPException(400)` raised at lines 86 and 121 | a request with model "dall-e", or with an empty image, is answered 500 "Internal Server Error" | 400 with the detail message | high, not executed | Api.ClientErrorsAnswer500 | Api.ClientErrorsAnswer400 |

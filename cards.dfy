/** The card record shared by the renderers, the orchestrators and the
    result store (src/types/card.ts). */
module Cards {
  import opened Common

  /** A colour name such as "red"; the palette itself is configuration. */
  type Color = string

  /** ICard: slot identity plus the three optional base64 layers. */
  datatype Card = Card(
    number: int,
    backgroundColor: Color,
    rawbase64: Option<string>,
    maskbase64: Option<string>,
    resultbase64: Option<string>)

  /** The result store: colour -> number -> card. */
  type Results = map<Color, map<int, Card>>

  /** `{ number, backgroundColor }`: a card with no layers. */
  function Bare(number: int, color: Color): Card
  {
    Card(number, color, None, None, None)
  }

  /** `{ ...stored, number, backgroundColor: color }`, where spreading an
      absent card contributes no fields. */
  function Respread(stored: Option<Card>, number: int, color: Color): (c: Card)
    ensures c.number == number && c.backgroundColor == color
    ensures stored.None? ==> c == Bare(number, color)
    ensures stored.Some? ==>
              c.rawbase64 == stored.value.rawbase64 && c.maskbase64 == stored.value.maskbase64
              && c.resultbase64 == stored.value.resultbase64
  {
    match stored
    case None => Bare(number, color)
    case Some(s) => s.(number := number, backgroundColor := color)
  }

  /** `results?.[color]?.[number]`: absent when either level is missing. */
  function Lookup(results: Results, color: Color, number: int): (r: Option<Card>)
    ensures r.Some? <==> color in results && number in results[color]
    ensures r.Some? ==> r.value == results[color][number]
  {
    if color in results && number in results[color] then Some(results[color][number]) else None
  }
}

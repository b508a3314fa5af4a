/** The card grid of src/components/CardList.tsx: one row per colour, ten
    cards per row numbered 1 to 10, each showing whatever the result store
    holds for its slot. */
module CardList {
  import opened Common
  import opened Cards

  /** Cards per row. */
  const RowLength: nat := 10

  /** `results?.[color]?.[number]`, where the store itself may be absent. */
  function StoredCard(results: Option<Results>, color: Color, number: int): (r: Option<Card>)
    ensures results.None? ==> r.None?
    ensures results.Some? ==> r == Lookup(results.value, color, number)
  {
    if results.Some? then Lookup(results.value, color, number) else None
  }

  /** `cardData` of card `index` (0-based) in the row of `color`. */
  function CardData(results: Option<Results>, color: Color, index: nat): Card
  {
    Respread(StoredCard(results, color, index + 1), index + 1, color)
  }

  /** `Array.from({ length: 10 }, (_, index) => ...)` for one colour. */
  function Row(results: Option<Results>, color: Color): (row: seq<Card>)
    ensures |row| == RowLength
    ensures forall i :: 0 <= i < |row| ==> row[i] == CardData(results, color, i)
  {
    seq(RowLength, i requires 0 <= i => CardData(results, color, i))
  }

  /** `colors.map(color => row)`. */
  function Grid(results: Option<Results>, colors: seq<Color>): (grid: seq<seq<Card>>)
    ensures |grid| == |colors|
    ensures forall j :: 0 <= j < |grid| ==> grid[j] == Row(results, colors[j])
  {
    seq(|colors|, j requires 0 <= j < |colors| => Row(results, colors[j]))
  }

  /** The grid shape: each colour in order, with exactly the numbers 1 to
      10 in ascending order, each card carrying its row's colour. */
  lemma GridShape(results: Option<Results>, colors: seq<Color>)
    ensures var grid := Grid(results, colors);
      && |grid| == |colors|
      && (forall j :: 0 <= j < |grid| ==> |grid[j]| == 10)
      && (forall j, i :: 0 <= j < |grid| && 0 <= i < |grid[j]| ==>
            grid[j][i].number == i + 1 && grid[j][i].backgroundColor == colors[j])
  {
    var grid: seq<seq<Card>> := Grid(results, colors);
    forall j: int, i: int | 0 <= j < |grid| && 0 <= i < |grid[j]|
      ensures grid[j][i].number == i + 1 && grid[j][i].backgroundColor == colors[j]
    {
      assert grid[j][i] == CardData(results, colors[j], i);
    }
  }

  /** The card data keeps the stored layers of its slot and takes its
      number and colour from its position; an absent store, colour or
      number gives a card with no layers at all. */
  lemma CardDataFromStore(results: Option<Results>, color: Color, index: nat)
    ensures var c := CardData(results, color, index);
      var stored := StoredCard(results, color, index + 1);
      && (stored.None? ==> c == Bare(index + 1, color))
      && (stored.Some? ==> c == stored.value.(number := index + 1, backgroundColor := color))
  {
  }

  /** Numbers shown in the grid. */
  predicate Shown(number: int)
  {
    1 <= number <= RowLength
  }

  lemma GridShowsOnlyOneToTen(results: Option<Results>, colors: seq<Color>, j: nat, i: nat)
    requires j < |colors| && i < RowLength
    ensures Shown(Grid(results, colors)[j][i].number)
    ensures Grid(results, colors)[j][i].number != 0
  {
    GridShape(results, colors);
  }

  /** The call a click on card `index` of `color` makes: `onClickCard(index
      + 1, color)` when a handler is given, nothing otherwise. */
  function OnClick(hasHandler: bool, color: Color, index: nat): (call: Option<(int, Color)>)
    ensures call.Some? <==> hasHandler
    ensures call.Some? ==> call.value.0 == index + 1 && Shown(call.value.0) == (index < RowLength) && call.value.1 == color
  {
    if hasHandler then Some((index + 1, color)) else None
  }
}

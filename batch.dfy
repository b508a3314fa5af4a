/** The batch orchestrator of src/components/BatchButton.tsx (`inpaintAll`
    and the layer-capturing `onRender` callbacks): the work set, its keyed
    reference map, the parallel request arrays, the count check, the request
    and the index-aligned write-back into the shared result rows. */
module Batch {
  import opened Common
  import opened Cards
  import opened Config
  import opened Rounding
  import opened InpaintBatch
  import CardList
  import JsObject

  // ---- keys ----

  /** `getCardKey(card)`: `${backgroundColor}-${number}`. */
  function CardKey(card: Card): string
  {
    card.backgroundColor + "-" + IntToString(card.number)
  }

  /** In `color + "-" + digits` the '-' after the colour is the last one. */
  lemma KeyDash(color: string, digits: string)
    requires forall i :: 0 <= i < |digits| ==> '0' <= digits[i] <= '9'
    ensures (color + "-" + digits)[|color|] == '-'
    ensures forall i :: |color| < i < |color + "-" + digits| ==> (color + "-" + digits)[i] != '-'
  {
    var k := color + "-" + digits;
    forall i | |color| < i < |k|
      ensures k[i] != '-'
    {
      assert k[i] == digits[i - |color| - 1];
    }
  }

  /** For non-negative numbers the key determines the slot: the digits
      hold no '-', so the key's last '-' ends the colour. (A negative
      number breaks this: ("a-", 1) and ("a", -1) both give "a--1".) */
  lemma CardKeyInjective(a: Card, b: Card)
    requires 0 <= a.number && 0 <= b.number
    requires CardKey(a) == CardKey(b)
    ensures a.backgroundColor == b.backgroundColor && a.number == b.number
  {
    var ka, kb := CardKey(a), CardKey(b);
    var ca, cb := a.backgroundColor, b.backgroundColor;
    var da, db := NatToString(a.number), NatToString(b.number);
    assert ka == ca + "-" + da && kb == cb + "-" + db;
    KeyDash(ca, da);
    KeyDash(cb, db);
    assert |ca| == |cb|;
    assert ca == ka[..|ca|] == kb[..|cb|] == cb;
    assert da == ka[|ca| + 1..] == kb[|cb| + 1..] == db;
    NatToStringInjective(a.number, b.number);
  }

  // ---- the work set (lines 30-45) ----

  /** The slots the chain walks: `new Array(10)` indexes 0 to 9. */
  const FirstSlot: int := 0
  const SlotEnd: int := 10

  /** The work item for one slot: none when the stored card already has a
      result, else the stored card (or nothing) spread with the slot. */
  function SlotItem(results: Results, color: Color, number: int): (r: Option<Card>)
    ensures r.None? <==> Lookup(results, color, number).Some? && Truthy(Lookup(results, color, number).value.resultbase64)
    ensures r.Some? ==> r.value == Respread(Lookup(results, color, number), number, color)
  {
    var stored := Lookup(results, color, number);
    if stored.Some? && Truthy(stored.value.resultbase64) then None else Some(Respread(stored, number, color))
  }

  /** The pending items of one colour, for the slots `lo` up to `hi`. */
  function RowWork(results: Results, color: Color, lo: int, hi: int): seq<Card>
    decreases hi - lo
  {
    if lo >= hi then []
    else
      var rest := RowWork(results, color, lo + 1, hi);
      match SlotItem(results, color, lo)
      case None => rest
      case Some(c) => [c] + rest
  }

  /** The pending items of the slots `lo` up to `hi` of every colour listed:
      colour-major, ascending slot within a colour. */
  function Sweep(results: Results, colors: seq<Color>, lo: int, hi: int): seq<Card>
  {
    if colors == [] then [] else RowWork(results, colors[0], lo, hi) + Sweep(results, colors[1..], lo, hi)
  }

  /** `chain(colors).map(...).flatMap().compact()`: the slots 0 to 9. */
  function WorkSet(results: Results, colors: seq<Color>): seq<Card>
  {
    Sweep(results, colors, FirstSlot, SlotEnd)
  }

  /** A slot is pending when its stored card has no truthy result. */
  predicate Pending(results: Results, color: Color, number: int)
  {
    SlotItem(results, color, number).Some?
  }

  /** An item for a slot in `lo` to `hi`: a pending slot, carried over from
      the store with the slot written over `number` and `backgroundColor`. */
  predicate IsItem(results: Results, c: Card, lo: int, hi: int)
  {
    && lo <= c.number < hi
    && Pending(results, c.backgroundColor, c.number)
    && c == Respread(Lookup(results, c.backgroundColor, c.number), c.number, c.backgroundColor)
  }

  /** Every item of one colour's run is an item of that colour. */
  lemma {:induction false} RowWorkItems(results: Results, color: Color, lo: int, hi: int)
    ensures forall i :: 0 <= i < |RowWork(results, color, lo, hi)| ==>
              && IsItem(results, RowWork(results, color, lo, hi)[i], lo, hi)
              && RowWork(results, color, lo, hi)[i].backgroundColor == color
    decreases hi - lo
  {
    if lo < hi {
      RowWorkItems(results, color, lo + 1, hi);
      var r, rest := RowWork(results, color, lo, hi), RowWork(results, color, lo + 1, hi);
      var slot := SlotItem(results, color, lo);
      if slot.Some? {
        assert r == [slot.value] + rest;
        forall i | 0 <= i < |r|
          ensures IsItem(results, r[i], lo, hi) && r[i].backgroundColor == color
        {
          if i == 0 {
            assert r[0] == Respread(Lookup(results, color, lo), lo, color);
            assert Pending(results, color, lo);
          } else {
            assert r[i] == rest[i - 1];
          }
        }
      } else {
        assert r == rest;
      }
    }
  }

  /** Within one colour the slots ascend strictly. */
  lemma {:induction false} RowWorkAscending(results: Results, color: Color, lo: int, hi: int)
    ensures forall i, j :: 0 <= i < j < |RowWork(results, color, lo, hi)| ==>
              RowWork(results, color, lo, hi)[i].number < RowWork(results, color, lo, hi)[j].number
    decreases hi - lo
  {
    if lo < hi {
      RowWorkAscending(results, color, lo + 1, hi);
      RowWorkItems(results, color, lo + 1, hi);
      var r, rest := RowWork(results, color, lo, hi), RowWork(results, color, lo + 1, hi);
      var slot := SlotItem(results, color, lo);
      if slot.Some? {
        assert r == [slot.value] + rest;
        forall i, j | 0 <= i < j < |r|
          ensures r[i].number < r[j].number
        {
          assert r[j] == rest[j - 1];
          if i > 0 {
            assert r[i] == rest[i - 1];
          }
        }
      } else {
        assert r == rest;
      }
    }
  }

  /** Every pending slot of the colour in `lo` to `hi` has an item. */
  lemma {:induction false} RowWorkComplete(results: Results, color: Color, lo: int, hi: int, n: int)
    requires lo <= n < hi && Pending(results, color, n)
    ensures exists i :: 0 <= i < |RowWork(results, color, lo, hi)| && RowWork(results, color, lo, hi)[i].number == n
    decreases hi - lo
  {
    var r := RowWork(results, color, lo, hi);
    var slot := SlotItem(results, color, lo);
    if n == lo {
      assert r == [slot.value] + RowWork(results, color, lo + 1, hi);
      assert r[0].number == n;
    } else {
      RowWorkComplete(results, color, lo + 1, hi, n);
      var rest := RowWork(results, color, lo + 1, hi);
      var i :| 0 <= i < |rest| && rest[i].number == n;
      if slot.Some? {
        assert r == [slot.value] + rest;
        assert r[i + 1].number == n;
      } else {
        assert r == rest;
        assert r[i].number == n;
      }
    }
  }

  /** Sweep contents: every item is a pending slot of a listed colour,
      carried over from the store; every pending slot of a listed colour is
      an item. */
  lemma {:induction false} SweepContents(results: Results, colors: seq<Color>, lo: int, hi: int)
    ensures forall i :: 0 <= i < |Sweep(results, colors, lo, hi)| ==>
              IsItem(results, Sweep(results, colors, lo, hi)[i], lo, hi) && Sweep(results, colors, lo, hi)[i].backgroundColor in colors
    ensures forall c, n :: c in colors && lo <= n < hi && Pending(results, c, n) ==>
              exists i :: 0 <= i < |Sweep(results, colors, lo, hi)| && Sweep(results, colors, lo, hi)[i].backgroundColor == c
                          && Sweep(results, colors, lo, hi)[i].number == n
  {
    if colors != [] {
      SweepContents(results, colors[1..], lo, hi);
      RowWorkItems(results, colors[0], lo, hi);
      var row, rest := RowWork(results, colors[0], lo, hi), Sweep(results, colors[1..], lo, hi);
      var w := Sweep(results, colors, lo, hi);
      assert w == row + rest;
      forall i | 0 <= i < |w|
        ensures IsItem(results, w[i], lo, hi) && w[i].backgroundColor in colors
      {
        if i >= |row| {
          assert w[i] == rest[i - |row|];
        }
      }
      forall c, n | c in colors && lo <= n < hi && Pending(results, c, n)
        ensures exists i :: 0 <= i < |w| && w[i].backgroundColor == c && w[i].number == n
      {
        if c == colors[0] {
          RowWorkComplete(results, c, lo, hi, n);
          var i :| 0 <= i < |row| && row[i].number == n;
          assert w[i] == row[i];
        } else {
          assert c in colors[1..];
          var i :| 0 <= i < |rest| && rest[i].backgroundColor == c && rest[i].number == n;
          assert w[|row| + i] == rest[i];
        }
      }
    }
  }

  /** Sweep order within a colour: two items of the same colour come in
      ascending slot order. With no repeated colour no slot occurs twice. */
  lemma {:induction false} SweepAscending(results: Results, colors: seq<Color>, lo: int, hi: int)
    requires forall a, b :: 0 <= a < b < |colors| ==> colors[a] != colors[b]
    ensures forall i, j :: 0 <= i < j < |Sweep(results, colors, lo, hi)|
              && Sweep(results, colors, lo, hi)[i].backgroundColor == Sweep(results, colors, lo, hi)[j].backgroundColor
              ==> Sweep(results, colors, lo, hi)[i].number < Sweep(results, colors, lo, hi)[j].number
  {
    if colors != [] {
      SweepAscending(results, colors[1..], lo, hi);
      SweepContents(results, colors[1..], lo, hi);
      RowWorkItems(results, colors[0], lo, hi);
      RowWorkAscending(results, colors[0], lo, hi);
      var row, rest := RowWork(results, colors[0], lo, hi), Sweep(results, colors[1..], lo, hi);
      var w := Sweep(results, colors, lo, hi);
      assert w == row + rest;
      forall i, j | 0 <= i < j < |w| && w[i].backgroundColor == w[j].backgroundColor
        ensures w[i].number < w[j].number
      {
        if j < |row| {
          assert w[i] == row[i] && w[j] == row[j];
        } else if i >= |row| {
          assert w[i] == rest[i - |row|] && w[j] == rest[j - |row|];
        }
      }
    }
  }

  /** The position of colour `c` in `colors`, or -1. */
  function ColourIndex(colors: seq<Color>, c: Color): (r: int)
    ensures -1 <= r < |colors|
    ensures r >= 0 ==> colors[r] == c && forall a :: 0 <= a < r ==> colors[a] != c
    ensures r == -1 <==> c !in colors
  {
    if colors == [] then -1
    else if colors[0] == c then 0
    else
      var r := ColourIndex(colors[1..], c);
      if r == -1 then -1 else r + 1
  }

  /** Every item of a sweep has a listed colour. */
  lemma {:induction false} SweepColours(results: Results, colors: seq<Color>, lo: int, hi: int)
    ensures forall i :: 0 <= i < |Sweep(results, colors, lo, hi)| ==> Sweep(results, colors, lo, hi)[i].backgroundColor in colors
  {
    if colors != [] {
      SweepColours(results, colors[1..], lo, hi);
      RowWorkItems(results, colors[0], lo, hi);
      var row, rest := RowWork(results, colors[0], lo, hi), Sweep(results, colors[1..], lo, hi);
      var w := Sweep(results, colors, lo, hi);
      assert w == row + rest;
      forall i | 0 <= i < |w|
        ensures w[i].backgroundColor in colors
      {
        if i >= |row| {
          assert w[i] == rest[i - |row|];
        }
      }
    }
  }

  /** In a list without repeats, a colour of the tail sits one place
      further on than in the tail. */
  lemma ColourIndexTail(colors: seq<Color>, c: Color)
    requires colors != [] && forall a, b :: 0 <= a < b < |colors| ==> colors[a] != colors[b]
    requires c in colors[1..]
    ensures ColourIndex(colors, c) == ColourIndex(colors[1..], c) + 1
  {
    var a :| 0 <= a < |colors[1..]| && colors[1..][a] == c;
    assert colors[a + 1] == c;
  }

  /** Sweep order across colours: items come colour-major, in the order of
      `colors`. */
  lemma {:induction false} SweepColourMajor(results: Results, colors: seq<Color>, lo: int, hi: int)
    requires forall a, b :: 0 <= a < b < |colors| ==> colors[a] != colors[b]
    ensures forall i, j :: 0 <= i < j < |Sweep(results, colors, lo, hi)| ==>
              ColourIndex(colors, Sweep(results, colors, lo, hi)[i].backgroundColor)
              <= ColourIndex(colors, Sweep(results, colors, lo, hi)[j].backgroundColor)
  {
    if colors != [] {
      SweepColourMajor(results, colors[1..], lo, hi);
      SweepColours(results, colors[1..], lo, hi);
      RowWorkItems(results, colors[0], lo, hi);
      var row, rest := RowWork(results, colors[0], lo, hi), Sweep(results, colors[1..], lo, hi);
      var w := Sweep(results, colors, lo, hi);
      assert w == row + rest;
      forall i, j | 0 <= i < j < |w|
        ensures ColourIndex(colors, w[i].backgroundColor) <= ColourIndex(colors, w[j].backgroundColor)
      {
        var cj := w[j].backgroundColor;
        if j < |row| {
          assert w[i] == row[i] && w[j] == row[j];
        } else {
          assert w[j] == rest[j - |row|];
          ColourIndexTail(colors, cj);
          if i >= |row| {
            assert w[i] == rest[i - |row|];
            ColourIndexTail(colors, w[i].backgroundColor);
          } else {
            assert w[i] == row[i];
          }
        }
      }
    }
  }

  /** Work-set contents: the work set holds exactly the pending slots 0 to
      9 of the listed colours, each carried over from the store with its
      slot written over `number` and `backgroundColor`. */
  lemma WorkSetContents(results: Results, colors: seq<Color>)
    ensures forall i :: 0 <= i < |WorkSet(results, colors)| ==>
              IsItem(results, WorkSet(results, colors)[i], 0, 10) && WorkSet(results, colors)[i].backgroundColor in colors
    ensures forall c, n :: c in colors && 0 <= n < 10 && Pending(results, c, n) ==>
              exists i :: 0 <= i < |WorkSet(results, colors)| && WorkSet(results, colors)[i].backgroundColor == c
                          && WorkSet(results, colors)[i].number == n
  {
    SweepContents(results, colors, FirstSlot, SlotEnd);
    var w := WorkSet(results, colors);
    forall c, n | c in colors && 0 <= n < 10 && Pending(results, c, n)
      ensures exists i :: 0 <= i < |w| && w[i].backgroundColor == c && w[i].number == n
    {
      assert FirstSlot <= n < SlotEnd;
    }
  }

  /** Slot range: the batch never produces a card numbered 10, the last
      card of every grid row, and for an empty slot 0 it produces a card
      the grid never shows. */
  lemma WorkSetMissesSlotTen(results: Results, colors: seq<Color>)
    ensures forall i :: 0 <= i < |WorkSet(results, colors)| ==> WorkSet(results, colors)[i].number != 10
    ensures forall c :: c in colors && Lookup(results, c, 0).None? ==>
              exists i :: 0 <= i < |WorkSet(results, colors)| && WorkSet(results, colors)[i].number == 0
                          && !CardList.Shown(WorkSet(results, colors)[i].number)
  {
    WorkSetContents(results, colors);
    var w := WorkSet(results, colors);
    forall c | c in colors && Lookup(results, c, 0).None?
      ensures exists i :: 0 <= i < |w| && w[i].number == 0 && !CardList.Shown(w[i].number)
    {
      assert Pending(results, c, 0);
      var i :| 0 <= i < |w| && w[i].backgroundColor == c && w[i].number == 0;
      assert !CardList.Shown(w[i].number);
    }
  }

  // ---- the second loop (lines 47-59) ----

  /** The keys `for (const color in colors.values())` enumerates: an Array
      Iterator object has no enumerable string keys, so none. */
  function IteratorKeys(colors: seq<Color>): seq<string>
  {
    []
  }

  /** What the second loop appends for the keys it is given: the pending
      slots 1 to 10 of each, as `i <= 10` walks them. */
  function SecondLoop(results: Results, keys: seq<string>): seq<Card>
  {
    Sweep(results, keys, 1, 11)
  }

  /** Dead loop: the second loop appends nothing, so the work set is the
      chain's alone. */
  lemma SecondLoopAddsNothing(results: Results, colors: seq<Color>)
    ensures WorkSet(results, colors) + SecondLoop(results, IteratorKeys(colors)) == WorkSet(results, colors)
  {
  }

  /** The work set the grid calls for: the pending slots 1 to 10 of every
      colour, the numbers the grid displays. */
  function IntendedWorkSet(results: Results, colors: seq<Color>): seq<Card>
  {
    Sweep(results, colors, 1, 11)
  }

  /** The intended work set holds exactly the grid's cards that lack a
      result: each item is the card the grid shows at its place, and every
      such card without a result is an item. */
  lemma IntendedWorkSetMatchesGrid(results: Results, colors: seq<Color>)
    ensures forall i :: 0 <= i < |IntendedWorkSet(results, colors)| ==>
              var c := IntendedWorkSet(results, colors)[i];
              && CardList.Shown(c.number) && c.backgroundColor in colors
              && c == CardList.CardData(Some(results), c.backgroundColor, c.number - 1)
              && !Truthy(c.resultbase64)
    ensures forall c, index ::
              c in colors && 0 <= index < CardList.RowLength && !Truthy(CardList.CardData(Some(results), c, index).resultbase64)
              ==> exists i :: 0 <= i < |IntendedWorkSet(results, colors)| && IntendedWorkSet(results, colors)[i].backgroundColor == c
                          && IntendedWorkSet(results, colors)[i].number == index + 1
  {
    var w := IntendedWorkSet(results, colors);
    SweepContents(results, colors, 1, 11);
    forall i | 0 <= i < |w|
      ensures var c := w[i];
        && CardList.Shown(c.number) && c.backgroundColor in colors
        && c == CardList.CardData(Some(results), c.backgroundColor, c.number - 1)
        && !Truthy(c.resultbase64)
    {
      var c := w[i];
      assert IsItem(results, c, 1, 11);
      assert c == CardList.CardData(Some(results), c.backgroundColor, c.number - 1);
    }
    forall c, index | c in colors && 0 <= index < CardList.RowLength
        && !Truthy(CardList.CardData(Some(results), c, index).resultbase64)
      ensures exists i :: 0 <= i < |w| && w[i].backgroundColor == c && w[i].number == index + 1
    {
      assert Pending(results, c, index + 1);
    }
  }

  // ---- the reference map (lines 61-63) ----

  /** `cardsToRendertemp.map(card => [getCardKey(card), card])`, each card
      object named by its position in the work list. */
  function KeyPairs(items: seq<Card>): (r: JsObject.Entries<nat>)
    ensures |r| == |items| && forall i :: 0 <= i < |r| ==> r[i] == (CardKey(items[i]), i)
  {
    seq(|items|, i requires 0 <= i < |items| => (CardKey(items[i]), i as nat))
  }

  /** `cardsToRenderRef.current = fromPairs(...)`. */
  function RefMapOf(items: seq<Card>): JsObject.Entries<nat>
  {
    JsObject.FromPairs(KeyPairs(items))
  }

  /** The reference map points into the work list. */
  lemma RefMapInRange(items: seq<Card>)
    ensures forall j :: 0 <= j < |RefMapOf(items)| ==> RefMapOf(items)[j].1 < |items|
  {
    var p := KeyPairs(items);
    JsObject.FromPairsDedup(p);
    forall j | 0 <= j < |RefMapOf(items)|
      ensures RefMapOf(items)[j].1 < |items|
    {
      var i :| 0 <= i < |p| && RefMapOf(items)[j] == p[i];
    }
  }

  /** `values(cardsToRenderRef.current)`: the card objects the map holds,
      in its order. */
  function RefCards(refMap: JsObject.Entries<nat>, items: seq<Card>): (r: seq<Card>)
    requires forall j :: 0 <= j < |refMap| ==> refMap[j].1 < |items|
    ensures |r| == |refMap| && forall j :: 0 <= j < |r| ==> r[j] == items[refMap[j].1]
  {
    seq(|refMap|, j requires 0 <= j < |refMap| => items[refMap[j].1])
  }

  /** Dedup on the work set: with no repeated colour every key is new, so
      the reference map lists the work items themselves, in order; the
      request built from it is aligned with the work list. */
  lemma WorkSetRefMapAligned(results: Results, colors: seq<Color>)
    requires forall a, b :: 0 <= a < b < |colors| ==> colors[a] != colors[b]
    ensures RefMapOf(WorkSet(results, colors)) == KeyPairs(WorkSet(results, colors))
    ensures RefCards(KeyPairs(WorkSet(results, colors)), WorkSet(results, colors)) == WorkSet(results, colors)
  {
    var w := WorkSet(results, colors);
    var p := KeyPairs(w);
    WorkSetContents(results, colors);
    SweepAscending(results, colors, FirstSlot, SlotEnd);
    forall i, j | 0 <= i < j < |p|
      ensures p[i].0 != p[j].0
    {
      if p[i].0 == p[j].0 {
        assert IsItem(results, w[i], 0, 10) && IsItem(results, w[j], 0, 10);
        CardKeyInjective(w[i], w[j]);
      }
    }
    JsObject.FromPairsDistinct(p);
  }

  /** A card whose key repeats an earlier one replaces it: the map keeps
      the first key's place and the last card. */
  lemma RefMapLastCardWins(items: seq<Card>, i: nat)
    requires i < |items|
    requires forall j :: i < j < |items| ==> CardKey(items[j]) != CardKey(items[i])
    ensures JsObject.Get(RefMapOf(items), CardKey(items[i])) == Some(i)
  {
    JsObject.FromPairsLastWins(KeyPairs(items), i);
  }

  // ---- the request (lines 67-96) ----

  /** `map(cards, "rawbase64")`. */
  function Images(cards: seq<Card>): (r: seq<Option<string>>)
    ensures |r| == |cards| && forall i :: 0 <= i < |r| ==> r[i] == cards[i].rawbase64
  {
    seq(|cards|, i requires 0 <= i < |cards| => cards[i].rawbase64)
  }

  /** `map(cards, "maskbase64")`. */
  function Masks(cards: seq<Card>): (r: seq<Option<string>>)
    ensures |r| == |cards| && forall i :: 0 <= i < |r| ==> r[i] == cards[i].maskbase64
  {
    seq(|cards|, i requires 0 <= i < |cards| => cards[i].maskbase64)
  }

  const PromptSuffix: string := "the center of the card is a symbol in "

  /** `getParams(card).prompt`, appended directly to the configured prompt. */
  function CardPrompt(prompt: string, card: Card): (r: string)
    ensures |r| == |prompt| + |PromptSuffix| + |card.backgroundColor|
    ensures r[..|prompt|] == prompt && r[|prompt|..] == PromptSuffix + card.backgroundColor
  {
    prompt + PromptSuffix + card.backgroundColor
  }

  /** `map(map(cards, getParams), "prompt")`. */
  function Prompts(prompt: string, cards: seq<Card>): (r: seq<Option<string>>)
    ensures |r| == |cards| && forall i :: 0 <= i < |r| ==> r[i] == Some(CardPrompt(prompt, cards[i]))
  {
    seq(|cards|, i requires 0 <= i < |cards| => Some(CardPrompt(prompt, cards[i])))
  }

  /** The guard before the request. */
  predicate CountCheckFails(images: seq<Option<string>>, masks: seq<Option<string>>, prompts: seq<Option<string>>)
  {
    |images| == 0 || |images| != |masks| || |masks| != |prompts|
  }

  /** Count check: the three arrays are maps over the same list, so the
      check fails exactly when the reference map is empty, which is exactly
      when the work list is empty. */
  lemma CountCheckFailsIffEmpty(items: seq<Card>, refMap: JsObject.Entries<nat>, prompt: string)
    requires refMap == RefMapOf(items)
    requires forall j :: 0 <= j < |refMap| ==> refMap[j].1 < |items|
    ensures CountCheckFails(Images(RefCards(refMap, items)), Masks(RefCards(refMap, items)), Prompts(prompt, RefCards(refMap, items)))
            <==> items == []
  {
    var p := KeyPairs(items);
    JsObject.FromPairsDedup(p);
    if items != [] {
      assert p[0].0 == CardKey(items[0]);
      assert JsObject.HasKey(p, p[0].0);
    }
  }

  /** `{ width, height, ...inpaintParams }`: the rounded size, unless the
      configured parameters name the same key. */
  function RequestParams(renderWidth: int, inpaintParams: Params): (r: Params)
    ensures r.Keys == {"width", "height"} + inpaintParams.Keys
    ensures forall k :: k in inpaintParams ==> r[k] == inpaintParams[k]
    ensures "width" !in inpaintParams ==> r["width"] == Num(RequestWidth(renderWidth) as real)
    ensures "height" !in inpaintParams ==> r["height"] == Num(RequestHeight(renderWidth) as real)
  {
    map["width" := Num(RequestWidth(renderWidth) as real), "height" := Num(RequestHeight(renderWidth) as real)] + inpaintParams
  }

  // ---- the write-back (lines 100-108) ----

  const DataUrlPrefix: string := "data:image/png;base64,"

  /** `{ ...card, resultbase64: "data:image/png;base64," + outputs[0] }`. */
  function WrittenCard(card: Card, r: InpaintResult): Card
    requires |r.outputs| > 0
  {
    card.(resultbase64 := Some(DataUrlPrefix + r.outputs[0]))
  }

  /** The index of the first item whose write throws a TypeError, or the
      list's length. Item i can be written when `result[i]` exists and has
      an output and the copied store has a row for the item's colour. */
  function FirstFailure(rows: set<Color>, items: seq<Card>, data: seq<InpaintResult>, i: nat): (n: nat)
    requires i <= |items|
    ensures i <= n <= |items|
    ensures n == i || n <= |data|
    ensures forall j :: i <= j < n ==> |data[j].outputs| > 0 && items[j].backgroundColor in rows
    ensures n < |items| ==> !(n < |data| && |data[n].outputs| > 0 && items[n].backgroundColor in rows)
    decreases |items| - i
  {
    if i == |items| || !(i < |data| && |data[i].outputs| > 0 && items[i].backgroundColor in rows) then i
    else FirstFailure(rows, items, data, i + 1)
  }

  /** The store after the first `n` writes of the `forEach`. */
  function WriteBack(results: Results, items: seq<Card>, data: seq<InpaintResult>, n: nat): (r: Results)
    requires n <= FirstFailure(results.Keys, items, data, 0)
    ensures r.Keys == results.Keys
  {
    if n == 0 then results
    else
      var prev := WriteBack(results, items, data, n - 1);
      var c := items[n - 1];
      SetResult(prev, c.backgroundColor, c.number, WrittenCard(c, data[n - 1]))
  }

  /** Some item among the first `n` names slot (c, k). */
  predicate WrittenSlot(items: seq<Card>, n: nat, c: Color, k: int)
    requires n <= |items|
  {
    exists i :: 0 <= i < n && items[i].backgroundColor == c && items[i].number == k
  }

  /** Write-back: after the first `n` writes, each of those items' slots
      holds the item with its result (when no two items share a slot),
      and every other slot is as it was. */
  lemma {:induction false} WriteBackEffect(results: Results, items: seq<Card>, data: seq<InpaintResult>, n: nat)
    requires n <= FirstFailure(results.Keys, items, data, 0)
    requires forall i, j :: 0 <= i < j < n ==>
               items[i].backgroundColor != items[j].backgroundColor || items[i].number != items[j].number
    ensures forall i :: 0 <= i < n ==>
              Lookup(WriteBack(results, items, data, n), items[i].backgroundColor, items[i].number)
              == Some(WrittenCard(items[i], data[i]))
    ensures forall c, k :: !WrittenSlot(items, n, c, k) ==>
              Lookup(WriteBack(results, items, data, n), c, k) == Lookup(results, c, k)
  {
    if n > 0 {
      WriteBackEffect(results, items, data, n - 1);
      var prev := WriteBack(results, items, data, n - 1);
      var last := items[n - 1];
      var r := WriteBack(results, items, data, n);
      assert r == SetResult(prev, last.backgroundColor, last.number, WrittenCard(last, data[n - 1]));
      forall i | 0 <= i < n
        ensures Lookup(r, items[i].backgroundColor, items[i].number) == Some(WrittenCard(items[i], data[i]))
      {
        if i < n - 1 {
          assert items[i].backgroundColor != last.backgroundColor || items[i].number != last.number;
        }
      }
      forall c, k | !WrittenSlot(items, n, c, k)
        ensures Lookup(r, c, k) == Lookup(results, c, k)
      {
        assert !WrittenSlot(items, n - 1, c, k);
        assert c != last.backgroundColor || k != last.number;
      }
    }
  }

  /** A short result list: with every earlier result usable and every row
      present, the writes stop exactly at the end of `result`, so the first
      |result| items are written and the error comes after them. */
  lemma ShortResultStopsAtItsEnd(results: Results, items: seq<Card>, data: seq<InpaintResult>)
    requires |data| < |items|
    requires forall i :: 0 <= i < |data| ==> |data[i].outputs| > 0
    requires forall i :: 0 <= i < |items| ==> items[i].backgroundColor in results
    ensures FirstFailure(results.Keys, items, data, 0) == |data|
  {
    assert items[|data|].backgroundColor in results;
  }

  // ---- the component (lines 13-111, 136-150) ----

  /** The result store the configuration context holds. `{ ...results }`
      copies only the outer object; the copy's inner colour maps are the
      store's own, and the write-back writes only into those, so each write
      lands in the store itself. */
  class ResultStore {
    var results: Results

    constructor (results: Results)
      ensures this.results == results
    {
      this.results := results;
    }
  }

  /** The write-back loop: item i's card, with result i's first image,
      goes into its colour row of the store, in work-list order, until an
      item has no result, a result has no image, or the colour has no row,
      which throws. Returns how many items were written. */
  method WriteResults(store: ResultStore, items: seq<Card>, data: seq<InpaintResult>) returns (n: nat)
    modifies store
    ensures n == FirstFailure(old(store.results).Keys, items, data, 0)
    ensures store.results == WriteBack(old(store.results), items, data, n)
  {
    ghost var original := store.results;
    ghost var last := FirstFailure(original.Keys, items, data, 0);
    n := 0;
    while n < |items|
      invariant n <= last
      invariant store.results == WriteBack(original, items, data, n)
    {
      var card := items[n];
      if n >= |data| || |data[n].outputs| == 0 || card.backgroundColor !in store.results {
        return;
      }
      var row := store.results[card.backgroundColor];
      store.results := store.results[card.backgroundColor := row[card.number := WrittenCard(card, data[n])]];
      n := n + 1;
    }
  }

  /** Which capture callback fired. */
  datatype Layer = SourceLayer | MaskLayer

  /** `card[layer] = dataUrl`. */
  function WithLayer(card: Card, layer: Layer, dataUrl: string): (c: Card)
    ensures c.number == card.number && c.backgroundColor == card.backgroundColor
    ensures c.resultbase64 == card.resultbase64
    ensures layer == SourceLayer ==> c.rawbase64 == Some(dataUrl) && c.maskbase64 == card.maskbase64
    ensures layer == MaskLayer ==> c.maskbase64 == Some(dataUrl) && c.rawbase64 == card.rawbase64
  {
    match layer
    case SourceLayer => card.(rawbase64 := Some(dataUrl))
    case MaskLayer => card.(maskbase64 := Some(dataUrl))
  }

  /** Why `inpaintAll` stopped: the thrown "No images, masks or prompts",
      the thrown "No result", a TypeError in the write-back, or the
      TypeError of calling `setResults`, which the configuration context
      does not provide. */
  datatype Failure = NoImages | NoResult | WriteFailed | SetResultsMissing

  datatype Outcome = Aborted(failure: Failure) | Committed(results: Results)

  /** The batch button: its `loading` state, the work list
      `cardsToRendertemp` and the reference map `cardsToRenderRef`. */
  class BatchButton {
    var loading: bool
    /** The work list; a card object is named by its position here. */
    var items: seq<Card>
    /** `cardsToRenderRef.current`: key -> position in `items`. */
    var refMap: JsObject.Entries<nat>
    /** The batch request hook. */
    const hook: InpaintBatchHook

    /** The reference map is the one built from the work list. */
    ghost predicate Valid()
      reads this
    {
      refMap == RefMapOf(items)
    }

    constructor (hook: InpaintBatchHook)
      ensures Valid() && !loading && items == [] && this.hook == hook
    {
      loading, items, refMap := false, [], [];
      this.hook := hook;
    }

    /** `inpaintAll` up to the wait: the re-entry guard, the work list from
        the store's contents and the colours, and the reference map. A call
        while loading changes nothing. */
    method Start(results: Results, colors: seq<Color>) returns (started: bool)
      requires Valid()
      modifies this
      ensures Valid()
      ensures started <==> !old(loading)
      ensures !started ==> loading && items == old(items) && refMap == old(refMap)
      ensures started ==> loading && items == WorkSet(results, colors)
    {
      if loading {
        return false;
      }
      loading := true;
      var work := WorkSet(results, colors) + SecondLoop(results, IteratorKeys(colors));
      SecondLoopAddsNothing(results, colors);
      items := work;
      refMap := RefMapOf(work);
      started := true;
    }

    /** The `onRender` callback of a hidden source or mask card: it stores
        the canvas's data URL as `rawbase64` or `maskbase64` of the card
        object the map holds under `key`. A key the map lacks throws, and
        nothing changes. */
    method CaptureLayer(key: string, layer: Layer, dataUrl: string) returns (ok: bool)
      requires Valid()
      modifies this
      ensures Valid() && loading == old(loading) && refMap == old(refMap)
      ensures ok <==> JsObject.HasKey(refMap, key)
      ensures !ok ==> items == old(items)
      ensures ok ==> var i := JsObject.Get(refMap, key).value;
        i < |old(items)| && items == old(items)[i := WithLayer(old(items)[i], layer, dataUrl)]
    {
      var slot := JsObject.Get(refMap, key);
      if slot.None? {
        return false;
      }
      RefMapInRange(items);
      var i := slot.value;
      assert i == refMap[JsObject.IndexOf(refMap, key)].1;
      var before := items;
      items := items[i := WithLayer(items[i], layer, dataUrl)];
      assert KeyPairs(items) == KeyPairs(before);
      ok := true;
    }

    /** `inpaintAll` after the wait: the request arrays from the reference
        map, the count check, the request with the rounded size and the
        configured parameters, the null-result check, the write-back into
        the shared rows in work-list order, `setResults` and the reset of
        `loading`. Every throw leaves `loading` set; a throw in the
        write-back leaves the writes before it in the store. */
    method Submit(store: ResultStore, renderWidth: int, prompt: string, freshId: nat -> string,
                  outcome: FetchOutcome, setResultsProvided: bool)
      returns (o: Outcome, sent: seq<RequestBody>)
      requires Valid() && loading
      modifies this, hook, hook.inpaintParams, store
      ensures items == old(items) && refMap == old(refMap)
      ensures var cards := (RefMapInRange(items); RefCards(refMap, items));
        && (|cards| == 0 <==> o == Aborted(NoImages))
        && (|cards| == 0 ==> sent == [] && hook.inpaintParams.fields == old(hook.inpaintParams.fields))
        && (|cards| > 0 ==>
              var params := RequestParams(renderWidth, old(hook.inpaintParams.fields));
              && sent == Bodies(Images(cards), Masks(cards), Prompts(prompt, cards), hook.model,
                                Merge(old(hook.inpaintParams.fields), params), freshId)
              && hook.inpaintParams.fields == Merge(old(hook.inpaintParams.fields), params))
      ensures o == Aborted(NoImages) || o == Aborted(NoResult) ==> store.results == old(store.results)
      ensures o != Aborted(NoImages) ==> (o == Aborted(NoResult) <==> !outcome.Responds? || outcome.data.None?)
      ensures o != Aborted(NoImages) && outcome.Responds? && outcome.data.Some? ==>
                var n := FirstFailure(old(store.results).Keys, items, outcome.data.value, 0);
                && store.results == WriteBack(old(store.results), items, outcome.data.value, n)
                && o == (if n < |items| then Aborted(WriteFailed)
                         else if !setResultsProvided then Aborted(SetResultsMissing)
                         else Committed(store.results))
      ensures loading <==> !o.Committed?
    {
      RefMapInRange(items);
      var cards := RefCards(refMap, items);
      var images, masks, prompts := Images(cards), Masks(cards), Prompts(prompt, cards);
      if CountCheckFails(images, masks, prompts) {
        return Aborted(NoImages), [];
      }
      var params := RequestParams(renderWidth, hook.inpaintParams.fields);
      var result;
      result, sent := hook.InpaintImageBatch(images, masks, prompts, params, freshId, outcome);
      if result.None? {
        return Aborted(NoResult), sent;
      }
      var n := WriteResults(store, items, result.value);
      if n < |items| {
        return Aborted(WriteFailed), sent;
      }
      if !setResultsProvided {
        return Aborted(SetResultsMissing), sent;
      }
      o := Committed(store.results);
      loading := false;
    }
  }
}

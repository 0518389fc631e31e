/** Committed cart lines and the subtotal over them. */
module Cart {
  import opened Catalog
  import opened Pricing

  /** A committed line: the item's own fields copied at add time, with `price`
      overwritten by the effective price and the draft's quantity and modifier
      attached. The item's base price is not kept. */
  datatype CartLine = CartLine(
    id: int,
    name: string,
    description: string,
    images: Option<seq<Image>>,
    modifiers: Option<seq<ModifierGroup>>,
    quantity: int,
    price: int,
    modifier: Option<Modifier>)

  /** The line built by "Add order" from the open draft. */
  function NewLine(item: Item, quantity: int, modifier: Option<Modifier>): CartLine {
    CartLine(item.id, item.name, item.description, item.images, item.modifiers,
             quantity, EffectivePrice(item, modifier), modifier)
  }

  /** What one line contributes to the subtotal (also the amount shown beside it). */
  function LineTotal(line: CartLine): int {
    line.price * line.quantity
  }

  /** Reference definition: the sum of price × quantity over all lines. */
  function Sum(lines: seq<CartLine>): int
    decreases |lines|
  {
    if lines == [] then 0 else LineTotal(lines[0]) + Sum(lines[1..])
  }

  /** The `reduce` of the subtotal: an accumulator threaded left to right. */
  function SumFrom(acc: int, lines: seq<CartLine>): int
    decreases |lines|
  {
    if lines == [] then acc else SumFrom(acc + LineTotal(lines[0]), lines[1..])
  }

  lemma {:induction false} SumFromIsSum(acc: int, lines: seq<CartLine>)
    ensures SumFrom(acc, lines) == acc + Sum(lines)
    decreases |lines|
  {
    if lines != [] {
      SumFromIsSum(acc + LineTotal(lines[0]), lines[1..]);
    }
  }

  /** The subtotal, computed as the fold starting from 0; it is the sum of
      price × quantity over the lines, and 0 for an empty cart. */
  function Subtotal(lines: seq<CartLine>): (r: int)
    ensures r == Sum(lines)
    ensures lines == [] ==> r == 0
  {
    SumFromIsSum(0, lines);
    SumFrom(0, lines)
  }

  /** Appending a line raises the subtotal by exactly that line's total. */
  lemma {:induction false} SubtotalAppend(lines: seq<CartLine>, line: CartLine)
    ensures Subtotal(lines + [line]) == Subtotal(lines) + LineTotal(line)
    decreases |lines|
  {
    if lines != [] {
      assert (lines + [line])[1..] == lines[1..] + [line];
      SubtotalAppend(lines[1..], line);
    } else {
      assert lines + [line] == [line] && [line][1..] == [];
      assert Sum([line]) == LineTotal(line) + Sum([]);
    }
  }

  /** Replacing one line changes the subtotal by the difference of the two
      lines' totals; nothing else contributes to the change. */
  lemma {:induction false} SubtotalUpdate(lines: seq<CartLine>, i: int, line: CartLine)
    requires 0 <= i < |lines|
    ensures Subtotal(lines[i := line]) == Subtotal(lines) - LineTotal(lines[i]) + LineTotal(line)
    decreases |lines|
  {
    if i > 0 {
      assert lines[i := line][1..] == lines[1..][i - 1 := line];
      SubtotalUpdate(lines[1..], i - 1, line);
    } else {
      assert lines[i := line][1..] == lines[1..];
    }
  }

  /** With non-negative prices and quantities of at least one, the subtotal is
      non-negative, and positive as soon as one line has a positive price. */
  lemma {:induction false} SubtotalSign(lines: seq<CartLine>)
    requires forall i :: 0 <= i < |lines| ==> lines[i].price >= 0 && lines[i].quantity >= 1
    ensures Subtotal(lines) >= 0
    ensures (exists i :: 0 <= i < |lines| && lines[i].price > 0) ==> Subtotal(lines) > 0
    decreases |lines|
  {
    if lines != [] {
      SubtotalSign(lines[1..]);
      if exists i :: 0 <= i < |lines| && lines[i].price > 0 {
        var i :| 0 <= i < |lines| && lines[i].price > 0;
        if i > 0 {
          assert lines[1..][i - 1].price > 0;
        }
      }
    }
  }

  /** A cart with lines (price 5, quantity 2) and (price 3, quantity 1) has a
      subtotal of 13. */
  lemma SubtotalExample(a: Item, b: Item)
    requires a.price == 5 && b.price == 3
    ensures Subtotal([NewLine(a, 2, None), NewLine(b, 1, None)]) == 13
  {
    var lines := [NewLine(a, 2, None), NewLine(b, 1, None)];
    assert lines[1..][1..] == [];
    assert Sum(lines[1..]) == LineTotal(lines[1]) + Sum([]);
    assert Sum(lines) == LineTotal(lines[0]) + Sum(lines[1..]);
  }
}

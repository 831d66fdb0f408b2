/** The cart: the script's globals `cart`, `total` and `nextCartId`, and the
    functions `addToCart` and `removeFromCart` that update them. Prices are
    whole paise. */
module ShoppingCart {
  import opened Common

  /** One cart entry `{id, item, price, qty}`; `addToCart` always sets `qty` to 1. */
  datatype CartLine = CartLine(id: nat, item: string, price: nat, qty: nat)

  /** `cart.reduce((s, c) => s + Number(c.price), 0)`, folded from the left. */
  /** No line costs more than the whole cart. */
  function SumPrices(lines: seq<CartLine>): (s: nat)
    ensures forall i :: 0 <= i < |lines| ==> lines[i].price <= s
  {
    if lines == [] then 0 else SumPrices(lines[..|lines| - 1]) + lines[|lines| - 1].price
  }

  /** The sum of prices distributes over concatenation. */
  lemma {:induction false} SumPricesAppend(a: seq<CartLine>, b: seq<CartLine>)
    ensures SumPrices(a + b) == SumPrices(a) + SumPrices(b)
  {
    if b != [] {
      assert (a + b)[..|a + b| - 1] == a + b[..|b| - 1];
      SumPricesAppend(a, b[..|b| - 1]);
    } else {
      assert a + b == a;
    }
  }

  /** The sum is zero exactly when every line is free; in particular an empty
      cart sums to zero. */
  lemma {:induction false} SumPricesZeroIff(lines: seq<CartLine>)
    ensures SumPrices(lines) == 0 <==> forall i :: 0 <= i < |lines| ==> lines[i].price == 0
  {
    if lines != [] {
      SumPricesZeroIff(lines[..|lines| - 1]);
      assert forall i :: 0 <= i < |lines| - 1 ==> lines[..|lines| - 1][i] == lines[i];
    }
  }

  /** `cart.findIndex(c => c.id === id)`, searching from position `from` on. */
  function FindFrom(lines: seq<CartLine>, id: nat, from: nat): (r: Option<nat>)
    requires from <= |lines|
    ensures r.Some? ==> from <= r.value < |lines| && lines[r.value].id == id
                        && forall j :: from <= j < r.value ==> lines[j].id != id
    ensures r.None? <==> forall j :: from <= j < |lines| ==> lines[j].id != id
    decreases |lines| - from
  {
    if from == |lines| then None
    else if lines[from].id == id then Some(from)
    else FindFrom(lines, id, from + 1)
  }

  /** The position of the first line carrying `id`, or `None` when no line does
      (`findIndex` returning -1). */
  function FindLine(lines: seq<CartLine>, id: nat): (r: Option<nat>)
    ensures r.Some? ==> r.value < |lines| && lines[r.value].id == id
                        && forall j :: 0 <= j < r.value ==> lines[j].id != id
    ensures r.None? <==> forall j :: 0 <= j < |lines| ==> lines[j].id != id
  {
    FindFrom(lines, id, 0)
  }

  /** The lines whose id is not `id`, in their order: what removal by id means. */
  function WithoutId(lines: seq<CartLine>, id: nat): seq<CartLine>
  {
    if lines == [] then []
    else (if lines[0].id == id then [] else [lines[0]]) + WithoutId(lines[1..], id)
  }

  /** Ids strictly increase along the cart, so no id appears twice. */
  ghost predicate IdsIncreasing(lines: seq<CartLine>) {
    forall i, j :: 0 <= i < j < |lines| ==> lines[i].id < lines[j].id
  }

  /** Every line is one unit and carries an id below `bound`. */
  ghost predicate UnitLinesBelow(lines: seq<CartLine>, bound: nat) {
    forall i :: 0 <= i < |lines| ==> lines[i].id < bound && lines[i].qty == 1
  }

  /** When ids are unique, cutting the line at position `i` out of the cart is
      the same as dropping every line with that line's id. */
  lemma {:induction false} SpliceIsWithoutId(lines: seq<CartLine>, i: nat)
    requires IdsIncreasing(lines)
    requires i < |lines|
    ensures lines[..i] + lines[i + 1..] == WithoutId(lines, lines[i].id)
  {
    var id := lines[i].id;
    if i == 0 {
      NoIdNoChange(lines[1..], id);
    } else {
      SpliceIsWithoutId(lines[1..], i - 1);
      assert lines[1..][..i - 1] + lines[1..][i..] == lines[1..i] + lines[i + 1..];
      assert lines[..i] + lines[i + 1..] == [lines[0]] + (lines[1..i] + lines[i + 1..]);
    }
  }

  /** Cutting out the line at position `i` takes exactly its price off the sum. */
  lemma SumPricesSplice(lines: seq<CartLine>, i: nat)
    requires i < |lines|
    ensures SumPrices(lines[..i] + lines[i + 1..]) == SumPrices(lines) - lines[i].price
  {
    var front, back := lines[..i], lines[i + 1..];
    assert front + [lines[i]] == lines[..i + 1];
    assert lines[..i + 1] + back == lines;
    SumPricesAppend(front, [lines[i]]);
    SumPricesAppend(lines[..i + 1], back);
    SumPricesAppend(front, back);
  }

  /** Cutting a line out keeps the ids increasing and keeps every remaining
      line one unit with an id below `bound`. */
  lemma SpliceKeepsShape(lines: seq<CartLine>, i: nat, bound: nat)
    requires i < |lines|
    requires IdsIncreasing(lines)
    requires UnitLinesBelow(lines, bound)
    ensures IdsIncreasing(lines[..i] + lines[i + 1..])
    ensures UnitLinesBelow(lines[..i] + lines[i + 1..], bound)
  {
    var rest := lines[..i] + lines[i + 1..];
    assert forall k :: 0 <= k < |rest| ==> rest[k] == lines[if k < i then k else k + 1];
  }

  /** Appending a one-unit line whose id is the counter keeps the ids
      increasing and every line below the advanced counter. */
  lemma AppendKeepsShape(lines: seq<CartLine>, line: CartLine, bound: nat)
    requires IdsIncreasing(lines) && UnitLinesBelow(lines, bound)
    requires line.id == bound && line.qty == 1
    ensures IdsIncreasing(lines + [line]) && UnitLinesBelow(lines + [line], bound + 1)
  {
    var after := lines + [line];
    assert forall k :: 0 <= k < |lines| ==> after[k] == lines[k];
  }

  /** Dropping an id that no line carries changes nothing. */
  lemma {:induction false} NoIdNoChange(lines: seq<CartLine>, id: nat)
    requires forall j :: 0 <= j < |lines| ==> lines[j].id != id
    ensures WithoutId(lines, id) == lines
  {
    if lines != [] {
      NoIdNoChange(lines[1..], id);
    }
  }

  /** Removing an id twice is removing it once. */
  lemma {:induction false} WithoutIdIdempotent(lines: seq<CartLine>, id: nat)
    ensures WithoutId(WithoutId(lines, id), id) == WithoutId(lines, id)
  {
    if lines != [] {
      WithoutIdIdempotent(lines[1..], id);
      var rest := WithoutId(lines[1..], id);
      if lines[0].id != id {
        var once := WithoutId(lines, id);
        assert once == [lines[0]] + rest;
        assert once[0] == lines[0] && once[1..] == rest;
        assert WithoutId(once, id) == [once[0]] + WithoutId(once[1..], id);
      } else {
        assert WithoutId(lines, id) == [] + rest == rest;
      }
    }
  }

  class Cart {
    var lines: seq<CartLine>
    var total: int
    var nextCartId: nat

    /** The running total is the sum of the prices in the cart; every line is
        one unit; ids increase along the cart and all lie below the counter. */
    ghost predicate Valid()
      reads this
    {
      && total == SumPrices(lines)
      && IdsIncreasing(lines)
      && UnitLinesBelow(lines, nextCartId)
      && nextCartId >= 1
    }

    /** Page load: `total = 0`, `cart = []`, `nextCartId = 1`. */
    constructor ()
      ensures Valid()
      ensures lines == [] && total == 0 && nextCartId == 1
    {
      lines, total, nextCartId := [], 0, 1;
    }

    /** `addToCart(item, price)`: a one-unit line with the next id goes at the
        end, the price is added to the total, and the counter moves on. The id
        is returned because the line's remove button captures it. */
    method AddToCart(item: string, price: nat) returns (id: nat)
      requires Valid()
      modifies this
      ensures Valid()
      ensures id == old(nextCartId) && nextCartId == old(nextCartId) + 1
      ensures forall i :: 0 <= i < |old(lines)| ==> old(lines)[i].id < id
      ensures lines == old(lines) + [CartLine(id, item, price, 1)]
      ensures total == old(total) + price
    {
      id := nextCartId;
      var line := CartLine(id, item, price, 1);
      SumPricesAppend(lines, [line]);
      AppendKeepsShape(lines, line, nextCartId);
      nextCartId := nextCartId + 1;
      lines := lines + [line];
      total := total + price;
    }

    /** `removeFromCart(id)`: with no line of that id nothing changes; otherwise
        that line's price leaves the total and the line is spliced out, the
        others keeping their order. */
    method RemoveFromCart(id: nat)
      requires Valid()
      modifies this
      ensures Valid()
      ensures nextCartId == old(nextCartId)
      ensures lines == WithoutId(old(lines), id)
      ensures match FindLine(old(lines), id)
        case None => lines == old(lines) && total == old(total)
        case Some(i) => lines == old(lines)[..i] + old(lines)[i + 1..]
                        && total == old(total) - old(lines)[i].price
    {
      var idx := FindLine(lines, id);
      if idx.None? {
        NoIdNoChange(lines, id);
        return;
      }
      var i := idx.value;
      SpliceIsWithoutId(lines, i);
      SumPricesSplice(lines, i);
      SpliceKeepsShape(lines, i, nextCartId);
      total := total - lines[i].price;
      lines := lines[..i] + lines[i + 1..];
    }

    /** The reset after a sale is recorded: `cart = []; total = 0`. The id
        counter is not reset, so ids stay unique for the whole session. */
    method Clear()
      requires Valid()
      modifies this
      ensures Valid()
      ensures lines == [] && total == 0 && nextCartId == old(nextCartId)
    {
      lines, total := [], 0;
    }
  }
}

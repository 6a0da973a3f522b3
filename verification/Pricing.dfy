/** Pricing an order against the catalogue snapshot: which orders have a price, and what it is. */
module Pricing {
  import opened Prelude
  import opened Orders

  /** A line that can be ordered: one unit or more, of a known variant, none beyond the stock the catalogue shows. */
  ghost predicate LineOrderable(cat: Catalogue, l: Line)
    requires l.product in cat
  {
    && l.quantity >= 1
    && match l.variant
       case None => cat[l.product].stock.Some? ==> l.quantity <= cat[l.product].stock.value
       case Some(v) =>
         && v in cat[l.product].variants
         && (cat[l.product].variants[v].stock.Some? ==> l.quantity <= cat[l.product].variants[v].stock.value)
  }

  ghost predicate Orderable(cat: Catalogue, lines: seq<Line>) {
    lines != [] && forall l | l in lines :: l.product in cat && LineOrderable(cat, l)
  }

  /** Why a line that cannot be ordered is refused. */
  ghost function Reason(cat: Catalogue, l: Line): CreateError
    requires l.product in cat
  {
    if l.quantity < 1 then BadQuantity
    else if l.variant.Some? && l.variant.value !in cat[l.product].variants then UnknownVariant
    else SoldOut
  }

  /** Quantity times the variant's own price, or the product's when there is no variant or it has no price. */
  ghost function Charge(cat: Catalogue, l: Line): real {
    if l.product !in cat then 0.0
    else
      var own := if l.variant.Some? && l.variant.value in cat[l.product].variants
                 then cat[l.product].variants[l.variant.value].price else None;
      l.quantity as real * match own case Some(p) => p case None => cat[l.product].price
  }

  lemma LineCharge(cat: Catalogue, l: Line)
    requires l.product in cat
    ensures PriceLine(cat, l).Ok? <==> LineOrderable(cat, l)
    ensures PriceLine(cat, l).Ok? ==> LineTotal(PriceLine(cat, l).value, l.quantity) == Charge(cat, l)
    ensures PriceLine(cat, l).Err? ==> PriceLine(cat, l).error == Reason(cat, l)
  {
  }

  lemma {:induction false} LinesSum(cat: Catalogue, lines: seq<Line>)
    requires forall l | l in lines :: l.product in cat
    ensures PriceLines(cat, lines).Ok? <==> forall l | l in lines :: LineOrderable(cat, l)
    ensures PriceLines(cat, lines).Ok? ==> PriceLines(cat, lines).value == SumReal(lines, l => Charge(cat, l))
  {
    if lines != [] {
      var n := |lines| - 1;
      LinesSum(cat, lines[..n]);
      LineCharge(cat, lines[n]);
      assert forall l | l in lines :: l in lines[..n] || l == lines[n];
      assert lines[n] in lines && forall l | l in lines[..n] :: l in lines;
      hide PriceLine;
      hide LineTotal;
      hide Charge;
      hide LineOrderable;
    }
  }

  /** Exactly the orderable lines have a price, and it is the rounded sum of their charges. */
  lemma PriceIsCharged(cat: Catalogue, lines: seq<Line>)
    ensures Price(cat, lines).Ok? <==> Orderable(cat, lines)
    ensures Price(cat, lines).Ok? ==> Price(cat, lines).value == Round2(SumReal(lines, l => Charge(cat, l)))
  {
    if forall l | l in lines :: l.product in cat {
      LinesSum(cat, lines);
    }
    hide PriceLines;
    hide LineOrderable;
    hide Charge;
    hide Round2;
  }

  /** Which refusal: of an empty list, of an unknown product anywhere, or else of the first bad line. */
  lemma RefusalIs(cat: Catalogue, lines: seq<Line>) returns (i: nat)
    ensures lines == [] ==> Price(cat, lines) == Err(NoItems)
    ensures lines != [] && (exists l | l in lines :: l.product !in cat) ==> Price(cat, lines) == Err(UnknownProduct)
    ensures lines != [] && (forall l | l in lines :: l.product in cat) && Price(cat, lines).Err? ==>
      && i < |lines| && !LineOrderable(cat, lines[i]) && (forall j | 0 <= j < i :: LineOrderable(cat, lines[j]))
      && Price(cat, lines).error == Reason(cat, lines[i])
  {
    i := 0;
    if (forall l | l in lines :: l.product in cat) && PriceLines(cat, lines).Err? {
      i := FirstBad(cat, lines);
    }
    hide PriceLines;
    hide LineOrderable;
    hide Reason;
  }

  lemma {:induction false} FirstBad(cat: Catalogue, lines: seq<Line>) returns (i: nat)
    requires (forall l | l in lines :: l.product in cat) && PriceLines(cat, lines).Err?
    ensures i < |lines| && !LineOrderable(cat, lines[i]) && (forall j | 0 <= j < i :: LineOrderable(cat, lines[j]))
    ensures PriceLines(cat, lines) == Err(Reason(cat, lines[i]))
  {
    var n := |lines| - 1;
    if PriceLines(cat, lines[..n]).Err? {
      i := FirstBad(cat, lines[..n]);
    } else {
      i := n;
      LinesSum(cat, lines[..n]);
      LineCharge(cat, lines[n]);
      forall j | 0 <= j < n
        ensures LineOrderable(cat, lines[j])
      {
        assert lines[j] in lines[..n];
      }
    }
    hide PriceLine;
    hide LineOrderable;
  }

  lemma InBolivarsNear(total: real, rate: real)
    ensures -0.005 <= InBolivars(total, rate) - total * rate <= 0.005
  {
    Round2Error(total * rate);
  }

  // --- the loop ------------------------------------------------------------------------------

  /** The first pass over the items: unit prices, the stale stock check and the running total. */
  method PriceOrder(cat: Catalogue, lines: seq<Line>) returns (r: Result<real, CreateError>)
    ensures r == Price(cat, lines)
    ensures r.Ok? <==> Orderable(cat, lines)
    ensures r.Ok? ==> r.value == Round2(SumReal(lines, l => Charge(cat, l)))
  {
    PriceIsCharged(cat, lines);
    hide Orderable;
    hide Charge;
    hide PriceLines;
    hide LineTotal;
    NoLinesNoPrice(cat);
    if lines == [] {
      return Err(NoItems);
    }
    if exists l | l in lines :: l.product !in cat {
      return Err(UnknownProduct);
    }
    var total := 0.0;
    assert lines[..0] == [];
    for i := 0 to |lines|
      invariant PriceLines(cat, lines[..i]) == Ok(total)
    {
      var unit := PriceLine(cat, lines[i]);
      if unit.Err? {
        FirstErrorWins(cat, lines, i);
        return unit;
      }
      PriceOneMore(cat, lines, i);
      total := total + LineTotal(unit.value, lines[i].quantity);
    }
    assert lines[..|lines|] == lines;
    r := Ok(Round2(total));
  }

  lemma NoLinesNoPrice(cat: Catalogue)
    ensures PriceLines(cat, []) == Ok(0.0)
  {
  }

  lemma PriceOneMore(cat: Catalogue, lines: seq<Line>, i: nat)
    requires i < |lines| && forall l | l in lines :: l.product in cat
    requires PriceLines(cat, lines[..i]).Ok? && PriceLine(cat, lines[i]).Ok?
    ensures PriceLines(cat, lines[..i + 1])
         == Ok(PriceLines(cat, lines[..i]).value + LineTotal(PriceLine(cat, lines[i]).value, lines[i].quantity))
  {
    hide LineTotal;
    assert lines[..i + 1][..i] == lines[..i] && lines[..i + 1][i] == lines[i];
  }

  lemma {:induction false} FirstErrorWins(cat: Catalogue, lines: seq<Line>, i: nat)
    requires i < |lines| && forall l | l in lines :: l.product in cat
    requires PriceLines(cat, lines[..i]).Ok? && PriceLine(cat, lines[i]).Err?
    ensures PriceLines(cat, lines) == PriceLine(cat, lines[i])
  {
    var n := |lines| - 1;
    if i < n {
      assert lines[..n][..i] == lines[..i];
      FirstErrorWins(cat, lines[..n], i);
    } else {
      assert lines[..i] == lines[..n];
    }
  }
}

/** Totals of a quotation: rounding at every stage, and documents whose totals match what they store. */
module Quotations {
  import opened Prelude

  datatype Item = Item(quantity: real, unitPrice: real, subtotal: Option<real>, unit: Option<string>)

  datatype Labor = Labor(hours: Option<real>, ratePerHour: Option<real>, fixedPrice: Option<real>,
                         subtotal: Option<real>)

  datatype Totals = Totals(materials: real, labor: real, subtotal: real, iva: real, total: real)

  function ItemAmount(i: Item): real {
    Or(i.subtotal, i.quantity * i.unitPrice)
  }

  // hours * rate, or the fixed price when that product is zero.
  function LaborAmount(l: Labor): real {
    if l.subtotal.Some? then l.subtotal.value
    else if Or(l.hours, 0.0) * Or(l.ratePerHour, 0.0) != 0.0 then Or(l.hours, 0.0) * Or(l.ratePerHour, 0.0)
    else Or(l.fixedPrice, 0.0)
  }

  function ItemsSum(items: seq<Item>): real {
    if items == [] then 0.0 else ItemsSum(items[..|items| - 1]) + ItemAmount(items[|items| - 1])
  }

  function LaborSum(lines: seq<Labor>): real {
    if lines == [] then 0.0 else LaborSum(lines[..|lines| - 1]) + LaborAmount(lines[|lines| - 1])
  }

  // rate percent of an amount.
  function Percent(amount: real, rate: real): real {
    amount * (rate / 100.0)
  }

  function CalcTotals(items: seq<Item>, labor: seq<Labor>, ivaEnabled: bool, ivaRate: real): Totals {
    var materials := Round2(ItemsSum(items));
    var work := Round2(LaborSum(labor));
    var subtotal := Round2(materials + work);
    var iva := if ivaEnabled then Round2(Percent(subtotal, ivaRate)) else 0.0;
    Totals(materials, work, subtotal, iva, Round2(subtotal + iva))
  }

  /** What the lines come to: a given subtotal, else quantity times unit price. */
  ghost function Materials(items: seq<Item>): real {
    SumReal(items, (i: Item) => if i.subtotal.Some? then i.subtotal.value else i.quantity * i.unitPrice)
  }

  /** A given subtotal; else hours times their rate, when there are both and neither is zero; else the fixed price. */
  ghost function Work(labor: seq<Labor>): real {
    SumReal(labor, (l: Labor) =>
      if l.subtotal.Some? then l.subtotal.value
      else if l.hours.Some? && l.ratePerHour.Some? && l.hours.value != 0.0 && l.ratePerHour.value != 0.0
      then l.hours.value * l.ratePerHour.value
      else if l.fixedPrice.Some? then l.fixedPrice.value else 0.0)
  }

  /** The total nobody rounded. */
  ghost function Exact(items: seq<Item>, labor: seq<Labor>, ivaEnabled: bool, ivaRate: real): real {
    (Materials(items) + Work(labor)) * if ivaEnabled then 1.0 + ivaRate / 100.0 else 1.0
  }

  lemma {:induction false} ItemsCome(items: seq<Item>)
    ensures ItemsSum(items) == Materials(items)
  {
    if items != [] {
      ItemsCome(items[..|items| - 1]);
    }
  }

  lemma ProductZero(a: real, b: real)
    ensures a * b == 0.0 <==> a == 0.0 || b == 0.0
  {
  }

  lemma LaborAmountIs(l: Labor)
    ensures LaborAmount(l) ==
      if l.subtotal.Some? then l.subtotal.value
      else if l.hours.Some? && l.ratePerHour.Some? && l.hours.value != 0.0 && l.ratePerHour.value != 0.0
      then l.hours.value * l.ratePerHour.value
      else if l.fixedPrice.Some? then l.fixedPrice.value else 0.0
  {
    ProductZero(Or(l.hours, 0.0), Or(l.ratePerHour, 0.0));
  }

  lemma {:induction false} WorkComes(labor: seq<Labor>)
    ensures LaborSum(labor) == Work(labor)
  {
    if labor != [] {
      WorkComes(labor[..|labor| - 1]);
      LaborAmountIs(labor[|labor| - 1]);
    }
  }

  lemma Taxed(amount: real, rate: real)
    ensures amount * (1.0 + rate / 100.0) == amount + Percent(amount, rate)
    ensures Percent(amount, rate) == amount * rate / 100.0
  {
  }

  lemma ExactIs(items: seq<Item>, labor: seq<Labor>, ivaEnabled: bool, ivaRate: real)
    ensures var amount := ItemsSum(items) + LaborSum(labor);
      Exact(items, labor, ivaEnabled, ivaRate) == if ivaEnabled then amount + Percent(amount, ivaRate) else amount
  {
    hide Percent;
    hide Materials;
    hide Work;
    ItemsCome(items);
    WorkComes(labor);
    Taxed(Materials(items) + Work(labor), ivaRate);
  }

  /** The two printed sums are the lines' own, rounded to the cent. */
  lemma SumsAreRounded(items: seq<Item>, labor: seq<Labor>, ivaEnabled: bool, ivaRate: real)
    ensures var t := CalcTotals(items, labor, ivaEnabled, ivaRate);
      t.materials == Round2(Materials(items)) && t.labor == Round2(Work(labor)) && (!ivaEnabled ==> t.iva == 0.0)
  {
    ItemsCome(items);
    WorkComes(labor);
  }

  function InCents(n: int): real {
    n as real / 100.0
  }

  // A whole number of cents.
  ghost predicate Cents(x: real) {
    exists n :: x == InCents(n)
  }

  lemma RoundedIsCents(x: real)
    ensures Cents(Round2(x))
  {
    assert Round2(x) == InCents(JsRound(x * 100.0));
  }

  lemma CentsAdd(x: real, y: real)
    requires Cents(x) && Cents(y)
    ensures Cents(x + y) && Round2(x + y) == x + y
  {
    var m :| x == InCents(m);
    var n :| y == InCents(n);
    assert x + y == InCents(m + n);
    Round2OnCents(m + n);
  }

  /** The printed figures add up exactly: the last two roundings change nothing. */
  lemma FiguresAddUp(items: seq<Item>, labor: seq<Labor>, ivaEnabled: bool, ivaRate: real)
    ensures var t := CalcTotals(items, labor, ivaEnabled, ivaRate);
      && t.subtotal == t.materials + t.labor
      && t.total == t.subtotal + t.iva
      && Cents(t.subtotal) && Cents(t.iva) && Cents(t.total)
  {
    var t := CalcTotals(items, labor, ivaEnabled, ivaRate);
    RoundedIsCents(ItemsSum(items));
    RoundedIsCents(LaborSum(labor));
    CentsAdd(t.materials, t.labor);
    RoundedIsCents(Percent(t.subtotal, ivaRate));
    assert 0.0 == InCents(0);
    CentsAdd(t.subtotal, t.iva);
    hide Cents;
  }

  function Abs(x: real): real {
    if x < 0.0 then -x else x
  }

  lemma PercentDifference(a: real, b: real, rate: real)
    requires Abs(a - b) <= 0.01
    ensures Abs(Percent(a, rate) - Percent(b, rate)) <= 0.0001 * Abs(rate)
  {
    var d := a - b;
    var r := rate / 100.0;
    assert Percent(a, rate) - Percent(b, rate) == d * r;
    ProductBound(d, 0.01, r);
    assert Abs(r) == Abs(rate) / 100.0;
  }

  lemma ProductBound(d: real, bound: real, r: real)
    requires Abs(d) <= bound
    ensures Abs(d * r) <= bound * Abs(r)
  {
    if r >= 0.0 {
      assert d * r <= bound * r && -bound * r <= d * r;
    } else {
      assert d * -r <= bound * -r && -bound * -r <= d * -r;
      assert d * -r == -(d * r);
    }
  }

  // The bounds in terms of the sums and the percentage as they are computed.
  lemma ComputedBound(items: seq<Item>, labor: seq<Labor>, ivaEnabled: bool, ivaRate: real)
    ensures var t, amount := CalcTotals(items, labor, ivaEnabled, ivaRate), ItemsSum(items) + LaborSum(labor);
      && (ivaEnabled ==> Abs(t.iva - Percent(t.subtotal, ivaRate)) <= 0.005)
      && Abs(t.total - if ivaEnabled then amount + Percent(amount, ivaRate) else amount)
         <= if ivaEnabled then 0.015 + 0.0001 * Abs(ivaRate) else 0.01
  {
    var t := CalcTotals(items, labor, ivaEnabled, ivaRate);
    var amount := ItemsSum(items) + LaborSum(labor);
    FiguresAddUp(items, labor, ivaEnabled, ivaRate);
    Round2Error(ItemsSum(items));
    Round2Error(LaborSum(labor));
    Round2Error(Percent(t.subtotal, ivaRate));
    hide Round2;
    hide Cents;
    hide Percent;
    assert Abs(t.subtotal - amount) <= 0.01;
    PercentDifference(t.subtotal, amount, ivaRate);
  }

  /** The IVA is within half a cent of the exact rate on the printed subtotal, and the total within
      0.015 + 0.0001 * |rate| of the amount nobody rounded, for any lines. */
  lemma RoundingBound(items: seq<Item>, labor: seq<Labor>, ivaEnabled: bool, ivaRate: real)
    ensures var t := CalcTotals(items, labor, ivaEnabled, ivaRate);
      && (ivaEnabled ==> Abs(t.iva - t.subtotal * ivaRate / 100.0) <= 0.005)
      && Abs(t.total - Exact(items, labor, ivaEnabled, ivaRate))
         <= if ivaEnabled then 0.015 + 0.0001 * Abs(ivaRate) else 0.01
  {
    hide CalcTotals;
    hide Exact;
    hide Percent;
    hide Abs;
    ComputedBound(items, labor, ivaEnabled, ivaRate);
    ExactIs(items, labor, ivaEnabled, ivaRate);
    Taxed(CalcTotals(items, labor, ivaEnabled, ivaRate).subtotal, ivaRate);
  }

  /** The bound is reached: half a cent of material, half a cent of labour, 25 percent. */
  lemma BoundIsTight()
    ensures exists items, labor ::
      Abs(CalcTotals(items, labor, true, 25.0).total - Exact(items, labor, true, 25.0)) == 0.015 + 0.0001 * 25.0
  {
    var items := [Item(1.0, 0.005, None, None)];
    var labor := [Labor(None, None, Some(0.005), None)];
    assert items[..0] == [] && labor[..0] == [];
    assert ItemsSum(items) == 0.005 && LaborSum(labor) == 0.005;
    assert JsRound(0.5) == 1 && JsRound(2.0) == 2 && JsRound(3.0) == 3;
    assert Round2(0.005) == 0.01 && Round2(0.02) == 0.02 && Round2(0.03) == 0.03;
    assert Percent(0.02, 25.0) == 0.005;
    assert CalcTotals(items, labor, true, 25.0).total == 0.03;
    ExactIs(items, labor, true, 25.0);
    assert Exact(items, labor, true, 25.0) == 0.0125;
  }

  // --- documents ---------------------------------------------------------------------

  datatype Update = Update(
    items: Option<seq<Item>>, labor: Option<seq<Labor>>, ivaEnabled: Option<bool>, ivaRate: Option<real>,
    notes: Option<string>)

  function WithUnit(i: Item): Item {
    i.(unit := Some(if i.unit.Some? then i.unit.value else "unidad"))
  }

  function WithUnits(items: seq<Item>): seq<Item> {
    if items == [] then [] else WithUnits(items[..|items| - 1]) + [WithUnit(items[|items| - 1])]
  }

  lemma {:induction false} UnitsCostNothing(items: seq<Item>)
    ensures |WithUnits(items)| == |items| && ItemsSum(WithUnits(items)) == ItemsSum(items)
  {
    if items != [] {
      UnitsCostNothing(items[..|items| - 1]);
      assert WithUnits(items)[..|items| - 1] == WithUnits(items[..|items| - 1]);
    }
  }

  /** Stored items are the given ones, with "unidad" where no unit was said. */
  lemma {:induction false} UnitsAre(items: seq<Item>)
    ensures |WithUnits(items)| == |items|
    ensures forall i | 0 <= i < |items| ::
      var x, unit := items[i], Or(items[i].unit, "unidad");
      WithUnits(items)[i] == Item(x.quantity, x.unitPrice, x.subtotal, Some(unit))
  {
    if items != [] {
      UnitsAre(items[..|items| - 1]);
    }
  }

  lemma UnitsSameTotals(items: seq<Item>, labor: seq<Labor>, ivaEnabled: bool, ivaRate: real)
    ensures CalcTotals(WithUnits(items), labor, ivaEnabled, ivaRate) == CalcTotals(items, labor, ivaEnabled, ivaRate)
  {
    UnitsCostNothing(items);
    hide Round2;
    hide Percent;
  }

  // `notes` stands for the text fields, taken as already trimmed.
  class Quotation {
    var items: seq<Item>
    var laborLines: Option<seq<Labor>>
    var ivaEnabled: bool
    var ivaRate: real
    var notes: string
    var totals: Totals

    // What is printed is what the stored lines come to.
    ghost predicate Consistent()
      reads this
    {
      totals == CalcTotals(items, Or(laborLines, []), ivaEnabled, ivaRate)
    }

    constructor (items: seq<Item>, labor: Option<seq<Labor>>, ivaEnabled: bool, ivaRate: Option<real>, notes: string)
      ensures Consistent() && this.items == WithUnits(items) && laborLines == Some(Or(labor, []))
      ensures this.ivaEnabled == ivaEnabled && this.ivaRate == Or(ivaRate, 16.0) && this.notes == notes
    {
      var lines := Or(labor, []);
      totals := CalcTotals(items, lines, ivaEnabled, Or(ivaRate, 16.0));
      this.items := WithUnits(items);
      laborLines := Some(lines);
      this.ivaEnabled, this.ivaRate, this.notes := ivaEnabled, Or(ivaRate, 16.0), notes;
      UnitsSameTotals(items, lines, ivaEnabled, Or(ivaRate, 16.0));
      hide CalcTotals;
    }

    /** Whatever totals were stored, after a partial update they are those of the lines and the tax then stored;
        every field that was not given stays. */
    method ApplyUpdate(dto: Update)
      modifies this
      ensures Consistent()
      ensures items == if dto.items.Some? then WithUnits(dto.items.value) else old(items)
      ensures laborLines == if dto.labor.Some? then dto.labor else old(laborLines)
      ensures ivaEnabled == Or(dto.ivaEnabled, old(ivaEnabled)) && ivaRate == Or(dto.ivaRate, old(ivaRate))
      ensures notes == Or(dto.notes, old(notes))
    {
      hide CalcTotals;
      var newItems := Or(dto.items, items);
      var newLabor := if dto.labor.Some? then dto.labor.value else Or(laborLines, []);
      var newEnabled := Or(dto.ivaEnabled, ivaEnabled);
      var newRate := Or(dto.ivaRate, ivaRate);
      totals := CalcTotals(newItems, newLabor, newEnabled, newRate);
      if dto.items.Some? {
        UnitsSameTotals(dto.items.value, newLabor, newEnabled, newRate);
        items := WithUnits(dto.items.value);
      }
      if dto.labor.Some? {
        laborLines := dto.labor;
      }
      if dto.ivaEnabled.Some? {
        ivaEnabled := dto.ivaEnabled.value;
      }
      if dto.ivaRate.Some? {
        ivaRate := dto.ivaRate.value;
      }
      if dto.notes.Some? {
        notes := dto.notes.value;
      }
    }
  }
}

/** A run on the documented table that breaks the promised conservation: one cancelled variant order. */
module VariantDrift {
  import opened Prelude
  import opened Orders
  import opened StockConservation

  const PRODUCT := ProductSku("p")
  const VARIANT := VariantSku("p", "v")
  const LINE := Line("p", Some("v"), 1)
  const CATALOGUE: Catalogue := map["p" := Product(1.0, Some(1), map["v" := Variant(None, Some(1))])]
  const SHELVES: Stock := map[PRODUCT := 1, VARIANT := 1]

  // The first call for one unit of the variant, to be paid in cash.
  ghost predicate Calling(s: State, next: nat, phase: Phase) {
    && s.stock == map[PRODUCT := 1, VARIANT := 1 - next]
    && |s.requests| == 1 && s.orders == []
    && var q := s.requests[0];
      q.items == [LINE] && q.ops == [StockOp(VARIANT, 1)] && q.next == next <= 1 && q.held == q.ops[..next]
      && q.phase == phase && q.payBy == Cash
  }

  ghost predicate OneOrder(s: State, st: Status, products: int, variants: int) {
    && s.stock == map[PRODUCT := products, VARIANT := variants]
    && |s.requests| == 1 && s.requests[0].held == []
    && |s.orders| == 1 && s.orders[0].items == [LINE] && s.orders[0].payBy == Cash && s.orders[0].status == st
  }

  lemma Priced()
    ensures Price(CATALOGUE, [LINE]).Ok? && StockOps(CATALOGUE, [LINE]) == [StockOp(VARIANT, 1)]
  {
    assert [LINE][..0] == [];
    assert PriceLines(CATALOGUE, []) == Ok(0.0);
    assert PriceLine(CATALOGUE, LINE) == Ok(1.0);
    assert PriceLines(CATALOGUE, [LINE]).Ok?;
    assert StockOps(CATALOGUE, []) == [];
  }

  lemma Begun(m: Machine)
    ensures Calling(Apply(m, Start(SHELVES), Begin("t", [LINE], CATALOGUE, Cash, 1.0, "d")), 0, Reserving)
  {
    Priced();
  }

  lemma Taken(m: Machine, s: State)
    requires Calling(s, 0, Reserving)
    ensures Calling(Apply(m, s, Decrement(0)), 1, Reserving)
  {
    assert s.requests[0].ops[..1] == [] + [StockOp(VARIANT, 1)];
  }

  lemma Saved(m: Machine, s: State)
    requires Calling(s, 1, Reserving)
    ensures OneOrder(Apply(m, Apply(m, s, Number(0, true)), Create(0, true)), PendingCash, 1, 0)
  {
    assert Calling(Apply(m, s, Number(0, true)), 1, Creating);
  }

  lemma Charged(m: Machine, s: State)
    requires OneOrder(s, PendingCash, 1, 0)
    ensures OneOrder(Apply(m, s, ConfirmCash(0, false, true, 0)), Paid, 1, 0)
  {
  }

  // The unit goes back to the product.
  lemma CancelledToProduct(s: State)
    requires OneOrder(s, Paid, 1, 0)
    ensures OneOrder(Apply(DOCUMENTED_FOOD, s, UpdateStatus(0, Cancelled)), Cancelled, 2, 0)
  {
    assert [LINE][..0] == [];
    assert GiveBack(s.stock, []) == s.stock;
    assert GiveBack(s.stock, [LINE]) == map[PRODUCT := 2, VARIANT := 0];
  }

  lemma OffByOne(s: State)
    requires OneOrder(s, Cancelled, 2, 0)
    ensures s.stock[PRODUCT] + Held(s, PRODUCT) + Ordered(s, PRODUCT) == SHELVES[PRODUCT] + 1
    ensures s.stock[VARIANT] + Held(s, VARIANT) + Ordered(s, VARIANT) == SHELVES[VARIANT] - 1
  {
    assert s.orders == [s.orders[0]] && s.requests == [s.requests[0]];
    forall k | k == PRODUCT || k == VARIANT
      ensures Held(s, k) == 0 && Ordered(s, k) == 0
    {
      SumOne(s.requests[0], (q: Request) => OpsQty(q.held, k));
      SumOne(s.orders[0], (o: Order) => if o.status == Cancelled then 0 else LinesQty(o.items, k));
    }
  }

  /** Create a cash order with one variant line, confirm it, cancel it: on the documented table, one unit too many
      of the product and one too few of the variant. */
  lemma VariantCancelled() returns (events: seq<Event>)
    ensures var s := Run(DOCUMENTED_FOOD, Start(SHELVES), events);
      !Conserved(s, SHELVES) && s.stock == map[PRODUCT := 2, VARIANT := 0] && OneOrder(s, Cancelled, 2, 0)
  {
    var m := DOCUMENTED_FOOD;
    events := [];
    Begun(m);
    hide Apply;
    hide Calling;
    hide OneOrder;
    hide Conserved;
    events := Then(m, Start(SHELVES), events, Begin("t", [LINE], CATALOGUE, Cash, 1.0, "d"));
    Taken(m, Run(m, Start(SHELVES), events));
    events := Then(m, Start(SHELVES), events, Decrement(0));
    Saved(m, Run(m, Start(SHELVES), events));
    events := Then(m, Start(SHELVES), events, Number(0, true));
    events := Then(m, Start(SHELVES), events, Create(0, true));
    Charged(m, Run(m, Start(SHELVES), events));
    events := Then(m, Start(SHELVES), events, ConfirmCash(0, false, true, 0));
    CancelledToProduct(Run(m, Start(SHELVES), events));
    events := Then(m, Start(SHELVES), events, UpdateStatus(0, Cancelled));
    BrokenShelves(Run(m, Start(SHELVES), events));
  }

  lemma BrokenShelves(s: State)
    requires OneOrder(s, Cancelled, 2, 0)
    ensures !Conserved(s, SHELVES) && s.stock == map[PRODUCT := 2, VARIANT := 0]
  {
    OffByOne(s);
    assert PRODUCT in SHELVES;
  }
}

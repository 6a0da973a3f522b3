/** Why the machine matters: if updateStatus can cancel a PagoMovil order whose payment is still open, the
    payment can be submitted or reviewed afterwards, and the stock comes back twice. */
module DoubleRestore {
  import opened Prelude
  import opened Orders
  import opened StockConservation

  const ARTICLE := ProductSku("p")
  const LINE := Line("p", None, 1)
  const SHELF: Stock := map[ARTICLE := 1]
  const CATALOGUE: Catalogue := map["p" := Product(1.0, Some(1), map[])]

  // One PagoMovil order for one unit, in status st and payment status pay, with n units on the shelf.
  ghost predicate Single(s: State, st: Status, pay: PayStatus, n: int) {
    && s.stock == map[ARTICLE := n]
    && |s.requests| == 1 && s.requests[0].held == []
    && |s.orders| == 1 && s.orders[0].items == [LINE] && s.orders[0].payBy == Pagomovil
    && s.orders[0].status == st && s.orders[0].pay == pay
  }

  // The first createOrder call, ready for its k-th step.
  ghost predicate Opening(s: State, next: nat, phase: Phase) {
    && s.stock == map[ARTICLE := 1 - next]
    && |s.requests| == 1 && s.orders == []
    && var q := s.requests[0];
      q.items == [LINE] && q.ops == [StockOp(ARTICLE, 1)] && q.next == next <= 1 && q.held == q.ops[..next]
      && q.phase == phase && q.payBy == Pagomovil
  }

  lemma Priced()
    ensures Price(CATALOGUE, [LINE]).Ok? && StockOps(CATALOGUE, [LINE]) == [StockOp(ARTICLE, 1)]
  {
    assert [LINE][..0] == [];
    assert PriceLines(CATALOGUE, []) == Ok(0.0);
    assert PriceLine(CATALOGUE, LINE) == Ok(1.0);
    assert PriceLines(CATALOGUE, [LINE]).Ok?;
    assert StockOps(CATALOGUE, []) == [];
  }

  lemma Begun(m: Machine)
    ensures Opening(Apply(m, Start(SHELF), Begin("t", [LINE], CATALOGUE, Pagomovil, 1.0, "d")), 0, Reserving)
  {
    Priced();
  }

  lemma Taken(m: Machine, s: State)
    requires Opening(s, 0, Reserving)
    ensures Opening(Apply(m, s, Decrement(0)), 1, Reserving)
  {
    assert s.requests[0].ops[..1] == [] + [StockOp(ARTICLE, 1)];
  }

  lemma Saved(m: Machine, s: State)
    requires Opening(s, 1, Reserving)
    ensures Single(Apply(m, Apply(m, s, Number(0, true)), Create(0, true)), Confirmed, PayPending, 0)
  {
    assert Opening(Apply(m, s, Number(0, true)), 1, Creating);
  }

  lemma Opened(m: Machine) returns (es: seq<Event>)
    ensures Single(Run(m, Start(SHELF), es), Confirmed, PayPending, 0)
  {
    es := [];
    es := Then(m, Start(SHELF), es, Begin("t", [LINE], CATALOGUE, Pagomovil, 1.0, "d"));
    Begun(m);
    Taken(m, Run(m, Start(SHELF), es));
    es := Then(m, Start(SHELF), es, Decrement(0));
    Saved(m, Run(m, Start(SHELF), es));
    es := Then(m, Start(SHELF), es, Number(0, true));
    es := Then(m, Start(SHELF), es, Create(0, true));
  }

  lemma GiveBackOne(n: int)
    ensures GiveBack(map[ARTICLE := n], [LINE]) == map[ARTICLE := n + 1]
  {
    assert [LINE][..0] == [];
    assert GiveBack(map[ARTICLE := n], []) == map[ARTICLE := n];
  }

  lemma Moved(m: Machine, s: State, from: Status, to: Status, pay: PayStatus)
    requires Single(s, from, pay, 0) && Edge(from, to) in m
    ensures Single(Apply(m, s, UpdateStatus(0, to)), to, pay, if to == Cancelled then 1 else 0)
  {
    GiveBackOne(0);
  }

  lemma Submitted(m: Machine, s: State, st: Status, n: int)
    requires Single(s, st, PayPending, n)
    ensures Single(Apply(m, s, Submit(0, 1.0, "r", 0)), PendingVerification, PayInReview, n)
  {
  }

  lemma Refused(m: Machine, s: State, st: Status, n: int)
    requires Single(s, st, PayInReview, n)
    ensures Single(Apply(m, s, Verify(0, false, false, false)), Cancelled, PayRejected, n + 1)
  {
    GiveBackOne(n);
  }

  // Following a path of the machine leaves the payment alone; arriving at `cancelled` restores the unit.
  lemma {:induction false} Walked(m: Machine, es: seq<Event>, p: seq<Status>, pay: PayStatus) returns (fs: seq<Event>)
    requires Final(m) && |p| > 0 && p[0] != Cancelled && Path(m, p)
    requires Single(Run(m, Start(SHELF), es), p[0], pay, 0)
    ensures Single(Run(m, Start(SHELF), fs), p[|p| - 1], pay, if p[|p| - 1] == Cancelled then 1 else 0)
  {
    if |p| == 1 {
      fs := es;
    } else {
      var n := |p| - 1;
      PathPrefix(m, p);
      fs := Walked(m, es, p[..n], pay);
      Moved(m, Run(m, Start(SHELF), fs), p[n - 1], p[n], pay);
      fs := Then(m, Start(SHELF), fs, UpdateStatus(0, p[n]));
    }
  }

  // The units that one order of one unit cannot explain.
  lemma TooMany(s: State, st: Status, pay: PayStatus, n: int)
    requires Single(s, st, pay, n) && n + (if st == Cancelled then 0 else 1) != 1
    ensures !Accounted(s, SHELF)
  {
    var k := ARTICLE;
    SumOne(LINE, l => LineDrift(l, k));
    SumOne(LINE, l => LineQty(l, k));
    assert s.orders == [s.orders[0]] && s.requests == [s.requests[0]];
    SumOne(s.requests[0], (q: Request) => OpsQty(q.held, k));
    SumOne(s.orders[0], (o: Order) => if o.status == Cancelled then 0 else LinesQty(o.items, k));
    SumOne(s.orders[0], (o: Order) => if o.status == Cancelled then LinesDrift(o.items, k) else 0);
    assert SHELF[ARTICLE] == 1;
  }

  lemma Reopened(m: Machine, s: State, to: Status)
    requires Single(s, Cancelled, PayRejected, 1) && Edge(Cancelled, to) in m
    ensures Single(Apply(m, s, UpdateStatus(0, to)), to, PayRejected, if to == Cancelled then 2 else 1)
  {
    GiveBackOne(1);
  }

  /** Create, submit, reject; then an edge out of `cancelled`. */
  lemma Revived(m: Machine, to: Status)
    requires Edge(Cancelled, to) in m
    ensures exists events :: !Accounted(Run(m, Start(SHELF), events), SHELF)
  {
    hide Accounted;
    hide Apply;
    hide Run;
    hide Single;
    var es := Opened(m);
    Submitted(m, Run(m, Start(SHELF), es), Confirmed, 0);
    es := Then(m, Start(SHELF), es, Submit(0, 1.0, "r", 0));
    Refused(m, Run(m, Start(SHELF), es), PendingVerification, 0);
    es := Then(m, Start(SHELF), es, Verify(0, false, false, false));
    Reopened(m, Run(m, Start(SHELF), es), to);
    es := Then(m, Start(SHELF), es, UpdateStatus(0, to));
    TooMany(Run(m, Start(SHELF), es), to, PayRejected, if to == Cancelled then 2 else 1);
  }

  /** Create, cancel the unpaid order through updateStatus, then submit and reject it. */
  lemma RestoredTwiceUnpaid(m: Machine)
    requires Final(m) && Reach(m, Confirmed, Cancelled)
    ensures exists events :: !Accounted(Run(m, Start(SHELF), events), SHELF)
  {
    var p :| |p| > 0 && p[0] == Confirmed && p[|p| - 1] == Cancelled && Path(m, p);
    var es := Opened(m);
    es := Walked(m, es, p, PayPending);
    Submitted(m, Run(m, Start(SHELF), es), Cancelled, 1);
    es := Then(m, Start(SHELF), es, Submit(0, 1.0, "r", 0));
    Refused(m, Run(m, Start(SHELF), es), PendingVerification, 1);
    es := Then(m, Start(SHELF), es, Verify(0, false, false, false));
    TooMany(Run(m, Start(SHELF), es), Cancelled, PayRejected, 2);
  }

  /** Create, submit, cancel the order under review through updateStatus, then reject the payment. */
  lemma RestoredTwiceInReview(m: Machine)
    requires Final(m) && Reach(m, PendingVerification, Cancelled)
    ensures exists events :: !Accounted(Run(m, Start(SHELF), events), SHELF)
  {
    var p :| |p| > 0 && p[0] == PendingVerification && p[|p| - 1] == Cancelled && Path(m, p);
    var es := Opened(m);
    Submitted(m, Run(m, Start(SHELF), es), Confirmed, 0);
    es := Then(m, Start(SHELF), es, Submit(0, 1.0, "r", 0));
    es := Walked(m, es, p, PayInReview);
    Refused(m, Run(m, Start(SHELF), es), Cancelled, 1);
    es := Then(m, Start(SHELF), es, Verify(0, false, false, false));
    TooMany(Run(m, Start(SHELF), es), Cancelled, PayRejected, 2);
  }

  /** Exactly which machines keep the stock accounted for over every run. */
  lemma AccountedIffSettled(m: Machine)
    ensures (forall stock: Stock, events :: Accounted(Run(m, Start(stock), events), stock)) <==> Settled(m)
  {
    if Settled(m) {
      forall stock: Stock, events {
        StockAccounted(m, stock, events);
      }
    } else if !Final(m) {
      var e :| e in m && e.from == Cancelled;
      Revived(m, e.to);
    } else if Reach(m, Confirmed, Cancelled) {
      RestoredTwiceUnpaid(m);
    } else {
      RestoredTwiceInReview(m);
    }
  }

  lemma ShippedEdges()
    ensures Final(FOOD) && Edge(PendingVerification, Cancelled) in FOOD
    ensures Final(RETAIL) && Edge(Confirmed, Cancelled) in RETAIL
  {
  }

  /** The shipped machines are not settled: the food machine lets updateStatus cancel an order under review,
      the retail machine one that is still to be paid. */
  lemma ShippedMachinesNotSettled()
    ensures Final(FOOD) && !Settled(FOOD) && Final(RETAIL) && !Settled(RETAIL)
    ensures exists stock: Stock, events :: !Accounted(Run(FOOD, Start(stock), events), stock)
    ensures exists stock: Stock, events :: !Accounted(Run(RETAIL, Start(stock), events), stock)
  {
    hide Reach;
    hide Accounted;
    hide Run;
    ShippedEdges();
    hide FOOD;
    hide RETAIL;
    ReachRefl(FOOD, PendingVerification);
    ReachStep(FOOD, PendingVerification, PendingVerification, Cancelled);
    ReachRefl(RETAIL, Confirmed);
    ReachStep(RETAIL, Confirmed, Confirmed, Cancelled);
    AccountedIffSettled(FOOD);
    AccountedIffSettled(RETAIL);
  }
}

/** Where every unit of tracked stock is, over every run and every interleaving. */
module StockConservation {
  import opened Prelude
  import opened Orders

  // --- how much of an article a thing holds ------------------------------------

  function OpQty(op: StockOp, k: Sku): int {
    if op.sku == k then op.quantity else 0
  }

  function LineQty(l: Line, k: Sku): int {
    if SkuOf(l) == k then l.quantity else 0
  }

  // What restoreOrderStock gives to k beyond what createOrder took from k, for one line.
  function LineDrift(l: Line, k: Sku): int {
    if l.variant.None? then 0
    else if k == ProductSku(l.product) then l.quantity
    else if k == SkuOf(l) then -l.quantity
    else 0
  }

  ghost function OpsQty(ops: seq<StockOp>, k: Sku): int {
    Sum(ops, op => OpQty(op, k))
  }

  ghost function LinesQty(ls: seq<Line>, k: Sku): int {
    Sum(ls, l => LineQty(l, k))
  }

  ghost function LinesDrift(ls: seq<Line>, k: Sku): int {
    Sum(ls, l => LineDrift(l, k))
  }

  // Units held by createOrder calls that are still running or rolling back.
  ghost function Held(s: State, k: Sku): int {
    Sum(s.requests, (q: Request) => OpsQty(q.held, k))
  }

  // Units in orders that are not cancelled.
  ghost function Ordered(s: State, k: Sku): int {
    Sum(s.orders, (o: Order) => if o.status == Cancelled then 0 else LinesQty(o.items, k))
  }

  // Units the cancelled orders put on the wrong shelf.
  ghost function Drift(s: State, k: Sku): int {
    Sum(s.orders, (o: Order) => if o.status == Cancelled then LinesDrift(o.items, k) else 0)
  }

  /** The books balance: what is on the shelf, in hand and sold is what there was, plus the drift. */
  ghost predicate Accounted(s: State, stock: Stock) {
    && s.stock.Keys == stock.Keys
    && forall k | k in stock :: s.stock[k] + Held(s, k) + Ordered(s, k) == stock[k] + Drift(s, k)
  }

  /** Conservation as the service promises it. */
  ghost predicate Conserved(s: State, stock: Stock) {
    && s.stock.Keys == stock.Keys
    && forall k | k in stock :: s.stock[k] + Held(s, k) + Ordered(s, k) == stock[k]
  }

  // --- the shape of reachable states ---------------------------------------------

  ghost predicate PositiveLines(ls: seq<Line>) {
    forall l | l in ls :: l.quantity >= 1
  }

  ghost predicate GoodRequest(q: Request, stock: Stock) {
    && PositiveLines(q.items)
    && (forall op | op in q.ops + q.held :: op.quantity >= 1 && op.sku in stock)
    && (forall k | k in stock :: OpsQty(q.ops, k) == LinesQty(q.items, k))
    && q.next <= |q.ops|
    && (q.phase == Reserving ==> q.held == q.ops[..q.next])
    && (q.phase == Creating ==> q.held == q.ops)
    && (q.phase == Created ==> q.held == [])
  }

  ghost predicate Shaped(s: State, stock: Stock) {
    && s.stock.Keys == stock.Keys
    && (forall q | q in s.requests :: GoodRequest(q, stock))
    && (forall o | o in s.orders :: PositiveLines(o.items))
  }

  lemma OpsQtyAppend(ops: seq<StockOp>, op: StockOp, k: Sku)
    ensures OpsQty(ops + [op], k) == OpsQty(ops, k) + OpQty(op, k)
  {
    SumAppend(ops, op, x => OpQty(x, k));
  }

  lemma {:induction false} StockOpsMatchLines(cat: Catalogue, ls: seq<Line>, stock: Stock)
    requires SameTracking(cat, ls, stock) && PositiveLines(ls)
    ensures forall op | op in StockOps(cat, ls) :: op.quantity >= 1 && op.sku in stock
    ensures forall k | k in stock :: OpsQty(StockOps(cat, ls), k) == LinesQty(ls, k)
  {
    if ls != [] {
      var n := |ls| - 1;
      StockOpsMatchLines(cat, ls[..n], stock);
      forall k | k in stock
        ensures OpsQty(StockOps(cat, ls), k) == LinesQty(ls, k)
      {
        if ShownStock(cat, ls[n]).Some? {
          OpsQtyAppend(StockOps(cat, ls[..n]), StockOp(SkuOf(ls[n]), ls[n].quantity), k);
        } else {
          assert StockOps(cat, ls) == StockOps(cat, ls[..n]);
        }
      }
    }
  }

  lemma {:induction false} PricedLinesArePositive(cat: Catalogue, ls: seq<Line>)
    requires forall l | l in ls :: l.product in cat
    requires PriceLines(cat, ls).Ok?
    ensures PositiveLines(ls)
  {
    if ls != [] {
      PricedLinesArePositive(cat, ls[..|ls| - 1]);
    }
  }

  lemma {:induction false} GiveBackKeys(stock: Stock, ls: seq<Line>)
    ensures GiveBack(stock, ls).Keys == stock.Keys
  {
    if ls != [] {
      GiveBackKeys(stock, ls[..|ls| - 1]);
    }
  }

  /** Giving back an order returns its lines, up to the drift of its variant lines. */
  lemma {:induction false} GiveBackAmount(stock: Stock, ls: seq<Line>, k: Sku)
    requires k in stock
    ensures GiveBack(stock, ls).Keys == stock.Keys
    ensures GiveBack(stock, ls)[k] == stock[k] + LinesQty(ls, k) + LinesDrift(ls, k)
  {
    if ls != [] {
      GiveBackAmount(stock, ls[..|ls| - 1], k);
    }
  }

  lemma StartIsShaped(stock: Stock)
    ensures Shaped(Start(stock), stock) && Accounted(Start(stock), stock)
  {
  }

  lemma ShapedOrder(s: State, stock: Stock, o: nat, x: Order)
    requires Shaped(s, stock) && o < |s.orders| && x.items == s.orders[o].items
    ensures Shaped(SetOrder(s, o, x), stock)
  {
    assert s.orders[o] in s.orders;
  }

  lemma TakeKeepsRequest(q: Request, stock: Stock)
    requires GoodRequest(q, stock) && q.phase == Reserving && q.next < |q.ops|
    ensures GoodRequest(q.(next := q.next + 1, held := q.held + [q.ops[q.next]]), stock)
  {
    assert q.ops[..q.next] + [q.ops[q.next]] == q.ops[..q.next + 1];
    assert q.ops[q.next] in q.ops + q.held;
  }

  lemma DropKeepsRequest(q: Request, stock: Stock, i: nat)
    requires GoodRequest(q, stock) && q.phase == RollingBack && i < |q.held|
    ensures GoodRequest(q.(held := q.held[..i] + q.held[i + 1..]), stock)
  {
    var left := q.held[..i] + q.held[i + 1..];
    assert forall op | op in q.ops + left :: op in q.ops + q.held;
  }

  lemma CreateKeepsRequest(q: Request, stock: Stock)
    requires GoodRequest(q, stock)
    ensures GoodRequest(q.(phase := Created, held := []), stock)
  {
    assert forall op | op in q.ops + [] :: op in q.ops + q.held;
  }

  lemma RequestWrites(m: Machine, s: State, e: Event)
    requires Enabled(m, s, e) && (e.Decrement? || e.Number? || e.Create? || e.Restore?)
    ensures e.r < |s.requests|
    ensures var q, t := s.requests[e.r], Apply(m, s, e);
      && t.stock.Keys == s.stock.Keys && (t.orders == s.orders || t.orders == s.orders + [NewOrder(q)])
      && |t.requests| == |s.requests| && t.requests == s.requests[e.r := t.requests[e.r]]
  {
  }

  lemma RequestStepShaped(m: Machine, s: State, e: Event, stock: Stock)
    requires Shaped(s, stock) && Enabled(m, s, e)
    requires e.Decrement? || e.Number? || e.Create? || e.Restore?
    ensures Shaped(Apply(m, s, e), stock)
  {
    RequestWrites(m, s, e);
    RequestStepGood(m, s, e, stock);
    hide Apply;
    hide Enabled;
    hide GoodRequest;
    var q, t := s.requests[e.r], Apply(m, s, e);
    assert q in s.requests;
    GoodItems(q, stock);
    forall x | x in t.requests
      ensures GoodRequest(x, stock)
    {
      assert x in s.requests || x == t.requests[e.r];
    }
  }

  lemma GoodItems(q: Request, stock: Stock)
    requires GoodRequest(q, stock)
    ensures PositiveLines(NewOrder(q).items)
  {
  }

  // The request that moved is in order.
  lemma RequestStepGood(m: Machine, s: State, e: Event, stock: Stock)
    requires Shaped(s, stock) && Enabled(m, s, e) && (e.Decrement? || e.Number? || e.Create? || e.Restore?)
    ensures e.r < |s.requests| && |Apply(m, s, e).requests| == |s.requests|
    ensures GoodRequest(Apply(m, s, e).requests[e.r], stock)
  {
    var q := s.requests[e.r];
    assert q in s.requests;
    match e
    case Decrement(r) =>
      if CanTake(s.stock, q.ops[q.next]) {
        TakeKeepsRequest(q, stock);
      }
    case Number(r, _) =>
      assert q.ops[..|q.ops|] == q.ops;
    case Create(r, saved) =>
      if saved {
        CreateKeepsRequest(q, stock);
      }
    case Restore(r, i) =>
      DropKeepsRequest(q, stock, i);
  }

  lemma BeginShaped(s: State, e: Event, m: Machine, stock: Stock)
    requires Shaped(s, stock) && Enabled(m, s, e) && e.Begin?
    ensures Shaped(Apply(m, s, e), stock)
  {
    PricedLinesArePositive(e.cat, e.lines);
    StockOpsMatchLines(e.cat, e.lines, s.stock);
    var q := NewRequest(e.tenant, e.lines, e.cat, e.payBy, Price(e.cat, e.lines).value, e.rate, e.date);
    assert q.ops + q.held == StockOps(e.cat, e.lines);
  }

  lemma StepShaped(m: Machine, s: State, e: Event, stock: Stock)
    requires Shaped(s, stock)
    ensures Shaped(Apply(m, s, e), stock)
  {
    if !Enabled(m, s, e) {
    } else if e.Begin? {
      BeginShaped(s, e, m, stock);
    } else if e.Decrement? || e.Number? || e.Create? || e.Restore? {
      RequestStepShaped(m, s, e, stock);
    } else {
      var x := s.orders[e.o];
      GiveBackKeys(s.stock, x.items);
      ShapedOrder(s, stock, e.o, Apply(m, s, e).orders[e.o]);
    }
  }

  // --- stock never goes below zero ------------------------------------------------

  ghost predicate NonNegative(stock: Stock) {
    forall k | k in stock :: stock[k] >= 0
  }

  lemma {:induction false} GiveBackNonNegative(stock: Stock, ls: seq<Line>)
    requires NonNegative(stock) && PositiveLines(ls)
    ensures NonNegative(GiveBack(stock, ls))
  {
    if ls != [] {
      GiveBackNonNegative(stock, ls[..|ls| - 1]);
    }
  }

  lemma StepNonNegative(m: Machine, s: State, e: Event, stock: Stock)
    requires Shaped(s, stock) && NonNegative(s.stock)
    ensures NonNegative(Apply(m, s, e).stock)
  {
    if Enabled(m, s, e) {
      match e
      case Restore(r, i) =>
        var q := s.requests[r];
        assert q in s.requests && q.held[i] in q.held;
      case Verify(o, _, _, _) =>
        assert s.orders[o] in s.orders;
        GiveBackNonNegative(s.stock, s.orders[o].items);
      case UpdateStatus(o, _) =>
        assert s.orders[o] in s.orders;
        GiveBackNonNegative(s.stock, s.orders[o].items);
      case Expire(o) =>
        assert s.orders[o] in s.orders;
        GiveBackNonNegative(s.stock, s.orders[o].items);
      case _ =>
    }
  }

  /** Tracked stock never goes negative, in any run, whatever machine updateStatus uses. */
  lemma {:induction false} StockNeverNegative(m: Machine, stock: Stock, events: seq<Event>)
    requires NonNegative(stock)
    ensures Shaped(Run(m, Start(stock), events), stock)
    ensures NonNegative(Run(m, Start(stock), events).stock)
  {
    if events == [] {
      StartIsShaped(stock);
    } else {
      var n := |events| - 1;
      StockNeverNegative(m, stock, events[..n]);
      StepShaped(m, Run(m, Start(stock), events[..n]), events[n], stock);
      StepNonNegative(m, Run(m, Start(stock), events[..n]), events[n], stock);
    }
  }

  // --- the books balance -------------------------------------------------------------

  ghost function Balance(s: State, k: Sku): int
    requires k in s.stock
  {
    s.stock[k] + Held(s, k) + Ordered(s, k) - Drift(s, k)
  }

  lemma HeldUpdate(s: State, r: nat, q: Request, k: Sku)
    requires r < |s.requests|
    ensures Held(SetRequest(s, r, q), k) == Held(s, k) - OpsQty(s.requests[r].held, k) + OpsQty(q.held, k)
  {
    SumUpdate(s.requests, r, q, (q: Request) => OpsQty(q.held, k));
  }

  lemma OrderUpdate(s: State, o: nat, x: Order, k: Sku)
    requires o < |s.orders| && x.items == s.orders[o].items && s.orders[o].status != Cancelled
    ensures Ordered(SetOrder(s, o, x), k) == Ordered(s, k) - if x.status == Cancelled then LinesQty(x.items, k) else 0
    ensures Drift(SetOrder(s, o, x), k) == Drift(s, k) + if x.status == Cancelled then LinesDrift(x.items, k) else 0
  {
    SumUpdate(s.orders, o, x, (o: Order) => if o.status == Cancelled then 0 else LinesQty(o.items, k));
    SumUpdate(s.orders, o, x, (o: Order) => if o.status == Cancelled then LinesDrift(o.items, k) else 0);
  }

  // No call writes to a cancelled order: a second cancellation would give its stock back twice.
  ghost predicate LeavesCancelledAlone(m: Machine, s: State, e: Event) {
    Enabled(m, s, e) && (e.Submit? || e.Verify? || e.ConfirmCash? || e.UpdateStatus? || e.Expire?) ==>
      s.orders[e.o].status != Cancelled
  }

  /** One step of any call, seen at one article, keeps the books as they were. */
  lemma StepKeepsBalance(m: Machine, s: State, e: Event, stock: Stock, k: Sku)
    requires Shaped(s, stock) && LeavesCancelledAlone(m, s, e) && k in stock
    ensures Shaped(Apply(m, s, e), stock)
    ensures Balance(Apply(m, s, e), k) == Balance(s, k)
  {
    StepShaped(m, s, e, stock);
    if !Enabled(m, s, e) {
    } else if e.Begin? {
      var q := NewRequest(e.tenant, e.lines, e.cat, e.payBy, Price(e.cat, e.lines).value, e.rate, e.date);
      SumAppend(s.requests, q, (q: Request) => OpsQty(q.held, k));
    } else if e.Decrement? {
      DecrementKeepsBalance(m, s, e.r, stock, k);
    } else if e.Number? {
      NumberKeepsBalance(m, s, e.r, e.counterOk, stock, k);
    } else if e.Create? {
      CreateKeepsBalance(m, s, e.r, e.saved, stock, k);
    } else if e.Restore? {
      RestoreKeepsBalance(m, s, e.r, e.i, stock, k);
    } else {
      var x := s.orders[e.o];
      OrderUpdate(s, e.o, Apply(m, s, e).orders[e.o], k);
      GiveBackAmount(s.stock, x.items, k);
    }
  }

  lemma DecrementKeepsBalance(m: Machine, s: State, r: nat, stock: Stock, k: Sku)
    requires Shaped(s, stock) && Enabled(m, s, Decrement(r)) && k in stock
    ensures k in Apply(m, s, Decrement(r)).stock
    ensures Balance(Apply(m, s, Decrement(r)), k) == Balance(s, k)
  {
    var q := s.requests[r];
    var op := q.ops[q.next];
    if CanTake(s.stock, op) {
      HeldUpdate(s, r, q.(next := q.next + 1, held := q.held + [op]), k);
      OpsQtyAppend(q.held, op, k);
    } else {
      HeldUpdate(s, r, q.(phase := RollingBack), k);
    }
  }

  lemma CreateKeepsBalance(m: Machine, s: State, r: nat, saved: bool, stock: Stock, k: Sku)
    requires Shaped(s, stock) && Enabled(m, s, Create(r, saved)) && k in stock
    ensures Balance(Apply(m, s, Create(r, saved)), k) == Balance(s, k)
  {
    var q := s.requests[r];
    assert q in s.requests;
    if saved {
      HeldUpdate(s, r, q.(phase := Created, held := []), k);
      var x := NewOrder(q);
      SumAppend(s.orders, x, (o: Order) => if o.status == Cancelled then 0 else LinesQty(o.items, k));
      SumAppend(s.orders, x, (o: Order) => if o.status == Cancelled then LinesDrift(o.items, k) else 0);
    } else {
      HeldUpdate(s, r, q.(phase := RollingBack), k);
    }
  }

  lemma RestoreKeepsBalance(m: Machine, s: State, r: nat, i: nat, stock: Stock, k: Sku)
    requires Shaped(s, stock) && Enabled(m, s, Restore(r, i)) && k in stock
    ensures k in Apply(m, s, Restore(r, i)).stock
    ensures Balance(Apply(m, s, Restore(r, i)), k) == Balance(s, k)
  {
    var q := s.requests[r];
    assert q in s.requests && q.held[i] in q.ops + q.held;
    HeldUpdate(s, r, q.(held := q.held[..i] + q.held[i + 1..]), k);
    SumRemove(q.held, i, op => OpQty(op, k));
  }

  lemma NumberKeepsBalance(m: Machine, s: State, r: nat, ok: bool, stock: Stock, k: Sku)
    requires Shaped(s, stock) && Enabled(m, s, Number(r, ok)) && k in stock
    ensures Balance(Apply(m, s, Number(r, ok)), k) == Balance(s, k)
  {
    HeldUpdate(s, r, Apply(m, s, Number(r, ok)).requests[r], k);
  }

  // --- runs that keep cancelled orders alone ------------------------------------------

  // `cancelled` is terminal.
  ghost predicate Final(m: Machine) {
    forall e | e in m :: e.from != Cancelled
  }

  // A PagoMovil payment not yet submitted, or not yet reviewed.
  predicate Open(o: Order) {
    o.pay == PayInReview || (o.payBy == Pagomovil && o.pay == PayPending)
  }

  ghost predicate CancelledAreClosed(s: State) {
    forall o | o in s.orders && o.status == Cancelled :: !Open(o)
  }

  // updateStatus does not cancel an order whose payment is open.
  ghost predicate Careful(m: Machine, s: State, e: Event) {
    e.UpdateStatus? && Enabled(m, s, e) && e.to == Cancelled ==> !Open(s.orders[e.o])
  }

  ghost predicate CarefulRun(m: Machine, s: State, events: seq<Event>)
    decreases |events|
  {
    events != [] ==>
      CarefulRun(m, s, events[..|events| - 1]) && Careful(m, Run(m, s, events[..|events| - 1]), events[|events| - 1])
  }

  lemma StepClosed(m: Machine, s: State, e: Event)
    requires CancelledAreClosed(s) && Final(m) && Careful(m, s, e)
    ensures CancelledAreClosed(Apply(m, s, e)) && LeavesCancelledAlone(m, s, e)
  {
    if Enabled(m, s, e) && (e.Submit? || e.Verify? || e.ConfirmCash? || e.UpdateStatus? || e.Expire?) {
      assert s.orders[e.o] in s.orders;
      OrderStepWrites(m, s, e);
      hide Apply;
      var t := Apply(m, s, e);
      assert t.orders[e.o].status == Cancelled ==> !Open(t.orders[e.o]);
    } else {
      NewOrdersOnly(m, s, e);
      hide Apply;
      hide Enabled;
    }
  }

  // The calls that write one order, in terms of its status and its payment.
  lemma OrderStepWrites(m: Machine, s: State, e: Event)
    requires Enabled(m, s, e) && (e.Submit? || e.Verify? || e.ConfirmCash? || e.UpdateStatus? || e.Expire?)
    ensures e.o < |s.orders|
    ensures var t, x := Apply(m, s, e), s.orders[e.o];
      && |t.orders| == |s.orders| && t.orders == s.orders[e.o := t.orders[e.o]] && t.orders[e.o].payBy == x.payBy
      && (e.Submit? ==> x.payBy == Pagomovil && x.pay == PayPending
                        && t.orders[e.o].status == PendingVerification && t.orders[e.o].pay == PayInReview)
      && (e.Verify? ==> x.pay == PayInReview && (t.orders[e.o].pay == PayApproved || t.orders[e.o].pay == PayRejected))
      && (e.ConfirmCash? ==> x.status == PendingCash && t.orders[e.o].pay == PayApproved)
      && (e.UpdateStatus? ==> Edge(x.status, e.to) in m && t.orders[e.o] == x.(status := e.to))
      && (e.Expire? ==> x.status == PendingVerification && t.orders[e.o].pay == PayRejected)
  {
    hide Apply;
    hide Enabled;
    if e.Submit? {
      SubmitWrites(m, s, e);
    } else if e.Verify? {
      VerifyWrites(m, s, e);
    } else if e.ConfirmCash? {
      ConfirmWrites(m, s, e);
    } else if e.UpdateStatus? {
      UpdateWrites(m, s, e);
    } else {
      ExpireWrites(m, s, e);
    }
  }

  // Every other step adds at most one order, unpaid and confirmed or waiting for cash.
  lemma NewOrdersOnly(m: Machine, s: State, e: Event)
    requires !Enabled(m, s, e) || e.Begin? || e.Decrement? || e.Number? || e.Create? || e.Restore?
    ensures forall o | o in Apply(m, s, e).orders && o !in s.orders ::
      o.pay == PayPending && o.status == InitialStatus(o.payBy)
  {
    hide Apply;
    hide Enabled;
    if Enabled(m, s, e) && e.Create? && e.saved {
      CreateWrites(m, s, e);
    } else {
      OthersWriteNothing(m, s, e);
    }
  }

  /** For every number of createOrder calls, interleaved at every step with each other and with
      cancellations, rejections and expiries, every tracked unit is accounted for, as long as updateStatus
      cancels no order whose payment is still open. */
  lemma {:induction false} AccountedWhenCareful(m: Machine, stock: Stock, events: seq<Event>)
    requires Final(m) && CarefulRun(m, Start(stock), events)
    ensures Shaped(Run(m, Start(stock), events), stock) && CancelledAreClosed(Run(m, Start(stock), events))
    ensures Accounted(Run(m, Start(stock), events), stock)
  {
    if events == [] {
      StartIsShaped(stock);
    } else {
      var n := |events| - 1;
      var s := Run(m, Start(stock), events[..n]);
      AccountedWhenCareful(m, stock, events[..n]);
      StepClosed(m, s, events[n]);
      StepShaped(m, s, events[n], stock);
      forall k | k in stock
        ensures Balance(Apply(m, s, events[n]), k) == Balance(s, k)
      {
        StepKeepsBalance(m, s, events[n], stock, k);
      }
    }
  }

  // --- machines in which every run is careful -------------------------------------------

  /** No edge leaves `cancelled`, and updateStatus cannot reach it from where a payment is open. */
  ghost predicate Settled(m: Machine) {
    Final(m) && !Reach(m, Confirmed, Cancelled) && !Reach(m, PendingVerification, Cancelled)
  }

  // Where updateStatus can have taken an order with an open payment.
  ghost predicate Living(m: Machine, o: Order) {
    && (o.payBy == Pagomovil && o.pay == PayPending ==> Reach(m, Confirmed, o.status))
    && (o.pay == PayInReview ==> Reach(m, PendingVerification, o.status))
  }

  ghost predicate AllLiving(m: Machine, s: State) {
    forall o | o in s.orders :: Living(m, o)
  }

  lemma StepLiving(m: Machine, s: State, e: Event)
    requires AllLiving(m, s)
    ensures AllLiving(m, Apply(m, s, e))
    ensures Settled(m) ==> Careful(m, s, e)
  {
    hide Apply;
    hide Enabled;
    hide Reach;
    if Enabled(m, s, e) && (e.Submit? || e.Verify? || e.ConfirmCash? || e.UpdateStatus? || e.Expire?) {
      OrderStepWrites(m, s, e);
      var x := s.orders[e.o];
      assert x in s.orders;
      ReachRefl(m, PendingVerification);
      if e.UpdateStatus? && Reach(m, Confirmed, x.status) {
        ReachStep(m, Confirmed, x.status, e.to);
      }
      if e.UpdateStatus? && Reach(m, PendingVerification, x.status) {
        ReachStep(m, PendingVerification, x.status, e.to);
      }
      assert Living(m, Apply(m, s, e).orders[e.o]);
    } else {
      ReachRefl(m, Confirmed);
      NewOrdersOnly(m, s, e);
    }
  }

  lemma {:induction false} EveryRunCareful(m: Machine, stock: Stock, events: seq<Event>)
    requires Settled(m)
    ensures AllLiving(m, Run(m, Start(stock), events)) && CarefulRun(m, Start(stock), events)
  {
    if events != [] {
      EveryRunCareful(m, stock, events[..|events| - 1]);
      StepLiving(m, Run(m, Start(stock), events[..|events| - 1]), events[|events| - 1]);
    }
  }

  /** With such a machine the books balance in every run. */
  lemma StockAccounted(m: Machine, stock: Stock, events: seq<Event>)
    requires Settled(m)
    ensures Accounted(Run(m, Start(stock), events), stock)
  {
    EveryRunCareful(m, stock, events);
    AccountedWhenCareful(m, stock, events);
  }

  // --- exactly when the promised conservation holds -----------------------------------

  // No cancelled order has a variant line whose variant or product is counted.
  ghost predicate NoVariantCancelled(s: State, stock: Stock) {
    forall o | o in s.orders && o.status == Cancelled ::
      forall l | l in o.items && l.variant.Some? :: ProductSku(l.product) !in stock && SkuOf(l) !in stock
  }

  lemma DriftSign(o: Order, k: Sku)
    requires PositiveLines(o.items)
    ensures k.ProductSku? ==> LinesDrift(o.items, k) >= 0
    ensures k.VariantSku? ==> LinesDrift(o.items, k) <= 0
    ensures LinesDrift(o.items, k) == 0 <==>
      forall l | l in o.items && l.variant.Some? :: k != ProductSku(l.product) && k != SkuOf(l)
  {
    var sign := if k.ProductSku? then 1 else -1;
    SignedSum(o.items, l => LineDrift(l, k), sign);
    assert forall l | l in o.items ::
      LineDrift(l, k) == 0 <==> !(l.variant.Some? && (k == ProductSku(l.product) || k == SkuOf(l)));
  }

  lemma SignedSum<T>(xs: seq<T>, f: T -> int, sign: int)
    requires sign == 1 || sign == -1
    requires forall x | x in xs :: sign * f(x) >= 0
    ensures sign * Sum(xs, f) >= 0
    ensures Sum(xs, f) == 0 <==> forall x | x in xs :: f(x) == 0
  {
    if sign == 1 {
      SumZeroIff(xs, f);
    } else {
      SumZeroIff(xs, x => -f(x));
      SumNegate(xs, f);
    }
  }

  lemma {:induction false} SumNegate<T>(xs: seq<T>, f: T -> int)
    ensures Sum(xs, x => -f(x)) == -Sum(xs, f)
  {
    if xs != [] {
      SumNegate(xs[..|xs| - 1], f);
    }
  }

  lemma NoDriftIff(s: State, stock: Stock, k: Sku)
    requires Shaped(s, stock)
    ensures Drift(s, k) == 0 <==>
      forall o | o in s.orders && o.status == Cancelled ::
        forall l | l in o.items && l.variant.Some? :: k != ProductSku(l.product) && k != SkuOf(l)
  {
    forall o | o in s.orders {
      DriftSign(o, k);
    }
    var sign := if k.ProductSku? then 1 else -1;
    SignedSum(s.orders, (o: Order) => if o.status == Cancelled then LinesDrift(o.items, k) else 0, sign);
  }

  /** After a careful run the promised conservation holds if and only if no cancelled order had a
      variant line on a counted article: restoreOrderStock returns every line to its product. */
  lemma ConservedIffNoVariantCancelled(m: Machine, stock: Stock, events: seq<Event>)
    requires Final(m) && CarefulRun(m, Start(stock), events)
    ensures var s := Run(m, Start(stock), events);
      Conserved(s, stock) <==> NoVariantCancelled(s, stock)
  {
    var s := Run(m, Start(stock), events);
    AccountedWhenCareful(m, stock, events);
    ConservedIffNoDrift(s, stock);
  }

  lemma ConservedIffNoDrift(s: State, stock: Stock)
    requires Shaped(s, stock) && Accounted(s, stock)
    ensures Conserved(s, stock) <==> NoVariantCancelled(s, stock)
  {
    forall k | k in stock
      ensures Drift(s, k) == 0 <==>
        forall o | o in s.orders && o.status == Cancelled ::
          forall l | l in o.items && l.variant.Some? :: k != ProductSku(l.product) && k != SkuOf(l)
    {
      NoDriftIff(s, stock, k);
    }
    hide Drift;
    hide Held;
    hide Ordered;
    hide Shaped;
  }

  /** The documented food table is settled. */
  lemma DocumentedTableSettled()
    ensures Settled(DOCUMENTED_FOOD)
  {
  }
}

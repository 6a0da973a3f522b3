/** Orders, their stock, their daily numbers and their payment ledger, as one transition system.

    Each event is one atomic database operation of order.service.ts, or one whole call where
    the service reads, checks and writes the same order unconditionally. `createOrder` is split
    at every await that touches shared state, so any number of calls may interleave. */
module Orders {
  import opened Prelude

  // --- catalogue and order lines --------------------------------------------

  datatype Sku = ProductSku(product: string) | VariantSku(product: string, variant: string)

  datatype Line = Line(product: string, variant: Option<string>, quantity: int)

  datatype Variant = Variant(price: Option<real>, stock: Option<int>)

  // `stock` is stock_qty, or the legacy stockQuantity when that is absent.
  datatype Product = Product(price: real, stock: Option<int>, variants: map<string, Variant>)

  type Catalogue = map<string, Product>

  datatype CreateError = NoItems | UnknownProduct | BadQuantity | UnknownVariant | SoldOut | SoldOutMeanwhile | NotSaved

  function SkuOf(l: Line): Sku {
    match l.variant
    case None => ProductSku(l.product)
    case Some(v) => VariantSku(l.product, v)
  }

  // The stock the catalogue snapshot shows for a line; None when it is not tracked.
  function ShownStock(cat: Catalogue, l: Line): Option<int> {
    if l.product !in cat then None
    else match l.variant
      case None => cat[l.product].stock
      case Some(v) => if v in cat[l.product].variants then cat[l.product].variants[v].stock else None
  }

  // The unit price of a line after the pre-check against the (possibly stale) snapshot.
  function PriceLine(cat: Catalogue, l: Line): Result<real, CreateError>
    requires l.product in cat
  {
    if l.quantity < 1 then Err(BadQuantity)
    else if l.variant.Some? && l.variant.value !in cat[l.product].variants then Err(UnknownVariant)
    else if ShownStock(cat, l).Some? && ShownStock(cat, l).value == 0 then Err(SoldOut)
    else if ShownStock(cat, l).Some? && ShownStock(cat, l).value < l.quantity then Err(SoldOut)
    else match l.variant
      case None => Ok(cat[l.product].price)
      case Some(v) =>
        var price := cat[l.product].variants[v].price;
        Ok(if price.Some? then price.value else cat[l.product].price)
  }

  function LineTotal(unitPrice: real, quantity: int): real {
    unitPrice * quantity as real
  }

  // The unrounded sum of quantity * unit price, or the error of the first bad line.
  function PriceLines(cat: Catalogue, lines: seq<Line>): Result<real, CreateError>
    requires forall l | l in lines :: l.product in cat
  {
    if lines == [] then Ok(0.0)
    else
      var n := |lines| - 1;
      var before := PriceLines(cat, lines[..n]);
      if before.Err? then before
      else
        var unit := PriceLine(cat, lines[n]);
        if unit.Err? then unit else Ok(before.value + LineTotal(unit.value, lines[n].quantity))
  }

  function Price(cat: Catalogue, lines: seq<Line>): Result<real, CreateError> {
    if lines == [] then Err(NoItems)
    else if exists l | l in lines :: l.product !in cat then Err(UnknownProduct)
    else
      var sum := PriceLines(cat, lines);
      if sum.Err? then sum else Ok(Round2(sum.value))
  }

  // --- stock operations -------------------------------------------------------

  datatype StockOp = StockOp(sku: Sku, quantity: int)

  type Stock = map<Sku, int>

  // One decrement for every line the snapshot shows as tracked.
  function StockOps(cat: Catalogue, lines: seq<Line>): seq<StockOp> {
    if lines == [] then []
    else
      var n := |lines| - 1;
      StockOps(cat, lines[..n]) +
      if ShownStock(cat, lines[n]).Some? then [StockOp(SkuOf(lines[n]), lines[n].quantity)] else []
  }

  // The conditional decrement: applies only when enough is left.
  predicate CanTake(stock: Stock, op: StockOp) {
    op.sku in stock && stock[op.sku] >= op.quantity
  }

  // Restoring an untracked article does nothing.
  function Give(stock: Stock, sku: Sku, quantity: int): Stock {
    if sku in stock then stock[sku := stock[sku] + quantity] else stock
  }

  // restoreOrderStock: every line goes back to its product, variants included.
  function GiveBack(stock: Stock, lines: seq<Line>): Stock {
    if lines == [] then stock
    else
      var n := |lines| - 1;
      Give(GiveBack(stock, lines[..n]), ProductSku(lines[n].product), lines[n].quantity)
  }

  // --- orders, requests, ledger -----------------------------------------------

  datatype PayMethod = Cash | Stripe | Mercadopago | Pagomovil | DebitCard | BankTransfer | CardOnline

  datatype Status = Confirmed | PendingVerification | PendingCash | Paid | Preparing | Ready | Delivered | Cancelled
                  | Other(name: string)

  datatype PayStatus = PayPending | PayInReview | PayApproved | PayRejected

  // `recorded` is when its payment transaction was made; the service keeps it on the transaction only.
  datatype Order = Order(
    tenant: string, items: seq<Line>, payBy: PayMethod, status: Status, pay: PayStatus,
    total: real, totalBs: real, declared: Option<real>, reference: Option<string>,
    date: string, number: Option<nat>, recorded: Option<int>)

  datatype TrxStatus = PendingReview | Approved | Rejected

  datatype Trx = Trx(order: nat, tenant: string, payBy: PayMethod, status: TrxStatus, amount: real, createdAt: int)

  // Where one createOrder call stands. RollingBack with nothing held is a finished, refused call.
  datatype Phase = Reserving | Creating | Created | RollingBack

  datatype Request = Request(
    tenant: string, items: seq<Line>, ops: seq<StockOp>, next: nat, held: seq<StockOp>, phase: Phase,
    payBy: PayMethod, total: real, totalBs: real, date: string, number: Option<nat>)

  datatype CounterKey = CounterKey(tenant: string, date: string)

  datatype State = State(
    stock: Stock, requests: seq<Request>, orders: seq<Order>, ledger: seq<Trx>, counters: map<CounterKey, nat>)

  function Start(stock: Stock): State {
    State(stock, [], [], [], map[])
  }

  // The transitions updateStatus allows: the state-machine registry, as a parameter.
  datatype Edge = Edge(from: Status, to: Status)
  type Machine = set<Edge>

  // The table the controller documents for the food archetype, and the tables of the shipped machines.
  const DOCUMENTED_FOOD: Machine := {
    Edge(Paid, Preparing), Edge(Paid, Cancelled), Edge(Preparing, Ready), Edge(Preparing, Cancelled),
    Edge(Ready, Delivered)}

  const FOOD: Machine := DOCUMENTED_FOOD + {Edge(PendingCash, Cancelled), Edge(PendingVerification, Cancelled)}

  const RETAIL: Machine := {
    Edge(Other("pending"), Other("payment_review")), Edge(Other("pending"), Confirmed),
    Edge(Other("pending"), Cancelled),
    Edge(Other("payment_review"), Confirmed), Edge(Other("payment_review"), Cancelled),
    Edge(Confirmed, Other("processing")), Edge(Confirmed, Cancelled),
    Edge(Other("processing"), Other("shipped")), Edge(Other("processing"), Cancelled),
    Edge(Other("shipped"), Delivered), Edge(Other("shipped"), Other("returned")),
    Edge(Delivered, Other("completed")), Edge(Delivered, Other("returned")),
    Edge(Other("completed"), Other("returned"))}

  datatype Event =
    | Begin(tenant: string, lines: seq<Line>, cat: Catalogue, payBy: PayMethod, rate: real, date: string)
    | Decrement(r: nat)
    | Number(r: nat, counterOk: bool)
    | Create(r: nat, saved: bool)
    | Restore(r: nat, i: nat)
    | Submit(o: nat, amount: real, ref: string, at: int)
    | Verify(o: nat, approve: bool, force: bool, auto: bool)
    | ConfirmCash(o: nat, auto: bool, audited: bool, at: int)
    | UpdateStatus(o: nat, to: Status)
    | Expire(o: nat)

  function InitialStatus(m: PayMethod): Status {
    if m == Cash || m == DebitCard then PendingCash else Confirmed
  }

  // Tracking is fixed: the snapshot and the database agree on which articles are counted.
  predicate SameTracking(cat: Catalogue, lines: seq<Line>, stock: Stock) {
    forall l | l in lines :: ShownStock(cat, l).Some? <==> SkuOf(l) in stock
  }

  function InBolivars(total: real, rate: real): real {
    Round2(total * rate)
  }

  function NewRequest(tenant: string, lines: seq<Line>, cat: Catalogue, m: PayMethod, total: real, rate: real,
                      date: string): Request {
    Request(tenant, lines, StockOps(cat, lines), 0, [], Reserving, m, total, InBolivars(total, rate), date, None)
  }

  function NewOrder(q: Request): Order {
    Order(q.tenant, q.items, q.payBy, InitialStatus(q.payBy), PayPending, q.total, q.totalBs, None, None, q.date,
          q.number, None)
  }

  predicate ReferenceUsed(s: State, o: nat, ref: string)
    requires o < |s.orders|
  {
    exists j | 0 <= j < |s.orders| && j != o ::
      s.orders[j].tenant == s.orders[o].tenant && s.orders[j].reference == Some(ref)
  }

  // Approval is refused when the declared amount is more than 2% off and nobody insists.
  predicate AmountBlocked(o: Order, force: bool) {
    o.totalBs > 0.0 && o.declared.Some? && o.declared.value != 0.0 && !force &&
    var diff := if o.declared.value >= o.totalBs then o.declared.value - o.totalBs else o.totalBs - o.declared.value;
    diff / o.totalBs * 100.0 > 2.0
  }

  // The index of the latest transaction of an order still waiting for review.
  function LatestPending(ledger: seq<Trx>, o: nat): (i: Option<nat>)
    ensures i.Some? ==> i.value < |ledger| && ledger[i.value].order == o && ledger[i.value].status == PendingReview
  {
    if ledger == [] then None
    else
      var n := |ledger| - 1;
      var before := LatestPending(ledger[..n], o);
      if ledger[n].order == o && ledger[n].status == PendingReview
         && (before.None? || ledger[before.value].createdAt <= ledger[n].createdAt)
      then Some(n) else before
  }

  function Review(ledger: seq<Trx>, o: nat, decision: TrxStatus): seq<Trx> {
    var i := LatestPending(ledger, o);
    if i.None? then ledger else ledger[i.value := ledger[i.value].(status := decision)]
  }

  // Whether a call passes the service's own checks. A call that does not is an exception.
  predicate Enabled(m: Machine, s: State, e: Event) {
    match e
    case Begin(_, lines, cat, _, _, _) => Price(cat, lines).Ok? && SameTracking(cat, lines, s.stock)
    case Decrement(r) =>
      r < |s.requests| && s.requests[r].phase == Reserving && s.requests[r].next < |s.requests[r].ops|
    case Number(r, _) =>
      r < |s.requests| && s.requests[r].phase == Reserving && s.requests[r].next == |s.requests[r].ops|
    case Create(r, _) => r < |s.requests| && s.requests[r].phase == Creating
    case Restore(r, i) => r < |s.requests| && s.requests[r].phase == RollingBack && i < |s.requests[r].held|
    case Submit(o, _, ref, _) =>
      o < |s.orders| && s.orders[o].payBy == Pagomovil && s.orders[o].pay == PayPending && !ReferenceUsed(s, o, ref)
    case Verify(o, approve, force, _) =>
      o < |s.orders| && s.orders[o].pay == PayInReview && !(approve && AmountBlocked(s.orders[o], force))
    case ConfirmCash(o, _, _, _) =>
      o < |s.orders| && (s.orders[o].payBy == Cash || s.orders[o].payBy == DebitCard)
        && s.orders[o].status == PendingCash
    case UpdateStatus(o, to) => o < |s.orders| && Edge(s.orders[o].status, to) in m
    case Expire(o) => o < |s.orders| && s.orders[o].status == PendingVerification
  }

  function SetRequest(s: State, r: nat, q: Request): State
    requires r < |s.requests|
  {
    s.(requests := s.requests[r := q])
  }

  function SetOrder(s: State, o: nat, x: Order): State
    requires o < |s.orders|
  {
    s.(orders := s.orders[o := x])
  }

  function PaidStatus(auto: bool): Status {
    if auto then Preparing else Paid
  }

  function Apply(m: Machine, s: State, e: Event): State {
    if !Enabled(m, s, e) then s
    else match e
      case Begin(tenant, lines, cat, payBy, rate, date) =>
        s.(requests := s.requests + [NewRequest(tenant, lines, cat, payBy, Price(cat, lines).value, rate, date)])
      case Decrement(r) =>
        var q := s.requests[r];
        var op := q.ops[q.next];
        if CanTake(s.stock, op) then
          SetRequest(s, r, q.(next := q.next + 1, held := q.held + [op]))
            .(stock := s.stock[op.sku := s.stock[op.sku] - op.quantity])
        else
          SetRequest(s, r, q.(phase := RollingBack))
      case Number(r, counterOk) =>
        var q := s.requests[r];
        var key := CounterKey(q.tenant, q.date);
        var n := (if key in s.counters then s.counters[key] else 0) + 1;
        if counterOk then SetRequest(s, r, q.(phase := Creating, number := Some(n))).(counters := s.counters[key := n])
        else SetRequest(s, r, q.(phase := Creating))
      case Create(r, saved) =>
        var q := s.requests[r];
        if saved then SetRequest(s, r, q.(phase := Created, held := [])).(orders := s.orders + [NewOrder(q)])
        else SetRequest(s, r, q.(phase := RollingBack))
      case Restore(r, i) =>
        var q := s.requests[r];
        SetRequest(s, r, q.(held := q.held[..i] + q.held[i + 1..]))
          .(stock := Give(s.stock, q.held[i].sku, q.held[i].quantity))
      case Submit(o, amount, ref, at) =>
        var x := s.orders[o].(status := PendingVerification, pay := PayInReview, declared := Some(amount),
                              reference := Some(ref), recorded := Some(at));
        SetOrder(s, o, x).(ledger := s.ledger + [Trx(o, x.tenant, Pagomovil, PendingReview, amount, at)])
      case Verify(o, approve, _, auto) =>
        var x := s.orders[o];
        if approve then
          SetOrder(s, o, x.(status := PaidStatus(auto), pay := PayApproved)).(ledger := Review(s.ledger, o, Approved))
        else
          SetOrder(s, o, x.(status := Cancelled, pay := PayRejected))
            .(ledger := Review(s.ledger, o, Rejected), stock := GiveBack(s.stock, x.items))
      case ConfirmCash(o, auto, audited, at) =>
        var x := s.orders[o].(status := PaidStatus(auto), pay := PayApproved, recorded := Some(at));
        var amount := if x.payBy == DebitCard then x.totalBs else x.total;
        var t := Trx(o, x.tenant, x.payBy, Approved, amount, at);
        SetOrder(s, o, x).(ledger := if audited then s.ledger + [t] else s.ledger)
      case UpdateStatus(o, to) =>
        var x := s.orders[o];
        SetOrder(s, o, x.(status := to)).(stock := if to == Cancelled then GiveBack(s.stock, x.items) else s.stock)
      case Expire(o) =>
        var x := s.orders[o];
        SetOrder(s, o, x.(status := Cancelled, pay := PayRejected)).(stock := GiveBack(s.stock, x.items))
  }

  function Run(m: Machine, s: State, events: seq<Event>): State {
    if events == [] then s else Apply(m, Run(m, s, events[..|events| - 1]), events[|events| - 1])
  }

  // --- what each call writes into the orders and the ledger ------------------------

  lemma SubmitWrites(m: Machine, s: State, e: Event)
    requires e.Submit? && Enabled(m, s, e)
    ensures e.o < |s.orders| && s.orders[e.o].payBy == Pagomovil && s.orders[e.o].pay == PayPending
    ensures var t, x := Apply(m, s, e), s.orders[e.o].(status := PendingVerification, pay := PayInReview,
          declared := Some(e.amount), reference := Some(e.ref), recorded := Some(e.at));
      && t.orders == s.orders[e.o := x]
      && t.ledger == s.ledger + [Trx(e.o, x.tenant, Pagomovil, PendingReview, e.amount, e.at)]
  {
  }

  lemma VerifyWrites(m: Machine, s: State, e: Event)
    requires e.Verify? && Enabled(m, s, e)
    ensures e.o < |s.orders| && s.orders[e.o].pay == PayInReview
    ensures var t, x := Apply(m, s, e), s.orders[e.o];
      && t.orders == s.orders[e.o := if e.approve then x.(status := PaidStatus(e.auto), pay := PayApproved)
                                     else x.(status := Cancelled, pay := PayRejected)]
      && t.ledger == Review(s.ledger, e.o, if e.approve then Approved else Rejected)
  {
  }

  lemma ConfirmWrites(m: Machine, s: State, e: Event)
    requires e.ConfirmCash? && Enabled(m, s, e)
    ensures e.o < |s.orders| && s.orders[e.o].status == PendingCash
    ensures s.orders[e.o].payBy == Cash || s.orders[e.o].payBy == DebitCard
    ensures var t, x := Apply(m, s, e),
          s.orders[e.o].(status := PaidStatus(e.auto), pay := PayApproved, recorded := Some(e.at));
      && t.orders == s.orders[e.o := x]
      && t.ledger == s.ledger + (if !e.audited then []
           else [Trx(e.o, x.tenant, x.payBy, Approved, if x.payBy == DebitCard then x.totalBs else x.total, e.at)])
  {
  }

  lemma UpdateWrites(m: Machine, s: State, e: Event)
    requires e.UpdateStatus? && Enabled(m, s, e)
    ensures e.o < |s.orders| && Edge(s.orders[e.o].status, e.to) in m
    ensures var t := Apply(m, s, e);
      t.orders == s.orders[e.o := s.orders[e.o].(status := e.to)] && t.ledger == s.ledger
  {
  }

  lemma ExpireWrites(m: Machine, s: State, e: Event)
    requires e.Expire? && Enabled(m, s, e)
    ensures e.o < |s.orders| && s.orders[e.o].status == PendingVerification
    ensures var t := Apply(m, s, e);
      t.orders == s.orders[e.o := s.orders[e.o].(status := Cancelled, pay := PayRejected)] && t.ledger == s.ledger
  {
  }

  lemma CreateWrites(m: Machine, s: State, e: Event)
    requires e.Create? && e.saved && Enabled(m, s, e)
    ensures e.r < |s.requests|
    ensures var t := Apply(m, s, e);
      t.orders == s.orders + [NewOrder(s.requests[e.r])] && t.ledger == s.ledger
  {
  }

  lemma OthersWriteNothing(m: Machine, s: State, e: Event)
    requires !Enabled(m, s, e) || e.Begin? || e.Decrement? || e.Number? || e.Restore? || (e.Create? && !e.saved)
    ensures var t := Apply(m, s, e); t.orders == s.orders && t.ledger == s.ledger
  {
  }

  lemma OrderStep(m: Machine, s: State, e: Event)
    requires Enabled(m, s, e) && (e.Submit? || e.Verify? || e.ConfirmCash? || e.UpdateStatus? || e.Expire?)
    ensures e.o < |s.orders|
    ensures var t := Apply(m, s, e); |t.orders| == |s.orders| && t.requests == s.requests && t.counters == s.counters
  {
  }

  lemma RunNothing(m: Machine, s: State)
    ensures Run(m, s, []) == s
  {
  }

  lemma RunSnoc(m: Machine, s: State, events: seq<Event>, e: Event)
    ensures Run(m, s, events + [e]) == Apply(m, Run(m, s, events), e)
  {
    assert (events + [e])[..|events|] == events;
  }

  // One more event at the end of a run, for building runs step by step.
  lemma Then(m: Machine, s: State, events: seq<Event>, e: Event) returns (next: seq<Event>)
    ensures next == events + [e]
    ensures Run(m, s, next) == Apply(m, Run(m, s, events), e)
  {
    next := events + [e];
    RunSnoc(m, s, events, e);
  }

  // --- reachability in a machine ------------------------------------------------

  ghost predicate Path(m: Machine, p: seq<Status>) {
    forall i {:trigger p[i]} | 0 <= i < |p| - 1 :: Edge(p[i], p[i + 1]) in m
  }

  ghost predicate Reach(m: Machine, a: Status, b: Status) {
    exists p :: |p| > 0 && p[0] == a && p[|p| - 1] == b && Path(m, p)
  }

  lemma PathPrefix(m: Machine, p: seq<Status>)
    requires Path(m, p) && |p| > 1
    ensures Path(m, p[..|p| - 1]) && Edge(p[|p| - 2], p[|p| - 1]) in m
  {
    var q := p[..|p| - 1];
    assert forall i {:trigger q[i]} | 0 <= i < |q| - 1 :: q[i] == p[i] && q[i + 1] == p[i + 1];
    assert Edge(p[|p| - 2], p[|p| - 2 + 1]) in m;
  }

  lemma ReachRefl(m: Machine, a: Status)
    ensures Reach(m, a, a)
  {
    assert Path(m, [a]);
  }

  lemma ReachStep(m: Machine, a: Status, b: Status, c: Status)
    requires Reach(m, a, b) && Edge(b, c) in m
    ensures Reach(m, a, c)
  {
    var p :| |p| > 0 && p[0] == a && p[|p| - 1] == b && Path(m, p);
    var q := p + [c];
    assert Path(m, q);
  }

  /** Nothing outside a set of statuses that the machine does not leave can be reached from inside. */
  lemma {:induction false} ReachStays(m: Machine, inside: set<Status>, a: Status, b: Status)
    requires a in inside && b !in inside
    requires forall e | e in m && e.from in inside :: e.to in inside
    ensures !Reach(m, a, b)
  {
    if Reach(m, a, b) {
      var p :| |p| > 0 && p[0] == a && p[|p| - 1] == b && Path(m, p);
      PathStays(m, inside, p);
    }
  }

  lemma {:induction false} PathStays(m: Machine, inside: set<Status>, p: seq<Status>)
    requires |p| > 0 && p[0] in inside && Path(m, p)
    requires forall e | e in m && e.from in inside :: e.to in inside
    ensures p[|p| - 1] in inside
  {
    if |p| > 1 {
      PathPrefix(m, p);
      PathStays(m, inside, p[..|p| - 1]);
    }
  }
}

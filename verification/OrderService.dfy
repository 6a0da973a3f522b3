/** The order service as it is written: loops, early rollback and field-by-field updates,
    each call proved to be a run of the events of `Orders`. */
module OrderService {
  import opened Prelude
  import opened Orders
  import opened StockConservation
  import opened Pricing
  import opened Approvals

  lemma {:induction false} TakenPrefix(ops: seq<StockOp>, i: nat, k: Sku)
    requires i <= |ops| && forall op | op in ops :: op.quantity >= 1
    ensures 0 <= OpsQty(ops[..i], k) <= OpsQty(ops, k)
  {
    if i == |ops| {
      assert ops[..i] == ops;
      SumZeroIff(ops, op => OpQty(op, k));
    } else {
      var n := |ops| - 1;
      TakenPrefix(ops[..n], i, k);
      assert ops[..n][..i] == ops[..i] && ops[n] in ops;
    }
  }

  lemma NewOrderIs(q: Request)
    ensures var x := NewOrder(q);
      && x.tenant == q.tenant && x.items == q.items && x.payBy == q.payBy
      && x.total == q.total && x.totalBs == q.totalBs
      && x.status == (if q.payBy == Cash || q.payBy == DebitCard then PendingCash else Confirmed) && x.pay == PayPending
  {
  }

  // A reserved list of operations that stands for the lines.
  lemma LinesTaken(before: Stock, after: Stock, ops: seq<StockOp>, lines: seq<Line>)
    requires Reserved(before, after, ops) && forall k | k in before :: OpsQty(ops, k) == LinesQty(lines, k)
    ensures after.Keys == before.Keys && forall k | k in after :: after[k] == before[k] - LinesQty(lines, k)
    ensures forall k | k in before :: LinesQty(lines, k) <= before[k]
  {
    hide OpsQty;
    hide LinesQty;
  }

  lemma OrderableArePositive(cat: Catalogue, lines: seq<Line>)
    requires Orderable(cat, lines)
    ensures PositiveLines(lines)
  {
  }

  // --- the steps of one call, seen from the call ---------------------------------

  // The database while call q runs alone on top of `before`.
  ghost function During(before: State, q: Request, stock: Stock, counters: map<CounterKey, nat>): State {
    State(stock, before.requests + [q], before.orders, before.ledger, counters)
  }

  lemma Begins(m: Machine, before: State, tenant: string, lines: seq<Line>, cat: Catalogue, p: PayMethod, rate: real,
               date: string)
    requires Price(cat, lines).Ok? && SameTracking(cat, lines, before.stock)
    ensures Apply(m, before, Begin(tenant, lines, cat, p, rate, date))
         == During(before, NewRequest(tenant, lines, cat, p, Price(cat, lines).value, rate, date), before.stock,
                   before.counters)
  {
  }

  lemma Takes(m: Machine, before: State, q: Request, stock: Stock)
    requires q.phase == Reserving && q.next < |q.ops|
    ensures var op := q.ops[q.next];
      Apply(m, During(before, q, stock, before.counters), Decrement(|before.requests|)) ==
      if CanTake(stock, op) then
        During(before, q.(next := q.next + 1, held := q.held + [op]), stock[op.sku := stock[op.sku] - op.quantity],
               before.counters)
      else During(before, q.(phase := RollingBack), stock, before.counters)
  {
    Last(before.requests, q);
  }

  lemma Last(qs: seq<Request>, q: Request)
    ensures (qs + [q])[|qs|] == q && forall x :: (qs + [q])[|qs| := x] == qs + [x]
  {
  }

  lemma Numbers(m: Machine, before: State, q: Request, stock: Stock, ok: bool)
    requires q.phase == Reserving && q.next == |q.ops|
    ensures var key := CounterKey(q.tenant, q.date);
      var n := (if key in before.counters then before.counters[key] else 0) + 1;
      Apply(m, During(before, q, stock, before.counters), Number(|before.requests|, ok)) ==
      if ok then During(before, q.(phase := Creating, number := Some(n)), stock, before.counters[key := n])
      else During(before, q.(phase := Creating), stock, before.counters)
  {
    Last(before.requests, q);
  }

  lemma Creates(m: Machine, before: State, q: Request, stock: Stock, counters: map<CounterKey, nat>, saved: bool)
    requires q.phase == Creating
    ensures Apply(m, During(before, q, stock, counters), Create(|before.requests|, saved)) ==
      if saved then
        During(before, q.(phase := Created, held := []), stock, counters).(orders := before.orders + [NewOrder(q)])
      else During(before, q.(phase := RollingBack), stock, counters)
  {
    Last(before.requests, q);
  }

  lemma Restores(m: Machine, before: State, q: Request, stock: Stock, counters: map<CounterKey, nat>)
    requires q.phase == RollingBack && q.held != []
    ensures Apply(m, During(before, q, stock, counters), Restore(|before.requests|, 0)) ==
      During(before, q.(held := q.held[1..]), Give(stock, q.held[0].sku, q.held[0].quantity), counters)
  {
    Last(before.requests, q);
    assert q.held[..0] + q.held[1..] == q.held[1..];
  }

  lemma Expires(m: Machine, s: State, o: nat)
    requires o < |s.orders| && s.orders[o].status == PendingVerification
    ensures Apply(m, s, Expire(o)) == State(GiveBack(s.stock, s.orders[o].items), s.requests,
      s.orders[o := s.orders[o].(status := Cancelled, pay := PayRejected)], s.ledger, s.counters)
  {
  }

  // What is missing on the shelf after taking ops from it.
  ghost predicate Missing(before: Stock, after: Stock, ops: seq<StockOp>) {
    after.Keys == before.Keys && forall k | k in after :: after[k] == before[k] - OpsQty(ops, k)
  }

  ghost predicate Reserved(before: Stock, after: Stock, ops: seq<StockOp>) {
    NonNegative(after) && Missing(before, after, ops)
  }

  lemma IsMissing(before: Stock, after: Stock, ops: seq<StockOp>)
    requires Reserved(before, after, ops)
    ensures Missing(before, after, ops)
  {
  }

  lemma NothingTaken(before: Stock)
    requires NonNegative(before)
    ensures Reserved(before, before, [])
  {
  }

  lemma NothingMissing(before: Stock, after: Stock)
    requires Missing(before, after, [])
    ensures after == before
  {
  }

  // Giving back the first of the operations.
  lemma OneGiven(before: Stock, after: Stock, ops: seq<StockOp>, i: nat)
    requires i < |ops| && Missing(before, after, ops[i..])
    ensures Missing(before, Give(after, ops[i].sku, ops[i].quantity), ops[i + 1..])
  {
    forall k | k in after {
      OneBack(ops, i, k);
    }
    hide OpsQty;
  }

  lemma OneTaken(before: Stock, after: Stock, ops: seq<StockOp>, op: StockOp)
    requires Reserved(before, after, ops) && CanTake(after, op)
    ensures Reserved(before, after[op.sku := after[op.sku] - op.quantity], ops + [op])
  {
    forall k | k in after {
      OpsQtyAppend(ops, op, k);
    }
  }

  // A refused decrement means the whole list asks for more than there was.
  lemma NotEnough(before: Stock, after: Stock, ops: seq<StockOp>, i: nat)
    requires i < |ops| && forall op | op in ops :: op.quantity >= 1 && op.sku in before
    requires Reserved(before, after, ops[..i]) && !CanTake(after, ops[i])
    ensures OpsQty(ops, ops[i].sku) > before[ops[i].sku]
  {
    assert ops[i] in ops && ops[..i + 1] == ops[..i] + [ops[i]];
    OpsQtyAppend(ops[..i], ops[i], ops[i].sku);
    TakenPrefix(ops, i + 1, ops[i].sku);
  }

  // Putting back the first held operation moves its units to the shelf.
  lemma OneBack(ops: seq<StockOp>, i: nat, k: Sku)
    requires i < |ops|
    ensures OpsQty(ops[i..], k) == OpQty(ops[i], k) + OpsQty(ops[i + 1..], k)
  {
    assert ops[i..] == [ops[i]] + ops[i + 1..];
    SumConcat([ops[i]], ops[i + 1..], op => OpQty(op, k));
    SumOne(ops[i], op => OpQty(op, k));
  }

  class OrderService {
    var stock: Stock
    ghost var requests: seq<Request>
    var orders: seq<Order>
    var ledger: seq<Trx>
    var counters: map<CounterKey, nat>
    const machine: Machine

    constructor (stock: Stock, machine: Machine)
      ensures Db() == Start(stock) && this.machine == machine
    {
      this.stock, this.requests, this.orders, this.ledger, this.counters := stock, [], [], [], map[];
      this.machine := machine;
    }

    ghost function Db(): State
      reads this
    {
      State(stock, requests, orders, ledger, counters)
    }

    /** createOrder with no other call in between: it succeeds exactly when the lines are well priced,
        the shelf holds what they add up to and the document is saved; otherwise nothing has changed. */
    method CreateOrder(tenant: string, lines: seq<Line>, cat: Catalogue, payBy: PayMethod, rate: real, date: string,
                       counterOk: bool, saved: bool)
      returns (result: Result<Order, CreateError>, ghost trace: seq<Event>)
      requires SameTracking(cat, lines, stock) && NonNegative(stock)
      modifies this
      ensures Db() == Run(machine, old(Db()), trace)
      ensures result.Ok? <==>
        && Orderable(cat, lines) && saved
        && forall k | k in old(stock) :: LinesQty(lines, k) <= old(stock)[k]
      ensures result.Err? ==> stock == old(stock) && orders == old(orders)
      ensures result.Ok? ==>
        && orders == old(orders) + [result.value]
        && result.value.tenant == tenant && result.value.items == lines && result.value.payBy == payBy
        && result.value.total == Round2(SumReal(lines, l => Charge(cat, l)))
        && -0.005 <= result.value.totalBs - result.value.total * rate <= 0.005
        && result.value.status == (if payBy == Cash || payBy == DebitCard then PendingCash else Confirmed)
        && result.value.pay == PayPending
        && stock.Keys == old(stock).Keys && forall k | k in stock :: stock[k] == old(stock)[k] - LinesQty(lines, k)
      ensures ledger == old(ledger)
    {
      hide Run;
      hide Apply;
      hide InBolivars;
      hide Price;
      hide Orderable;
      hide Charge;
      hide Round2;
      hide Reserved;
      hide OpsQty;
      hide LinesQty;
      hide NewOrder;
      ghost var before := Db();
      trace := [];
      RunNothing(machine, before);
      var priced := PriceOrder(cat, lines);
      if priced.Err? {
        return Err(priced.error), trace;
      }
      var total := priced.value;
      var totalBs := InBolivars(total, rate);
      InBolivarsNear(total, rate);
      var stockOps := StockOps(cat, lines);
      OrderableArePositive(cat, lines);
      StockOpsMatchLines(cat, lines, stock);
      ghost var q := NewRequest(tenant, lines, cat, payBy, total, rate, date);
      Begins(machine, before, tenant, lines, cat, payBy, rate, date);
      requests := before.requests + [q];
      trace := Then(machine, before, trace, Begin(tenant, lines, cat, payBy, rate, date));

      var enough: bool;
      enough, trace := ReserveStock(stockOps, q, before, trace);
      if !enough {
        return Err(SoldOutMeanwhile), trace;
      }
      q := q.(next := |stockOps|, held := stockOps);
      LinesTaken(before.stock, stock, stockOps, lines);
      result, trace := SaveOrder(tenant, lines, payBy, total, totalBs, date, counterOk, saved, stockOps, q, before,
                                 trace);
      if result.Ok? {
        NewOrderIs(q.(number := result.value.number));
      }
    }

    // The daily number, the document, and the compensation when the document is refused.
    method SaveOrder(tenant: string, lines: seq<Line>, payBy: PayMethod, total: real, totalBs: real, date: string,
                     counterOk: bool, saved: bool, appliedOps: seq<StockOp>, ghost q0: Request, ghost before: State,
                     ghost trace0: seq<Event>)
      returns (result: Result<Order, CreateError>, ghost trace: seq<Event>)
      requires q0 == Request(tenant, lines, appliedOps, |appliedOps|, appliedOps, Reserving, payBy, total, totalBs,
                             date, None)
      requires Db() == During(before, q0, stock, before.counters) == Run(machine, before, trace0)
      requires Reserved(before.stock, stock, appliedOps)
      modifies this
      ensures Db() == Run(machine, before, trace)
      ensures result.Ok? <==> saved
      ensures result.Err? ==> stock == before.stock && orders == before.orders
      ensures result.Ok? ==> stock == old(stock) && orders == before.orders + [result.value]
      ensures result.Ok? ==> result.value == NewOrder(q0.(number := result.value.number))
      ensures ledger == before.ledger
    {
      hide Run;
      hide Apply;
      ghost var q := q0;
      trace := trace0;
      ghost var r := |before.requests|;
      var key := CounterKey(tenant, date);
      var number: Option<nat> := None;
      Numbers(machine, before, q, stock, counterOk);
      if counterOk {
        var n := (if key in counters then counters[key] else 0) + 1;
        counters := counters[key := n];
        number := Some(n);
      }
      q := q.(phase := Creating, number := number);
      requests := before.requests + [q];
      trace := Then(machine, before, trace, Number(r, counterOk));

      Creates(machine, before, q, stock, counters, saved);
      trace := Then(machine, before, trace, Create(r, saved));
      if !saved {
        q := q.(phase := RollingBack);
        requests := before.requests + [q];
        trace := RollbackStock(appliedOps, q, before, trace);
        return Err(NotSaved), trace;
      }
      var order := Order(tenant, lines, payBy, InitialStatus(payBy), PayPending, total, totalBs, None, None, date,
                         number, None);
      orders := orders + [order];
      requests := before.requests + [q.(phase := Created, held := [])];
      result := Ok(order);
    }

    // The loop of conditional decrements, with early rollback.
    method ReserveStock(stockOps: seq<StockOp>, ghost q0: Request, ghost before: State, ghost trace0: seq<Event>)
      returns (ok: bool, ghost trace: seq<Event>)
      requires q0.phase == Reserving && q0.next == 0 && q0.held == [] && q0.ops == stockOps
      requires Db() == During(before, q0, before.stock, before.counters) == Run(machine, before, trace0)
      requires NonNegative(before.stock) && forall op | op in stockOps :: op.quantity >= 1 && op.sku in before.stock
      modifies `stock, `requests
      ensures Db() == Run(machine, before, trace)
      ensures ok ==> Reserved(before.stock, stock, stockOps)
      ensures ok ==> Db() == During(before, q0.(next := |stockOps|, held := stockOps), stock, before.counters)
      ensures !ok ==> stock == before.stock && exists k | k in before.stock :: OpsQty(stockOps, k) > before.stock[k]
    {
      hide Run;
      hide Apply;
      hide Reserved;
      hide OpsQty;
      ghost var q := q0;
      trace := trace0;
      var appliedOps: seq<StockOp> := [];
      NothingTaken(stock);
      for i := 0 to |stockOps|
        invariant appliedOps == stockOps[..i]
        invariant q == q0.(next := i, held := appliedOps)
        invariant counters == before.counters
        invariant Db() == During(before, q, stock, before.counters) == Run(machine, before, trace)
        invariant Reserved(before.stock, stock, appliedOps)
      {
        var op := stockOps[i];
        assert op in stockOps && stockOps[..i + 1] == stockOps[..i] + [op];
        Takes(machine, before, q, stock);
        trace := Then(machine, before, trace, Decrement(|before.requests|));
        if !CanTake(stock, op) {
          q := q.(phase := RollingBack);
          requests := before.requests + [q];
          NotEnough(before.stock, stock, stockOps, i);
          IsMissing(before.stock, stock, appliedOps);
          trace := RollbackStock(appliedOps, q, before, trace);
          return false, trace;
        }
        OneTaken(before.stock, stock, appliedOps, op);
        stock := stock[op.sku := stock[op.sku] - op.quantity];
        appliedOps := appliedOps + [op];
        q := q.(next := i + 1, held := appliedOps);
        requests := before.requests + [q];
      }
      assert stockOps[..|stockOps|] == stockOps;
      ok := true;
    }

    // rollbackStock: gives back every decrement already applied.
    method RollbackStock(ops: seq<StockOp>, ghost q: Request, ghost before: State, ghost trace0: seq<Event>)
      returns (ghost trace: seq<Event>)
      requires q.phase == RollingBack && q.held == ops
      requires Db() == During(before, q, stock, counters) == Run(machine, before, trace0)
      requires Missing(before.stock, stock, ops)
      modifies `stock, `requests
      ensures stock == before.stock && Db() == Run(machine, before, trace)
    {
      hide Run;
      hide Apply;
      hide Missing;
      trace := trace0;
      ghost var left := q;
      assert ops[0..] == ops && ops[|ops|..] == [];
      for i := 0 to |ops|
        invariant left == q.(held := ops[i..])
        invariant orders == old(orders) && ledger == old(ledger) && counters == old(counters)
        invariant Db() == During(before, left, stock, counters) == Run(machine, before, trace)
        invariant Missing(before.stock, stock, ops[i..])
      {
        OneGiven(before.stock, stock, ops, i);
        assert ops[i..][0] == ops[i] && ops[i..][1..] == ops[i + 1..];
        Restores(machine, before, left, stock, counters);
        trace := Then(machine, before, trace, Restore(|before.requests|, 0));
        stock := Give(stock, ops[i].sku, ops[i].quantity);
        left := left.(held := ops[i + 1..]);
        requests := before.requests + [left];
      }
      NothingMissing(before.stock, stock);
    }

    // restoreOrderStock: every line goes back to its product.
    method RestoreOrderStock(items: seq<Line>)
      modifies `stock
      ensures stock == GiveBack(old(stock), items)
    {
      for i := 0 to |items|
        invariant stock == GiveBack(old(stock), items[..i])
      {
        assert items[..i + 1][..i] == items[..i];
        stock := Give(stock, ProductSku(items[i].product), items[i].quantity);
      }
      assert items[..|items|] == items;
    }

    method SubmitPagomovil(o: nat, amount: real, ref: string, at: int) returns (ok: bool)
      modifies this
      ensures Db() == Apply(machine, old(Db()), Submit(o, amount, ref, at))
      ensures ok <==> Enabled(machine, old(Db()), Submit(o, amount, ref, at))
    {
      if o >= |orders| || orders[o].payBy != Pagomovil || orders[o].pay != PayPending {
        return false;
      }
      if exists j | 0 <= j < |orders| && j != o ::
           orders[j].tenant == orders[o].tenant && orders[j].reference == Some(ref)
      {
        return false;
      }
      var updated := orders[o].(status := PendingVerification, pay := PayInReview, declared := Some(amount),
                                reference := Some(ref), recorded := Some(at));
      orders := orders[o := updated];
      ledger := ledger + [Trx(o, updated.tenant, Pagomovil, PendingReview, amount, at)];
      ok := true;
    }

    method VerifyPagomovil(o: nat, approve: bool, force: bool, autoAccept: bool) returns (ok: bool)
      modifies this
      ensures Db() == Apply(machine, old(Db()), Verify(o, approve, force, autoAccept))
      ensures ok <==> Enabled(machine, old(Db()), Verify(o, approve, force, autoAccept))
      ensures ok <==> o < |old(orders)| && var x := old(orders)[o];
        && x.pay == PayInReview
        && (approve && !force && Comparable(x) ==> WithinTwoPercent(x.declared.value, x.totalBs))
    {
      if o < |orders| && Comparable(orders[o]) {
        GuardIs(orders[o].declared.value, orders[o].totalBs);
      }
      if o >= |orders| || orders[o].pay != PayInReview || (approve && AmountBlocked(orders[o], force)) {
        return false;
      }
      var status := if approve then PaidStatus(autoAccept) else Cancelled;
      var updated := orders[o].(status := status, pay := if approve then PayApproved else PayRejected);
      orders := orders[o := updated];
      ledger := Review(ledger, o, if approve then Approved else Rejected);
      if !approve {
        RestoreOrderStock(updated.items);
      }
      ok := true;
    }

    method ConfirmCashPayment(o: nat, autoAccept: bool, audited: bool, at: int) returns (ok: bool)
      modifies this
      ensures Db() == Apply(machine, old(Db()), ConfirmCash(o, autoAccept, audited, at))
      ensures ok <==> Enabled(machine, old(Db()), ConfirmCash(o, autoAccept, audited, at))
      ensures ok && audited ==> o < |old(orders)| && var x := old(orders)[o];
        var amount := if x.payBy == DebitCard then x.totalBs else x.total;
        ledger == old(ledger) + [Trx(o, x.tenant, x.payBy, Approved, amount, at)]
    {
      if o >= |orders| || (orders[o].payBy != Cash && orders[o].payBy != DebitCard) || orders[o].status != PendingCash {
        return false;
      }
      var updated := orders[o].(status := PaidStatus(autoAccept), pay := PayApproved, recorded := Some(at));
      orders := orders[o := updated];
      var amount := if updated.payBy == DebitCard then updated.totalBs else updated.total;
      if audited {
        ledger := ledger + [Trx(o, updated.tenant, updated.payBy, Approved, amount, at)];
      }
      ok := true;
    }

    method UpdateOrderStatus(o: nat, to: Status) returns (ok: bool)
      modifies this
      ensures Db() == Apply(machine, old(Db()), UpdateStatus(o, to))
      ensures ok <==> Enabled(machine, old(Db()), UpdateStatus(o, to))
    {
      if o >= |orders| || Edge(orders[o].status, to) !in machine {
        return false;
      }
      var updated := orders[o].(status := to);
      orders := orders[o := updated];
      if to == Cancelled {
        RestoreOrderStock(updated.items);
      }
      ok := true;
    }

    /** The sweep over what the query found: each stale order is cancelled and restored once. */
    method ExpireStaleOrders(stale: seq<nat>) returns (expired: nat, ghost trace: seq<Event>)
      requires forall i | 0 <= i < |stale| :: stale[i] < |orders| && orders[stale[i]].status == PendingVerification
      requires forall i, j | 0 <= i < j < |stale| :: stale[i] != stale[j]
      modifies this
      ensures trace == seq(|stale|, i requires 0 <= i < |stale| => Expire(stale[i]))
      ensures Db() == Run(machine, old(Db()), trace)
      ensures expired == |stale| && |orders| == |old(orders)|
      ensures forall i | 0 <= i < |stale| :: orders[stale[i]].status == Cancelled && orders[stale[i]].pay == PayRejected
      ensures forall o | 0 <= o < |orders| && o !in stale :: orders[o] == old(orders)[o]
    {
      hide Run;
      hide Apply;
      ghost var before := Db();
      RunNothing(machine, before);
      expired := 0;
      trace := [];
      for i := 0 to |stale|
        invariant expired == i && |orders| == |old(orders)|
        invariant trace == seq(i, j requires 0 <= j < i => Expire(stale[j]))
        invariant Db() == Run(machine, before, trace)
        invariant forall j | 0 <= j < i :: orders[stale[j]].status == Cancelled && orders[stale[j]].pay == PayRejected
        invariant forall o | 0 <= o < |orders| && o !in stale[..i] :: orders[o] == old(orders)[o]
      {
        var o := stale[i];
        assert o !in stale[..i];
        Expires(machine, Db(), o);
        trace := Then(machine, before, trace, Expire(o));
        orders := orders[o := orders[o].(status := Cancelled, pay := PayRejected)];
        RestoreOrderStock(orders[o].items);
        expired := expired + 1;
        assert stale[..i + 1] == stale[..i] + [o];
      }
      assert stale[..|stale|] == stale;
    }
  }
}

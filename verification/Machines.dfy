/** What an order can still become by updateStatus, under the two shipped machines. */
module Machines {
  import opened Orders

  ghost function FoodAfter(a: Status): set<Status> {
    match a
    case PendingCash => {Cancelled}
    case PendingVerification => {Cancelled}
    case Paid => {Preparing, Ready, Delivered, Cancelled}
    case Preparing => {Ready, Delivered, Cancelled}
    case Ready => {Delivered}
    case _ => {}
  }

  ghost function RetailAfter(a: Status): set<Status> {
    var back := {Other("returned")};
    var sent := {Delivered, Other("completed")} + back;
    var sold := {Other("processing"), Other("shipped"), Cancelled} + sent;
    if a == Other("pending") then {Other("payment_review"), Confirmed} + sold
    else if a == Other("payment_review") then {Confirmed} + sold
    else if a == Confirmed then sold
    else if a == Other("processing") then {Other("shipped"), Cancelled} + sent
    else if a == Other("shipped") then sent
    else if a == Delivered then {Other("completed")} + back
    else if a == Other("completed") then back
    else {}
  }

  // A set of statuses closed under the machine bounds what is reached from inside.
  lemma Bounded(m: Machine, inside: set<Status>, a: Status, b: Status)
    requires a in inside && forall e | e in m && e.from in inside :: e.to in inside
    ensures Reach(m, a, b) ==> b in inside
  {
    if b !in inside {
      ReachStays(m, inside, a, b);
    }
  }

  lemma FoodClosed(a: Status)
    ensures forall e | e in FOOD && e.from in {a} + FoodAfter(a) :: e.to in {a} + FoodAfter(a)
  {
  }

  lemma FoodSteps()
    ensures forall b | b in {Preparing, Ready, Delivered, Cancelled} :: Reach(FOOD, Paid, b)
    ensures forall b | b in {Ready, Delivered, Cancelled} :: Reach(FOOD, Preparing, b)
    ensures Reach(FOOD, Ready, Delivered)
    ensures Reach(FOOD, PendingCash, Cancelled) && Reach(FOOD, PendingVerification, Cancelled)
  {
    hide Reach;
    ReachRefl(FOOD, PendingCash);
    ReachStep(FOOD, PendingCash, PendingCash, Cancelled);
    ReachRefl(FOOD, PendingVerification);
    ReachStep(FOOD, PendingVerification, PendingVerification, Cancelled);
    ReachRefl(FOOD, Paid);
    ReachStep(FOOD, Paid, Paid, Preparing);
    ReachStep(FOOD, Paid, Paid, Cancelled);
    ReachStep(FOOD, Paid, Preparing, Ready);
    ReachStep(FOOD, Paid, Ready, Delivered);
    ReachRefl(FOOD, Preparing);
    ReachStep(FOOD, Preparing, Preparing, Ready);
    ReachStep(FOOD, Preparing, Preparing, Cancelled);
    ReachStep(FOOD, Preparing, Ready, Delivered);
    ReachRefl(FOOD, Ready);
    ReachStep(FOOD, Ready, Ready, Delivered);
  }

  /** Exactly what a food order can still become. */
  lemma FoodReaches(a: Status, b: Status)
    ensures Reach(FOOD, a, b) <==> b == a || b in FoodAfter(a)
  {
    FoodClosed(a);
    FoodSteps();
    ReachRefl(FOOD, a);
    hide FOOD;
    hide Reach;
    Bounded(FOOD, {a} + FoodAfter(a), a, b);
  }

  lemma RetailClosed(a: Status)
    ensures forall e | e in RETAIL && e.from in {a} + RetailAfter(a) :: e.to in {a} + RetailAfter(a)
  {
  }

  lemma RetailTail(a: Status)
    requires Reach(RETAIL, a, Delivered)
    ensures Reach(RETAIL, a, Other("completed")) && Reach(RETAIL, a, Other("returned"))
  {
    hide Reach;
    ReachStep(RETAIL, a, Delivered, Other("completed"));
    ReachStep(RETAIL, a, Delivered, Other("returned"));
  }

  lemma RetailSent(a: Status)
    requires Reach(RETAIL, a, Other("processing"))
    ensures Reach(RETAIL, a, Other("shipped")) && Reach(RETAIL, a, Cancelled) && Reach(RETAIL, a, Delivered)
  {
    hide Reach;
    ReachStep(RETAIL, a, Other("processing"), Cancelled);
    ReachStep(RETAIL, a, Other("processing"), Other("shipped"));
    ReachStep(RETAIL, a, Other("shipped"), Delivered);
  }

  lemma RetailSold(a: Status)
    requires Reach(RETAIL, a, Confirmed)
    ensures Reach(RETAIL, a, Other("processing"))
  {
    hide Reach;
    ReachStep(RETAIL, a, Confirmed, Other("processing"));
  }

  lemma RetailSteps(a: Status, b: Status)
    requires b in RetailAfter(a)
    ensures Reach(RETAIL, a, b)
  {
    hide Reach;
    ReachRefl(RETAIL, a);
    if a == Other("pending") {
      ReachStep(RETAIL, a, a, Other("payment_review"));
      ReachStep(RETAIL, a, a, Confirmed);
    } else if a == Other("payment_review") {
      ReachStep(RETAIL, a, a, Confirmed);
    } else if a == Other("shipped") {
      ReachStep(RETAIL, a, a, Delivered);
    } else if a == Other("completed") {
      ReachStep(RETAIL, a, a, Other("returned"));
    }
    if a in {Other("pending"), Other("payment_review"), Confirmed} {
      RetailSold(a);
    }
    if a in {Other("pending"), Other("payment_review"), Confirmed, Other("processing")} {
      RetailSent(a);
    }
    if a != Other("completed") {
      RetailTail(a);
    }
  }

  /** Exactly what a retail order can still become. */
  lemma RetailReaches(a: Status, b: Status)
    ensures Reach(RETAIL, a, b) <==> b == a || b in RetailAfter(a)
  {
    RetailClosed(a);
    ReachRefl(RETAIL, a);
    if b in RetailAfter(a) {
      RetailSteps(a, b);
    }
    hide RETAIL;
    hide RetailAfter;
    hide Reach;
    Bounded(RETAIL, {a} + RetailAfter(a), a, b);
  }
}

/** The list of bank accounts of a tenant and its single default, edited through shared objects. */
module BankAccounts {
  import opened Prelude

  // An account as stored; `bank` stands for its editable texts.
  datatype Account = Account(id: nat, bank: string, isDefault: bool, isActive: bool)

  type List = seq<Account>

  datatype AccountError = OverLimit | NotFound | DefaultInUse

  // --- the operations on the stored list -------------------------------------------------

  predicate Has(l: List, id: nat) {
    exists i | 0 <= i < |l| :: l[i].id == id
  }

  function Undefaulted(l: List): List {
    seq(|l|, i requires 0 <= i < |l| => l[i].(isDefault := false))
  }

  // `limit` is None for plans without one. `id` is the new object id.
  function Add(l: List, limit: Option<nat>, id: nat, bank: string, asDefault: Option<bool>):
    Result<List, AccountError>
  {
    if limit.Some? && |l| >= limit.value then Err(OverLimit)
    else
      var makeDefault := if asDefault.Some? then asDefault.value else |l| == 0;
      Ok((if makeDefault then Undefaulted(l) else l) + [Account(id, bank, makeDefault, true)])
  }

  function Edited(a: Account, bank: Option<string>, isActive: Option<bool>): Account {
    a.(bank := if bank.Some? then bank.value else a.bank,
       isActive := if isActive.Some? then isActive.value else a.isActive)
  }

  // The first account with the id; the length when there is none.
  function IndexOf(l: List, id: nat): (i: nat)
    ensures i <= |l| && (i < |l| <==> Has(l, id)) && (i < |l| ==> l[i].id == id)
    ensures forall k | 0 <= k < i :: l[k].id != id
  {
    if l == [] then 0
    else if l[0].id == id then 0
    else
      var i := IndexOf(l[1..], id);
      assert Has(l[1..], id) <==> Has(l, id) by {
        assert forall k | 0 < k < |l| :: l[k] == l[1..][k - 1];
      }
      i + 1
  }

  function Update(l: List, id: nat, bank: Option<string>, isActive: Option<bool>): Result<List, AccountError> {
    var i := IndexOf(l, id);
    if i == |l| then Err(NotFound) else Ok(l[i := Edited(l[i], bank, isActive)])
  }

  function SetDefault(l: List, id: nat): Result<List, AccountError> {
    if !Has(l, id) then Err(NotFound)
    else Ok(seq(|l|, i requires 0 <= i < |l| => l[i].(isDefault := l[i].id == id)))
  }

  function Active(l: List): List {
    if l == [] then [] else Active(l[..|l| - 1]) + if l[|l| - 1].isActive then [l[|l| - 1]] else []
  }

  function Without(l: List, id: nat): List {
    if l == [] then [] else Without(l[..|l| - 1], id) + if l[|l| - 1].id != id then [l[|l| - 1]] else []
  }

  function Promoted(l: List): List {
    seq(|l|, i requires 0 <= i < |l| => if l[i].isActive then l[i].(isDefault := true) else l[i])
  }

  // A sole active account that is not the default becomes it.
  function Repaired(l: List): List {
    if |Active(l)| == 1 && !Active(l)[0].isDefault then Promoted(l) else l
  }

  function Delete(l: List, id: nat): Result<List, AccountError> {
    var i := IndexOf(l, id);
    if i == |l| then Err(NotFound)
    else if l[i].isDefault && |Active(l)| > 1 then Err(DefaultInUse)
    else Ok(Repaired(Without(l, id)))
  }

  // --- the service: objects loaded, shared between lists, written back ------------------------

  class Cell {
    var id: nat
    var bank: string
    var isDefault: bool
    var isActive: bool

    constructor (a: Account)
      ensures Value() == a
    {
      id, bank, isDefault, isActive := a.id, a.bank, a.isDefault, a.isActive;
    }

    function Value(): Account
      reads this
    {
      Account(id, bank, isDefault, isActive)
    }
  }

  function Values(cells: seq<Cell>): List
    reads cells
  {
    if cells == [] then [] else Values(cells[..|cells| - 1]) + [cells[|cells| - 1].Value()]
  }

  lemma {:induction false} ValuesAt(cells: seq<Cell>)
    ensures |Values(cells)| == |cells| && forall i | 0 <= i < |cells| :: Values(cells)[i] == cells[i].Value()
  {
    if cells != [] {
      ValuesAt(cells[..|cells| - 1]);
    }
  }

  lemma Snoc(l: List, a: Account, id: nat)
    ensures Without(l + [a], id) == Without(l, id) + if a.id != id then [a] else []
    ensures Active(l + [a]) == Active(l) + if a.isActive then [a] else []
  {
    assert (l + [a])[..|l|] == l;
  }

  lemma ValuesSnoc(cells: seq<Cell>, c: Cell)
    ensures Values(cells + [c]) == Values(cells) + [c.Value()]
    ensures Values(cells + []) == Values(cells)
  {
    assert (cells + [c])[..|cells|] == cells && cells + [] == cells;
  }

  lemma NoCells(id: nat)
    ensures Values([]) == [] && Without([], id) == [] && Active([]) == []
  {
  }

  lemma PromotedIs(l: List, m: List)
    requires |m| == |l| && forall i | 0 <= i < |l| :: m[i] == if l[i].isActive then l[i].(isDefault := true) else l[i]
    ensures m == Promoted(l)
  {
  }

  class TenantService {
    var stored: List

    constructor ()
      ensures stored == []
    {
      stored := [];
    }

    // findById: a fresh object for every stored account.
    method Load() returns (cells: seq<Cell>)
      ensures Values(cells) == stored && forall c | c in cells :: fresh(c)
      ensures forall i, j | 0 <= i < j < |cells| :: cells[i] != cells[j]
    {
      cells := [];
      assert stored[..0] == [];
      for i := 0 to |stored|
        invariant Values(cells) == stored[..i] && |cells| == i && forall c | c in cells :: fresh(c)
        invariant forall j, k | 0 <= j < k < |cells| :: cells[j] != cells[k]
      {
        var c := new Cell(stored[i]);
        var more := cells + [c];
        assert more[..|cells|] == cells;
        assert stored[..i + 1] == stored[..i] + [stored[i]];
        cells := more;
      }
      assert stored[..|stored|] == stored;
    }

    method AddBankAccount(limit: Option<nat>, id: nat, bank: string, asDefault: Option<bool>)
      returns (r: Result<List, AccountError>)
      modifies this
      ensures r == Add(old(stored), limit, id, bank, asDefault)
      ensures stored == if r.Ok? then r.value else old(stored)
    {
      if limit.Some? && |stored| >= limit.value {
        return Err(OverLimit);
      }
      var makeDefault := if asDefault.Some? then asDefault.value else |stored| == 0;
      var updated := if makeDefault then Undefaulted(stored) else stored;
      stored := updated + [Account(id, bank, makeDefault, true)];
      r := Ok(stored);
    }

    method UpdateBankAccount(id: nat, bank: Option<string>, isActive: Option<bool>)
      returns (r: Result<List, AccountError>)
      modifies this
      ensures r == Update(old(stored), id, bank, isActive)
      ensures stored == if r.Ok? then r.value else old(stored)
    {
      var idx := IndexOf(stored, id);
      if idx == |stored| {
        return Err(NotFound);
      }
      stored := stored[idx := Edited(stored[idx], bank, isActive)];
      r := Ok(stored);
    }

    method SetDefaultBankAccount(id: nat) returns (r: Result<List, AccountError>)
      modifies this
      ensures r == SetDefault(old(stored), id)
      ensures stored == if r.Ok? then r.value else old(stored)
    {
      if !Has(stored, id) {
        return Err(NotFound);
      }
      var l := stored;
      stored := seq(|l|, i requires 0 <= i < |l| => l[i].(isDefault := l[i].id == id));
      r := Ok(stored);
    }

    // accounts.filter(a => a._id !== id): the same objects, not copies.
    method Others(cells: seq<Cell>, id: nat) returns (kept: seq<Cell>)
      ensures Values(kept) == Without(Values(cells), id)
      ensures forall c | c in kept :: c in cells
    {
      hide Without;
      hide Values;
      hide Active;
      kept := [];
      NoCells(id);
      assert cells[..0] == [];
      for i := 0 to |cells|
        invariant Values(kept) == Without(Values(cells[..i]), id)
        invariant forall c | c in kept :: c in cells
      {
        assert cells[..i + 1] == cells[..i] + [cells[i]];
        ValuesSnoc(cells[..i], cells[i]);
        Snoc(Values(cells[..i]), cells[i].Value(), id);
        ValuesSnoc(kept, cells[i]);
        kept := kept + if cells[i].id != id then [cells[i]] else [];
      }
      assert cells[..|cells|] == cells;
    }

    // remaining.filter(a => a.isActive)
    method Actives(cells: seq<Cell>) returns (kept: seq<Cell>)
      ensures Values(kept) == Active(Values(cells))
      ensures forall c :: c in kept <==> c in cells && c.isActive
    {
      hide Without;
      hide Values;
      hide Active;
      kept := [];
      NoCells(0);
      assert cells[..0] == [];
      for i := 0 to |cells|
        invariant Values(kept) == Active(Values(cells[..i]))
        invariant forall c :: c in kept <==> c in cells[..i] && c.isActive
      {
        assert cells[..i + 1] == cells[..i] + [cells[i]];
        ValuesSnoc(cells[..i], cells[i]);
        Snoc(Values(cells[..i]), cells[i].Value(), 0);
        ValuesSnoc(kept, cells[i]);
        kept := kept + if cells[i].isActive then [cells[i]] else [];
      }
      assert cells[..|cells|] == cells;
    }

    /** The flag is set on the object in the list of active ones, and read back from the list that is kept. */
    method Repair(remaining: seq<Cell>)
      modifies remaining
      ensures Values(remaining) == Repaired(old(Values(remaining)))
    {
      hide Active;
      hide Values;
      var activeLeft := Actives(remaining);
      ValuesAt(remaining);
      ValuesAt(activeLeft);
      ghost var left := Values(remaining);
      if |activeLeft| == 1 && !activeLeft[0].isDefault {
        var only := activeLeft[0];
        assert only in activeLeft && only in remaining;
        assert forall c | c in remaining && c.isActive :: c in activeLeft && c == only;
        assert forall i | 0 <= i < |remaining| :: remaining[i] in remaining;
        assert forall i | 0 <= i < |remaining| ::
          left[i] == remaining[i].Value() && (left[i].isActive <==> remaining[i] == only);
        only.isDefault := true;
        ValuesAt(remaining);
        PromotedIs(left, Values(remaining));
      }
    }

    method DeleteBankAccount(id: nat) returns (r: Result<List, AccountError>)
      modifies this
      ensures r == Delete(old(stored), id)
      ensures stored == if r.Ok? then r.value else old(stored)
    {
      hide Active;
      hide Without;
      hide Repaired;
      hide IndexOf;
      hide Values;
      hide Has;
      var accounts := Load();
      ValuesAt(accounts);
      var idx := IndexOf(stored, id);
      if idx == |stored| {
        return Err(NotFound);
      }
      var target := accounts[idx];
      assert target.Value() == stored[idx];
      var active := Actives(accounts);
      ValuesAt(active);
      if target.isDefault && |active| > 1 {
        return Err(DefaultInUse);
      }
      var remaining := Others(accounts, id);
      assert forall c | c in accounts :: fresh(c);
      assert forall i | 0 <= i < |remaining| :: remaining[i] in remaining;
      assert forall c | c in remaining :: fresh(c);
      Repair(remaining);
      stored := Values(remaining);
      r := Ok(stored);
    }
  }

  // --- what the operations keep ----------------------------------------------------------------

  function Defaults(l: List): nat {
    if l == [] then 0 else Defaults(l[..|l| - 1]) + if l[|l| - 1].isDefault then 1 else 0
  }

  ghost predicate DistinctIds(l: List) {
    forall i, j | 0 <= i < j < |l| :: l[i].id != l[j].id
  }

  ghost predicate AllActive(l: List) {
    forall a | a in l :: a.isActive
  }

  lemma {:induction false} SameDefaults(l: List, m: List)
    requires |l| == |m| && forall i | 0 <= i < |l| :: l[i].isDefault == m[i].isDefault
    ensures Defaults(l) == Defaults(m)
  {
    if l != [] {
      SameDefaults(l[..|l| - 1], m[..|m| - 1]);
    }
  }

  lemma {:induction false} NoDefaults(l: List)
    requires forall a | a in l :: !a.isDefault
    ensures Defaults(l) == 0
  {
    if l != [] {
      NoDefaults(l[..|l| - 1]);
    }
  }

  // An account set as default among distinct ids is the only one.
  lemma {:induction false} OneChosen(l: List, m: List, id: nat)
    requires DistinctIds(l) && |m| == |l| && forall i | 0 <= i < |l| :: m[i] == l[i].(isDefault := l[i].id == id)
    ensures Defaults(m) == if Has(l, id) then 1 else 0
  {
    if l != [] {
      var n := |l| - 1;
      OneChosen(l[..n], m[..n], id);
      assert Has(l, id) <==> Has(l[..n], id) || l[n].id == id by {
        assert forall k | 0 <= k < n :: l[..n][k] == l[k];
      }
      assert l[n].id == id ==> !Has(l[..n], id);
    }
  }

  lemma {:induction false} WithoutMembers(l: List, id: nat)
    requires DistinctIds(l)
    ensures DistinctIds(Without(l, id)) && forall a :: a in Without(l, id) <==> a in l && a.id != id
  {
    if l != [] {
      var n := |l| - 1;
      WithoutMembers(l[..n], id);
      assert forall a :: a in l <==> a in l[..n] || a == l[n];
    }
  }

  predicate DefaultAt(l: List, id: nat) {
    IndexOf(l, id) < |l| && l[IndexOf(l, id)].isDefault
  }

  // Removing an account removes its flag.
  lemma {:induction false} WithoutCounts(l: List, id: nat)
    requires DistinctIds(l)
    ensures Defaults(Without(l, id)) == Defaults(l) - (if DefaultAt(l, id) then 1 else 0)
  {
    if l == [] {
      assert !DefaultAt(l, id);
    } else {
      var n := |l| - 1;
      WithoutCounts(l[..n], id);
      IndexOfPrefix(l, id);
      var w := Without(l[..n], id);
      assert (w + [l[n]])[..|w|] == w;
      if l[n].id == id {
        NotBefore(l, id);
        assert !DefaultAt(l[..n], id);
        assert DefaultAt(l, id) <==> l[n].isDefault;
        assert Without(l, id) == w + [] == w;
      } else {
        assert DefaultAt(l, id) <==> DefaultAt(l[..n], id);
        assert Without(l, id) == w + [l[n]];
      }
    }
  }

  lemma NotBefore(l: List, id: nat)
    requires l != [] && DistinctIds(l) && l[|l| - 1].id == id
    ensures !Has(l[..|l| - 1], id)
  {
  }

  lemma IndexOfPrefix(l: List, id: nat)
    requires l != [] && DistinctIds(l)
    ensures var n := |l| - 1;
      IndexOf(l, id) == if l[n].id == id then n else if IndexOf(l[..n], id) < n then IndexOf(l[..n], id) else |l|
  {
    var n := |l| - 1;
    var i, k := IndexOf(l, id), IndexOf(l[..n], id);
    hide IndexOf;
    assert Has(l, id) <==> Has(l[..n], id) || l[n].id == id by {
      assert forall j | 0 <= j < n :: l[..n][j] == l[j];
    }
    assert forall j | 0 <= j < n :: l[..n][j] == l[j];
  }

  // How many defaults the last repair of a delete leaves.
  lemma {:induction false} PromotedCounts(l: List)
    ensures Defaults(Promoted(l)) == Defaults(l) + Undefault(l)
    ensures Undefault(l) <= |Active(l)|
    ensures |Active(l)| == 1 ==> Undefault(l) == if Active(l)[0].isDefault then 0 else 1
  {
    if l != [] {
      var n := |l| - 1;
      PromotedCounts(l[..n]);
      assert Promoted(l)[..n] == Promoted(l[..n]);
    }
  }

  // Active accounts that are not the default.
  function Undefault(l: List): nat {
    if l == [] then 0 else Undefault(l[..|l| - 1]) + if l[|l| - 1].isActive && !l[|l| - 1].isDefault then 1 else 0
  }

  lemma {:induction false} ActiveOnes(l: List)
    ensures |Active(l)| <= |l| && (|Active(l)| == |l| <==> AllActive(l))
    ensures forall a :: a in Active(l) <==> a in l && a.isActive
  {
    if l != [] {
      ActiveOnes(l[..|l| - 1]);
    }
  }

  lemma {:induction false} DefaultThere(l: List)
    ensures Defaults(l) > 0 <==> exists a :: a in l && a.isDefault
    ensures Defaults(l) <= |l|
  {
    if l != [] {
      DefaultThere(l[..|l| - 1]);
    }
  }

  /** From a list with exactly one default, a successful delete leaves exactly one, or an empty list, exactly
      when: a deleted default leaves an active account behind, and another deleted account does not leave one
      active account beside an inactive default. */
  lemma DeleteKeepsIff(l: List, id: nat)
    requires DistinctIds(l) && Defaults(l) == 1 && Delete(l, id).Ok?
    ensures var left := Without(l, id);
      Delete(l, id).value == [] || Defaults(Delete(l, id).value) == 1
      <==> left == [] || (if l[IndexOf(l, id)].isDefault then |Active(left)| > 0
                          else |Active(left)| != 1 || Active(left)[0].isDefault)
  {
    var left := Without(l, id);
    WithoutCounts(l, id);
    PromotedCounts(left);
    if DefaultAt(l, id) {
      DeletedDefault(l, id);
    }
    hide Without;
    hide Active;
    hide IndexOf;
    hide Promoted;
    hide Defaults;
    hide Undefault;
    assert |Promoted(left)| == |left|;
  }

  // A default can only be deleted while at most one account is active; none of the rest is default then.
  lemma DeletedDefault(l: List, id: nat)
    requires DistinctIds(l) && Defaults(l) == 1 && Delete(l, id).Ok? && l[IndexOf(l, id)].isDefault
    ensures var left := Without(l, id); |Active(left)| <= 1 && (|Active(left)| == 1 ==> !Active(left)[0].isDefault)
  {
    var left := Without(l, id);
    WithoutCounts(l, id);
    DefaultThere(left);
    ActiveOnes(left);
    ActiveSubset(l, id);
    assert DefaultAt(l, id) && Defaults(left) == 0;
    assert forall a | a in left :: !a.isDefault;
    assert |Active(left)| <= 1;
    if |Active(left)| == 1 {
      var a := Active(left)[0];
      assert a in Active(left);
      assert a in left;
    }
  }

  lemma {:induction false} ActiveSubset(l: List, id: nat)
    ensures |Active(Without(l, id))| <= |Active(l)|
  {
    if l != [] {
      var n := |l| - 1;
      var w := Without(l[..n], id);
      ActiveSubset(l[..n], id);
      assert (w + [l[n]])[..|w|] == w && w + [] == w;
    }
  }

  // --- runs ------------------------------------------------------------------------------------

  datatype Event =
    | Adds(limit: Option<nat>, id: nat, bank: string, asDefault: Option<bool>)
    | Updates(id: nat, newBank: Option<string>, isActive: Option<bool>)
    | Defaulting(id: nat)
    | Deletes(id: nat)

  function OrOld(r: Result<List, AccountError>, l: List): List {
    if r.Ok? then r.value else l
  }

  // New object ids are fresh: an add with an id already there is not a possible event.
  function Apply(l: List, e: Event): List {
    match e
    case Adds(limit, id, bank, asDefault) => if Has(l, id) then l else OrOld(Add(l, limit, id, bank, asDefault), l)
    case Updates(id, bank, isActive) => OrOld(Update(l, id, bank, isActive), l)
    case Defaulting(id) => OrOld(SetDefault(l, id), l)
    case Deletes(id) => OrOld(Delete(l, id), l)
  }

  function Run(l: List, events: seq<Event>): List {
    if events == [] then l else Apply(Run(l, events[..|events| - 1]), events[|events| - 1])
  }

  // No event switches an account off or on.
  ghost predicate LeavesActiveAlone(events: seq<Event>) {
    forall e | e in events :: e.Updates? ==> e.isActive.None?
  }

  lemma RepairedIds(l: List)
    ensures |Repaired(l)| == |l| && forall i | 0 <= i < |l| ::
      Repaired(l)[i].id == l[i].id && Repaired(l)[i].isActive == l[i].isActive
  {
  }

  lemma DeleteIds(l: List, id: nat)
    requires DistinctIds(l)
    ensures DistinctIds(Repaired(Without(l, id)))
  {
    WithoutMembers(l, id);
    RepairedIds(Without(l, id));
    hide Repaired;
    hide Without;
  }

  lemma SameIds(l: List, m: List)
    requires DistinctIds(l) && |m| == |l| && forall i | 0 <= i < |l| :: m[i].id == l[i].id
    ensures DistinctIds(m)
  {
  }

  lemma AddIds(l: List, limit: Option<nat>, id: nat, bank: string, asDefault: Option<bool>)
    requires DistinctIds(l) && !Has(l, id) && Add(l, limit, id, bank, asDefault).Ok?
    ensures DistinctIds(Add(l, limit, id, bank, asDefault).value)
  {
    var m := Add(l, limit, id, bank, asDefault).value;
    assert |m| == |l| + 1 && m[|l|].id == id && forall i | 0 <= i < |l| :: m[i].id == l[i].id;
    hide Add;
  }

  lemma StepIds(l: List, e: Event)
    requires DistinctIds(l)
    ensures DistinctIds(Apply(l, e))
  {
    hide DistinctIds;
    match e
    case Adds(limit, id, bank, asDefault) =>
      if !Has(l, id) && Add(l, limit, id, bank, asDefault).Ok? {
        AddIds(l, limit, id, bank, asDefault);
      }
    case Deletes(id) => DeleteIds(l, id);
    case _ => SameIds(l, Apply(l, e));
  }

  /** Ids stay distinct over every run. */
  lemma {:induction false} IdsDistinct(events: seq<Event>)
    ensures DistinctIds(Run([], events))
  {
    if events != [] {
      IdsDistinct(events[..|events| - 1]);
      StepIds(Run([], events[..|events| - 1]), events[|events| - 1]);
    }
  }

  lemma {:induction false} DefaultsOfAppend(l: List, a: Account)
    ensures Defaults(l + [a]) == Defaults(l) + if a.isDefault then 1 else 0
  {
    assert (l + [a])[..|l|] == l;
  }

  lemma AddDefaults(l: List, limit: Option<nat>, id: nat, bank: string, asDefault: Option<bool>)
    requires Add(l, limit, id, bank, asDefault).Ok?
    ensures var m := Add(l, limit, id, bank, asDefault).value;
      Defaults(m) == 1 || (Defaults(m) == Defaults(l) && asDefault != Some(true))
  {
    var makeDefault := if asDefault.Some? then asDefault.value else |l| == 0;
    var kept := if makeDefault then Undefaulted(l) else l;
    DefaultsOfAppend(kept, Account(id, bank, makeDefault, true));
    if makeDefault {
      NoDefaults(kept);
    }
  }

  lemma UpdateDefaults(l: List, id: nat, bank: Option<string>, isActive: Option<bool>)
    requires Update(l, id, bank, isActive).Ok?
    ensures Defaults(Update(l, id, bank, isActive).value) == Defaults(l)
  {
    SameDefaults(Update(l, id, bank, isActive).value, l);
  }

  // With every account active, a delete leaves a sole account as the default and never makes two.
  lemma DeleteDefaults(l: List, id: nat)
    requires DistinctIds(l) && AllActive(l) && Defaults(l) <= 1 && Delete(l, id).Ok?
    ensures var m := Delete(l, id).value;
      AllActive(m) && Defaults(m) <= 1 && (Defaults(l) == 1 && m != [] ==> Defaults(m) == 1)
  {
    var left := Without(l, id);
    WithoutMembers(l, id);
    WithoutCounts(l, id);
    PromotedCounts(left);
    ActiveOnes(left);
    ActiveOnes(l);
    DefaultThere(left);
    DeleteAll(l, id, left);
  }

  lemma DeleteAll(l: List, id: nat, left: List)
    requires left == Without(l, id) && |Active(left)| == |left| && AllActive(left) && Defaults(left) <= |left|
    requires Defaults(left) <= 1 && Defaults(left) == Defaults(l) - (if DefaultAt(l, id) then 1 else 0)
    requires Defaults(Promoted(left)) == Defaults(left) + Undefault(left)
    requires |Active(left)| == 1 ==> Undefault(left) == if Active(left)[0].isDefault then 0 else 1
    requires Delete(l, id).Ok? && |Active(l)| == |l|
    ensures var m := Delete(l, id).value;
      AllActive(m) && Defaults(m) <= 1 && (Defaults(l) == 1 && m != [] ==> Defaults(m) == 1)
  {
    WithoutLength(l, id);
    RepairedIds(left);
    var m := Repaired(left);
    assert |left| == 1 && Active(left)[0].isDefault ==> Active(left)[0] in Active(left);
    ActiveOnes(left);
    DefaultThere(left);
    assert AllActive(m);
    hide Without;
    hide Active;
    hide Defaults;
    hide Undefault;
    hide Promoted;
    hide IndexOf;
  }

  lemma {:induction false} WithoutLength(l: List, id: nat)
    ensures |l| <= 1 && Has(l, id) ==> Without(l, id) == []
  {
    if |l| == 1 {
      assert l[..0] == [] && l == [l[0]];
    }
  }

  ghost predicate Tidy(l: List) {
    DistinctIds(l) && AllActive(l) && Defaults(l) <= 1
  }

  lemma StepTidy(l: List, e: Event)
    requires Tidy(l) && (e.Updates? ==> e.isActive.None?)
    ensures Tidy(Apply(l, e)) && (Defaults(l) == 1 && Apply(l, e) != [] ==> Defaults(Apply(l, e)) == 1)
  {
    StepIds(l, e);
    match e
    case Adds(limit, id, bank, asDefault) =>
      if !Has(l, id) && Add(l, limit, id, bank, asDefault).Ok? {
        AddDefaults(l, limit, id, bank, asDefault);
      }
    case Updates(id, bank, isActive) =>
      if Update(l, id, bank, isActive).Ok? {
        UpdateDefaults(l, id, bank, isActive);
      }
    case Defaulting(id) =>
      if Has(l, id) {
        OneChosen(l, SetDefault(l, id).value, id);
      }
    case Deletes(id) =>
      if Delete(l, id).Ok? {
        DeleteDefaults(l, id);
      }
  }

  /** Over every run that leaves isActive alone there is at most one default account. */
  lemma {:induction false} AtMostOneDefault(l: List, events: seq<Event>)
    requires Tidy(l) && LeavesActiveAlone(events)
    ensures Tidy(Run(l, events))
  {
    if events != [] {
      var n := |events| - 1;
      assert events[n] in events && forall e | e in events[..n] :: e in events;
      AtMostOneDefault(l, events[..n]);
      StepTidy(Run(l, events[..n]), events[n]);
    }
  }

  ghost predicate NeverEmptied(l: List, events: seq<Event>)
    decreases |events|
  {
    Run(l, events) != [] && (events != [] ==> NeverEmptied(l, events[..|events| - 1]))
  }

  /** A list with exactly one default keeps exactly one until it is emptied. */
  lemma {:induction false} ExactlyOneDefault(l: List, events: seq<Event>)
    requires Tidy(l) && Defaults(l) == 1 && LeavesActiveAlone(events) && NeverEmptied(l, events)
    ensures Defaults(Run(l, events)) == 1
  {
    if events != [] {
      var n := |events| - 1;
      assert events[n] in events && forall e | e in events[..n] :: e in events;
      ExactlyOneDefault(l, events[..n]);
      AtMostOneDefault(l, events[..n]);
      StepTidy(Run(l, events[..n]), events[n]);
    }
  }

  lemma StepLimit(l: List, e: Event, limit: nat)
    requires |l| <= limit && (e.Adds? ==> e.limit.Some? && e.limit.value <= limit)
    ensures |Apply(l, e)| <= limit
  {
    if e.Deletes? {
      Shorter(l, e.id);
      RepairedIds(Without(l, e.id));
    }
    hide IndexOf;
    hide Repaired;
    hide Without;
  }

  /** Under a plan limit the list never grows past it. */
  lemma {:induction false} WithinLimit(events: seq<Event>, limit: nat)
    requires forall e | e in events && e.Adds? :: e.limit.Some? && e.limit.value <= limit
    ensures |Run([], events)| <= limit
  {
    if events != [] {
      hide Apply;
      var n := |events| - 1;
      assert events[n] in events && forall e | e in events[..n] :: e in events;
      WithinLimit(events[..n], limit);
      StepLimit(Run([], events[..n]), events[n], limit);
    }
  }

  lemma {:induction false} Shorter(l: List, id: nat)
    ensures |Without(l, id)| <= |l|
  {
    if l != [] {
      Shorter(l[..|l| - 1], id);
    }
  }

  lemma Extend(events: seq<Event>, e: Event) returns (more: seq<Event>)
    ensures more == events + [e] && Run([], more) == Apply(Run([], events), e)
  {
    more := events + [e];
    assert more[..|events|] == events;
  }

  lemma WithoutThird(a: Account, b: Account, c: Account)
    requires a.id != c.id && b.id != c.id && !a.isActive && b.isActive
    ensures Without([a, b, c], c.id) == [a, b] && Active([a, b]) == [b] && IndexOf([a, b, c], c.id) == 2
  {
    Snoc([], a, c.id);
    Snoc([a], b, c.id);
    Snoc([a, b], c, c.id);
    assert [] + [a] == [a] && [a] + [b] == [a, b] && [a, b] + [c] == [a, b, c];
    var l := [a, b, c];
    assert l[0] == a && l[1] == b && l[2] == c && Has(l, c.id);
    hide Without;
    hide Active;
  }

  lemma ThreeLeft(a: Account, b: Account, c: Account)
    requires a.id != b.id && b.id != c.id && a.id != c.id && !a.isActive && a.isDefault && b.isActive && !b.isDefault
      && c.isActive && !c.isDefault
    ensures Apply([a, b, c], Deletes(c.id)) == [a, b.(isDefault := true)]
    ensures Defaults([a, b.(isDefault := true)]) == 2
  {
    var d := [a, b.(isDefault := true)];
    WithoutThird(a, b, c);
    PromotedIs([a, b], d);
    DefaultsOfAppend([], a);
    DefaultsOfAppend([a], d[1]);
    assert [] + [a] == [a] && [a] + [d[1]] == d;
    hide IndexOf;
    hide Without;
    hide Active;
    hide Promoted;
    hide Defaults;
    assert Defaults([]) == 0;
  }

  /** Switching the default off and deleting down to one active account leaves two defaults. */
  lemma InactiveDefaultDoubles()
    ensures exists events :: Defaults(Run([], events)) == 2
  {
    assert Run([], []) == [];
    var a, b, c := Account(1, "a", true, true), Account(2, "b", false, true), Account(3, "c", false, true);
    var events := Extend([], Adds(None, 1, "a", None));
    assert Run([], events) == [a];
    events := Extend(events, Adds(None, 2, "b", None));
    assert Run([], events) == [a, b];
    events := Extend(events, Adds(None, 3, "c", None));
    assert Run([], events) == [a, b, c];
    events := Extend(events, Updates(1, None, Some(false)));
    assert IndexOf([a, b, c], 1) == 0;
    assert Run([], events) == [a.(isActive := false), b, c];
    events := Extend(events, Deletes(3));
    ThreeLeft(a.(isActive := false), b, c);
  }
}

/** What one call does to the list of bank accounts, account by account. */
module BankAccountEdits {
  import opened Prelude
  import opened BankAccounts

  // An account without its default flag: what a delete or a change of default never touches.
  ghost function Rest(a: Account): (nat, string, bool) {
    (a.id, a.bank, a.isActive)
  }

  ghost predicate TwoActive(l: List) {
    exists j, k :: 0 <= j < k < |l| && l[j].isActive && l[k].isActive
  }

  ghost predicate SomeActive(l: List) {
    exists j :: 0 <= j < |l| && l[j].isActive
  }

  lemma OneMore(l: List, a: Account)
    ensures SomeActive(l + [a]) <==> SomeActive(l) || a.isActive
    ensures TwoActive(l + [a]) <==> TwoActive(l) || (SomeActive(l) && a.isActive)
  {
    var m := l + [a];
    assert m[|l|] == a && forall j | 0 <= j < |l| :: m[j] == l[j];
    if SomeActive(l) {
      var j :| 0 <= j < |l| && l[j].isActive;
      assert m[j].isActive && (a.isActive ==> m[|l|].isActive);
    }
    if TwoActive(l) {
      var j, k :| 0 <= j < k < |l| && l[j].isActive && l[k].isActive;
      assert m[j].isActive && m[k].isActive;
    }
  }

  lemma {:induction false} ActiveCount(l: List)
    ensures |Active(l)| > 0 <==> SomeActive(l)
    ensures |Active(l)| > 1 <==> TwoActive(l)
  {
    if l != [] {
      var n := |l| - 1;
      ActiveCount(l[..n]);
      OneMore(l[..n], l[n]);
      assert l[..n] + [l[n]] == l;
      hide SomeActive;
      hide TwoActive;
    }
  }

  lemma {:induction false} WithoutOne(l: List, id: nat, i: nat)
    requires i < |l| && l[i].id == id && forall k | 0 <= k < |l| && k != i :: l[k].id != id
    ensures Without(l, id) == l[..i] + l[i + 1..]
  {
    var n := |l| - 1;
    if i == n {
      WithoutNone(l[..n], id);
    } else {
      WithoutOne(l[..n], id, i);
      assert l[..n][..i] == l[..i] && l[..n][i + 1..] + [l[n]] == l[i + 1..];
    }
  }

  lemma {:induction false} WithoutNone(l: List, id: nat)
    requires forall k | 0 <= k < |l| :: l[k].id != id
    ensures Without(l, id) == l
  {
    if l != [] {
      WithoutNone(l[..|l| - 1], id);
    }
  }

  /** A delete is refused exactly for an unknown account, and for the default while two accounts are active. Otherwise
      it removes that account and changes at most default flags of the others. */
  lemma DeleteIs(l: List, id: nat, i: nat)
    requires DistinctIds(l) && i < |l| && l[i].id == id
    ensures Delete(l, id) == Err(DefaultInUse) <==> l[i].isDefault && TwoActive(l)
    ensures Delete(l, id).Ok? <==> !(l[i].isDefault && TwoActive(l))
    ensures Delete(l, id).Ok? ==> var m, left := Delete(l, id).value, l[..i] + l[i + 1..];
      |m| == |left| && forall k | 0 <= k < |left| :: Rest(m[k]) == Rest(left[k])
  {
    ActiveCount(l);
    WithoutOne(l, id, i);
    hide Active;
  }

  lemma UnknownRefused(l: List, id: nat, bank: Option<string>, isActive: Option<bool>)
    ensures (forall k | 0 <= k < |l| :: l[k].id != id) <==> Delete(l, id) == Err(NotFound)
    ensures (forall k | 0 <= k < |l| :: l[k].id != id) <==> Update(l, id, bank, isActive) == Err(NotFound)
    ensures (forall k | 0 <= k < |l| :: l[k].id != id) <==> SetDefault(l, id) == Err(NotFound)
  {
  }

  /** An update changes the texts and the active flag that were given, of that account alone. */
  lemma UpdateIs(l: List, id: nat, bank: Option<string>, isActive: Option<bool>, i: nat)
    requires DistinctIds(l) && i < |l| && l[i].id == id
    ensures Update(l, id, bank, isActive) == Ok(l[i := Account(
              id, if bank.Some? then bank.value else l[i].bank, l[i].isDefault,
              if isActive.Some? then isActive.value else l[i].isActive)])
  {
  }

  /** A new account comes last and active. It is the default when that is asked for, or when nothing is said and it is
      the first; then no other stays the default. Otherwise the others stay as they are. */
  lemma AddIs(l: List, limit: Option<nat>, id: nat, bank: string, asDefault: Option<bool>)
    ensures Add(l, limit, id, bank, asDefault).Ok? <==> limit.None? || |l| < limit.value
    ensures Add(l, limit, id, bank, asDefault).Ok? ==>
      var m := Add(l, limit, id, bank, asDefault).value;
      var isDefault := asDefault == Some(true) || (asDefault.None? && l == []);
      && |m| == |l| + 1 && m[|l|] == Account(id, bank, isDefault, true)
      && forall k | 0 <= k < |l| ::
           Rest(m[k]) == Rest(l[k]) && m[k].isDefault == (l[k].isDefault && !isDefault)
  {
  }

  /** Setting the default makes exactly that account the default and changes nothing else. */
  lemma SetDefaultIs(l: List, id: nat, i: nat)
    requires DistinctIds(l) && i < |l| && l[i].id == id
    ensures SetDefault(l, id).Ok? && |SetDefault(l, id).value| == |l|
    ensures forall k | 0 <= k < |l| ::
      var a := SetDefault(l, id).value[k]; Rest(a) == Rest(l[k]) && (a.isDefault <==> k == i)
  {
  }
}

/** JavaScript's view of configuration values: truthiness, and the keys of an array. */
module JsValues {
  import opened Prelude
  import opened ConfigMerge
  import opened TenantConfig

  /** The falsy values. */
  lemma TruthyIff(j: Json)
    ensures Truthy(j) <==> j != Null && j != Bool(false) && j != Num(0.0) && j != Str("")
  {
  }

  /** A modules section that is falsy leaves the tenant's modules alone; any other is copied, without _id. */
  lemma ModulesMirrored(t: Tenant, next: Fields, id: nat, hash: string)
    ensures var modules := Synced(t, next, id, hash).modules;
      if "modules" !in next || next["modules"] in {Null, Bool(false), Num(0.0), Str("")} then modules == t.modules
      else modules == Some(Without(Entries(next["modules"]), {"_id"}))
  {
    if "modules" in next {
      TruthyIff(next["modules"]);
    }
  }

  // --- array keys --------------------------------------------------------------------------

  /** The number a decimal text writes. */
  function Read(s: string): nat {
    if s == [] then 0
    else
      var d := s[|s| - 1] as int - 48;
      10 * Read(s[..|s| - 1]) + if 0 <= d <= 9 then d else 0
  }

  lemma DigitOf(d: nat)
    requires d < 10
    ensures "0123456789"[d] as int == 48 + d
  {
  }

  /** A key is the number of its position in decimal digits, without leading zeros. */
  lemma {:induction false} KeyReads(i: nat)
    ensures var k := IndexKey(i);
      && k != "" && Read(k) == i && (forall c | c in k :: '0' <= c <= '9') && (i > 0 ==> k[0] != '0')
  {
    DigitOf(i % 10);
    if i >= 10 {
      KeyReads(i / 10);
      assert IndexKey(i)[..|IndexKey(i)| - 1] == IndexKey(i / 10);
    } else {
      assert IndexKey(i) == ["0123456789"[i % 10]];
      assert IndexKey(i)[..0] == [];
    }
  }

  lemma KeysDiffer(i: nat, j: nat)
    ensures IndexKey(i) == IndexKey(j) ==> i == j
  {
    KeyReads(i);
    KeyReads(j);
    hide IndexKey;
    hide Read;
  }

  ghost predicate IsKey(k: string, n: nat) {
    exists i: nat :: i < n && k == IndexKey(i)
  }

  lemma KeyOneMore(n: nat)
    ensures forall k :: IsKey(k, n + 1) <==> IsKey(k, n) || k == IndexKey(n)
  {
    hide IndexKey;
  }

  lemma {:induction false} IndexedAre(items: seq<Json>)
    ensures forall i | 0 <= i < |items| :: IndexKey(i) in Indexed(items) && Indexed(items)[IndexKey(i)] == items[i]
    ensures forall k :: k in Indexed(items) <==> IsKey(k, |items|)
  {
    hide IndexKey;
    if items == [] {
      assert forall k :: !IsKey(k, 0);
    } else {
      var n := |items| - 1;
      IndexedAre(items[..n]);
      KeyOneMore(n);
      hide IsKey;
      var before := Indexed(items[..n]);
      assert Indexed(items) == before[IndexKey(n) := items[n]];
      hide Indexed;
      forall i | 0 <= i < |items|
        ensures IndexKey(i) in Indexed(items) && Indexed(items)[IndexKey(i)] == items[i]
      {
        KeysDiffer(i, n);
        assert i < n ==> items[..n][i] == items[i];
      }
    }
  }

  lemma EntriesAreIndexed(items: seq<Json>)
    ensures Entries(Arr(items)) == Indexed(items)
  {
    assert seq(|items|, i requires 0 <= i < |items| => items[i]) == items;
    hide Indexed;
  }

  /** An array is seen as the object of its positions. */
  lemma EntriesOfArray(items: seq<Json>)
    ensures forall k :: k in Entries(Arr(items)) <==> IsKey(k, |items|)
    ensures forall i | 0 <= i < |items| ::
      IndexKey(i) in Entries(Arr(items)) && Entries(Arr(items))[IndexKey(i)] == items[i]
  {
    EntriesAreIndexed(items);
    IndexedAre(items);
    hide Entries;
    hide Indexed;
    hide IndexKey;
    hide IsKey;
  }
}

/** Exactly when an update reads back what it returned, told from what is known before the call. */
module ReadBack {
  import opened Prelude
  import opened ConfigMerge
  import opened TenantConfig
  import opened ReadYourWrites

  // Defaults, legacy fields and stored snapshot clash nowhere: every default key path can be read.
  ghost predicate Coherent(defaults: Fields, s: Store) {
    NoLoss(Obj(defaults), Obj(Legacy(s.tenant)), Obj(Stored(s)))
  }

  lemma EffectiveCovers(defaults: Fields, s: Store)
    requires Coherent(defaults, s)
    ensures Absorbed(Obj(defaults), Obj(Effective(defaults, s)))
    ensures Absorbed(Obj(Base(defaults, s.tenant)), Obj(Effective(defaults, s)))
  {
    NoLossAbsorbs(Obj(defaults), Obj(Legacy(s.tenant)), Obj(Stored(s)));
    AbsorbedByMerge(Obj(Base(defaults, s.tenant)), Obj(Stored(s)));
    EffectiveOf(defaults, s);
  }

  // --- what update mirrors into the tenant document, before the call -----------------------------

  predicate Composite(j: Json) {
    j.Obj? || j.Arr?
  }

  /** After the patch the configuration has fulfillment modes, so orderModes will be overwritten. */
  predicate MirrorsModes(e: Fields, p: Fields) {
    if "fulfillment" in p && p["fulfillment"].Obj? && "modes" in p["fulfillment"].fields then
      Composite(p["fulfillment"].fields["modes"])
    else if "fulfillment" in p && !p["fulfillment"].Obj? then false
    else
      && "fulfillment" in e && e["fulfillment"].Obj? && "modes" in e["fulfillment"].fields
      && Composite(e["fulfillment"].fields["modes"])
  }

  lemma MirrorsModesIff(e: Fields, p: Fields)
    ensures MirrorsModes(e, p) <==> NextModes(MergeFields(e, p)).Some?
  {
    var k := "fulfillment";
    if k in p && k in e {
      assert MergeFields(e, p)[k] == Merge(e[k], p[k]);
      if p[k].Obj? && e[k].Obj? {
        MergedModes(e[k].fields, p[k].fields);
      }
    }
  }

  lemma MergedModes(e: Fields, p: Fields)
    ensures "modes" in MergeFields(e, p) <==> "modes" in e || "modes" in p
    ensures "modes" in p ==> (Composite(MergeFields(e, p)["modes"]) <==> Composite(p["modes"]))
    ensures "modes" !in p && "modes" in e ==> MergeFields(e, p)["modes"] == e["modes"]
  {
    if "modes" in p && "modes" in e {
      assert MergeFields(e, p)["modes"] == Merge(e["modes"], p["modes"]);
    }
  }

  // The sections that are read under the new snapshot: the defaults, with the legacy modes where they stay.
  function Underneath(defaults: Fields, t: Tenant, mirrors: bool): Fields {
    if mirrors || t.orderModes.None? then defaults
    else
      var modes := Obj(map["modes" := Obj(Without(t.orderModes.value, {"_id"}))]);
      defaults["fulfillment" := if "fulfillment" in defaults then Merge(defaults["fulfillment"], modes) else modes]
  }

  lemma LegacyModes(t: Tenant)
    ensures "fulfillment" in Legacy(t) <==> t.orderModes.Some?
    ensures t.orderModes.Some? ==>
      Legacy(t)["fulfillment"] == Obj(map["modes" := Obj(Without(t.orderModes.value, {"_id"}))])
  {
  }

  lemma LegacyModules(t: Tenant)
    ensures "modules" in Legacy(t) <==> t.modules.Some? && t.modules.value != map[]
    ensures "modules" in Legacy(t) ==> Legacy(t)["modules"] == Obj(Without(t.modules.value, {"_id"}))
  {
  }

  function CleanModes(modes: Json): Json {
    Obj(map["modes" := Obj(Without(Entries(modes), {"_id"}))])
  }

  lemma SyncedModes(t: Tenant, next: Fields, id: nat, hash: string)
    ensures var u := Synced(t, next, id, hash);
      if NextModes(next).Some? then
        "fulfillment" in Legacy(u) && Legacy(u)["fulfillment"] == CleanModes(NextModes(next).value)
      else
        && ("fulfillment" in Legacy(u) <==> t.orderModes.Some?)
        && (t.orderModes.Some? ==>
              Legacy(u)["fulfillment"] == Obj(map["modes" := Obj(Without(t.orderModes.value, {"_id"}))]))
  {
    var u := Synced(t, next, id, hash);
    LegacyModes(u);
    if NextModes(next).Some? {
      var clean := Without(Entries(NextModes(next).value), {"_id"});
      assert Without(clean, {"_id"}) == clean;
    }
    hide Legacy;
  }

  predicate MirrorsModules(next: Fields) {
    "modules" in next && Truthy(next["modules"])
  }

  lemma SyncedModules(t: Tenant, next: Fields, id: nat, hash: string)
    ensures var u := Synced(t, next, id, hash);
      if MirrorsModules(next) then
        "modules" in Legacy(u) ==> Legacy(u)["modules"] == Obj(Without(Entries(next["modules"]), {"_id"}))
      else
        && ("modules" in Legacy(u) <==> "modules" in Legacy(t))
        && ("modules" in Legacy(t) ==> Legacy(u)["modules"] == Legacy(t)["modules"])
  {
    var u := Synced(t, next, id, hash);
    LegacyModules(u);
    LegacyModules(t);
    if MirrorsModules(next) {
      var clean := Without(Entries(next["modules"]), {"_id"});
      assert Without(clean, {"_id"}) == clean;
    }
    hide Legacy;
  }

  // --- mirrored values ask nothing more of the result than the defaults do --------------------------

  lemma CleanBack(x: Json, n: Fields, keys: set<string>)
    ensures Absorbed(Merge(x, Obj(Without(n, keys))), Obj(n)) <==> Absorbed(x, Obj(n))
    ensures Absorbed(Obj(Without(n, keys)), Obj(n))
  {
    WithoutAbsorbed(n, keys);
    if x.Obj? {
      forall k | k in x.fields && k in n
        ensures Absorbed(Merge(x.fields[k], n[k]), n[k]) <==> Absorbed(x.fields[k], n[k])
      {
        AbsorbedWithItself(x.fields[k], n[k]);
      }
      forall k | k in n
        ensures Absorbed(n[k], n[k])
      {
        KeepsSelf(n[k]);
      }
      var m := Merge(x, Obj(Without(n, keys)));
      assert forall k | k in m.fields ::
        m.fields[k] == (if k !in Without(n, keys) then x.fields[k]
                        else if k in x.fields then Merge(x.fields[k], n[k]) else n[k]);
    }
  }

  lemma ModulesBack(x: Json, n: Json)
    ensures var l := Obj(Without(Entries(n), {"_id"})); (Absorbed(Merge(x, l), n) <==> Absorbed(x, n)) && Absorbed(l, n)
  {
    if n.Obj? {
      CleanBack(x, n.fields, {"_id"});
    }
  }

  lemma ModesBack(x: Json, n: Json)
    requires n.Obj? && "modes" in n.fields && Composite(n.fields["modes"])
    ensures var l := CleanModes(n.fields["modes"]); (Absorbed(Merge(x, l), n) <==> Absorbed(x, n)) && Absorbed(l, n)
  {
    var modes := n.fields["modes"];
    var clean := Obj(Without(Entries(modes), {"_id"}));
    ModulesBack(Null, modes);
    assert Absorbed(clean, modes);
    if x.Obj? && "modes" in x.fields {
      ModulesBack(x.fields["modes"], modes);
    }
    var l := CleanModes(modes);
    assert l.fields.Keys == {"modes"} && l.fields["modes"] == clean;
    if x.Obj? {
      var m := Merge(x, l);
      assert forall k | k in m.fields && k != "modes" :: k in x.fields && m.fields[k] == x.fields[k];
      assert m.fields["modes"] == if "modes" in x.fields then Merge(x.fields["modes"], clean) else clean;
    }
    hide Without;
    hide Entries;
  }

  // --- section by section ------------------------------------------------------------------------

  // A covered section stays covered under the patch exactly when the patch loses nothing of it.
  lemma PatchedIff(x: Json, e: Fields, p: Fields, k: string)
    requires k in e && Absorbed(x, e[k])
    ensures k in MergeFields(e, p)
    ensures Absorbed(x, MergeFields(e, p)[k]) <==> (k in p ==> NoLoss(x, e[k], p[k]))
  {
    if k in p {
      StillAbsorbedIff(x, e[k], p[k]);
    }
  }

  lemma BaseIs(defaults: Fields, t: Tenant, k: string)
    ensures k in Base(defaults, t) <==> k in defaults || k in Legacy(t)
    ensures k in defaults && k !in Legacy(t) ==> Base(defaults, t)[k] == defaults[k]
    ensures k in defaults && k in Legacy(t) ==> Base(defaults, t)[k] == Merge(defaults[k], Legacy(t)[k])
    ensures k !in defaults && k in Legacy(t) ==> Base(defaults, t)[k] == Legacy(t)[k]
  {
  }

  // What one section of the patch must not lose.
  ghost predicate SectionKept(under: Fields, e: Fields, p: Fields, k: string) {
    k in under && k in e && k in p ==> NoLoss(under[k], e[k], p[k])
  }

  lemma ModesSection(defaults: Fields, t: Tenant, e: Fields, p: Fields, id: nat, hash: string)
    requires Absorbed(Obj(defaults), Obj(e)) && Absorbed(Obj(Base(defaults, t)), Obj(e))
    ensures var next := MergeFields(e, p);
      var base, under := Base(defaults, Synced(t, next, id, hash)), Underneath(defaults, t, MirrorsModes(e, p));
      "fulfillment" in base ==> ("fulfillment" in next &&
        (Absorbed(base["fulfillment"], next["fulfillment"]) <==> SectionKept(under, e, p, "fulfillment")))
  {
    var k := "fulfillment";
    var next := MergeFields(e, p);
    var u := Synced(t, next, id, hash);
    MirrorsModesIff(e, p);
    SyncedModes(t, next, id, hash);
    LegacyModes(t);
    BaseIs(defaults, t, k);
    BaseIs(defaults, u, k);
    if NextModes(next).Some? {
      ModesBack(if k in defaults then defaults[k] else Null, next[k]);
      if k in defaults {
        PatchedIff(defaults[k], e, p, k);
      }
    } else if k in Base(defaults, t) {
      PatchedIff(Base(defaults, t)[k], e, p, k);
    }
    hide Synced;
    hide Legacy;
    hide NextModes;
    hide MirrorsModes;
  }

  lemma ModulesSection(defaults: Fields, t: Tenant, e: Fields, p: Fields, id: nat, hash: string)
    requires Absorbed(Obj(defaults), Obj(e)) && Absorbed(Obj(Base(defaults, t)), Obj(e))
    ensures var next := MergeFields(e, p);
      var base := Base(defaults, Synced(t, next, id, hash));
      "modules" in base ==> ("modules" in next &&
        (Absorbed(base["modules"], next["modules"]) <==> SectionKept(defaults, e, p, "modules")))
  {
    var k := "modules";
    var next := MergeFields(e, p);
    var u := Synced(t, next, id, hash);
    SyncedModules(t, next, id, hash);
    BaseIs(defaults, t, k);
    BaseIs(defaults, u, k);
    if k in defaults {
      PatchedIff(defaults[k], e, p, k);
    }
    if MirrorsModules(next) {
      ModulesBack(if k in defaults then defaults[k] else Null, next[k]);
    } else if k in next {
      assert !next[k].Obj?;
    }
    hide Synced;
    hide Legacy;
  }

  /** One complete update, from any state whose defaults can all be read, reads back everything it returns exactly
      when the patch loses nothing of what lies underneath: no default (or legacy mode that stays) is hidden by a
      plain value now and brought under an object that lacks it by the patch. */
  lemma ReadsBackIff(defaults: Fields, s: Store, c: UpdateCall)
    requires NoMeta(defaults) && NoMeta(c.patch) && Coherent(defaults, s)
    ensures var e := Effective(defaults, s);
      AgreesOn(Next(defaults, s, c.patch), Effective(defaults, After(defaults, s, c)))
      <==> NoLoss(Obj(Underneath(defaults, s.tenant, MirrorsModes(e, c.patch))), Obj(e), Obj(c.patch))
  {
    var e, p := Effective(defaults, s), c.patch;
    var next, t := Next(defaults, s, p), After(defaults, s, c).tenant;
    var base, under := Base(defaults, t), Underneath(defaults, s.tenant, MirrorsModes(e, p));
    CoveredMeansReadBack(defaults, s, c);
    NextOf(defaults, s, p);
    EffectiveCovers(defaults, s);
    AfterIs(defaults, s, c);
    ModesSection(defaults, s.tenant, e, p, |s.snapshots|, c.hash);
    ModulesSection(defaults, s.tenant, e, p, |s.snapshots|, c.hash);
    SectionsAgree(defaults, s.tenant, e, p, t);
  }

  lemma SectionsAgree(defaults: Fields, before: Tenant, e: Fields, p: Fields, t: Tenant)
    requires Absorbed(Obj(defaults), Obj(e))
    requires var next, base, under :=
               MergeFields(e, p), Base(defaults, t), Underneath(defaults, before, MirrorsModes(e, p));
      && ("fulfillment" in base ==> ("fulfillment" in next &&
            (Absorbed(base["fulfillment"], next["fulfillment"]) <==> SectionKept(under, e, p, "fulfillment"))))
      && ("modules" in base ==> ("modules" in next &&
            (Absorbed(base["modules"], next["modules"]) <==> SectionKept(defaults, e, p, "modules"))))
      && ("fulfillment" in under ==> "fulfillment" in base)
    ensures Absorbed(Obj(Base(defaults, t)), Obj(MergeFields(e, p)))
      <==> NoLoss(Obj(Underneath(defaults, before, MirrorsModes(e, p))), Obj(e), Obj(p))
  {
    var next, base, under := MergeFields(e, p), Base(defaults, t), Underneath(defaults, before, MirrorsModes(e, p));
    LegacyKeys(t);
    BaseKeys(defaults, t);
    assert under.Keys <= defaults.Keys + {"fulfillment"};
    assert forall k | k in defaults && k != "fulfillment" :: k in under && under[k] == defaults[k];
    forall k | k in base
      ensures k in next && (Absorbed(base[k], next[k]) <==> SectionKept(under, e, p, k))
    {
      if k != "fulfillment" && k != "modules" {
        BaseIs(defaults, t, k);
        PatchedIff(defaults[k], e, p, k);
      }
    }
    EverySection(base, next, under, e, p);
  }

  lemma EverySection(base: Fields, next: Fields, under: Fields, e: Fields, p: Fields)
    requires under.Keys <= base.Keys
    requires forall k | k in base :: k in next && (Absorbed(base[k], next[k]) <==> SectionKept(under, e, p, k))
    ensures Absorbed(Obj(base), Obj(next)) <==> NoLoss(Obj(under), Obj(e), Obj(p))
  {
    assert Absorbed(Obj(base), Obj(next)) <==> forall k | k in base :: SectionKept(under, e, p, k);
    assert NoLoss(Obj(under), Obj(e), Obj(p)) <==> forall k | k in base :: SectionKept(under, e, p, k);
  }

  // --- over every run ------------------------------------------------------------------------------

  lemma NoLossPart(a: Json, n: Fields, keys: set<string>)
    ensures NoLoss(a, Obj(Without(n, keys)), Obj(n))
  {
    if a.Obj? {
      forall k | k in a.fields && k in n
        ensures NoLoss(a.fields[k], n[k], n[k])
      {
        NoLossSelf(a.fields[k], n[k]);
      }
    }
  }

  lemma EntriesNoLoss(a: Json, n: Json)
    ensures NoLoss(a, Obj(Without(Entries(n), {"_id"})), n)
  {
    if n.Obj? {
      NoLossPart(a, n.fields, {"_id"});
    }
  }

  lemma ModesNoLoss(a: Json, t: Tenant, next: Fields, id: nat, hash: string)
    requires "fulfillment" in next
    ensures var l := Legacy(Synced(t, next, id, hash));
      "fulfillment" in l ==> NoLoss(a, l["fulfillment"], next["fulfillment"])
  {
    var k := "fulfillment";
    SyncedModes(t, next, id, hash);
    var l := Legacy(Synced(t, next, id, hash));
    if k in l && a.Obj? && next[k].Obj? {
      assert l[k].Obj? && l[k].fields.Keys == {"modes"};
      if "modes" in a.fields && "modes" in next[k].fields {
        EntriesNoLoss(a.fields["modes"], next[k].fields["modes"]);
        assert NoLoss(a.fields["modes"], l[k].fields["modes"], next[k].fields["modes"]);
      }
    }
    hide Synced;
    hide Legacy;
    hide Without;
    hide Entries;
  }

  lemma ModulesNoLoss(a: Json, t: Tenant, next: Fields, id: nat, hash: string)
    requires "modules" in next
    ensures var l := Legacy(Synced(t, next, id, hash)); "modules" in l ==> NoLoss(a, l["modules"], next["modules"])
  {
    SyncedModules(t, next, id, hash);
    EntriesNoLoss(a, next["modules"]);
    hide Synced;
    hide Legacy;
    hide Without;
    hide Entries;
  }

  lemma CoherentAfter(defaults: Fields, s: Store, c: UpdateCall)
    requires NoMeta(defaults) && NoMeta(c.patch)
    ensures Coherent(defaults, After(defaults, s, c)) && Linked(After(defaults, s, c))
  {
    var next, t := Next(defaults, s, c.patch), After(defaults, s, c);
    var l, st := Legacy(t.tenant), Stored(t);
    AfterLinked(defaults, s, c);
    AfterIs(defaults, s, c);
    StoredAfter(defaults, s, c);
    NextHasNoMeta(defaults, s, c.patch);
    BaseKeys(defaults, s.tenant);
    LegacyKeys(t.tenant);
    LegacyNoLoss(defaults, s.tenant, next, |s.snapshots|, c.hash, st);
  }

  lemma LegacyNoLoss(defaults: Fields, before: Tenant, next: Fields, id: nat, hash: string, st: Fields)
    requires defaults.Keys <= next.Keys && AgreesOn(next, st)
    ensures NoLoss(Obj(defaults), Obj(Legacy(Synced(before, next, id, hash))), Obj(st))
  {
    var l := Legacy(Synced(before, next, id, hash));
    LegacyKeys(Synced(before, next, id, hash));
    forall k | k in defaults && k in l && k in st
      ensures NoLoss(defaults[k], l[k], st[k])
    {
      assert k in next;
      if k == "fulfillment" {
        ModesNoLoss(defaults[k], before, next, id, hash);
      } else {
        ModulesNoLoss(defaults[k], before, next, id, hash);
      }
    }
    hide Legacy;
    hide Synced;
  }

  lemma CoherentInterrupted(defaults: Fields, s: Store, c: UpdateCall)
    requires Coherent(defaults, s) && Linked(s) && c.writes <= 2
    ensures var t := Written(defaults, s, c.patch, c.changedBy, c.hash, c.writes); Coherent(defaults, t) && Linked(t)
  {
    if c.writes > 0 {
      ReadsBlind(s, Written(defaults, s, c.patch, c.changedBy, c.hash, c.writes));
    }
    hide Next;
    hide Snapshot;
  }

  ghost predicate PlainPatches(calls: seq<UpdateCall>) {
    forall c | c in calls :: NoMeta(c.patch)
  }

  lemma {:induction false} RunStaysCoherent(defaults: Fields, t: Tenant, calls: seq<UpdateCall>)
    requires NoMeta(defaults) && t.activeConfig.None? && PlainPatches(calls)
    ensures var s := RunUpdates(defaults, Store(t, []), calls); Coherent(defaults, s) && Linked(s)
  {
    if calls != [] {
      var n := |calls| - 1;
      assert calls[n] in calls && forall c | c in calls[..n] :: c in calls;
      RunStaysCoherent(defaults, t, calls[..n]);
      var before := RunUpdates(defaults, Store(t, []), calls[..n]);
      hide Coherent;
      hide Linked;
      if calls[n].writes <= 2 {
        CoherentInterrupted(defaults, before, calls[n]);
      } else {
        CoherentAfter(defaults, before, calls[n]);
        CompleteIs(defaults, before, calls[n]);
      }
    }
  }

  lemma CompleteIs(defaults: Fields, s: Store, c: UpdateCall)
    requires c.writes >= 3
    ensures Written(defaults, s, c.patch, c.changedBy, c.hash, c.writes) == After(defaults, s, c)
  {
  }

  /** After every run of updates of a new or legacy tenant, each stopped anywhere and with any patches free of
      metadata keys, the next complete update reads back what it returns exactly when its patch loses nothing. */
  lemma ReadsBackInRunsIff(defaults: Fields, t: Tenant, calls: seq<UpdateCall>, c: UpdateCall)
    requires NoMeta(defaults) && t.activeConfig.None? && PlainPatches(calls) && NoMeta(c.patch)
    ensures var s := RunUpdates(defaults, Store(t, []), calls);
      var e := Effective(defaults, s);
      AgreesOn(Next(defaults, s, c.patch), Effective(defaults, After(defaults, s, c)))
      <==> NoLoss(Obj(Underneath(defaults, s.tenant, MirrorsModes(e, c.patch))), Obj(e), Obj(c.patch))
  {
    RunStaysCoherent(defaults, t, calls);
    ReadsBackIff(defaults, RunUpdates(defaults, Store(t, []), calls), c);
  }

  // --- a run that fails -------------------------------------------------------------------------------

  lemma StoredLeaf(defaults: Fields, s: Store, c: UpdateCall, section: string)
    requires NoMeta(defaults) && NoMeta(c.patch) && section in c.patch && !c.patch[section].Obj?
    ensures section in Effective(defaults, After(defaults, s, c))
      && !Effective(defaults, After(defaults, s, c))[section].Obj?
  {
    var t := After(defaults, s, c);
    StoredAfter(defaults, s, c);
    NextOf(defaults, s, c.patch);
    EffectiveOf(defaults, t);
    LeafWins(Effective(defaults, s), c.patch, section);
    LeafWins(Base(defaults, t.tenant), Stored(t), section);
    hide Next;
    hide After;
    hide Stored;
    hide Effective;
  }

  lemma LeafWins(t: Fields, s: Fields, k: string)
    requires k in s && !s[k].Obj?
    ensures k in MergeFields(t, s) && MergeFields(t, s)[k] == s[k]
  {
    assert k in t ==> Merge(t[k], s[k]) == s[k];
  }

  /** A new tenant, two updates: the first puts a plain value in place of a default section, the second an object
      that lacks one of its keys. The second does not read back what it returned: the default key returns. */
  lemma ReplacedSectionReturns(defaults: Fields, t: Tenant, first: UpdateCall, second: UpdateCall, section: string,
                               key: string)
    requires NoMeta(defaults) && t.activeConfig.None? && NoMeta(first.patch) && NoMeta(second.patch)
    requires first.writes == 3 && section != "fulfillment"
    requires section in defaults && defaults[section].Obj? && key in defaults[section].fields
    requires section in first.patch && !first.patch[section].Obj?
    requires section in second.patch && second.patch[section].Obj? && key !in second.patch[section].fields
    ensures var s := RunUpdates(defaults, Store(t, []), [first]);
      !AgreesOn(Next(defaults, s, second.patch), Effective(defaults, After(defaults, s, second)))
  {
    var s := RunUpdates(defaults, Store(t, []), [first]);
    assert [first][..0] == [] && RunUpdates(defaults, Store(t, []), []) == Store(t, []);
    CompleteIs(defaults, Store(t, []), first);
    assert s == After(defaults, Store(t, []), first);
    StoredLeaf(defaults, Store(t, []), first, section);
    ReadsBackInRunsIff(defaults, t, [first], second);
    var e := Effective(defaults, s);
    Lost(Underneath(defaults, s.tenant, MirrorsModes(e, second.patch)), e, second.patch, section, key);
  }

  lemma Lost(under: Fields, e: Fields, p: Fields, section: string, key: string)
    requires section in under && under[section].Obj? && key in under[section].fields
    requires section in e && !e[section].Obj? && section in p && p[section].Obj? && key !in p[section].fields
    ensures !NoLoss(Obj(under), Obj(e), Obj(p))
  {
    var x, y, z := under[section], e[section], p[section];
    assert !Absorbed(x, z);
    assert !NoLoss(x, y, z);
    var a, b, c := Obj(under), Obj(e), Obj(p);
    assert a.fields[section] == x && b.fields[section] == y && c.fields[section] == z;
  }
}

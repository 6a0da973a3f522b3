/** What update returns is what getEffective reads afterwards: exactly when, and over every run. */
module ReadYourWrites {
  import opened Prelude
  import opened ConfigMerge
  import opened TenantConfig

  ghost predicate NoMeta(f: Fields) {
    forall k | k in f :: k !in META
  }

  /** The returned configuration is read back on every key it has. */
  ghost predicate AgreesOn(next: Fields, read: Fields) {
    forall k | k in next :: k in read && read[k] == next[k]
  }

  function Base(defaults: Fields, t: Tenant): Fields {
    MergeFields(defaults, Legacy(t))
  }

  lemma EffectiveOf(defaults: Fields, s: Store)
    ensures Effective(defaults, s) == MergeFields(Base(defaults, s.tenant), Stored(s))
  {
    var l, st := Legacy(s.tenant), Stored(s);
    assert [l, st][..1] == [l] && [l][..0] == [];
    assert MergeAll(defaults, []) == defaults;
    assert MergeAll(defaults, [l]) == MergeFields(defaults, l);
  }

  lemma NextOf(defaults: Fields, s: Store, patch: Fields)
    ensures Next(defaults, s, patch) == MergeFields(Effective(defaults, s), patch)
  {
    assert [patch][..0] == [];
    assert MergeAll(Effective(defaults, s), []) == Effective(defaults, s);
  }

  lemma LegacyKeys(t: Tenant)
    ensures "fulfillment" in Legacy(t) <==> t.orderModes.Some?
    ensures "modules" in Legacy(t) <==> t.modules.Some? && t.modules.value != map[]
    ensures Legacy(t).Keys <= {"fulfillment", "modules"}
  {
  }

  lemma BaseKeys(defaults: Fields, t: Tenant)
    ensures Base(defaults, t).Keys == defaults.Keys + Legacy(t).Keys
  {
  }

  lemma MergedKeys(a: Fields, b: Fields)
    ensures MergeFields(a, b).Keys == a.Keys + b.Keys
  {
  }

  lemma LegacyNoMeta(t: Tenant)
    ensures NoMeta(Legacy(t))
  {
    LegacyKeys(t);
    hide Legacy;
  }

  lemma StoredNoMeta(s: Store)
    ensures NoMeta(Stored(s))
  {
  }

  lemma NextHasNoMeta(defaults: Fields, s: Store, patch: Fields)
    requires NoMeta(defaults) && NoMeta(patch)
    ensures NoMeta(Next(defaults, s, patch))
    ensures Effective(defaults, s).Keys <= Next(defaults, s, patch).Keys
    ensures Base(defaults, s.tenant).Keys <= Next(defaults, s, patch).Keys
  {
    hide Next;
    hide Effective;
    hide Base;
    hide Legacy;
    hide Stored;
    hide MergeFields;
    EffectiveOf(defaults, s);
    NextOf(defaults, s, patch);
    LegacyNoMeta(s.tenant);
    StoredNoMeta(s);
    BaseKeys(defaults, s.tenant);
    MergedKeys(Base(defaults, s.tenant), Stored(s));
    MergedKeys(Effective(defaults, s), patch);
  }

  // The database after a complete update.
  function After(defaults: Fields, s: Store, c: UpdateCall): Store {
    Written(defaults, s, c.patch, c.changedBy, c.hash, 3)
  }

  lemma AfterIs(defaults: Fields, s: Store, c: UpdateCall)
    ensures var t, next := After(defaults, s, c), Next(defaults, s, c.patch);
      && t.tenant == Synced(s.tenant, next, |s.snapshots|, c.hash)
      && Stored(t) == Without(Snapshot(s.tenant, next, c.changedBy, c.hash), META)
  {
    hide Next;
    hide Snapshot;
  }

  const SCHEMA := {"modules", "payment_methods", "checkout_fields", "business_types", "template_id", "theme"}

  lemma SnapshotKeeps(t: Tenant, next: Fields, changedBy: Json, hash: string)
    requires NoMeta(next)
    ensures var read := Without(Snapshot(t, next, changedBy, hash), META);
      AgreesOn(next, read) && read.Keys <= next.Keys + SCHEMA
  {
    assert Without(next, {"_id"}) == next;
  }

  lemma StoredAfter(defaults: Fields, s: Store, c: UpdateCall)
    requires NoMeta(defaults) && NoMeta(c.patch)
    ensures var next, read := Next(defaults, s, c.patch), Stored(After(defaults, s, c));
      AgreesOn(next, read) && read.Keys <= next.Keys + SCHEMA
  {
    hide Snapshot;
    NextHasNoMeta(defaults, s, c.patch);
    AfterIs(defaults, s, c);
    SnapshotKeeps(s.tenant, Next(defaults, s, c.patch), c.changedBy, c.hash);
  }

  lemma BaseAt(defaults: Fields, t: Tenant, section: string)
    requires section in defaults && section != "fulfillment" && section != "modules"
    ensures section in Base(defaults, t) && Base(defaults, t)[section] == defaults[section]
  {
    LegacyKeys(t);
    assert section !in Legacy(t);
  }

  lemma BaseAfterCovered(defaults: Fields, s: Store, c: UpdateCall)
    requires NoMeta(defaults) && NoMeta(c.patch)
    ensures Base(defaults, After(defaults, s, c).tenant).Keys <= Next(defaults, s, c.patch).Keys
  {
    var t := After(defaults, s, c).tenant;
    NextHasNoMeta(defaults, s, c.patch);
    AfterIs(defaults, s, c);
    BaseKeys(defaults, t);
    BaseKeys(defaults, s.tenant);
    LegacyKeys(t);
    LegacyKeys(s.tenant);
    hide Next;
    hide Base;
    hide Legacy;
    hide After;
  }

  // Reading back in terms of the database after the call: getEffective merges the defaults and the legacy
  // fields under the new snapshot.
  lemma CoveredMeansReadBack(defaults: Fields, s: Store, c: UpdateCall)
    requires NoMeta(defaults) && NoMeta(c.patch)
    ensures var t, next := After(defaults, s, c), Next(defaults, s, c.patch);
      AgreesOn(next, Effective(defaults, t)) <==> Absorbed(Obj(Base(defaults, t.tenant)), Obj(next))
  {
    var t, next := After(defaults, s, c), Next(defaults, s, c.patch);
    var base := Base(defaults, t.tenant);
    EffectiveOf(defaults, t);
    StoredAfter(defaults, s, c);
    BaseAfterCovered(defaults, s, c);
    var read := Effective(defaults, t);
    forall k | k in next
      ensures k in read && (read[k] == next[k] <==> (k in base ==> Absorbed(base[k], next[k])))
    {
      if k in base {
        AbsorbedIff(base[k], next[k]);
      }
    }
    assert Absorbed(Obj(base), Obj(next)) <==> forall k | k in base :: Absorbed(base[k], next[k]);
  }

  // --- over every run -------------------------------------------------------------------

  /** The sections of the defaults that update mirrors into the tenant document. */
  ghost predicate HasSections(defaults: Fields) {
    && NoMeta(defaults)
    && "fulfillment" in defaults && defaults["fulfillment"].Obj?
    && "modes" in defaults["fulfillment"].fields && defaults["fulfillment"].fields["modes"].Obj?
    && "modules" in defaults && defaults["modules"].Obj?
  }

  // Legacy fields and stored snapshot never put a leaf where the defaults have a section.
  ghost predicate Sound(defaults: Fields, s: Store) {
    && Linked(s)
    && KeepsSections(Obj(defaults), Obj(Legacy(s.tenant)))
    && KeepsSections(Obj(defaults), Obj(Stored(s)))
  }

  ghost predicate Allowed(defaults: Fields, patch: Fields) {
    NoMeta(patch) && KeepsSections(Obj(defaults), Obj(patch))
  }

  lemma NextKeeps(defaults: Fields, s: Store, patch: Fields)
    requires Sound(defaults, s) && Allowed(defaults, patch)
    ensures KeepsSections(Obj(defaults), Obj(Next(defaults, s, patch)))
    ensures Absorbed(Obj(defaults), Obj(Next(defaults, s, patch)))
  {
    var d, l, st, p := Obj(defaults), Obj(Legacy(s.tenant)), Obj(Stored(s)), Obj(patch);
    EffectiveOf(defaults, s);
    NextOf(defaults, s, patch);
    KeepsSelf(d);
    KeepsMerge(d, d, l);
    KeepsMerge(d, Merge(d, l), st);
    KeepsMerge(d, Merge(Merge(d, l), st), p);
  }

  lemma WithoutKeeps(d: Json, f: Fields, keys: set<string>)
    requires KeepsSections(d, Obj(f))
    ensures KeepsSections(d, Obj(Without(f, keys)))
  {
  }

  lemma WithoutAbsorbed(f: Fields, keys: set<string>)
    ensures Absorbed(Obj(Without(f, keys)), Obj(f))
  {
    forall k | k in Without(f, keys)
      ensures Absorbed(f[k], f[k])
    {
      KeepsSelf(f[k]);
    }
  }

  // A result that keeps the sections of the defaults, seen where update mirrors it.
  lemma MirroredSections(defaults: Fields, next: Fields)
    requires HasSections(defaults) && KeepsSections(Obj(defaults), Obj(next)) && Absorbed(Obj(defaults), Obj(next))
    ensures "fulfillment" in next && next["fulfillment"].Obj? && "modes" in next["fulfillment"].fields
    ensures next["fulfillment"].fields["modes"].Obj? && "modules" in next && next["modules"].Obj?
    ensures KeepsSections(defaults["fulfillment"].fields["modes"], next["fulfillment"].fields["modes"])
    ensures KeepsSections(defaults["modules"], next["modules"])
  {
    assert KeepsSections(defaults["fulfillment"], next["fulfillment"]);
    assert Absorbed(defaults["fulfillment"], next["fulfillment"]);
  }

  lemma MirroredLegacy(t: Tenant, next: Fields, id: nat, hash: string)
    requires "fulfillment" in next && next["fulfillment"].Obj? && "modes" in next["fulfillment"].fields
    requires next["fulfillment"].fields["modes"].Obj? && "modules" in next && next["modules"].Obj?
    ensures var l := Legacy(Synced(t, next, id, hash));
      && "fulfillment" in l
      && l["fulfillment"] == Obj(map["modes" := Obj(Without(next["fulfillment"].fields["modes"].fields, {"_id"}))])
      && ("modules" in l ==> l["modules"] == Obj(Without(next["modules"].fields, {"_id"})))
      && l.Keys <= {"fulfillment", "modules"}
  {
    var cleanModes := Without(next["fulfillment"].fields["modes"].fields, {"_id"});
    var cleanMods := Without(next["modules"].fields, {"_id"});
    assert Without(cleanModes, {"_id"}) == cleanModes && Without(cleanMods, {"_id"}) == cleanMods;
  }

  // The mirrored legacy fields are part of the result, and keep the sections it keeps.
  lemma MirroredFields(defaults: Fields, next: Fields, l: Fields)
    requires HasSections(defaults) && KeepsSections(Obj(defaults), Obj(next)) && Absorbed(Obj(defaults), Obj(next))
    requires "fulfillment" in next && next["fulfillment"].Obj? && "modes" in next["fulfillment"].fields
    requires next["fulfillment"].fields["modes"].Obj? && "modules" in next && next["modules"].Obj?
    requires "fulfillment" in l
      && l["fulfillment"] == Obj(map["modes" := Obj(Without(next["fulfillment"].fields["modes"].fields, {"_id"}))])
    requires "modules" in l ==> l["modules"] == Obj(Without(next["modules"].fields, {"_id"}))
    requires l.Keys <= {"fulfillment", "modules"}
    ensures Absorbed(Obj(l), Obj(next)) && KeepsSections(Obj(defaults), Obj(l))
  {
    var modes := next["fulfillment"].fields["modes"];
    MirroredSections(defaults, next);
    WithoutAbsorbed(modes.fields, {"_id"});
    WithoutKeeps(defaults["fulfillment"].fields["modes"], modes.fields, {"_id"});
    WithoutAbsorbed(next["modules"].fields, {"_id"});
    WithoutKeeps(defaults["modules"], next["modules"].fields, {"_id"});
    hide Without;
    assert Absorbed(l["fulfillment"], next["fulfillment"]);
    assert KeepsSections(defaults["fulfillment"], l["fulfillment"]);
  }

  // After a complete, allowed update the legacy fields agree with the result it returned.
  lemma LegacyAfter(defaults: Fields, s: Store, c: UpdateCall)
    requires HasSections(defaults) && Sound(defaults, s) && Allowed(defaults, c.patch)
    ensures var next, l := Next(defaults, s, c.patch), Legacy(After(defaults, s, c).tenant);
      && Absorbed(Obj(defaults), Obj(next)) && KeepsSections(Obj(defaults), Obj(next))
      && Absorbed(Obj(l), Obj(next)) && KeepsSections(Obj(defaults), Obj(l))
  {
    hide Next;
    hide After;
    hide Legacy;
    hide Synced;
    hide Absorbed;
    hide KeepsSections;
    hide Without;
    var next := Next(defaults, s, c.patch);
    var t := After(defaults, s, c);
    NextKeeps(defaults, s, c.patch);
    MirroredSections(defaults, next);
    AfterIs(defaults, s, c);
    MirroredLegacy(s.tenant, next, |s.snapshots|, c.hash);
    MirroredFields(defaults, next, Legacy(t.tenant));
  }

  lemma SoundAfter(defaults: Fields, s: Store, c: UpdateCall)
    requires HasSections(defaults) && Sound(defaults, s) && Allowed(defaults, c.patch)
    ensures Sound(defaults, After(defaults, s, c))
  {
    var next := Next(defaults, s, c.patch);
    var t := After(defaults, s, c);
    LegacyAfter(defaults, s, c);
    StoredAfter(defaults, s, c);
    AfterLinked(defaults, s, c);
    hide Next;
    hide After;
    hide Legacy;
    hide Stored;
    hide Absorbed;
    forall k | k in defaults && k in Stored(t)
      ensures KeepsSections(defaults[k], Stored(t)[k])
    {
      assert k in next;
    }
  }

  lemma AfterLinked(defaults: Fields, s: Store, c: UpdateCall)
    ensures Linked(After(defaults, s, c))
  {
    hide Next;
    hide Snapshot;
  }

  /** One complete, allowed update reads back what it returned. */
  lemma UpdateReadsBack(defaults: Fields, s: Store, c: UpdateCall)
    requires HasSections(defaults) && Sound(defaults, s) && Allowed(defaults, c.patch)
    ensures AgreesOn(Next(defaults, s, c.patch), Effective(defaults, After(defaults, s, c)))
  {
    hide Next;
    hide After;
    hide Legacy;
    hide Effective;
    hide Absorbed;
    hide KeepsSections;
    var t := After(defaults, s, c).tenant;
    LegacyAfter(defaults, s, c);
    AbsorbedMerge(Obj(defaults), Obj(Legacy(t)), Obj(Next(defaults, s, c.patch)));
    CoveredMeansReadBack(defaults, s, c);
  }

  lemma InterruptedStaysSound(defaults: Fields, s: Store, c: UpdateCall)
    requires Sound(defaults, s) && c.writes <= 2
    ensures Sound(defaults, Written(defaults, s, c.patch, c.changedBy, c.hash, c.writes))
  {
    if c.writes > 0 {
      ReadsBlind(s, Written(defaults, s, c.patch, c.changedBy, c.hash, c.writes));
    }
  }

  lemma {:induction false} RunStaysSound(defaults: Fields, s: Store, calls: seq<UpdateCall>)
    requires HasSections(defaults) && Sound(defaults, s)
    requires forall c | c in calls :: Allowed(defaults, c.patch)
    ensures Sound(defaults, RunUpdates(defaults, s, calls))
  {
    if calls != [] {
      var n := |calls| - 1;
      assert calls[n] in calls && forall c | c in calls[..n] :: c in calls;
      RunStaysSound(defaults, s, calls[..n]);
      var before := RunUpdates(defaults, s, calls[..n]);
      hide Sound;
      hide HasSections;
      hide Allowed;
      hide Next;
      hide Snapshot;
      hide Synced;
      if calls[n].writes <= 2 {
        InterruptedStaysSound(defaults, before, calls[n]);
      } else {
        SoundAfter(defaults, before, calls[n]);
      }
    }
  }

  /** After any sequence of allowed patches, interrupted or not, the next complete update reads back
      everything it returns: through the defaults, the mirrored legacy fields and the stored snapshot. */
  lemma ReadYourWrites(defaults: Fields, s: Store, calls: seq<UpdateCall>, c: UpdateCall)
    requires HasSections(defaults) && Sound(defaults, s)
    requires (forall x | x in calls :: Allowed(defaults, x.patch)) && Allowed(defaults, c.patch) && c.writes == 3
    ensures var before := RunUpdates(defaults, s, calls);
      AgreesOn(Next(defaults, before, c.patch), Effective(defaults, RunUpdates(defaults, s, calls + [c])))
  {
    RunStaysSound(defaults, s, calls);
    UpdateReadsBack(defaults, RunUpdates(defaults, s, calls), c);
    assert (calls + [c])[..|calls|] == calls;
  }

  // --- the shipped defaults ----------------------------------------------------------------

  function CustomerField(enabled: bool, required: bool, caption: string): Json {
    Obj(map["enabled" := Bool(enabled), "required" := Bool(required), "label" := Str(caption)])
  }

  const DEFAULT_CATALOG: Json := Obj(map[
    "itemNounSingular" := Str("producto"), "itemNounPlural" := Str("productos"),
    "enableCategories" := Bool(true), "enableImages" := Bool(true), "enableVariants" := Bool(false),
    "enableModifiers" := Bool(false), "enableInventory" := Bool(false), "enableDuration" := Bool(false),
    "enablePrepTime" := Bool(false)])

  const DEFAULT_FULFILLMENT: Json :=
    Obj(map["modes" := Obj(map["dine_in" := Bool(true), "takeaway" := Bool(true), "delivery" := Bool(false)])])

  const DEFAULT_CUSTOMER_FIELDS: Json := Obj(map[
    "name" := CustomerField(true, true, "Nombre"), "phone" := CustomerField(true, false, "Tel\U{00E9}fono"),
    "email" := CustomerField(false, false, "Email"),
    "address" := Obj(CustomerField(false, false, "Direcci\U{00F3}n").fields["askMap" := Bool(false)]),
    "dni" := CustomerField(false, false, "C\U{00E9}dula"), "notes" := CustomerField(true, false, "Notas"),
    "custom" := Arr([])])

  const DEFAULT_PAYMENTS: Json := Obj(map[
    "providers" := Obj(map[
      "cash" := Obj(map["enabled" := Bool(true), "label" := Str("Efectivo")]),
      "bankTransfer" := Obj(map["enabled" := Bool(false), "label" := Str("Transferencia"), "accounts" := Arr([])]),
      "pagomovil" := Obj(map["enabled" := Bool(true), "label" := Str("PagoM\U{00F3}vil"),
                         "requiresReceiptUpload" := Bool(true)]),
      "stripe" := Obj(map["enabled" := Bool(false)]), "mercadopago" := Obj(map["enabled" := Bool(false)]),
      "paypal" := Obj(map["enabled" := Bool(false)]), "custom" := Arr([])]),
    "autoApprove" := Obj(map["cash" := Bool(false), "bankTransfer" := Bool(false), "pagomovil" := Bool(false)])])

  const DEFAULT_MODULES: Json := Obj(map[
    "kitchen_kds" := Bool(true), "booking" := Bool(false), "product_variants" := Bool(false),
    "product_modifiers" := Bool(false), "inventory_tracking" := Bool(false), "delivery_zones" := Bool(false),
    "scheduled_orders" := Bool(false), "labor_pricing" := Bool(false), "quotes_estimates" := Bool(false),
    "staff_management" := Bool(false), "loyalty_program" := Bool(false), "coupons_discounts" := Bool(false),
    "payment_links" := Bool(false)])

  const DEFAULT_CONFIG: Fields := map[
    "branding" := Obj(map["showPoweredBy" := Bool(true)]),
    "catalog" := DEFAULT_CATALOG,
    "fulfillment" := DEFAULT_FULFILLMENT,
    "customerFields" := DEFAULT_CUSTOMER_FIELDS,
    "payments" := DEFAULT_PAYMENTS,
    "modules" := DEFAULT_MODULES,
    "labels" := Obj(map[])]

  const SECTIONS: set<string> := {"branding", "catalog", "fulfillment", "customerFields", "payments", "modules",
                                  "labels"}

  lemma SectionShape(k: string)
    requires k in SECTIONS
    ensures |k| in {6, 7, 8, 11, 14}
    ensures (|k| == 7 ==> k[0] != 'v') && (|k| == 11 ==> k[0] == 'f')
  {
  }

  lemma MetaShape(k: string)
    requires k in META
    ensures |k| in {3, 5, 7, 9, 10, 11}
    ensures (|k| == 7 ==> k[0] == 'v') && (|k| == 11 ==> k[0] == 'c')
  {
  }

  // Section names and metadata keys differ in length or in their first letter.
  lemma SectionsPlain(k: string)
    requires k in SECTIONS
    ensures k !in META
  {
    SectionShape(k);
    if k in META {
      MetaShape(k);
    }
    hide SECTIONS;
    hide META;
  }

  lemma DefaultKeys()
    ensures DEFAULT_CONFIG.Keys == SECTIONS
  {
    hide DEFAULT_CATALOG;
    hide DEFAULT_FULFILLMENT;
    hide DEFAULT_CUSTOMER_FIELDS;
    hide DEFAULT_PAYMENTS;
    hide DEFAULT_MODULES;
  }

  lemma DefaultSections()
    ensures DEFAULT_CONFIG.Keys == SECTIONS
    ensures "fulfillment" in DEFAULT_CONFIG && DEFAULT_CONFIG["fulfillment"] == DEFAULT_FULFILLMENT
    ensures "modules" in DEFAULT_CONFIG && DEFAULT_CONFIG["modules"] == DEFAULT_MODULES
  {
    DefaultKeys();
    hide DEFAULT_CATALOG;
    hide DEFAULT_FULFILLMENT;
    hide DEFAULT_CUSTOMER_FIELDS;
    hide DEFAULT_PAYMENTS;
    hide DEFAULT_MODULES;
  }

  lemma DefaultModes()
    ensures DEFAULT_FULFILLMENT.Obj? && "modes" in DEFAULT_FULFILLMENT.fields
      && DEFAULT_FULFILLMENT.fields["modes"].Obj?
    ensures DEFAULT_MODULES.Obj?
  {
  }

  lemma ShippedDefaultsQualify()
    ensures HasSections(DEFAULT_CONFIG)
  {
    DefaultSections();
    DefaultModes();
    hide DEFAULT_CONFIG;
    hide DEFAULT_FULFILLMENT;
    hide DEFAULT_MODULES;
    hide META;
    forall k | k in DEFAULT_CONFIG
      ensures k !in META
    {
      SectionsPlain(k);
    }
  }

  // A section of plain values: anything that is a section itself keeps it.
  ghost predicate Plain(d: Json) {
    d.Obj? && forall k | k in d.fields :: !d.fields[k].Obj?
  }

  lemma PlainKept(d: Json, l: Json)
    requires Plain(d) && l.Obj?
    ensures KeepsSections(d, l)
  {
  }

  lemma ShippedPlain()
    ensures DEFAULT_FULFILLMENT.Obj? && DEFAULT_FULFILLMENT.fields.Keys == {"modes"}
    ensures Plain(DEFAULT_FULFILLMENT.fields["modes"]) && Plain(DEFAULT_MODULES)
  {
  }

  lemma LegacyShape(t: Tenant)
    ensures Legacy(t).Keys <= {"fulfillment", "modules"}
    ensures forall k | k in Legacy(t) :: Legacy(t)[k].Obj?
    ensures "fulfillment" in Legacy(t) ==> forall k | k in Legacy(t)["fulfillment"].fields ::
      Legacy(t)["fulfillment"].fields[k].Obj?
  {
  }

  lemma MirroredPlain(d: Fields, l: Fields)
    requires "fulfillment" in d && d["fulfillment"].Obj? && d["fulfillment"].fields.Keys == {"modes"}
    requires Plain(d["fulfillment"].fields["modes"]) && "modules" in d && Plain(d["modules"])
    requires l.Keys <= {"fulfillment", "modules"} && forall k | k in l :: l[k].Obj?
    requires "fulfillment" in l ==> forall k | k in l["fulfillment"].fields :: l["fulfillment"].fields[k].Obj?
    ensures KeepsSections(Obj(d), Obj(l))
  {
    hide Plain;
    if "modules" in l {
      PlainKept(d["modules"], l["modules"]);
    }
    if "fulfillment" in l && "modes" in l["fulfillment"].fields {
      PlainKept(d["fulfillment"].fields["modes"], l["fulfillment"].fields["modes"]);
    }
    assert "fulfillment" in l ==> KeepsSections(d["fulfillment"], l["fulfillment"]);
  }

  lemma SoundFirst(defaults: Fields, t: Tenant)
    requires t.activeConfig.None? && KeepsSections(Obj(defaults), Obj(Legacy(t)))
    ensures Sound(defaults, Store(t, []))
  {
    hide Legacy;
    assert Stored(Store(t, [])) == map[];
  }

  // The sections that update mirrors hold plain values only, so no legacy document can clash with them.
  lemma ShippedSound(t: Tenant)
    requires t.activeConfig.None?
    ensures Sound(DEFAULT_CONFIG, Store(t, []))
  {
    DefaultSections();
    ShippedPlain();
    LegacyShape(t);
    hide *;
    MirroredPlain(DEFAULT_CONFIG, Legacy(t));
    SoundFirst(DEFAULT_CONFIG, t);
  }

  /** For the shipped defaults and every tenant without an active configuration, whatever its legacy documents:
      after any sequence of allowed patches the next complete update reads back everything it returns. */
  lemma ReadYourWritesShipped(t: Tenant, calls: seq<UpdateCall>, c: UpdateCall)
    requires t.activeConfig.None?
    requires (forall x | x in calls :: Allowed(DEFAULT_CONFIG, x.patch)) && Allowed(DEFAULT_CONFIG, c.patch)
      && c.writes == 3
    ensures var before := RunUpdates(DEFAULT_CONFIG, Store(t, []), calls);
      AgreesOn(Next(DEFAULT_CONFIG, before, c.patch),
               Effective(DEFAULT_CONFIG, RunUpdates(DEFAULT_CONFIG, Store(t, []), calls + [c])))
  {
    ShippedDefaultsQualify();
    ShippedSound(t);
    hide Sound;
    hide HasSections;
    hide Allowed;
    ReadYourWrites(DEFAULT_CONFIG, Store(t, []), calls, c);
  }
}

/** The versioned tenant configuration: effective view, update in three writes, crashes in between. */
module TenantConfig {
  import opened Prelude
  import opened ConfigMerge

  // --- stored documents ---------------------------------------------------------------

  // The tenant document, as far as the configuration reads and writes it.
  datatype Tenant = Tenant(
    activeConfig: Option<nat>, version: nat, hash: string,
    orderModes: Option<Fields>, modules: Option<Fields>, bookingSettings: Option<Fields>,
    businessTypes: Option<Json>, templateId: Option<Json>, theme: Option<Json>)

  // The snapshots of this tenant; the position is the _id.
  datatype Store = Store(tenant: Tenant, snapshots: seq<Fields>)

  const META := {"_id", "__v", "tenant_id", "version", "is_active", "label", "changed_by", "config_hash", "createdAt",
                 "updatedAt"}

  function Without(f: Fields, keys: set<string>): Fields {
    map k | k in f && k !in keys :: f[k]
  }

  // --- JavaScript's view of a value ------------------------------------------------------

  predicate Truthy(j: Json) {
    match j
    case Null => false
    case Bool(b) => b
    case Num(n) => n != 0.0
    case Str(s) => s != ""
    case Arr(_) => true
    case Obj(_) => true
  }

  function IndexKey(i: nat): string {
    (if i < 10 then "" else IndexKey(i / 10)) + ["0123456789"[i % 10]]
  }

  // Object.fromEntries(Object.entries(j)): the own enumerable properties.
  function Entries(j: Json): Fields {
    match j
    case Obj(fields) => fields
    case Arr(items) => Indexed(seq(|items|, i requires 0 <= i < |items| => items[i]))
    case Str(s) => Indexed(seq(|s|, i requires 0 <= i < |s| => Str([s[i]])))
    case _ => map[]
  }

  function Indexed(items: seq<Json>): Fields {
    if items == [] then map[]
    else Indexed(items[..|items| - 1])[IndexKey(|items| - 1) := items[|items| - 1]]
  }

  // --- getEffective ------------------------------------------------------------------------

  function Legacy(t: Tenant): Fields {
    (if t.orderModes.Some? then map["fulfillment" := Obj(map["modes" := Obj(Without(t.orderModes.value, {"_id"}))])]
      else map[]) +
    (if t.modules.Some? && t.modules.value != map[] then map["modules" := Obj(Without(t.modules.value, {"_id"}))]
      else map[])
  }

  function Stored(s: Store): Fields {
    if s.tenant.activeConfig.Some? && s.tenant.activeConfig.value < |s.snapshots|
    then Without(s.snapshots[s.tenant.activeConfig.value], META) else map[]
  }

  function Effective(defaults: Fields, s: Store): Fields {
    MergeAll(defaults, [Legacy(s.tenant), Stored(s)])
  }

  // --- update ----------------------------------------------------------------------------------

  predicate Active(f: Fields) {
    "is_active" in f && f["is_active"] == Bool(true)
  }

  function Deactivated(f: Fields): Fields {
    if Active(f) then f["is_active" := Bool(false)] else f
  }

  function SwitchedOff(snapshots: seq<Fields>): seq<Fields> {
    seq(|snapshots|, i requires 0 <= i < |snapshots| => Deactivated(snapshots[i]))
  }

  function Field(f: Fields, k: string): Option<Json> {
    if k in f then Some(f[k]) else None
  }

  function Bookkeeping(t: Tenant, changedBy: Json, hash: string): Fields {
    map["tenant_id" := Str("tenant"), "version" := Num((t.version + 1) as real), "is_active" := Bool(true),
        "label" := Null, "changed_by" := changedBy, "config_hash" := Str(hash)]
  }

  function SchemaFields(t: Tenant, next: Fields): Fields {
    map["modules" := Or(Field(next, "modules"), Obj(map[])), "payment_methods" := Obj(map[]),
        "checkout_fields" := Obj(map[]), "business_types" := Or(t.businessTypes, Arr([])),
        "template_id" := Or(t.templateId, Null), "theme" := Or(t.theme, Obj(map[]))]
  }

  // The document handed to create(): bookkeeping, schema fields, then the free fields of the result.
  function Snapshot(t: Tenant, next: Fields, changedBy: Json, hash: string): Fields {
    Bookkeeping(t, changedBy, hash) + SchemaFields(t, next) + Without(next, {"_id"})
  }

  // next.fulfillment.modes, when both are objects in JavaScript's sense.
  function NextModes(next: Fields): Option<Json> {
    if "fulfillment" in next && next["fulfillment"].Obj? && "modes" in next["fulfillment"].fields
       && (next["fulfillment"].fields["modes"].Obj? || next["fulfillment"].fields["modes"].Arr?)
    then Some(next["fulfillment"].fields["modes"]) else None
  }

  // The tenant document with its references moved and its legacy fields synchronised.
  function Synced(t: Tenant, next: Fields, id: nat, hash: string): Tenant {
    t.(activeConfig := Some(id), version := t.version + 1, hash := hash,
       orderModes := if NextModes(next).Some? then Some(Without(Entries(NextModes(next).value), {"_id"}))
         else t.orderModes,
       modules := if "modules" in next && Truthy(next["modules"]) then Some(Without(Entries(next["modules"]), {"_id"}))
         else t.modules,
       bookingSettings :=
         if "booking_settings" in next && (next["booking_settings"].Obj? || next["booking_settings"].Arr?)
         then Some(Without(Entries(next["booking_settings"]), {"_id"})) else t.bookingSettings)
  }

  function Next(defaults: Fields, s: Store, patch: Fields): Fields {
    MergeAll(Effective(defaults, s), [patch])
  }

  /** The database after the first n of the three writes of one update: deactivate, create, save. */
  function Written(defaults: Fields, s: Store, patch: Fields, changedBy: Json, hash: string, n: nat): Store {
    var next := Next(defaults, s, patch);
    var off := SwitchedOff(s.snapshots);
    if n == 0 then s
    else if n == 1 then Store(s.tenant, off)
    else
      var all := off + [Snapshot(s.tenant, next, changedBy, hash)];
      if n == 2 then Store(s.tenant, all) else Store(Synced(s.tenant, next, |off|, hash), all)
  }

  datatype UpdateCall = UpdateCall(patch: Fields, changedBy: Json, hash: string, writes: nat)

  function RunUpdates(defaults: Fields, s: Store, calls: seq<UpdateCall>): Store {
    if calls == [] then s
    else
      var c := calls[|calls| - 1];
      Written(defaults, RunUpdates(defaults, s, calls[..|calls| - 1]), c.patch, c.changedBy, c.hash, c.writes)
  }

  // --- the service ---------------------------------------------------------------------------

  class TenantConfigService {
    var tenant: Tenant
    var snapshots: seq<Fields>
    const defaults: Fields

    constructor (tenant: Tenant, defaults: Fields)
      ensures Db() == Store(tenant, []) && this.defaults == defaults
    {
      this.tenant, this.snapshots, this.defaults := tenant, [], defaults;
    }

    ghost function Db(): Store
      reads this
    {
      Store(tenant, snapshots)
    }

    method GetEffective() returns (config: Fields)
      ensures config == Effective(defaults, Db())
    {
      var storedConfig: Fields := map[];
      if tenant.activeConfig.Some? && tenant.activeConfig.value < |snapshots| {
        storedConfig := Without(snapshots[tenant.activeConfig.value], META);
      }
      var legacyOverrides: Fields := map[];
      if tenant.orderModes.Some? {
        legacyOverrides :=
          legacyOverrides["fulfillment" := Obj(map["modes" := Obj(Without(tenant.orderModes.value, {"_id"}))])];
      }
      if tenant.modules.Some? && tenant.modules.value != map[] {
        legacyOverrides := legacyOverrides["modules" := Obj(Without(tenant.modules.value, {"_id"}))];
      }
      assert legacyOverrides == Legacy(tenant);
      config := DeepMerge(defaults, [legacyOverrides, storedConfig]);
    }

    // updateMany: every active snapshot of the tenant is switched off.
    method Deactivate()
      modifies `snapshots
      ensures Db() == Written(defaults, old(Db()), map[], Null, "", 1)
    {
      for i := 0 to |snapshots|
        invariant |snapshots| == |old(snapshots)|
        invariant forall j | 0 <= j < i :: snapshots[j] == Deactivated(old(snapshots)[j])
        invariant forall j | i <= j < |snapshots| :: snapshots[j] == old(snapshots)[j]
      {
        if Active(snapshots[i]) {
          snapshots := snapshots[i := snapshots[i]["is_active" := Bool(false)]];
        }
      }
      assert snapshots == SwitchedOff(old(snapshots));
    }

    /** update, stopped after any prefix of its writes. */
    method Update(patch: Fields, changedBy: Json, hash: string, writes: nat) returns (next: Fields)
      modifies this
      ensures next == Next(defaults, old(Db()), patch)
      ensures Db() == Written(defaults, old(Db()), patch, changedBy, hash, writes)
    {
      var current := GetEffective();
      next := DeepMerge(current, [patch]);
      if writes == 0 {
        return;
      }
      Deactivate();
      if writes == 1 {
        return;
      }
      var id := |snapshots|;
      snapshots := snapshots + [Snapshot(tenant, next, changedBy, hash)];
      if writes == 2 {
        return;
      }
      tenant := Synced(tenant, next, id, hash);
    }
  }

  // --- all or nothing ---------------------------------------------------------------------------

  lemma ReadsBlind(s: Store, t: Store)
    requires t.tenant == s.tenant && |s.snapshots| <= |t.snapshots|
    requires s.tenant.activeConfig.Some? ==> s.tenant.activeConfig.value < |s.snapshots|
    requires forall i | 0 <= i < |s.snapshots| :: t.snapshots[i] == Deactivated(s.snapshots[i])
    ensures Stored(t) == Stored(s)
  {
  }

  ghost predicate Linked(s: Store) {
    s.tenant.activeConfig.Some? ==> s.tenant.activeConfig.value < |s.snapshots|
  }

  /** Stopping an update before its last write leaves what readers see as it was. */
  lemma InvisibleUntilSaved(defaults: Fields, s: Store, c: UpdateCall)
    requires Linked(s) && c.writes <= 2
    ensures var t := Written(defaults, s, c.patch, c.changedBy, c.hash, c.writes);
      Effective(defaults, t) == Effective(defaults, s) && t.tenant == s.tenant
  {
    if c.writes > 0 {
      ReadsBlind(s, Written(defaults, s, c.patch, c.changedBy, c.hash, c.writes));
    }
  }

  ghost predicate OneActive(s: Store) {
    forall i, j | 0 <= i < j < |s.snapshots| :: !(Active(s.snapshots[i]) && Active(s.snapshots[j]))
  }

  /** At most one snapshot is active after any sequence of updates, each stopped anywhere; in particular
      the unique index never refuses a create, and strays of an interrupted update are cleaned by the next. */
  lemma {:induction false} AtMostOneActive(defaults: Fields, s: Store, calls: seq<UpdateCall>)
    requires Linked(s) && OneActive(s)
    ensures var t := RunUpdates(defaults, s, calls); Linked(t) && OneActive(t)
  {
    if calls != [] {
      AtMostOneActive(defaults, s, calls[..|calls| - 1]);
      var before := RunUpdates(defaults, s, calls[..|calls| - 1]);
      var c := calls[|calls| - 1];
      NoneActiveBeforeCreate(defaults, before, c);
    }
  }

  lemma NoneActiveBeforeCreate(defaults: Fields, s: Store, c: UpdateCall)
    ensures var t := Written(defaults, s, c.patch, c.changedBy, c.hash, 1); forall f | f in t.snapshots :: !Active(f)
    ensures c.writes >= 1 ==> var t := Written(defaults, s, c.patch, c.changedBy, c.hash, c.writes);
      forall i | 0 <= i < |s.snapshots| :: !Active(t.snapshots[i])
  {
  }
}

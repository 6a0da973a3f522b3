/** What an update leaves in the tenant document: version, hash, active snapshot and mirrored booking settings. */
module ConfigStamps {
  import opened Prelude
  import opened ConfigMerge
  import opened TenantConfig
  import opened ReadYourWrites
  import opened ReadBack

  /** The snapshot the tenant points to carries the tenant's own version and hash. */
  ghost predicate Stamped(s: Store) {
    s.tenant.activeConfig.Some? ==>
      && s.tenant.activeConfig.value < |s.snapshots|
      && var f := s.snapshots[s.tenant.activeConfig.value];
        && "version" in f && f["version"] == Num(s.tenant.version as real)
        && "config_hash" in f && f["config_hash"] == Str(s.tenant.hash)
  }

  lemma BookkeepingIs(t: Tenant, changedBy: Json, hash: string)
    ensures var f := Bookkeeping(t, changedBy, hash);
      && "version" in f && f["version"] == Num((t.version + 1) as real)
      && "config_hash" in f && f["config_hash"] == Str(hash)
      && "changed_by" in f && f["changed_by"] == changedBy && "is_active" in f && f["is_active"] == Bool(true)
  {
  }

  lemma SchemaKeys(t: Tenant, next: Fields)
    ensures SchemaFields(t, next).Keys == SCHEMA
  {
  }

  lemma NotInSchema(k: string)
    requires k in {"version", "config_hash", "changed_by", "is_active"}
    ensures k !in SCHEMA && k in META
  {
  }

  // Neither schema fields nor the result overwrite the bookkeeping.
  lemma BookkeepingKept(t: Tenant, next: Fields, changedBy: Json, hash: string, k: string)
    requires NoMeta(next) && k in {"version", "config_hash", "changed_by", "is_active"}
    requires k in Bookkeeping(t, changedBy, hash)
    ensures var f := Snapshot(t, next, changedBy, hash); k in f && f[k] == Bookkeeping(t, changedBy, hash)[k]
  {
    NotInSchema(k);
    SchemaKeys(t, next);
    hide Bookkeeping;
    hide SchemaFields;
    hide SCHEMA;
    hide META;
  }

  lemma SnapshotStamped(t: Tenant, next: Fields, changedBy: Json, hash: string)
    requires NoMeta(next)
    ensures var f := Snapshot(t, next, changedBy, hash);
      && "version" in f && f["version"] == Num((t.version + 1) as real)
      && "config_hash" in f && f["config_hash"] == Str(hash)
      && "changed_by" in f && f["changed_by"] == changedBy && Active(f)
  {
    BookkeepingIs(t, changedBy, hash);
    hide Snapshot;
    hide Bookkeeping;
    hide NoMeta;
    BookkeepingKept(t, next, changedBy, hash, "version");
    BookkeepingKept(t, next, changedBy, hash, "config_hash");
    BookkeepingKept(t, next, changedBy, hash, "changed_by");
    BookkeepingKept(t, next, changedBy, hash, "is_active");
  }

  lemma AfterWrites(defaults: Fields, s: Store, c: UpdateCall)
    ensures var t, next := After(defaults, s, c), Next(defaults, s, c.patch);
      && |t.snapshots| == |s.snapshots| + 1
      && t.snapshots[|s.snapshots|] == Snapshot(s.tenant, next, c.changedBy, c.hash)
      && t.tenant.version == s.tenant.version + 1 && t.tenant.hash == c.hash
      && t.tenant.activeConfig == Some(|s.snapshots|)
  {
    hide Next;
    hide Snapshot;
  }

  /** One complete update: the version goes up by one, the hash is the new one, and the active snapshot is the one just
      written, marked active and signed by who changed it. */
  lemma CompleteStamps(defaults: Fields, s: Store, c: UpdateCall)
    requires NoMeta(defaults) && NoMeta(c.patch)
    ensures var t := After(defaults, s, c);
      && t.tenant.version == s.tenant.version + 1 && t.tenant.hash == c.hash
      && t.tenant.activeConfig == Some(|s.snapshots|) && |t.snapshots| == |s.snapshots| + 1
      && var f := t.snapshots[|s.snapshots|];
        && Active(f) && "changed_by" in f && f["changed_by"] == c.changedBy && Stamped(t)
  {
    hide Next;
    hide After;
    hide Snapshot;
    hide NoMeta;
    hide Active;
    NextHasNoMeta(defaults, s, c.patch);
    AfterWrites(defaults, s, c);
    SnapshotStamped(s.tenant, Next(defaults, s, c.patch), c.changedBy, c.hash);
  }

  lemma InterruptedStamps(defaults: Fields, s: Store, c: UpdateCall)
    requires Stamped(s) && c.writes <= 2
    ensures var t := Written(defaults, s, c.patch, c.changedBy, c.hash, c.writes); Stamped(t) && t.tenant == s.tenant
  {
    hide Next;
    hide Snapshot;
  }

  ghost function Completed(calls: seq<UpdateCall>): nat {
    if calls == [] then 0 else Completed(calls[..|calls| - 1]) + if calls[|calls| - 1].writes >= 3 then 1 else 0
  }

  /** After any sequence of updates, each stopped anywhere, the tenant's version has counted the complete ones, and its
      active snapshot carries that version and its hash. */
  lemma {:induction false} VersionsCount(defaults: Fields, s: Store, calls: seq<UpdateCall>)
    requires NoMeta(defaults) && PlainPatches(calls) && Stamped(s)
    ensures var t := RunUpdates(defaults, s, calls);
      Stamped(t) && t.tenant.version == s.tenant.version + Completed(calls)
  {
    if calls != [] {
      var n := |calls| - 1;
      assert calls[n] in calls && forall c | c in calls[..n] :: c in calls;
      VersionsCount(defaults, s, calls[..n]);
      var before := RunUpdates(defaults, s, calls[..n]);
      if calls[n].writes <= 2 {
        InterruptedStamps(defaults, before, calls[n]);
      } else {
        CompleteIs(defaults, before, calls[n]);
        CompleteStamps(defaults, before, calls[n]);
      }
      hide Stamped;
      hide NoMeta;
    }
  }

  // --- booking settings -----------------------------------------------------------------------------

  const SETTINGS := "booking_settings"

  ghost predicate SettingsMirrored(s: Store) {
    SETTINGS in Stored(s) && Stored(s)[SETTINGS].Obj? ==>
      s.tenant.bookingSettings == Some(Without(Stored(s)[SETTINGS].fields, {"_id"}))
  }

  lemma SettingsNotSchema()
    ensures SETTINGS !in SCHEMA
  {
  }

  lemma CompleteMirrors(defaults: Fields, s: Store, c: UpdateCall)
    requires NoMeta(defaults) && NoMeta(c.patch)
    ensures SettingsMirrored(After(defaults, s, c))
  {
    SettingsNotSchema();
    hide SETTINGS;
    hide SCHEMA;
    hide Next;
    hide After;
    hide Stored;
    hide Synced;
    hide Snapshot;
    hide TenantConfig.Without;
    hide NoMeta;
    StoredAfter(defaults, s, c);
    AfterIs(defaults, s, c);
    SyncedSettings(s.tenant, Next(defaults, s, c.patch), |s.snapshots|, c.hash);
  }

  lemma SyncedSettings(t: Tenant, next: Fields, id: nat, hash: string)
    ensures SETTINGS in next && next[SETTINGS].Obj? ==>
      Synced(t, next, id, hash).bookingSettings == Some(Without(next[SETTINGS].fields, {"_id"}))
    ensures SETTINGS !in next || !(next[SETTINGS].Obj? || next[SETTINGS].Arr?) ==>
      Synced(t, next, id, hash).bookingSettings == t.bookingSettings
  {
  }

  lemma InterruptedMirrors(defaults: Fields, s: Store, c: UpdateCall)
    requires Linked(s) && SettingsMirrored(s) && c.writes <= 2
    ensures var t := Written(defaults, s, c.patch, c.changedBy, c.hash, c.writes); Linked(t) && SettingsMirrored(t)
  {
    if c.writes > 0 {
      ReadsBlind(s, Written(defaults, s, c.patch, c.changedBy, c.hash, c.writes));
    }
    hide Next;
    hide Snapshot;
    hide Stored;
  }

  lemma {:induction false} RunMirrors(defaults: Fields, t: Tenant, calls: seq<UpdateCall>)
    requires NoMeta(defaults) && PlainPatches(calls) && t.activeConfig.None?
    ensures var s := RunUpdates(defaults, Store(t, []), calls); Linked(s) && SettingsMirrored(s)
  {
    if calls == [] {
      assert Stored(Store(t, [])) == map[];
    } else {
      var n := |calls| - 1;
      assert calls[n] in calls && forall c | c in calls[..n] :: c in calls;
      RunMirrors(defaults, t, calls[..n]);
      var before := RunUpdates(defaults, Store(t, []), calls[..n]);
      if calls[n].writes <= 2 {
        InterruptedMirrors(defaults, before, calls[n]);
      } else {
        CompleteIs(defaults, before, calls[n]);
        CompleteMirrors(defaults, before, calls[n]);
        AfterLinked(defaults, before, calls[n]);
      }
      hide SettingsMirrored;
      hide NoMeta;
      hide Linked;
      hide After;
    }
  }

  /** After every run from a tenant without an active configuration: when the effective configuration has booking
      settings, the tenant document has the same ones. */
  lemma BookingSettingsMirrored(defaults: Fields, t: Tenant, calls: seq<UpdateCall>)
    requires NoMeta(defaults) && PlainPatches(calls) && t.activeConfig.None? && SETTINGS !in defaults
    ensures var s := RunUpdates(defaults, Store(t, []), calls); var e := Effective(defaults, s);
      SETTINGS in e && e[SETTINGS].Obj? ==> s.tenant.bookingSettings == Some(Without(e[SETTINGS].fields, {"_id"}))
  {
    var s := RunUpdates(defaults, Store(t, []), calls);
    RunMirrors(defaults, t, calls);
    EffectiveOf(defaults, s);
    BaseKeys(defaults, s.tenant);
    LegacyKeys(s.tenant);
    hide RunUpdates;
    hide Effective;
    hide Base;
    hide Legacy;
    hide Stored;
    NotInBase(Base(defaults, s.tenant), Stored(s));
  }

  lemma NotInBase(base: Fields, stored: Fields)
    requires SETTINGS !in base
    ensures SETTINGS in MergeFields(base, stored) <==> SETTINGS in stored
    ensures SETTINGS in stored ==> MergeFields(base, stored)[SETTINGS] == stored[SETTINGS]
  {
  }
}

/** deepMerge of the tenant configuration, and its algebra. */
module ConfigMerge {
  import opened Prelude

  datatype Json = Null | Bool(b: bool) | Num(n: real) | Str(s: string) | Arr(items: seq<Json>) | Obj(fields: Fields)

  type Fields = map<string, Json>

  // Two plain objects are merged key by key; anything else is replaced.
  function Merge(t: Json, s: Json): Json
    decreases s
  {
    if t.Obj? && s.Obj? then
      Obj(map k | k in t.fields.Keys + s.fields.Keys ::
        if k !in s.fields then t.fields[k]
        else if k in t.fields then Merge(t.fields[k], s.fields[k])
        else s.fields[k])
    else s
  }

  function MergeFields(t: Fields, s: Fields): Fields {
    Merge(Obj(t), Obj(s)).fields
  }

  // deepMerge(target, ...sources).
  function MergeAll(t: Fields, sources: seq<Fields>): Fields {
    if sources == [] then t else MergeFields(MergeAll(t, sources[..|sources| - 1]), sources[|sources| - 1])
  }

  // The merge of one source with keys still to do.
  ghost predicate HalfMerged(result: Fields, t: Fields, s: Fields, todo: set<string>) {
    && result.Keys == t.Keys + (s.Keys - todo)
    && (forall k | k in result && (k !in s || k in todo) :: k in t && result[k] == t[k])
    && (forall k | k in s && k !in todo :: result[k] == if k in t then Merge(t[k], s[k]) else s[k])
  }

  // The inner loop: one source, assigned key by key into a copy of the target.
  method MergeOne(target: Fields, source: Fields) returns (result: Fields)
    ensures result == MergeFields(target, source)
    decreases Obj(source)
  {
    result := target;
    var todo := source.Keys;
    while todo != {}
      invariant todo <= source.Keys && HalfMerged(result, target, source, todo)
      decreases todo
    {
      var key :| key in todo;
      var sv := source[key];
      if sv.Obj? && key in result && result[key].Obj? {
        assert Obj(source).fields[key] == sv && Obj(sv.fields) == sv;
        var merged := MergeOne(result[key].fields, sv.fields);
        result := result[key := Obj(merged)];
      } else {
        result := result[key := sv];
      }
      todo := todo - {key};
    }
  }

  method DeepMerge(target: Fields, sources: seq<Fields>) returns (result: Fields)
    ensures result == MergeAll(target, sources)
  {
    result := target;
    for i := 0 to |sources|
      invariant result == MergeAll(target, sources[..i])
    {
      assert sources[..i + 1][..i] == sources[..i];
      result := MergeOne(result, sources[i]);
    }
    assert sources[..|sources|] == sources;
  }

  // --- the algebra ---------------------------------------------------------------

  /** Merging the same patch again changes nothing. */
  lemma {:induction false} MergeIdempotent(t: Json, s: Json)
    ensures Merge(Merge(t, s), s) == Merge(t, s)
    decreases s
  {
    if s.Obj? && t.Obj? {
      forall k | k in s.fields
        ensures Merge(Merge(t, s).fields[k], s.fields[k]) == Merge(t, s).fields[k]
      {
        if k in t.fields {
          MergeIdempotent(t.fields[k], s.fields[k]);
        } else {
          MergeSelf(s.fields[k]);
        }
      }
    } else {
      MergeSelf(s);
    }
  }

  lemma {:induction false} MergeSelf(s: Json)
    ensures Merge(s, s) == s
  {
    if s.Obj? {
      forall k | k in s.fields
        ensures Merge(s.fields[k], s.fields[k]) == s.fields[k]
      {
        MergeSelf(s.fields[k]);
      }
    }
  }

  // The value at a path of keys.
  function At(j: Json, path: seq<string>): Option<Json> {
    if path == [] then Some(j)
    else if j.Obj? && path[0] in j.fields then At(j.fields[path[0]], path[1..])
    else None
  }

  // The patch says something at the path, above it or below it.
  predicate Touches(s: Json, path: seq<string>) {
    if path == [] || !s.Obj? then true
    else path[0] in s.fields && Touches(s.fields[path[0]], path[1..])
  }

  lemma {:induction false} UntouchedAbsent(s: Json, path: seq<string>)
    requires !Touches(s, path)
    ensures At(s, path).None?
  {
    if path[0] in s.fields {
      UntouchedAbsent(s.fields[path[0]], path[1..]);
    }
  }

  /** Every path the patch does not touch keeps its value, or its absence. */
  lemma {:induction false} UntouchedKept(t: Json, s: Json, path: seq<string>)
    requires t.Obj? && !Touches(s, path)
    ensures At(Merge(t, s), path) == At(t, path)
  {
    var k := path[0];
    if k in s.fields {
      UntouchedAbsent(s.fields[k], path[1..]);
      if k in t.fields && t.fields[k].Obj? {
        UntouchedKept(t.fields[k], s.fields[k], path[1..]);
      }
    }
  }

  /** Every leaf of the patch is read back from the result. */
  lemma {:induction false} PatchWins(t: Json, s: Json, path: seq<string>)
    requires At(s, path).Some? && !At(s, path).value.Obj?
    ensures At(Merge(t, s), path) == At(s, path)
  {
    if path != [] && t.Obj? && path[0] in t.fields {
      PatchWins(t.fields[path[0]], s.fields[path[0]], path[1..]);
    }
  }

  // Every key path of x that leads through objects of y is a key path of y.
  predicate Absorbed(x: Json, y: Json)
    decreases x
  {
    x.Obj? && y.Obj? ==> forall k | k in x.fields :: k in y.fields && Absorbed(x.fields[k], y.fields[k])
  }

  /** A patch swallows a configuration whole exactly when it covers its key paths. */
  lemma {:induction false} AbsorbedIff(x: Json, y: Json)
    ensures Merge(x, y) == y <==> Absorbed(x, y)
    decreases y
  {
    if x.Obj? && y.Obj? {
      forall k | k in x.fields && k in y.fields
        ensures Merge(x.fields[k], y.fields[k]) == y.fields[k] <==> Absorbed(x.fields[k], y.fields[k])
      {
        AbsorbedIff(x.fields[k], y.fields[k]);
      }
      if Merge(x, y) == y {
        forall k | k in x.fields
          ensures k in y.fields
        {
          assert k in Merge(x, y).fields;
        }
      }
      if Absorbed(x, y) {
        assert Merge(x, y).fields.Keys == y.fields.Keys;
        assert Merge(x, y).fields == y.fields;
      }
    }
  }

  // Where b replaces an object of a by a leaf and c puts an object back, c covers what a had there.
  predicate NoLoss(a: Json, b: Json, c: Json)
    decreases b
  {
    if !a.Obj? || !c.Obj? then true
    else if !b.Obj? then Absorbed(a, c)
    else forall k | k in a.fields && k in b.fields && k in c.fields :: NoLoss(a.fields[k], b.fields[k], c.fields[k])
  }

  /** deepMerge is associative exactly when no object-leaf-object clash loses a key. */
  lemma {:induction false} AssociativeIff(a: Json, b: Json, c: Json)
    ensures Merge(Merge(a, b), c) == Merge(a, Merge(b, c)) <==> NoLoss(a, b, c)
    decreases b
  {
    if a.Obj? && c.Obj? {
      if !b.Obj? {
        AbsorbedIff(a, c);
      } else {
        var l, r := Merge(Merge(a, b), c), Merge(a, Merge(b, c));
        forall k | k in a.fields && k in b.fields && k in c.fields
          ensures l.fields[k] == r.fields[k] <==> NoLoss(a.fields[k], b.fields[k], c.fields[k])
        {
          AssociativeIff(a.fields[k], b.fields[k], c.fields[k]);
        }
        assert l.fields.Keys == r.fields.Keys;
        assert forall k | k in l.fields && !(k in a.fields && k in b.fields && k in c.fields) ::
          l.fields[k] == r.fields[k];
        assert l == r <==> forall k | k in l.fields :: l.fields[k] == r.fields[k];
      }
    }
  }

  /** The keys of a merge are the keys of both sides. */
  lemma {:induction false} MergeAllKeys(t: Fields, sources: seq<Fields>, k: string)
    ensures k in MergeAll(t, sources) <==> k in t || exists i | 0 <= i < |sources| :: k in sources[i]
  {
    if sources != [] {
      MergeAllKeys(t, sources[..|sources| - 1], k);
    }
  }

  // --- sections: where d has an object, p has one too ------------------------------

  predicate KeepsSections(d: Json, p: Json)
    decreases d
  {
    d.Obj? ==> p.Obj? && forall k | k in d.fields && k in p.fields :: KeepsSections(d.fields[k], p.fields[k])
  }

  lemma {:induction false} KeepsSelf(d: Json)
    ensures KeepsSections(d, d) && Absorbed(d, d)
  {
    if d.Obj? {
      forall k | k in d.fields
        ensures KeepsSections(d.fields[k], d.fields[k]) && Absorbed(d.fields[k], d.fields[k])
      {
        KeepsSelf(d.fields[k]);
      }
    }
  }

  lemma {:induction false} KeepsMerge(d: Json, x: Json, y: Json)
    requires KeepsSections(d, x) && KeepsSections(d, y)
    ensures KeepsSections(d, Merge(x, y))
    ensures Absorbed(d, x) ==> Absorbed(d, Merge(x, y))
    decreases d
  {
    if d.Obj? {
      forall k | k in d.fields && k in x.fields && k in y.fields
        ensures KeepsSections(d.fields[k], Merge(x.fields[k], y.fields[k]))
        ensures Absorbed(d.fields[k], x.fields[k]) ==> Absorbed(d.fields[k], Merge(x.fields[k], y.fields[k]))
      {
        KeepsMerge(d.fields[k], x.fields[k], y.fields[k]);
      }
    }
  }

  lemma {:induction false} AbsorbedMerge(x: Json, y: Json, z: Json)
    requires Absorbed(x, z) && Absorbed(y, z)
    ensures Absorbed(Merge(x, y), z)
    decreases y
  {
    if x.Obj? && y.Obj? && z.Obj? {
      forall k | k in x.fields && k in y.fields
        ensures Absorbed(Merge(x.fields[k], y.fields[k]), z.fields[k])
      {
        AbsorbedMerge(x.fields[k], y.fields[k], z.fields[k]);
      }
    }
  }

  // --- what survives a patch ---------------------------------------------------------

  lemma {:induction false} AbsorbedByMerge(x: Json, y: Json)
    ensures Absorbed(x, Merge(x, y))
    decreases x
  {
    if x.Obj? {
      forall k | k in x.fields
        ensures Absorbed(x.fields[k], x.fields[k])
        ensures y.Obj? && k in y.fields ==> Absorbed(x.fields[k], Merge(x.fields[k], y.fields[k]))
      {
        KeepsSelf(x.fields[k]);
        if y.Obj? && k in y.fields {
          AbsorbedByMerge(x.fields[k], y.fields[k]);
        }
      }
    }
  }

  /** A configuration that covers d still does after a patch exactly when no object-leaf-object clash loses a key. */
  lemma {:induction false} StillAbsorbedIff(d: Json, e: Json, p: Json)
    requires Absorbed(d, e)
    ensures Absorbed(d, Merge(e, p)) <==> NoLoss(d, e, p)
    decreases d
  {
    if d.Obj? && e.Obj? && p.Obj? {
      forall k | k in d.fields && k in p.fields
        ensures Absorbed(d.fields[k], Merge(e.fields[k], p.fields[k]))
          <==> NoLoss(d.fields[k], e.fields[k], p.fields[k])
      {
        StillAbsorbedIff(d.fields[k], e.fields[k], p.fields[k]);
      }
    }
  }

  /** Without a clash among them, three merged trees cover the first. */
  lemma NoLossAbsorbs(d: Json, l: Json, s: Json)
    requires NoLoss(d, l, s)
    ensures Absorbed(d, Merge(Merge(d, l), s))
  {
    AssociativeIff(d, l, s);
    AbsorbedByMerge(d, Merge(l, s));
  }

  lemma {:induction false} NoLossSelf(a: Json, b: Json)
    ensures NoLoss(a, b, b)
    decreases b
  {
    if a.Obj? && b.Obj? {
      forall k | k in a.fields && k in b.fields
        ensures NoLoss(a.fields[k], b.fields[k], b.fields[k])
      {
        NoLossSelf(a.fields[k], b.fields[k]);
      }
    }
  }

  // Merging into y what y already holds asks no more of y than x alone.
  lemma AbsorbedWithItself(x: Json, y: Json)
    ensures Absorbed(Merge(x, y), y) <==> Absorbed(x, y)
  {
    if Absorbed(Merge(x, y), y) {
      AbsorbedIff(Merge(x, y), y);
      MergeIdempotent(x, y);
      AbsorbedIff(x, y);
    }
    if Absorbed(x, y) {
      AbsorbedIff(x, y);
      KeepsSelf(y);
    }
  }
}

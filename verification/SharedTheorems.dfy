/**
 When the mapping pipeline, whose containers are shared, does what MappingEngine says on
 values, and what it does to the caller's payload and to the profile.
 */
module SharedTheorems {
  import opened Lists
  import opened Strings
  import opened Json
  import opened ObjectPath
  import opened Containers
  import opened Ownership
  import opened MappingEngine
  import opened SharedMapping

  // ---------------------------------------------------------------- profiles on the heap

  predicate StoresTable(h: Heap, a: map<string, Slot>, b: map<string, Json>)
  {
    a.Keys == b.Keys && forall k :: k in a ==> Holds(h, a[k], b[k])
  }

  /** Transform `a` is transform `b`; the payload does not hold the profile's own `equals` container. */
  predicate StoresTransform(h: Heap, source: Slot, a: StoredTransform, b: Transform)
  {
    match a
    case Constant(value) => b.Constant? && Holds(h, value, b.value)
    case Combine(sources, separator) => b.Combine? && b.sources == sources && b.separator == separator
    case BooleanToYesNo(path) => b.BooleanToYesNo? && b.source == path
    case YesNoToBoolean(path) => b.YesNoToBoolean? && b.source == path
    case EnumMap(path, table) => b.EnumMap? && b.source == path && StoresTable(h, table, b.table)
    case Conditional(path, equals, whenTrue, whenFalse) =>
      b.Conditional? && b.source == path && Holds(h, equals, b.equals) && Holds(h, whenTrue, b.whenTrue) &&
      Holds(h, whenFalse, b.whenFalse) && (equals.At? ==> GetByPathIn(h, source, path) != equals)
    case Copy(path) => b.Copy? && b.source == path
  }

  predicate StoresMappings(h: Heap, source: Slot, a: seq<StoredFieldMapping>, b: seq<FieldMapping>)
  {
    |a| == |b| && forall i :: 0 <= i < |a| ==>
      a[i].target == b[i].target && StoresTransform(h, source, a[i].transform, b[i].transform)
  }

  predicate StoresEnums(h: Heap, a: seq<StoredEnumMapping>, b: seq<EnumMapping>)
  {
    |a| == |b| && forall i :: 0 <= i < |a| ==> a[i].path == b[i].path && StoresTable(h, a[i].values, b[i].values)
  }

  /** A call: what the caller's payload and the profile are, and where they are. */
  predicate Call(h: Heap, source: Slot, canonical: Json, a: StoredProfile, b: Profile)
  {
    Holds(h, source, canonical) && StoresMappings(h, source, a.fieldMappings, b.fieldMappings) &&
    StoresTable(h, a.defaultValues, b.defaultValues) && StoresEnums(h, a.enumMappings, b.enumMappings) &&
    a.requiredFields == b.requiredFields
  }

  lemma LookupStored(h0: Heap, h: Heap, table: map<string, Slot>, values: map<string, Json>, raw: Slot, v: Json)
    requires Holds(h, raw, v) && StoresTable(h0, table, values)
    ensures var x := LookupIn(h, table, raw);
            if Text(v) in table && !Nullish(table[Text(v)])
            then x == table[Text(v)] && Holds(h0, x, Lookup(values, v))
            else x == raw && Lookup(values, v) == v
  {
    TextHolds(h, raw, v);
    var key := Text(v);
    if key in table {
      HoldsStep(h0, table[key], values[key], "");
    }
  }

  lemma ReadStored(h0: Heap, h: Heap, source: Slot, canonical: Json, path: string)
    requires h0 <= h && Holds(h0, source, canonical)
    ensures var s := GetByPathIn(h, source, path);
            s == GetByPathIn(h0, source, path) && Holds(h0, s, GetByPath(canonical, path)) &&
            Unfold(h, s, {}) == GetByPath(canonical, path) &&
            (Nullish(s) <==> GetByPath(canonical, path).Undefined? || GetByPath(canonical, path).Null?)
  {
    if path == "" {
      TextHolds(h, NOTHING, Undefined);
    } else {
      WalkLater(h0, h, source, canonical, Split(path, '.'));
      HoldsWalk(h0, source, canonical, Split(path, '.'));
      var s, v := GetByPathIn(h0, source, path), GetByPath(canonical, path);
      HoldsLater(h0, h, s, v);
      TextHolds(h, s, v);
    }
  }

  lemma {:induction false} CollectStored(h0: Heap, h: Heap, source: Slot, canonical: Json, paths: seq<string>)
    requires h0 <= h && Holds(h0, source, canonical)
    ensures CollectIn(h, source, paths) == Collect(canonical, paths)
  {
    if paths != [] {
      ReadStored(h0, h, source, canonical, paths[0]);
      CollectStored(h0, h, source, canonical, paths[1..]);
    }
  }

  /** What a transform yields is the same, and the same slot, however the heap has grown. */
  lemma EvaluateStored(h0: Heap, h: Heap, source: Slot, canonical: Json, a: StoredTransform, b: Transform)
    requires h0 <= h && Holds(h0, source, canonical) && StoresTransform(h0, source, a, b)
    ensures EvaluateIn(h, source, a) == EvaluateIn(h0, source, a)
    ensures Holds(h0, EvaluateIn(h0, source, a), Evaluate(canonical, b))
  {
    match a
    case Constant(_) =>
    case Combine(sources, _) =>
      CollectStored(h0, h, source, canonical, sources);
      CollectStored(h0, h0, source, canonical, sources);
    case Conditional(path, equals, _, _) =>
      ReadStored(h0, h, source, canonical, path);
      EqualScalars(h0, GetByPathIn(h0, source, path), GetByPath(canonical, path), equals, b.equals);
    case EnumMap(path, table) =>
      ReadStored(h0, h, source, canonical, path);
      ReadStored(h0, h0, source, canonical, path);
      var s, v := GetByPathIn(h0, source, path), GetByPath(canonical, path);
      HoldsLater(h0, h, s, v);
      LookupStored(h0, h, table, b.table, s, v);
      LookupStored(h0, h0, table, b.table, s, v);
    case BooleanToYesNo(path) =>
      ReadStored(h0, h, source, canonical, path);
      ReadStored(h0, h0, source, canonical, path);
    case YesNoToBoolean(path) =>
      ReadStored(h0, h, source, canonical, path);
      ReadStored(h0, h0, source, canonical, path);
    case Copy(path) =>
      ReadStored(h0, h, source, canonical, path);
  }

  lemma EqualScalars(h: Heap, s: Slot, v: Json, t: Slot, w: Json)
    requires Holds(h, s, v) && Holds(h, t, w) && (t.At? ==> s != t)
    ensures s == t <==> StrictEquals(v, w)
  {
    HoldsStep(h, s, v, "");
    HoldsStep(h, t, w, "");
  }

  // ---------------------------------------------------------------- the field mappings

  /** `path` leads below the target of a mapping whose value is a container. */
  ghost predicate BelowTarget(h: Heap, source: Slot, ms: seq<StoredFieldMapping>, path: Path)
  {
    exists i :: 0 <= i < |ms| && ms[i].target != "" && Split(ms[i].target, '.') < path &&
                EvaluateIn(h, source, ms[i].transform).At?
  }

  /** The target after the field mappings: older containers are where a mapping put one, and nowhere else. */
  ghost predicate Placed(h0: Heap, source: Slot, a: seq<StoredFieldMapping>, sh: Shape)
  {
    (forall p: Path :: |p| >= 1 ==> (Dips(sh, p) <==> BelowTarget(h0, source, a, p))) &&
    forall p: Path :: |p| >= 1 && StoredApart(a, p) ==> ClearShape(sh, p)
  }

  ghost predicate StoredApart(ms: seq<StoredFieldMapping>, path: Path)
  {
    forall i :: 0 <= i < |ms| ==> ms[i].target == "" || Disjoint(Split(ms[i].target, '.'), path)
  }

  /** Adding a mapping adds its target, if that gets a container. */
  lemma BelowOneMore(h: Heap, source: Slot, ms: seq<StoredFieldMapping>, path: Path)
    requires ms != []
    requires ms[|ms| - 1].target != "" ==> StoredApart(ms[..|ms| - 1], Split(ms[|ms| - 1].target, '.'))
    ensures var last := ms[|ms| - 1];
            BelowTarget(h, source, ms, path) <==>
            if last.target != "" && Split(last.target, '.') < path
            then EvaluateIn(h, source, last.transform).At? else BelowTarget(h, source, ms[..|ms| - 1], path)
  {
    var n := |ms| - 1;
    var init, last := ms[..n], ms[n];
    if BelowTarget(h, source, init, path) {
      var i :| 0 <= i < n && init[i].target != "" && Split(init[i].target, '.') < path &&
               EvaluateIn(h, source, init[i].transform).At?;
      assert ms[i] == init[i];
      if last.target != "" && Split(last.target, '.') < path {
        PrefixesCompare(Split(init[i].target, '.'), Split(last.target, '.'), path);
      }
    }
    if BelowTarget(h, source, ms, path) {
      var i :| 0 <= i < |ms| && ms[i].target != "" && Split(ms[i].target, '.') < path &&
               EvaluateIn(h, source, ms[i].transform).At?;
      assert i < n ==> init[i] == ms[i];
    }
  }

  lemma PrefixesCompare(p: Path, q: Path, whole: Path)
    requires p <= whole && q <= whole
    ensures p <= q || q <= p
  {
    assert |p| <= |q| ==> p == q[..|p|];
    assert |q| <= |p| ==> q == p[..|q|];
  }

  lemma StoredInit(h: Heap, source: Slot, a: seq<StoredFieldMapping>, b: seq<FieldMapping>)
    requires a != [] && StoresMappings(h, source, a, b) && TargetsApart(b)
    ensures StoresMappings(h, source, a[..|a| - 1], b[..|b| - 1]) && TargetsApart(b[..|b| - 1])
    ensures a[|a| - 1].target != "" ==> StoredApart(a[..|a| - 1], Split(a[|a| - 1].target, '.'))
  {
    var n := |a| - 1;
    forall i | 0 <= i < n && a[n].target != ""
      ensures a[..n][i].target == "" || Disjoint(Split(a[..n][i].target, '.'), Split(a[n].target, '.'))
    {
      assert Apart(b[i].target, b[n].target);
    }
  }

  /** One more mapping, at a target apart from the others. */
  lemma OneMapping(h0: Heap, source: Slot, a: seq<StoredFieldMapping>, sh: Shape, next: nat)
    requires a != [] && a[|a| - 1].target != ""
    requires Placed(h0, source, a[..|a| - 1], sh)
    requires StoredApart(a[..|a| - 1], Split(a[|a| - 1].target, '.'))
    ensures var t, slot := Split(a[|a| - 1].target, '.'), EvaluateIn(h0, source, a[|a| - 1].transform);
            OwnWalk(sh, t) && Placed(h0, source, a, PutShape(sh, t, slot, next))
  {
    var n := |a| - 1;
    var init, t, slot := a[..n], Split(a[n].target, '.'), EvaluateIn(h0, source, a[n].transform);
    assert ClearShape(sh, t);
    ClearIsOwn(sh, t);
    var after := PutShape(sh, t, slot, next);
    forall p: Path | |p| >= 1
      ensures Dips(after, p) <==> BelowTarget(h0, source, a, p)
    {
      DipsAfter(sh, t, slot, next, p);
      BelowOneMore(h0, source, a, p);
    }
    forall p: Path | |p| >= 1 && StoredApart(a, p)
      ensures ClearShape(after, p)
    {
      forall i | 0 <= i < n
        ensures init[i].target == "" || Disjoint(Split(init[i].target, '.'), p)
      {
        assert init[i] == a[i];
      }
      assert Disjoint(t, p);
      ClearStays(sh, t, slot, next, p);
    }
  }

  lemma NoMapping(h0: Heap, source: Slot, sh: Shape)
    requires sh.OwnRecord? && sh.fields == map[]
    ensures Placed(h0, source, [], sh)
  {
    forall p: Path | |p| >= 1
      ensures !Dips(sh, p)
    {
      assert Kid([], sh, p[0]) == Leaf(NOTHING);
    }
  }

  /** Mapping to an empty path changes nothing. */
  lemma NoTarget(h0: Heap, source: Slot, a: seq<StoredFieldMapping>, sh: Shape)
    requires a != [] && a[|a| - 1].target == "" && Placed(h0, source, a[..|a| - 1], sh)
    ensures Placed(h0, source, a, sh)
  {
    var n := |a| - 1;
    forall p: Path | |p| >= 1
      ensures Dips(sh, p) <==> BelowTarget(h0, source, a, p)
    {
      BelowOneMore(h0, source, a, p);
    }
    forall p: Path | |p| >= 1 && StoredApart(a, p)
      ensures ClearShape(sh, p)
    {
      assert forall i :: 0 <= i < n ==> a[..n][i] == a[i];
      assert StoredApart(a[..n], p);
    }
  }

  /** The field mappings leave the caller's payload and the profile alone, and do what MapFields says. */
  lemma {:induction false} FieldStage(h0: Heap, source: Slot, canonical: Json,
                                      a: seq<StoredFieldMapping>, b: seq<FieldMapping>) returns (sh: Shape)
    requires Holds(h0, source, canonical) && StoresMappings(h0, source, a, b) && TargetsApart(b)
    ensures var r := MapFieldsIn(h0 + [Record(map[])], source, a, At(|h0|));
            r.ok && State(h0, r.heap, At(|h0|), sh, MapFields(canonical, b)) && Placed(h0, source, a, sh)
  {
    if a == [] {
      sh := OwnRecord(|h0|, map[]);
      NoMapping(h0, source, sh);
      assert State(h0, h0 + [Record(map[])], At(|h0|), sh, Obj(map[]));
    } else {
      var n := |a| - 1;
      StoredInit(h0, source, a, b);
      sh := FieldStage(h0, source, canonical, a[..n], b[..n]);
      var h := MapFieldsIn(h0 + [Record(map[])], source, a[..n], At(|h0|)).heap;
      if a[n].target == "" {
        NoTarget(h0, source, a, sh);
      } else {
        var t, slot := Split(a[n].target, '.'), EvaluateIn(h0, source, a[n].transform);
        EvaluateStored(h0, h, source, canonical, a[n].transform, b[n].transform);
        OneMapping(h0, source, a, sh, |h|);
        WriteIsPut(h0, h, At(|h0|), sh, MapFields(canonical, b[..n]), t, slot,
                   Evaluate(canonical, b[n].transform));
        sh := PutShape(sh, t, slot, |h|);
      }
    }
  }

  // ---------------------------------------------------------------- the defaults

  /** `path` leads below a default that fills a gap with a container. */
  predicate BelowDefault(mapped: Json, defaults: map<string, Slot>, path: Path)
    requires mapped.Obj?
  {
    |path| > 1 && path[0] in defaults && Field(mapped.fields, path[0]).Undefined? && defaults[path[0]].At?
  }

  ghost function FilledShape(sh: Shape, defaults: map<string, Slot>, ref: nat): Shape
    requires sh.OwnRecord?
  {
    OwnRecord(ref, map k | k in sh.fields.Keys + defaults.Keys ::
      if k in defaults && (k !in sh.fields || sh.fields[k] == Leaf(NOTHING)) then Leaf(defaults[k])
      else sh.fields[k])
  }

  lemma GapIsUndefined(h0: Heap, h: Heap, s: Slot, sh: Shape, j: Json)
    requires Matches(h, |h0|, s, sh) && Stands(h0, sh, j)
    ensures s == NOTHING <==> j == Undefined
    ensures sh == Leaf(NOTHING) <==> j == Undefined
  {
    if sh.Leaf? {
      HoldsStep(h0, s, j, "");
    }
  }

  lemma FilledMatches(h0: Heap, h: Heap, sh: Shape, j: Json, defaults: map<string, Slot>, values: map<string, Json>)
    requires sh.OwnRecord? && State(h0, h, At(sh.ref), sh, j) && StoresTable(h0, defaults, values)
    ensures var node := Record(Filled(h[sh.ref].fields, defaults));
            var later, after := h + [node, node], FilledShape(sh, defaults, |h| + 1);
            Matches(later, |h0|, At(|h| + 1), after) && Stands(h0, after, WithDefaults(j, values))
  {
    var fields := h[sh.ref].fields;
    var node := Record(Filled(fields, defaults));
    var later, after := h + [node, node], FilledShape(sh, defaults, |h| + 1);
    var filled := WithDefaults(j, values);
    forall k | k in after.fields
      ensures Matches(later, |h0|, node.fields[k], after.fields[k])
      ensures Stands(h0, after.fields[k], filled.fields[k])
    {
      if k in sh.fields {
        GapIsUndefined(h0, h, fields[k], sh.fields[k], j.fields[k]);
        MatchesFrame(h, later, |h0|, fields[k], sh.fields[k]);
      }
      if k in defaults {
        HoldsStep(h0, defaults[k], values[k], "");
        OldSlot(h0, defaults[k], values[k]);
      }
    }
  }

  lemma OldSlot(h0: Heap, s: Slot, j: Json)
    requires Holds(h0, s, j)
    ensures s.At? ==> s.ref < |h0|
  {
  }

  lemma FilledSingle(h: Heap, base: nat, sh: Shape, defaults: map<string, Slot>)
    requires sh.OwnRecord? && Matches(h, base, At(sh.ref), sh) && Single(sh)
    ensures Single(FilledShape(sh, defaults, |h| + 1))
  {
    RefsInHeap(h, base, At(sh.ref), sh);
    var after := FilledShape(sh, defaults, |h| + 1);
    forall k | k in after.fields
      ensures Single(after.fields[k]) && Refs(after.fields[k]) <= Refs(sh)
      ensures k in sh.fields ==> Refs(after.fields[k]) <= Refs(sh.fields[k])
      ensures k !in sh.fields ==> Refs(after.fields[k]) == {}
    {
    }
  }

  /** The copy with the defaults filled in, and the copy of that the enum stage makes. */
  lemma FilledState(h0: Heap, h: Heap, r: nat, sh: Shape, j: Json, defaults: map<string, Slot>,
                    values: map<string, Json>)
    requires sh.OwnRecord? && State(h0, h, At(r), sh, j) && StoresTable(h0, defaults, values)
    ensures var node := Record(Filled(FieldsOf(h, At(r)), defaults));
            State(h0, h + [node, node], At(|h| + 1), FilledShape(sh, defaults, |h| + 1), WithDefaults(j, values))
  {
    assert sh.ref == r && FieldsOf(h, At(r)) == h[r].fields;
    FilledMatches(h0, h, sh, j, defaults, values);
    FilledSingle(h, |h0|, sh, defaults);
  }

  lemma FilledDips(h0: Heap, sh: Shape, j: Json, defaults: map<string, Slot>, ref: nat, path: Path)
    requires |path| >= 1 && sh.OwnRecord? && Stands(h0, sh, j)
    ensures Dips(FilledShape(sh, defaults, ref), path) <==>
            Dips(sh, path) || BelowDefault(j, defaults, path)
  {
    var k := path[0];
    if k in sh.fields {
      KidStands(h0, sh.fields[k], j.fields[k], "");
    }
  }

  /** `path` leads strictly below a container of the caller or of the profile. */
  ghost predicate BelowShared(h: Heap, source: Slot, canonical: Json, a: StoredProfile, b: Profile, path: Path)
  {
    MapFieldsObj(canonical, b.fieldMappings);
    BelowTarget(h, source, a.fieldMappings, path) ||
    BelowDefault(MapFields(canonical, b.fieldMappings), a.defaultValues, path)
  }

  /** The payload before the enum stage, as a value. */
  function BeforeEnums(canonical: Json, b: Profile): Json
  {
    WithDefaults(MapFields(canonical, b.fieldMappings), b.defaultValues)
  }

  lemma RootIsOwn(h0: Heap, h: Heap, r: nat, sh: Shape, j: Json)
    requires State(h0, h, At(r), sh, j) && j.Obj? && |h0| <= r
    ensures sh.OwnRecord?
  {
  }

  lemma ReadyIsFilled(h: Heap, source: Slot, a: StoredProfile)
    ensures var mapped, ready := MappedIn(h, source, a).heap, ReadyIn(h, source, a);
            var node := Record(Filled(FieldsOf(mapped, At(|h|)), a.defaultValues));
            ready == mapped + [node, node] && Newest(ready) == At(|mapped| + 1)
  {
  }

  /** The target as it goes into the enum stage: where a default fills a gap the default itself is. */
  lemma DefaultStage(h: Heap, source: Slot, a: StoredProfile, b: Profile, before: Shape, j: Json)
    requires State(h, MappedIn(h, source, a).heap, At(|h|), before, j) && j.Obj?
    requires StoresTable(h, a.defaultValues, b.defaultValues)
    ensures before.OwnRecord?
    ensures var ready, sh := ReadyIn(h, source, a), FilledShape(before, a.defaultValues, |ReadyIn(h, source, a)| - 1);
            State(h, ready, Newest(ready), sh, WithDefaults(j, b.defaultValues))
  {
    var mapped := MappedIn(h, source, a).heap;
    RootIsOwn(h, mapped, |h|, before, j);
    FilledState(h, mapped, |h|, before, j, a.defaultValues, b.defaultValues);
    ReadyIsFilled(h, source, a);
  }

  /** Up to the enum stage nothing older changes, and older containers are where they are expected. */
  lemma ReadyState(h: Heap, source: Slot, canonical: Json, a: StoredProfile, b: Profile) returns (sh: Shape)
    requires Call(h, source, canonical, a, b) && TargetsApart(b.fieldMappings)
    ensures MappedIn(h, source, a).ok && sh.OwnRecord?
    ensures State(h, ReadyIn(h, source, a), Newest(ReadyIn(h, source, a)), sh, BeforeEnums(canonical, b))
    ensures forall p: Path :: |p| >= 1 ==> (Dips(sh, p) <==> BelowShared(h, source, canonical, a, b, p))
  {
    var before := FieldStage(h, source, canonical, a.fieldMappings, b.fieldMappings);
    var j := MapFields(canonical, b.fieldMappings);
    MapFieldsObj(canonical, b.fieldMappings);
    DefaultStage(h, source, a, b, before, j);
    sh := FilledShape(before, a.defaultValues, |ReadyIn(h, source, a)| - 1);
    forall p: Path | |p| >= 1
      ensures Dips(sh, p) <==> BelowShared(h, source, canonical, a, b, p)
    {
      FilledDips(h, before, j, a.defaultValues, sh.ref, p);
    }
  }

  // ---------------------------------------------------------------- the enum stage

  /** The mapping writes something else than what it finds. */
  predicate Rewrites(h: Heap, target: Slot, m: StoredEnumMapping)
  {
    var value := GetByPathIn(h, target, m.path);
    value != NOTHING && LookupIn(h, m.values, value) != value
  }

  /** It does so below an older container. */
  ghost predicate RewritesOlder(h: Heap, target: Slot, sh: Shape, m: StoredEnumMapping)
  {
    m.path != "" && Dips(sh, Split(m.path, '.')) && Rewrites(h, target, m)
  }

  lemma ReadTarget(h0: Heap, h: Heap, s: Slot, sh: Shape, j: Json, path: string)
    requires State(h0, h, s, sh, j)
    ensures Holds(h, GetByPathIn(h, s, path), GetByPath(j, path))
    ensures GetByPathIn(h, s, path) == NOTHING <==> GetByPath(j, path).Undefined?
  {
    StandsHolds(h0, h, s, sh, j);
    if path != "" {
      HoldsWalk(h, s, j, Split(path, '.'));
    }
    HoldsStep(h, GetByPathIn(h, s, path), GetByPath(j, path), "");
  }

  /** Another path finds the same before and after, and comes to an older container before or after. */
  ghost predicate SameThere(h0: Heap, sh: Shape, after: Shape, other: Path)
    requires |other| >= 1
  {
    SlotAt(h0, after, other) == SlotAt(h0, sh, other) && (Dips(after, other) <==> Dips(sh, other))
  }

  ghost predicate SameElsewhere(h0: Heap, sh: Shape, after: Shape, path: string)
  {
    forall other: Path :: |other| >= 1 && (path == "" || Disjoint(Split(path, '.'), other)) ==>
      SameThere(h0, sh, after, other)
  }

  /** A mapping that finds what it writes changes nothing. */
  lemma NoRewrite(h0: Heap, h: Heap, s: Slot, sh: Shape, j: Json, a: StoredEnumMapping, b: EnumMapping)
    requires State(h0, h, s, sh, j) && a.path == b.path && StoresTable(h0, a.values, b.values)
    requires Plain(j, b.path) && !Rewrites(h, s, a)
    ensures EnumStepIn(h, s, a) == Outcome(h, true) && EnumStep(j, b) == j
  {
    ReadTarget(h0, h, s, sh, j, a.path);
    var value, v := GetByPathIn(h, s, a.path), GetByPath(j, b.path);
    if value != NOTHING {
      var path := Split(a.path, '.');
      LookupStored(h0, h, a.values, b.values, value, v);
      if Lookup(b.values, v) != v {
        HoldsLater(h0, h, value, Lookup(b.values, v));
        HoldsOne(h, value, v, Lookup(b.values, v));
      }
      StandsHolds(h0, h, s, sh, j);
      SetPresent(h, s, j, path, value);
      PutOwnValue(j, path);
    }
  }

  /** A mapping that rewrites a value of the target's own containers. */
  lemma OwnRewrite(h0: Heap, h: Heap, s: Slot, sh: Shape, j: Json, a: StoredEnumMapping, b: EnumMapping)
    returns (after: Shape)
    requires State(h0, h, s, sh, j) && a.path == b.path && StoresTable(h0, a.values, b.values)
    requires Plain(j, b.path) && Rewrites(h, s, a) && !RewritesOlder(h, s, sh, a)
    ensures var r := EnumStepIn(h, s, a);
            r.ok && State(h0, r.heap, s, after, EnumStep(j, b)) && SameElsewhere(h0, sh, after, a.path)
  {
    ReadTarget(h0, h, s, sh, j, a.path);
    var value, v := GetByPathIn(h, s, a.path), GetByPath(j, b.path);
    var path, x := Split(a.path, '.'), LookupIn(h, a.values, value);
    LookupStored(h0, h, a.values, b.values, value, v);
    OwnOrDips(h0, sh, j, path);
    WriteIsPut(h0, h, s, sh, j, path, x, Lookup(b.values, v));
    after := PutShape(sh, path, x, |h|);
    forall other: Path | |other| >= 1 && Disjoint(path, other)
      ensures SameThere(h0, sh, after, other)
    {
      PutShapeApart(h0, sh, j, path, x, |h|, other);
    }
  }

  /** A mapping that rewrites a value of an older container changes that container. */
  lemma OldRewrite(h0: Heap, h: Heap, s: Slot, sh: Shape, j: Json, a: StoredEnumMapping, b: EnumMapping)
    requires State(h0, h, s, sh, j) && a.path == b.path && StoresTable(h0, a.values, b.values)
    requires Plain(j, b.path) && RewritesOlder(h, s, sh, a)
    ensures EnumStepIn(h, s, a).ok && !(h0 <= EnumStepIn(h, s, a).heap)
  {
    ReadTarget(h0, h, s, sh, j, a.path);
    var path, x := Split(a.path, '.'), LookupIn(h, a.values, GetByPathIn(h, s, a.path));
    StandsHolds(h0, h, s, sh, j);
    SetPresent(h, s, j, path, x);
    DippingWrite(h0, h, s, sh, j, path, x);
  }

  /** One enum mapping: older containers stay if and only if it does not rewrite below one. */
  lemma OneTranslation(h0: Heap, h: Heap, s: Slot, sh: Shape, j: Json, a: StoredEnumMapping, b: EnumMapping)
    returns (after: Shape)
    requires State(h0, h, s, sh, j) && a.path == b.path && StoresTable(h0, a.values, b.values)
    requires Plain(j, b.path)
    ensures var r := EnumStepIn(h, s, a);
            r.ok && (h0 <= r.heap <==> !RewritesOlder(h, s, sh, a)) &&
            (h0 <= r.heap ==> State(h0, r.heap, s, after, EnumStep(j, b)) && SameElsewhere(h0, sh, after, a.path))
  {
    after := sh;
    if !Rewrites(h, s, a) {
      NoRewrite(h0, h, s, sh, j, a, b);
    } else if RewritesOlder(h, s, sh, a) {
      OldRewrite(h0, h, s, sh, j, a, b);
    } else {
      after := OwnRewrite(h0, h, s, sh, j, a, b);
    }
  }

  /** Older containers are as they were, before the stage and after each of its mappings. */
  ghost predicate KeptThroughout(h0: Heap, h: Heap, s: Slot, ms: seq<StoredEnumMapping>)
  {
    h0 <= EnumsIn(h, s, ms).heap && (ms != [] ==> KeptThroughout(h0, h, s, ms[..|ms| - 1]))
  }

  ghost predicate NoneRewritesOlder(h: Heap, s: Slot, sh: Shape, ms: seq<StoredEnumMapping>)
  {
    forall i :: 0 <= i < |ms| ==> !RewritesOlder(h, s, sh, ms[i])
  }

  lemma NoneOneMore(h: Heap, s: Slot, sh: Shape, ms: seq<StoredEnumMapping>)
    requires ms != []
    ensures NoneRewritesOlder(h, s, sh, ms) <==>
            NoneRewritesOlder(h, s, sh, ms[..|ms| - 1]) && !RewritesOlder(h, s, sh, ms[|ms| - 1])
  {
    var init := ms[..|ms| - 1];
    if NoneRewritesOlder(h, s, sh, init) && !RewritesOlder(h, s, sh, ms[|ms| - 1]) {
      forall i | 0 <= i < |ms|
        ensures !RewritesOlder(h, s, sh, ms[i])
      {
        assert i < |init| ==> init[i] == ms[i];
      }
    }
    if NoneRewritesOlder(h, s, sh, ms) {
      assert forall i :: 0 <= i < |init| ==> init[i] == ms[i];
    }
  }

  lemma EnumsInit(h0: Heap, j: Json, a: seq<StoredEnumMapping>, b: seq<EnumMapping>)
    requires a != [] && StoresEnums(h0, a, b) && EnumPathsApart(b) && AllPlain(j, b)
    ensures var init, last := b[..|b| - 1], b[|b| - 1];
            StoresEnums(h0, a[..|a| - 1], init) && EnumPathsApart(init) && AllPlain(j, init) &&
            (last.path != "" ==> NotAbout(init, Split(last.path, '.'))) &&
            Plain(WithEnums(j, init), last.path) &&
            GetByPath(WithEnums(j, init), last.path) == GetByPath(j, last.path)
  {
    var init, last := b[..|b| - 1], b[|b| - 1];
    forall i | 0 <= i < |init|
      ensures Apart(init[i].path, last.path)
    {
      assert init[i] == b[i];
    }
    StaysPlain(j, init, last);
  }

  /** A mapping apart from those before it rewrites after them what it rewrites before them. */
  lemma SameRewrite(h0: Heap, h: Heap, later: Heap, s: Slot, sh: Shape, after: Shape, j: Json, now: Json,
                    m: StoredEnumMapping)
    requires State(h0, h, s, sh, j) && State(h0, later, s, after, now)
    requires GetByPath(now, m.path) == GetByPath(j, m.path)
    requires m.path != "" ==> SameThere(h0, sh, after, Split(m.path, '.'))
    ensures RewritesOlder(later, s, after, m) <==> RewritesOlder(h, s, sh, m)
  {
    if m.path != "" {
      var path := Split(m.path, '.');
      WalkShape(h0, h, s, sh, j, path);
      WalkShape(h0, later, s, after, now, path);
      ReadTarget(h0, h, s, sh, j, m.path);
      ReadTarget(h0, later, s, after, now, m.path);
      TextHolds(h, GetByPathIn(h, s, m.path), GetByPath(j, m.path));
      TextHolds(later, GetByPathIn(later, s, m.path), GetByPath(now, m.path));
    }
  }

  lemma SameTwice(h0: Heap, sh: Shape, mid: Shape, after: Shape, b: seq<EnumMapping>)
    requires b != []
    requires forall other: Path :: |other| >= 1 && NotAbout(b[..|b| - 1], other) ==> SameThere(h0, sh, mid, other)
    requires SameElsewhere(h0, mid, after, b[|b| - 1].path)
    ensures forall other: Path :: |other| >= 1 && NotAbout(b, other) ==> SameThere(h0, sh, after, other)
  {
    forall other: Path | |other| >= 1 && NotAbout(b, other)
      ensures SameThere(h0, sh, after, other)
    {
      var init := b[..|b| - 1];
      assert forall i :: 0 <= i < |init| ==> init[i] == b[i];
      assert NotAbout(init, other);
      assert SameThere(h0, sh, mid, other) && SameThere(h0, mid, after, other);
    }
  }

  /**
   The enum stage: older containers stay as they are throughout if and only if no mapping
   rewrites a value below one; then the stage does what WithEnums says.
   */
  lemma {:induction false} EnumStage(h0: Heap, h: Heap, s: Slot, sh: Shape, j: Json,
                                     a: seq<StoredEnumMapping>, b: seq<EnumMapping>) returns (after: Shape)
    requires State(h0, h, s, sh, j) && StoresEnums(h0, a, b) && EnumPathsApart(b) && AllPlain(j, b)
    ensures KeptThroughout(h0, h, s, a) <==> NoneRewritesOlder(h, s, sh, a)
    ensures NoneRewritesOlder(h, s, sh, a) ==>
              EnumsIn(h, s, a).ok && State(h0, EnumsIn(h, s, a).heap, s, after, WithEnums(j, b)) &&
              forall other: Path :: |other| >= 1 && NotAbout(b, other) ==> SameThere(h0, sh, after, other)
  {
    if a == [] {
      after := sh;
    } else {
      var n := |a| - 1;
      EnumsInit(h0, j, a, b);
      var mid := EnumStage(h0, h, s, sh, j, a[..n], b[..n]);
      NoneOneMore(h, s, sh, a);
      after := mid;
      if NoneRewritesOlder(h, s, sh, a[..n]) {
        var later := EnumsIn(h, s, a[..n]).heap;
        SameRewrite(h0, h, later, s, sh, mid, j, WithEnums(j, b[..n]), a[n]);
        after := OneTranslation(h0, later, s, mid, WithEnums(j, b[..n]), a[n], b[n]);
        if !RewritesOlder(h, s, sh, a[n]) {
          SameTwice(h0, sh, mid, after, b);
        }
      }
    }
  }

  // ---------------------------------------------------------------- the whole call

  /** Profiles whose targets and enum paths do not overlap, the latter reading plain entries. */
  predicate WithoutOverlap(canonical: Json, b: Profile)
  {
    EnumPathsApart(b.enumMappings) && AllPlain(BeforeEnums(canonical, b), b.enumMappings)
  }

  /** An enum mapping rewrites what it finds, strictly below a container of the caller or the profile. */
  ghost predicate RewritesShared(h: Heap, source: Slot, canonical: Json, a: StoredProfile, b: Profile,
                                 m: StoredEnumMapping)
  {
    m.path != "" && BelowShared(h, source, canonical, a, b, Split(m.path, '.')) &&
    Rewrites(ReadyIn(h, source, a), Newest(ReadyIn(h, source, a)), m)
  }

  ghost predicate NoneRewritesShared(h: Heap, source: Slot, canonical: Json, a: StoredProfile, b: Profile)
  {
    forall i :: 0 <= i < |a.enumMappings| ==> !RewritesShared(h, source, canonical, a, b, a.enumMappings[i])
  }

  lemma NoneSharedIsNoneOlder(h: Heap, source: Slot, canonical: Json, a: StoredProfile, b: Profile, sh: Shape)
    requires forall p: Path :: |p| >= 1 ==> (Dips(sh, p) <==> BelowShared(h, source, canonical, a, b, p))
    ensures NoneRewritesShared(h, source, canonical, a, b) <==>
            NoneRewritesOlder(ReadyIn(h, source, a), Newest(ReadyIn(h, source, a)), sh, a.enumMappings)
  {
    var ready := ReadyIn(h, source, a);
    forall m: StoredEnumMapping
      ensures RewritesShared(h, source, canonical, a, b, m) <==> RewritesOlder(ready, Newest(ready), sh, m)
    {
    }
  }

  /**
   The caller's payload and the profile, and whatever else there was, are as before the call
   throughout if and only if no enum mapping rewrites a value strictly below a container that
   came into the payload from them.
   */
  lemma CallerKeepsIff(h: Heap, source: Slot, canonical: Json, a: StoredProfile, b: Profile)
    requires Call(h, source, canonical, a, b) && TargetsApart(b.fieldMappings) && WithoutOverlap(canonical, b)
    ensures MappedIn(h, source, a).ok
    ensures KeptThroughout(h, ReadyIn(h, source, a), Newest(ReadyIn(h, source, a)), a.enumMappings) <==>
            NoneRewritesShared(h, source, canonical, a, b)
  {
    var ready := ReadyIn(h, source, a);
    var sh := ReadyState(h, source, canonical, a, b);
    NoneSharedIsNoneOlder(h, source, canonical, a, b, sh);
    var after := EnumStage(h, ready, Newest(ready), sh, BeforeEnums(canonical, b), a.enumMappings, b.enumMappings);
  }

  /** What is delivered on the heap is what the value pipeline says. */
  ghost predicate Delivers(h: Heap, d: Delivery, r: MappingResult)
  {
    match r
    case Mapped(payload) => d.Delivered? && Holds(h, d.payload, payload)
    case MissingFields(missing) => d == Lacking(missing)
  }

  lemma {:induction false} UnfilledStored(h: Heap, s: Slot, j: Json, required: seq<string>)
    requires Holds(h, s, j)
    ensures Unfilled(h, s, required) == MissingIn(j, required)
  {
    if required != [] {
      ReadStored(h, h, s, j, required[0]);
      HoldsStep(h, GetByPathIn(h, s, required[0]), GetByPath(j, required[0]), "");
      UnfilledStored(h, s, j, required[1..]);
    }
  }

  lemma EnumsDone(h: Heap, source: Slot, canonical: Json, a: StoredProfile, b: Profile)
    requires Call(h, source, canonical, a, b) && TargetsApart(b.fieldMappings) && WithoutOverlap(canonical, b)
    requires NoneRewritesShared(h, source, canonical, a, b)
    ensures var ready := ReadyIn(h, source, a);
            var done := EnumsIn(ready, Newest(ready), a.enumMappings);
            MappedIn(h, source, a).ok && done.ok && h <= done.heap &&
            Holds(done.heap, Newest(ready), WithEnums(BeforeEnums(canonical, b), b.enumMappings))
  {
    var ready := ReadyIn(h, source, a);
    var sh := ReadyState(h, source, canonical, a, b);
    var j := BeforeEnums(canonical, b);
    NoneSharedIsNoneOlder(h, source, canonical, a, b, sh);
    var after := EnumStage(h, ready, Newest(ready), sh, j, a.enumMappings, b.enumMappings);
    StandsHolds(h, EnumsIn(ready, Newest(ready), a.enumMappings).heap, Newest(ready), after,
                WithEnums(j, b.enumMappings));
  }

  /** In that case the call delivers what MapPayload says, and everything older is unchanged after it. */
  lemma MappedAsValues(h: Heap, source: Slot, canonical: Json, a: StoredProfile, b: Profile)
    requires Call(h, source, canonical, a, b) && TargetsApart(b.fieldMappings) && WithoutOverlap(canonical, b)
    requires NoneRewritesShared(h, source, canonical, a, b)
    ensures h <= MapIn(h, source, a).0
    ensures Delivers(MapIn(h, source, a).0, MapIn(h, source, a).1, MapPayload(canonical, b))
  {
    EnumsDone(h, source, canonical, a, b);
    var ready := ReadyIn(h, source, a);
    UnfilledStored(EnumsIn(ready, Newest(ready), a.enumMappings).heap, Newest(ready),
                   WithEnums(BeforeEnums(canonical, b), b.enumMappings), a.requiredFields);
  }

  // ---------------------------------------------------------------- the required fields on the heap

  /** The path finds undefined, null or the empty text. */
  function FindsNothing(h: Heap, payload: Slot): string -> bool
  {
    (path: string) => GetByPathIn(h, payload, path) in [Lit(Undefined), Lit(Null), Lit(Str(""))]
  }

  lemma FindsNothingIff(h: Heap, payload: Slot, path: string)
    ensures FindsNothing(h, payload)(path) == IsMissingSlot(GetByPathIn(h, payload, path))
  {
  }

  lemma {:induction false} UnfilledExact(h: Heap, payload: Slot, required: seq<string>)
    ensures Unfilled(h, payload, required) == Filter(required, FindsNothing(h, payload))
  {
    if required != [] {
      UnfilledExact(h, payload, required[1..]);
      FilterFirst(required, FindsNothing(h, payload));
      FindsNothingIff(h, payload, required[0]);
    }
  }

  lemma NoneUnfilledIff(h: Heap, payload: Slot, required: seq<string>)
    ensures Filter(required, FindsNothing(h, payload)) == [] <==>
            forall path <- required :: GetByPathIn(h, payload, path) !in [Lit(Undefined), Lit(Null), Lit(Str(""))]
  {
    var missing := Filter(required, FindsNothing(h, payload));
    forall path
      ensures path in missing <==>
              path in required && GetByPathIn(h, payload, path) in [Lit(Undefined), Lit(Null), Lit(Str(""))]
    {
      FilterMember(required, FindsNothing(h, payload), path);
    }
    if missing != [] {
      assert missing[0] in missing;
    }
  }

  /**
   Whatever is shared: a call that does not throw on the way delivers the payload exactly when
   no required path finds undefined, null or the empty text in it; otherwise it reports
   exactly those that do, in order.
   */
  lemma DeliversIffFilled(h: Heap, source: Slot, a: StoredProfile)
    ensures var ready := ReadyIn(h, source, a);
            var done := EnumsIn(ready, Newest(ready), a.enumMappings);
            (MapIn(h, source, a).1 == Failed <==> !MappedIn(h, source, a).ok || !done.ok) &&
            (MappedIn(h, source, a).ok && done.ok ==>
              MapIn(h, source, a) ==
              (done.heap,
               if forall path <- a.requiredFields ::
                    GetByPathIn(done.heap, Newest(ready), path) !in [Lit(Undefined), Lit(Null), Lit(Str(""))]
               then Delivered(Newest(ready))
               else Lacking(Filter(a.requiredFields, FindsNothing(done.heap, Newest(ready))))))
  {
    var ready := ReadyIn(h, source, a);
    var done := EnumsIn(ready, Newest(ready), a.enumMappings);
    UnfilledExact(done.heap, Newest(ready), a.requiredFields);
    NoneUnfilledIff(done.heap, Newest(ready), a.requiredFields);
  }

  // ---------------------------------------------------------------- the enum stage on the heap

  /** Each path of the payload then holds the translation of what was there before the stage. */
  lemma StageTranslates(h: Heap, source: Slot, canonical: Json, a: StoredProfile, b: Profile, i: nat)
    requires Call(h, source, canonical, a, b) && TargetsApart(b.fieldMappings) && WithoutOverlap(canonical, b)
    requires NoneRewritesShared(h, source, canonical, a, b) && i < |b.enumMappings| && b.enumMappings[i].path != ""
    ensures var ready := ReadyIn(h, source, a);
            var done, m := EnumsIn(ready, Newest(ready), a.enumMappings), b.enumMappings[i];
            done.ok && Holds(done.heap, GetByPathIn(done.heap, Newest(ready), m.path),
                             Translated(m, GetByPath(BeforeEnums(canonical, b), m.path)))
  {
    EnumsDone(h, source, canonical, a, b);
    var ready, j := ReadyIn(h, source, a), BeforeEnums(canonical, b);
    var done := EnumsIn(ready, Newest(ready), a.enumMappings);
    EnumStageTranslates(j, b.enumMappings, i);
    HoldsWalk(done.heap, Newest(ready), WithEnums(j, b.enumMappings), Split(b.enumMappings[i].path, '.'));
  }

  /** And every path that overlaps none of them holds what it held before. */
  lemma StageFrame(h: Heap, source: Slot, canonical: Json, a: StoredProfile, b: Profile, other: Path)
    requires Call(h, source, canonical, a, b) && TargetsApart(b.fieldMappings) && WithoutOverlap(canonical, b)
    requires NoneRewritesShared(h, source, canonical, a, b) && |other| >= 1 && NotAbout(b.enumMappings, other)
    ensures var ready := ReadyIn(h, source, a);
            var done := EnumsIn(ready, Newest(ready), a.enumMappings);
            done.ok && Holds(ready, Walk(ready, Newest(ready), other), Get(BeforeEnums(canonical, b), other)) &&
            Holds(done.heap, Walk(done.heap, Newest(ready), other), Get(BeforeEnums(canonical, b), other))
  {
    EnumsDone(h, source, canonical, a, b);
    var ready, j := ReadyIn(h, source, a), BeforeEnums(canonical, b);
    var done := EnumsIn(ready, Newest(ready), a.enumMappings);
    EnumStageFrame(j, b.enumMappings, other);
    HoldsWalk(done.heap, Newest(ready), WithEnums(j, b.enumMappings), other);
    var sh := ReadyState(h, source, canonical, a, b);
    StandsHolds(h, ready, Newest(ready), sh, j);
    HoldsWalk(ready, Newest(ready), j, other);
  }

  /** And the order of the enum mappings does not matter. */
  lemma StageOrderIndependent(h: Heap, source: Slot, canonical: Json, a: StoredProfile, b: Profile,
                              others: seq<StoredEnumMapping>, values: seq<EnumMapping>)
    requires Call(h, source, canonical, a, b) && TargetsApart(b.fieldMappings) && WithoutOverlap(canonical, b)
    requires NoneRewritesShared(h, source, canonical, a, b)
    requires multiset(a.enumMappings) == multiset(others) && multiset(b.enumMappings) == multiset(values)
    requires StoresEnums(h, others, values)
    ensures var again := a.(enumMappings := others);
            h <= MapIn(h, source, again).0 &&
            Delivers(MapIn(h, source, again).0, MapIn(h, source, again).1, MapPayload(canonical, b))
  {
    var again, same := a.(enumMappings := others), b.(enumMappings := values);
    var j := BeforeEnums(canonical, b);
    EnumApartPermutes(b.enumMappings, values);
    PlainPermutes(j, b.enumMappings, values);
    assert ReadyIn(h, source, again) == ReadyIn(h, source, a);
    forall i | 0 <= i < |others|
      ensures !RewritesShared(h, source, canonical, again, same, others[i])
    {
      assert others[i] in multiset(a.enumMappings);
      var k :| 0 <= k < |a.enumMappings| && a.enumMappings[k] == others[i];
      assert !RewritesShared(h, source, canonical, a, b, a.enumMappings[k]);
    }
    MappedAsValues(h, source, canonical, again, same);
    EnumOrderIndependent(j, b.enumMappings, values);
  }

  // ---------------------------------------------------------------- what sharing does

  /**
   When two paths of a payload find one container of the caller or the profile, an enum
   mapping that rewrites a value below the one rewrites it below the other as well.
   */
  lemma BothChange(h0: Heap, h: Heap, s: Slot, sh: Shape, j: Json, a: StoredEnumMapping, p: Path, q: Path, rest: Path)
    requires State(h0, h, s, sh, j) && |p| >= 1 && |q| >= 1 && |rest| >= 1 && !Dips(sh, p) && !Dips(sh, q)
    requires Walk(h, s, p).At? && Walk(h, s, p).ref < |h0| && Walk(h, s, q) == Walk(h, s, p)
    requires a.path != "" && Split(a.path, '.') == p + rest && Present(j, p + rest) && Rewrites(h, s, a)
    ensures var later := EnumStepIn(h, s, a).heap;
            Walk(later, s, q + rest) == LookupIn(h, a.values, Walk(h, s, q + rest)) != Walk(h, s, q + rest)
  {
    var r, x := Walk(h, s, p), LookupIn(h, a.values, GetByPathIn(h, s, a.path));
    var sub := Get(j, p);
    WalkConcat(h, s, p, rest);
    WalkConcat(h, s, q, rest);
    OldTree(h0, h, s, sh, j, p);
    PresentBelow(j, p, rest);
    SetThrough(h, |h0|, s, sh, p, rest, x);
    var later := SetIn(h, r, rest, x).heap;
    HoldsLater(h0, h, r, sub);
    PresentReadsBack(h, r, sub, rest, x);
    SetPresent(h, r, sub, rest, x);
    forall k | |h0| <= k < |h|
      ensures later[k] == h[k]
    {
      OldOnly(h0, h, r, sub, rest, x, k);
    }
    OwnPathStays(h, later, |h0|, s, sh, q);
    WalkConcat(later, s, q, rest);
  }

  /** The payload {x: {b: "in"}}: the object is at 0 and the one inside it at 1. */
  function InputHeap(): Heap
  {
    [Record(map["x" := At(1)]), Record(map["b" := Lit(Str("in"))])]
  }

  /** `x` is copied to `a` and to `c`, and `in` is translated to `out` at `a.b`. */
  function InputProfile(): StoredProfile
  {
    Profile([FieldMapping("a", Copy("x")), FieldMapping("c", Copy("x"))], map[],
            [EnumMapping("a.b", map["in" := Lit(Str("out"))])], [])
  }

  lemma InputPaths()
    ensures Split("x", '.') == ["x"] && Split("a", '.') == ["a"] && Split("c", '.') == ["c"]
    ensures Split("a.b", '.') == ["a", "b"]
  {
    SplitJoin(["x"], '.');
    SplitJoin(["a"], '.');
    SplitJoin(["c"], '.');
    SplitJoin(["a", "b"], '.');
    assert Join(["a", "b"], ".") == "a.b";
  }

  /** One segment: read an entry, and write one. */
  lemma OneSegment(h: Heap, s: Slot, seg: string, x: Slot)
    ensures Walk(h, s, [seg]) == StepIn(h, s, seg) && SetIn(h, s, [seg], x) == AssignIn(h, s, seg, x)
  {
    var path: Path := [seg];
    assert path[1..] == [];
  }

  lemma InputMapped()
    ensures MappedIn(InputHeap(), At(0), InputProfile()) ==
            Outcome(InputHeap() + [Record(map["a" := At(1), "c" := At(1)])], true)
  {
    var h, ms := InputHeap(), InputProfile().fieldMappings;
    var h2 := h + [Record(map[])];
    var h3 := h + [Record(map["a" := At(1)])];
    InputPaths();
    OneSegment(h2, At(0), "x", NOTHING);
    OneSegment(h2, At(2), "a", At(1));
    assert ms[..1][..0] == [] && ms[..2] == ms;
    assert ApplyIn(h2, At(0), ms[0], At(2)) == Outcome(h3, true);
    assert MapFieldsIn(h2, At(0), ms[..1], At(2)) == Outcome(h3, true);
    OneSegment(h3, At(0), "x", NOTHING);
    OneSegment(h3, At(2), "c", At(1));
    assert h3[2 := Record(map["a" := At(1), "c" := At(1)])] == h + [Record(map["a" := At(1), "c" := At(1)])];
    assert ApplyIn(h3, At(0), ms[1], At(2)).heap == h + [Record(map["a" := At(1), "c" := At(1)])];
  }

  lemma InputReady()
    ensures var n := Record(map["a" := At(1), "c" := At(1)]);
            ReadyIn(InputHeap(), At(0), InputProfile()) == InputHeap() + [n, n, n]
  {
    InputMapped();
    var n := Record(map["a" := At(1), "c" := At(1)]);
    var mapped := InputHeap() + [n];
    assert FieldsOf(mapped, At(2)) == n.fields;
    assert Filled(n.fields, map[]) == n.fields;
    assert mapped + [n, n] == InputHeap() + [n, n, n];
  }

  /** Translating `b` below `a` or below `c` is translating it in the one object both hold. */
  lemma CopyTranslated(h: Heap, seg: string, m: StoredEnumMapping, from: string, to: string)
    requires |h| == 5 && h[1] == Record(map["b" := Lit(Str(from))])
    requires h[4] == Record(map["a" := At(1), "c" := At(1)]) && (seg == "a" || seg == "c")
    requires m.path != "" && Split(m.path, '.') == [seg, "b"] && m.values == map[from := Lit(Str(to))]
    ensures EnumStepIn(h, At(4), m) == Outcome(h[1 := Record(map["b" := Lit(Str(to))])], true)
  {
    var path: Path, x := [seg, "b"], Lit(Str(to));
    assert path[1..] == ["b"];
    OneSegment(h, At(1), "b", x);
    assert Walk(h, At(4), path) == Walk(h, At(1), ["b"]) == Lit(Str(from));
    assert SetIn(h, At(4), path, x) == SetIn(h, At(1), ["b"], x);
    assert TextIn(h, Lit(Str(from))) == from;
    assert h[1].fields["b" := x] == map["b" := x];
  }

  lemma OneEnum(h: Heap, s: Slot, ms: seq<StoredEnumMapping>)
    requires |ms| == 1
    ensures EnumsIn(h, s, ms) == EnumStepIn(h, s, ms[0])
  {
    assert ms[..0] == [];
    assert EnumsIn(h, s, []) == Outcome(h, true);
  }

  lemma TwoSegments(h: Heap, s: Slot, a: string, b: string)
    ensures Walk(h, s, [a, b]) == StepIn(h, StepIn(h, s, a), b)
  {
    var path: Path := [a, b];
    assert path[1..] == [b];
    OneSegment(h, StepIn(h, s, a), b, NOTHING);
  }

  /** The call translates `c.b` along with `a.b`, and `x.b` in the caller's own payload. */
  lemma CopiesChangeTogether()
    ensures var r := MapIn(InputHeap(), At(0), InputProfile());
            r.1.Delivered? && Walk(r.0, r.1.payload, ["a", "b"]) == Lit(Str("out")) &&
            Walk(r.0, r.1.payload, ["c", "b"]) == Lit(Str("out")) &&
            Walk(InputHeap(), At(0), ["x", "b"]) == Lit(Str("in")) &&
            Walk(r.0, At(0), ["x", "b"]) == Lit(Str("out"))
  {
    var ready, a := ReadyIn(InputHeap(), At(0), InputProfile()), InputProfile();
    InputMapped();
    InputReady();
    InputPaths();
    CopyTranslated(ready, "a", a.enumMappings[0], "in", "out");
    OneEnum(ready, At(4), a.enumMappings);
    var done := EnumsIn(ready, At(4), a.enumMappings);
    TwoSegments(done.heap, At(4), "a", "b");
    TwoSegments(done.heap, At(4), "c", "b");
    TwoSegments(InputHeap(), At(0), "x", "b");
    TwoSegments(done.heap, At(0), "x", "b");
  }

  /** Throughout is not at the end: a mapping at `c.b` back to `in` undoes the one at `a.b`. */
  lemma UndoneLater(back: StoredEnumMapping)
    requires back.path != "" && Split(back.path, '.') == ["c", "b"] && back.values == map["out" := Lit(Str("in"))]
    ensures var ready, m := ReadyIn(InputHeap(), At(0), InputProfile()), InputProfile().enumMappings[0];
            !(InputHeap() <= EnumsIn(ready, At(4), [m]).heap) &&
            EnumsIn(ready, At(4), [m, back]) == Outcome(ready, true)
  {
    var ready, m := ReadyIn(InputHeap(), At(0), InputProfile()), InputProfile().enumMappings[0];
    InputReady();
    InputPaths();
    CopyTranslated(ready, "a", m, "in", "out");
    OneEnum(ready, At(4), [m]);
    var mid := EnumStepIn(ready, At(4), m).heap;
    CopyTranslated(mid, "c", back, "out", "in");
    assert [m, back][..1] == [m];
    assert mid[1 := ready[1]] == ready;
    assert mid[1] != InputHeap()[1];
  }

  /** The same profile on values. */
  function ValueProfile(): Profile
  {
    Profile([FieldMapping("a", Copy("x")), FieldMapping("c", Copy("x"))], map[],
            [EnumMapping("a.b", map["in" := Str("out")])], [])
  }

  function InputValue(): Json
  {
    Obj(map["x" := Obj(map["b" := Str("in")])])
  }

  lemma InputCall()
    ensures Call(InputHeap(), At(0), InputValue(), InputProfile(), ValueProfile())
  {
  }

  lemma ValueMapped()
    ensures var inner := Obj(map["b" := Str("in")]);
            MapFields(InputValue(), ValueProfile().fieldMappings) == Obj(map["a" := inner, "c" := inner])
  {
    var inner, input := Obj(map["b" := Str("in")]), InputValue();
    var ms := ValueProfile().fieldMappings;
    InputPaths();
    GetOne(input, "x");
    assert ms[..1][..0] == [] && ms[..2] == ms;
    PutOne(Obj(map[]), "a", inner);
    assert MapFields(input, ms[..1]) == Obj(map["a" := inner]);
    PutOne(Obj(map["a" := inner]), "c", inner);
  }

  lemma ValueTranslated(j: Json)
    requires j == Obj(map["a" := Obj(map["b" := Str("in")]), "c" := Obj(map["b" := Str("in")])])
    ensures EnumStep(j, ValueProfile().enumMappings[0]) ==
            Obj(map["a" := Obj(map["b" := Str("out")]), "c" := Obj(map["b" := Str("in")])])
  {
    InputPaths();
    GetTwo(j, "a", "b");
    PutTwo(j, "a", "b", Str("out"));
    assert Obj(map["b" := Str("in")]).fields["b" := Str("out")] == map["b" := Str("out")];
    assert Lookup(ValueProfile().enumMappings[0].values, Str("in")) == Str("out");
  }

  /** On values, where nothing is shared, only `a.b` is translated. */
  lemma CopiesOnValues()
    ensures MapPayload(InputValue(), ValueProfile()) ==
            MappingResult.Mapped(Obj(map["a" := Obj(map["b" := Str("out")]), "c" := Obj(map["b" := Str("in")])]))
  {
    var b := ValueProfile();
    ValueMapped();
    var j := MapFields(InputValue(), b.fieldMappings);
    assert WithDefaults(j, b.defaultValues).fields == j.fields;
    ValueTranslated(j);
    assert b.enumMappings[..0] == [];
    assert WithEnums(j, b.enumMappings) == EnumStep(j, b.enumMappings[0]);
  }

  lemma GetOne(v: Json, seg: string)
    ensures Get(v, [seg]) == Step(v, seg)
  {
    var path: Path := [seg];
    assert path[1..] == [];
  }

  lemma PutOne(v: Json, seg: string, x: Json)
    ensures Put(v, [seg], x) == Assign(v, seg, x)
  {
  }

  lemma PutTwo(v: Json, a: string, b: string, x: Json)
    ensures Put(v, [a, b], x) == Assign(v, a, Assign(Descend(v, a), b, x))
  {
    var path: Path := [a, b];
    assert path[1..] == [b];
  }

  /** A profile whose default for `d` is the object at 1, with an enum mapping that swaps two texts in it. */
  function DefaultProfile(): StoredProfile
  {
    Profile([], map["d" := At(1)],
            [EnumMapping("d.k", map["in" := Lit(Str("out")), "out" := Lit(Str("in"))])], [])
  }

  function Swapped(text: string): string
  {
    if text == "in" then "out" else "in"
  }

  lemma DefaultReady(h: Heap)
    requires |h| >= 2 && h[0] == Record(map[])
    ensures var n := Record(map["d" := At(1)]);
            MappedIn(h, At(0), DefaultProfile()).ok &&
            ReadyIn(h, At(0), DefaultProfile()) == h + [Record(map[]), n, n]
  {
    var mapped, n := h + [Record(map[])], Record(map["d" := At(1)]);
    assert FieldsOf(mapped, At(|h|)) == map[];
    assert Filled(map[], DefaultProfile().defaultValues) == n.fields;
    assert mapped + [n, n] == h + [Record(map[]), n, n];
  }

  lemma DefaultPath()
    ensures Split("d.k", '.') == ["d", "k"]
  {
    SplitJoin(["d", "k"], '.');
    assert Join(["d", "k"], ".") == "d.k";
  }

  lemma DefaultTranslated(h: Heap, root: nat, text: string)
    requires 1 < root < |h| && h[root] == Record(map["d" := At(1)]) && h[1] == Record(map["k" := Lit(Str(text))])
    requires text == "in" || text == "out"
    ensures EnumStepIn(h, At(root), DefaultProfile().enumMappings[0]) ==
            Outcome(h[1 := Record(map["k" := Lit(Str(Swapped(text)))])], true)
  {
    var path: Path, x := ["d", "k"], Lit(Str(Swapped(text)));
    DefaultPath();
    assert path[1..] == ["k"];
    TwoSegments(h, At(root), "d", "k");
    OneSegment(h, At(1), "k", x);
    assert SetIn(h, At(root), path, x) == SetIn(h, At(1), ["k"], x);
    assert TextIn(h, Lit(Str(text))) == text;
    assert h[1].fields["k" := x] == map["k" := x];
  }

  /** One call with that profile. */
  lemma DefaultCall(h: Heap, text: string)
    requires |h| >= 2 && h[0] == Record(map[]) && h[1] == Record(map["k" := Lit(Str(text))])
    requires text == "in" || text == "out"
    ensures var r := MapIn(h, At(0), DefaultProfile());
            |h| <= |r.0| && r.0[0] == h[0] && r.0[1] == Record(map["k" := Lit(Str(Swapped(text)))]) &&
            r.1.Delivered? && Walk(r.0, r.1.payload, ["d", "k"]) == Lit(Str(Swapped(text)))
  {
    var a := DefaultProfile();
    DefaultReady(h);
    var ready := ReadyIn(h, At(0), a);
    assert ready[1] == h[1];
    DefaultTranslated(ready, |h| + 2, text);
    OneEnum(ready, At(|h| + 2), a.enumMappings);
    var done := EnumsIn(ready, At(|h| + 2), a.enumMappings);
    TwoSegments(done.heap, At(|h| + 2), "d", "k");
  }

  /** The call rewrites the profile's own default, so the next call on the same payload delivers something else. */
  lemma NextCallDiffers(h: Heap)
    requires |h| >= 2 && h[0] == Record(map[]) && h[1] == Record(map["k" := Lit(Str("in"))])
    ensures var first := MapIn(h, At(0), DefaultProfile());
            var next := MapIn(first.0, At(0), DefaultProfile());
            first.1.Delivered? && Walk(first.0, first.1.payload, ["d", "k"]) == Lit(Str("out")) &&
            next.1.Delivered? && Walk(next.0, next.1.payload, ["d", "k"]) == Lit(Str("in"))
  {
    DefaultCall(h, "in");
    DefaultCall(MapIn(h, At(0), DefaultProfile()).0, "out");
  }
}

/**
 The mapping engine on containers that are shared: a copied value is the source's own
 container, the stages copy the top level only, and writes are in place. The stages of
 MappingEngine are what this pipeline computes when nothing is written below a container
 that the caller or the profile holds; when that is, and what happens otherwise, is here.
 */
module SharedMapping {
  import opened Strings
  import opened Json
  import opened ObjectPath
  import opened Containers
  import opened MappingEngine

  type StoredTransform = TransformOf<Slot>
  type StoredFieldMapping = FieldMappingOf<Slot>
  type StoredEnumMapping = EnumMappingOf<Slot>
  type StoredProfile = ProfileOf<Slot>

  // ---------------------------------------------------------------- one mapping

  predicate Nullish(s: Slot)
  {
    s == Lit(Undefined) || s == Lit(Null)
  }

  /** `table?.[raw] ?? raw`. */
  function LookupIn(h: Heap, table: map<string, Slot>, raw: Slot): Slot
  {
    var key := TextIn(h, raw);
    if key in table && !Nullish(table[key]) then table[key] else raw
  }

  function CollectIn(h: Heap, source: Slot, paths: seq<string>): seq<Json>
  {
    if paths == [] then []
    else
      var s := GetByPathIn(h, source, paths[0]);
      (if Nullish(s) then [] else [Unfold(h, s, {})]) + CollectIn(h, source, paths[1..])
  }

  function EvaluateIn(h: Heap, source: Slot, t: StoredTransform): Slot
  {
    match t
    case Constant(value) => value
    case Combine(sources, separator) =>
      Lit(Str(Trim(JoinTexts(CollectIn(h, source, sources), if separator == "" then " " else separator))))
    case BooleanToYesNo(path) => Lit(YesNo(Unfold(h, GetByPathIn(h, source, path), {})))
    case YesNoToBoolean(path) => Lit(FromYesNo(Unfold(h, GetByPathIn(h, source, path), {})))
    case EnumMap(path, table) => LookupIn(h, table, GetByPathIn(h, source, path))
    case Conditional(path, equals, whenTrue, whenFalse) =>
      if GetByPathIn(h, source, path) == equals then whenTrue else whenFalse
    case Copy(path) => GetByPathIn(h, source, path)
  }

  function ApplyIn(h: Heap, source: Slot, m: StoredFieldMapping, target: Slot): (r: Outcome)
    ensures |h| <= |r.heap|
  {
    SetByPathIn(h, target, m.target, EvaluateIn(h, source, m.transform))
  }

  function MapFieldsIn(h: Heap, source: Slot, ms: seq<StoredFieldMapping>, target: Slot): (r: Outcome)
    ensures |h| <= |r.heap|
  {
    if ms == [] then Outcome(h, true)
    else
      var init := MapFieldsIn(h, source, ms[..|ms| - 1], target);
      if init.ok then ApplyIn(init.heap, source, ms[|ms| - 1], target) else init
  }

  // ---------------------------------------------------------------- later stages

  /** `{ ...payload }` of an object, which is what the stages are given. */
  function FieldsOf(h: Heap, s: Slot): map<string, Slot>
  {
    if s.At? && s.ref < |h| && h[s.ref].Record? then h[s.ref].fields else map[]
  }

  function Filled(fields: map<string, Slot>, defaults: map<string, Slot>): map<string, Slot>
  {
    map k | k in fields.Keys + defaults.Keys ::
      if k in defaults && (k !in fields || fields[k] == NOTHING) then defaults[k] else fields[k]
  }

  function EnumStepIn(h: Heap, target: Slot, m: StoredEnumMapping): (r: Outcome)
    ensures |h| <= |r.heap|
  {
    var value := GetByPathIn(h, target, m.path);
    if value == NOTHING then Outcome(h, true) else SetByPathIn(h, target, m.path, LookupIn(h, m.values, value))
  }

  function EnumsIn(h: Heap, target: Slot, ms: seq<StoredEnumMapping>): (r: Outcome)
    ensures |h| <= |r.heap|
  {
    if ms == [] then Outcome(h, true)
    else
      var init := EnumsIn(h, target, ms[..|ms| - 1]);
      if init.ok then EnumStepIn(init.heap, target, ms[|ms| - 1]) else init
  }

  predicate IsMissingSlot(s: Slot)
  {
    Nullish(s) || s == Lit(Str(""))
  }

  function Unfilled(h: Heap, payload: Slot, required: seq<string>): seq<string>
  {
    if required == [] then []
    else (if IsMissingSlot(GetByPathIn(h, payload, required[0])) then [required[0]] else [])
         + Unfilled(h, payload, required[1..])
  }

  /** What the caller gets: the payload, the error about missing fields, or an error on the way. */
  datatype Delivery = Delivered(payload: Slot) | Lacking(missing: seq<string>) | Failed

  function MappedIn(h: Heap, source: Slot, profile: StoredProfile): (r: Outcome)
    ensures |h| < |r.heap|
  {
    MapFieldsIn(h + [Record(map[])], source, profile.fieldMappings, At(|h|))
  }

  /** The heap before the enum stage: the payload is copied by the defaults, and once more. */
  function ReadyIn(h: Heap, source: Slot, profile: StoredProfile): (ready: Heap)
    ensures |h| + 2 < |ready|
  {
    var mapped := MappedIn(h, source, profile).heap;
    var filled := Record(Filled(FieldsOf(mapped, At(|h|)), profile.defaultValues));
    mapped + [filled, filled]
  }

  function Newest(h: Heap): Slot
    requires h != []
  {
    At(|h| - 1)
  }

  function MapIn(h: Heap, source: Slot, profile: StoredProfile): (Heap, Delivery)
  {
    var mapped := MappedIn(h, source, profile);
    if !mapped.ok then (mapped.heap, Failed)
    else
      var ready := ReadyIn(h, source, profile);
      var done := EnumsIn(ready, Newest(ready), profile.enumMappings);
      if !done.ok then (done.heap, Failed)
      else
        var missing := Unfilled(done.heap, Newest(ready), profile.requiredFields);
        (done.heap, if missing != [] then Lacking(missing) else Delivered(Newest(ready)))
  }

  // ---------------------------------------------------------------- the code, in place

  method ApplyFieldMapping(m: Memory, source: Slot, mapping: StoredFieldMapping, target: Slot) returns (ok: bool)
    modifies m
    ensures Outcome(m.nodes, ok) == ApplyIn(old(m.nodes), source, mapping, target)
  {
    ok := m.SetByPath(target, mapping.target, EvaluateIn(m.nodes, source, mapping.transform));
  }

  method ApplyFieldMappings(m: Memory, source: Slot, ms: seq<StoredFieldMapping>, target: Slot) returns (ok: bool)
    modifies m
    ensures Outcome(m.nodes, ok) == MapFieldsIn(old(m.nodes), source, ms, target)
  {
    ok := true;
    for i := 0 to |ms|
      invariant ok && Outcome(m.nodes, ok) == MapFieldsIn(old(m.nodes), source, ms[..i], target)
    {
      ok := ApplyFieldMapping(m, source, ms[i], target);
      assert ms[..i + 1][..i] == ms[..i];
      if !ok {
        FailsAt(old(m.nodes), source, ms, target, i + 1);
        return;
      }
    }
    assert ms[..|ms|] == ms;
  }

  /** The first mapping that fails ends the stage. */
  lemma {:induction false} FailsAt(h: Heap, source: Slot, ms: seq<StoredFieldMapping>, target: Slot, i: nat)
    requires i <= |ms| && !MapFieldsIn(h, source, ms[..i], target).ok
    ensures MapFieldsIn(h, source, ms, target) == MapFieldsIn(h, source, ms[..i], target)
    decreases |ms| - i
  {
    if i == |ms| {
      assert ms[..i] == ms;
    } else {
      assert ms[..i + 1][..i] == ms[..i];
      FailsAt(h, source, ms, target, i + 1);
    }
  }

  method ApplyDefaultValues(m: Memory, payload: Slot, defaults: map<string, Slot>) returns (cloned: Slot)
    modifies m
    ensures m.nodes == old(m.nodes) + [Record(Filled(FieldsOf(old(m.nodes), payload), defaults))]
    ensures cloned == At(|old(m.nodes)|)
  {
    ghost var before := m.nodes;
    ghost var given := FieldsOf(m.nodes, payload);
    cloned := m.Allocate(Record(FieldsOf(m.nodes, payload)));
    var keys := defaults.Keys;
    while keys != {}
      invariant keys <= defaults.Keys
      invariant m.nodes == before + [Record(FieldsOf(m.nodes, cloned))]
      invariant FieldsOf(m.nodes, cloned) == Filled(given, defaults - keys)
    {
      var key :| key in keys;
      if StepIn(m.nodes, cloned, key) == NOTHING {
        var ok := m.Assign(cloned, key, defaults[key]);
      }
      assert defaults - (keys - {key}) == (defaults - keys)[key := defaults[key]];
      keys := keys - {key};
    }
    assert defaults - keys == defaults;
  }

  method ApplyEnumMappings(m: Memory, payload: Slot, ms: seq<StoredEnumMapping>) returns (target: Slot, ok: bool)
    modifies m
    ensures target == At(|old(m.nodes)|)
    ensures Outcome(m.nodes, ok) ==
            EnumsIn(old(m.nodes) + [Record(FieldsOf(old(m.nodes), payload))], target, ms)
  {
    target := m.Allocate(Record(FieldsOf(m.nodes, payload)));
    ghost var start := m.nodes;
    ok := true;
    for i := 0 to |ms|
      invariant ok && Outcome(m.nodes, ok) == EnumsIn(start, target, ms[..i])
    {
      var value := GetByPathIn(m.nodes, target, ms[i].path);
      if value != NOTHING {
        ok := m.SetByPath(target, ms[i].path, LookupIn(m.nodes, ms[i].values, value));
      }
      assert ms[..i + 1][..i] == ms[..i];
      if !ok {
        EnumFailsAt(start, target, ms, i + 1);
        return;
      }
    }
    assert ms[..|ms|] == ms;
  }

  lemma {:induction false} EnumFailsAt(h: Heap, target: Slot, ms: seq<StoredEnumMapping>, i: nat)
    requires i <= |ms| && !EnumsIn(h, target, ms[..i]).ok
    ensures EnumsIn(h, target, ms) == EnumsIn(h, target, ms[..i])
    decreases |ms| - i
  {
    if i == |ms| {
      assert ms[..i] == ms;
    } else {
      assert ms[..i + 1][..i] == ms[..i];
      EnumFailsAt(h, target, ms, i + 1);
    }
  }

  /** mapCanonicalToDepartment and mapDepartmentToCanonical: the two have the same body. */
  method MapCanonicalToDepartment(m: Memory, canonical: Slot, profile: StoredProfile) returns (d: Delivery)
    modifies m
    ensures (m.nodes, d) == MapIn(old(m.nodes), canonical, profile)
  {
    var mapped := m.Allocate(Record(map[]));
    var ok := ApplyFieldMappings(m, canonical, profile.fieldMappings, mapped);
    if !ok {
      return Failed;
    }
    var withDefaults := ApplyDefaultValues(m, mapped, profile.defaultValues);
    assert m.nodes + [Record(FieldsOf(m.nodes, withDefaults))] == ReadyIn(old(m.nodes), canonical, profile);
    var withEnums;
    withEnums, ok := ApplyEnumMappings(m, withDefaults, profile.enumMappings);
    if !ok {
      return Failed;
    }
    var missing := Unfilled(m.nodes, withEnums, profile.requiredFields);
    if missing != [] {
      return Lacking(missing);
    }
    return Delivered(withEnums);
  }
}

/**
 The adapter mapping engine (services/adapter-runtime/src/mappings/mapping-engine.js): an
 interpreter of field mappings over dotted paths, followed by defaults, enum mappings and
 the required-field check. Here it works on values; SharedMapping has it in place, and
 SharedTheorems says when the two agree.
 */
module MappingEngine {
  import opened Lists
  import opened Strings
  import opened Json
  import opened ObjectPath

  /** Profiles are over values here, and over references to them in SharedMapping. */
  datatype TransformOf<V> =
    | Copy(source: string)
    | Constant(value: V)
    | Combine(sources: seq<string>, separator: string)
    | BooleanToYesNo(source: string)
    | YesNoToBoolean(source: string)
    | EnumMap(source: string, table: map<string, V>)
    | Conditional(source: string, equals: V, whenTrue: V, whenFalse: V)

  datatype FieldMappingOf<V> = FieldMapping(target: string, transform: TransformOf<V>)

  datatype EnumMappingOf<V> = EnumMapping(path: string, values: map<string, V>)

  datatype ProfileOf<V> = Profile(
    fieldMappings: seq<FieldMappingOf<V>>,
    defaultValues: map<string, V>,
    enumMappings: seq<EnumMappingOf<V>>,
    requiredFields: seq<string>)

  type Transform = TransformOf<Json>
  type FieldMapping = FieldMappingOf<Json>
  type EnumMapping = EnumMappingOf<Json>
  type Profile = ProfileOf<Json>

  datatype MappingResult = Mapped(payload: Json) | MissingFields(missing: seq<string>)

  // ---------------------------------------------------------------- one mapping

  /** `table?.[raw] ?? raw`. */
  function Lookup(table: map<string, Json>, raw: Json): Json
  {
    var found := Field(table, Text(raw));
    if found.Undefined? || found.Null? then raw else found
  }

  /** `a === b`: a container of the payload is never identical to one in a profile. */
  predicate StrictEquals(a: Json, b: Json)
  {
    !IsContainer(a) && a == b
  }

  function YesNo(v: Json): Json
  {
    Str(if Truthy(v) then "Yes" else "No")
  }

  function FromYesNo(v: Json): Json
  {
    Bool(Lower(Text(v)) == "yes")
  }

  /** The non-null values at the given paths, in order. */
  function Collect(source: Json, paths: seq<string>): seq<Json>
  {
    if paths == [] then []
    else
      var v := GetByPath(source, paths[0]);
      (if v.Undefined? || v.Null? then [] else [v]) + Collect(source, paths[1..])
  }

  function Evaluate(source: Json, t: Transform): Json
  {
    match t
    case Constant(value) => value
    case Combine(sources, separator) =>
      Str(Trim(JoinTexts(Collect(source, sources), if separator == "" then " " else separator)))
    case BooleanToYesNo(path) => YesNo(GetByPath(source, path))
    case YesNoToBoolean(path) => FromYesNo(GetByPath(source, path))
    case EnumMap(path, table) => Lookup(table, GetByPath(source, path))
    case Conditional(path, equals, whenTrue, whenFalse) =>
      if StrictEquals(GetByPath(source, path), equals) then whenTrue else whenFalse
    case Copy(path) => GetByPath(source, path)
  }

  function ApplyFieldMapping(source: Json, m: FieldMapping, target: Json): Json
  {
    SetByPath(target, m.target, Evaluate(source, m.transform))
  }

  /** The `reduce` over the field mappings, from an empty object. */
  function MapFields(source: Json, ms: seq<FieldMapping>): (payload: Json)
    ensures IsContainer(payload)
  {
    if ms == [] then Obj(map[])
    else ApplyFieldMapping(source, ms[|ms| - 1], MapFields(source, ms[..|ms| - 1]))
  }

  // ---------------------------------------------------------------- later stages

  /** What the defaults make of a payload: they fill exactly the keys that read undefined. */
  function WithDefaults(payload: Json, defaults: map<string, Json>): Json
  {
    match payload
    case Obj(fields) =>
      Obj(map k | k in fields.Keys + defaults.Keys ::
            if k in defaults && Field(fields, k).Undefined? then defaults[k] else fields[k])
    case _ => payload
  }

  function EnumStep(target: Json, m: EnumMapping): Json
  {
    var value := GetByPath(target, m.path);
    if value.Undefined? then target else SetByPath(target, m.path, Lookup(m.values, value))
  }

  function WithEnums(payload: Json, ms: seq<EnumMapping>): Json
  {
    if ms == [] then payload else EnumStep(WithEnums(payload, ms[..|ms| - 1]), ms[|ms| - 1])
  }

  /** The required-field check's idea of a value that is not there. */
  predicate IsMissing(v: Json)
  {
    v.Undefined? || v.Null? || v == Str("")
  }

  function MissingIn(payload: Json, required: seq<string>): seq<string>
  {
    if required == [] then []
    else (if IsMissing(GetByPath(payload, required[0])) then [required[0]] else [])
         + MissingIn(payload, required[1..])
  }

  function ValidateRequired(payload: Json, required: seq<string>): MappingResult
  {
    var missing := MissingIn(payload, required);
    if missing != [] then MissingFields(missing) else Mapped(payload)
  }

  /** mapCanonicalToDepartment and mapDepartmentToCanonical: the two have the same body. */
  function MapPayload(payload: Json, profile: Profile): MappingResult
  {
    var mapped := MapFields(payload, profile.fieldMappings);
    ValidateRequired(
      WithEnums(WithDefaults(mapped, profile.defaultValues), profile.enumMappings),
      profile.requiredFields)
  }

  lemma {:induction false} MapFieldsObj(source: Json, ms: seq<FieldMapping>)
    ensures MapFields(source, ms).Obj?
  {
    if ms != [] {
      MapFieldsObj(source, ms[..|ms| - 1]);
    }
  }

  // ---------------------------------------------------------------- stage frames

  /** A default never overwrites a value that is there, and fills every key it names. */
  lemma DefaultsFillOnlyGaps(payload: Json, defaults: map<string, Json>, key: string)
    requires payload.Obj?
    ensures var r := WithDefaults(payload, defaults);
            r.Obj? &&
            Field(r.fields, key) ==
              (if Field(payload.fields, key) != Undefined then Field(payload.fields, key)
               else Field(defaults, key))
  {
  }

  /** The path reads undefined, null or the empty text. */
  function ReadsNothing(payload: Json): string -> bool
  {
    (path: string) => GetByPath(payload, path) in [Undefined, Null, Str("")]
  }

  lemma ReadsNothingIff(payload: Json, path: string)
    ensures ReadsNothing(payload)(path) == IsMissing(GetByPath(payload, path))
  {
  }

  lemma {:induction false} MissingExact(payload: Json, required: seq<string>)
    ensures MissingIn(payload, required) == Filter(required, ReadsNothing(payload))
  {
    if required != [] {
      MissingExact(payload, required[1..]);
      FilterFirst(required, ReadsNothing(payload));
      ReadsNothingIff(payload, required[0]);
    }
  }

  /**
   The check passes the payload on, unchanged, exactly when no required path reads undefined,
   null or the empty text; otherwise it reports exactly those that do, in order.
   */
  lemma RequiredIffFilled(payload: Json, required: seq<string>)
    ensures ValidateRequired(payload, required) ==
            if forall path <- required :: GetByPath(payload, path) !in [Undefined, Null, Str("")] then Mapped(payload)
            else MissingFields(Filter(required, ReadsNothing(payload)))
  {
    MissingExact(payload, required);
    var missing := Filter(required, ReadsNothing(payload));
    forall path
      ensures path in missing <==> path in required && GetByPath(payload, path) in [Undefined, Null, Str("")]
    {
      FilterMember(required, ReadsNothing(payload), path);
    }
    if missing != [] {
      assert missing[0] in missing;
    }
  }

  /** The whole call delivers what the enum stage leaves, or reports the required paths that read nothing there. */
  lemma DeliversIff(payload: Json, profile: Profile)
    ensures var done := WithEnums(WithDefaults(MapFields(payload, profile.fieldMappings), profile.defaultValues),
                                  profile.enumMappings);
            MapPayload(payload, profile) ==
            if forall path <- profile.requiredFields :: GetByPath(done, path) !in [Undefined, Null, Str("")]
            then Mapped(done) else MissingFields(Filter(profile.requiredFields, ReadsNothing(done)))
  {
    RequiredIffFilled(
      WithEnums(WithDefaults(MapFields(payload, profile.fieldMappings), profile.defaultValues), profile.enumMappings),
      profile.requiredFields);
  }

  // ---------------------------------------------------------------- the enum stage

  /** The two paths never touch each other's value. At an empty path nothing is written. */
  predicate Apart(a: string, b: string)
  {
    a == "" || b == "" || Disjoint(Split(a, '.'), Split(b, '.'))
  }

  /** What is read at the path is an entry of objects and arrays: no character, nor a length. */
  predicate Plain(payload: Json, path: string)
  {
    path == "" || Get(payload, Split(path, '.')) == Undefined || Present(payload, Split(path, '.'))
  }

  predicate AllPlain(payload: Json, ms: seq<EnumMapping>)
  {
    forall i :: 0 <= i < |ms| ==> Plain(payload, ms[i].path)
  }

  predicate EnumPathsApart(ms: seq<EnumMapping>)
  {
    forall i, j :: 0 <= i < j < |ms| ==> Apart(ms[i].path, ms[j].path)
  }

  /** None of the mappings is about `path` or anything above or below it. */
  predicate NotAbout(ms: seq<EnumMapping>, path: Path)
  {
    forall i :: 0 <= i < |ms| ==> ms[i].path == "" || Disjoint(Split(ms[i].path, '.'), path)
  }

  /** A mapping translates what is there, and makes nothing of what is not. */
  function Translated(m: EnumMapping, v: Json): Json
  {
    if v.Undefined? then v else Lookup(m.values, v)
  }

  lemma EnumStepFrame(payload: Json, m: EnumMapping, other: Path)
    requires |other| >= 1 && Plain(payload, m.path) && NotAbout([m], other)
    ensures Get(EnumStep(payload, m), other) == Get(payload, other)
    ensures Present(EnumStep(payload, m), other) <==> Present(payload, other)
  {
    assert [m][0] == m;
    if !GetByPath(payload, m.path).Undefined? {
      var path, x := Split(m.path, '.'), Lookup(m.values, GetByPath(payload, m.path));
      PresentSpares(payload, path, other);
      GetPutDisjoint(payload, path, x, other);
      PresentKept(payload, path, x, other);
    }
  }

  lemma EnumStepElsewhere(payload: Json, m: EnumMapping, path: string)
    requires Plain(payload, m.path) && Apart(path, m.path)
    ensures GetByPath(EnumStep(payload, m), path) == GetByPath(payload, path)
  {
    if path != "" {
      EnumStepFrame(payload, m, Split(path, '.'));
    }
  }

  lemma EnumStepTranslates(payload: Json, m: EnumMapping)
    requires Plain(payload, m.path)
    ensures GetByPath(EnumStep(payload, m), m.path) == Translated(m, GetByPath(payload, m.path))
  {
    if !GetByPath(payload, m.path).Undefined? {
      var path := Split(m.path, '.');
      PresentLands(payload, path);
      GetPut(payload, path, Lookup(m.values, GetByPath(payload, m.path)));
    }
  }

  /** The enum stage leaves every path alone that overlaps none of its own. */
  lemma {:induction false} EnumStageFrame(payload: Json, ms: seq<EnumMapping>, other: Path)
    requires |other| >= 1 && EnumPathsApart(ms) && AllPlain(payload, ms) && NotAbout(ms, other)
    ensures Get(WithEnums(payload, ms), other) == Get(payload, other)
    ensures Present(WithEnums(payload, ms), other) <==> Present(payload, other)
    decreases |ms|, 0
  {
    if ms != [] {
      var init, last := ms[..|ms| - 1], ms[|ms| - 1];
      EnumStageFrame(payload, init, other);
      StaysPlain(payload, init, last);
      EnumStepFrame(WithEnums(payload, init), last, other);
    }
  }

  /** The path of a mapping apart from the others stays plain under them, and reads as before. */
  lemma {:induction false} StaysPlain(payload: Json, ms: seq<EnumMapping>, m: EnumMapping)
    requires EnumPathsApart(ms) && AllPlain(payload, ms) && Plain(payload, m.path)
    requires forall i :: 0 <= i < |ms| ==> Apart(ms[i].path, m.path)
    ensures Plain(WithEnums(payload, ms), m.path)
    ensures GetByPath(WithEnums(payload, ms), m.path) == GetByPath(payload, m.path)
    decreases |ms|, 1
  {
    if m.path != "" {
      EnumStageFrame(payload, ms, Split(m.path, '.'));
    }
  }

  /** After the stage each path holds the translation of what was there before it. */
  lemma {:induction false} EnumStageTranslates(payload: Json, ms: seq<EnumMapping>, i: nat)
    requires i < |ms| && EnumPathsApart(ms) && AllPlain(payload, ms)
    ensures GetByPath(WithEnums(payload, ms), ms[i].path) == Translated(ms[i], GetByPath(payload, ms[i].path))
  {
    var n := |ms| - 1;
    var init, last := ms[..n], ms[n];
    StaysPlain(payload, init, last);
    if i == n {
      EnumStepTranslates(WithEnums(payload, init), last);
    } else {
      EnumStageTranslates(payload, init, i);
      EnumStepElsewhere(WithEnums(payload, init), last, ms[i].path);
    }
  }

  lemma EnumStepsCommute(payload: Json, a: EnumMapping, b: EnumMapping)
    requires Apart(a.path, b.path) && Plain(payload, a.path) && Plain(payload, b.path)
    ensures EnumStep(EnumStep(payload, a), b) == EnumStep(EnumStep(payload, b), a)
  {
    var v, w := GetByPath(payload, a.path), GetByPath(payload, b.path);
    if a.path != "" && b.path != "" {
      EnumStepFrame(payload, a, Split(b.path, '.'));
      EnumStepFrame(payload, b, Split(a.path, '.'));
      if !v.Undefined? && !w.Undefined? {
        PresentLands(payload, Split(a.path, '.'));
        PresentLands(payload, Split(b.path, '.'));
        PutCommutes(payload, Split(a.path, '.'), Lookup(a.values, v), Split(b.path, '.'), Lookup(b.values, w));
      }
    }
  }

  lemma EnumsWithout(payload: Json, ms: seq<EnumMapping>, j: nat)
    requires j < |ms| && EnumPathsApart(ms) && AllPlain(payload, ms)
    ensures EnumPathsApart(Without(ms, j)) && AllPlain(payload, Without(ms, j))
    ensures forall i :: 0 <= i < |ms| - 1 ==> Apart(Without(ms, j)[i].path, ms[j].path)
  {
    var rest := Without(ms, j);
    forall i | 0 <= i < |rest|
      ensures Plain(payload, rest[i].path) && Apart(rest[i].path, ms[j].path)
    {
      assert rest[i] == ms[if i < j then i else i + 1];
    }
    forall i, k | 0 <= i < k < |rest|
      ensures Apart(rest[i].path, rest[k].path)
    {
      assert rest[i] == ms[if i < j then i else i + 1] && rest[k] == ms[if k < j then k else k + 1];
    }
  }

  lemma WithEnumsAppend(payload: Json, ms: seq<EnumMapping>, m: EnumMapping)
    ensures WithEnums(payload, ms + [m]) == EnumStep(WithEnums(payload, ms), m)
  {
    assert (ms + [m])[..|ms|] == ms;
  }

  /** The last two steps change places. */
  lemma EnumLastTwo(payload: Json, ms: seq<EnumMapping>, j: nat)
    requires j < |ms| - 1 && EnumPathsApart(ms) && AllPlain(payload, ms)
    ensures var last, shorter := ms[|ms| - 1], Without(ms[..|ms| - 1], j);
            EnumStep(EnumStep(WithEnums(payload, shorter), ms[j]), last) ==
            EnumStep(EnumStep(WithEnums(payload, shorter), last), ms[j])
  {
    var init, last := ms[..|ms| - 1], ms[|ms| - 1];
    var shorter := Without(init, j);
    assert ms[j] == init[j];
    EnumsWithout(payload, init, j);
    StaysPlain(payload, shorter, ms[j]);
    LastApart(ms, j);
    StaysPlain(payload, shorter, last);
    EnumStepsCommute(WithEnums(payload, shorter), ms[j], last);
  }

  /** Any enum mapping may as well be applied last. */
  lemma {:induction false} EnumLast(payload: Json, ms: seq<EnumMapping>, j: nat)
    requires j < |ms| && EnumPathsApart(ms) && AllPlain(payload, ms)
    ensures WithEnums(payload, ms) == EnumStep(WithEnums(payload, Without(ms, j)), ms[j])
  {
    var n := |ms| - 1;
    var init, last := ms[..n], ms[n];
    if j == n {
      assert Without(ms, j) == init;
    } else {
      EnumLast(payload, init, j);
      WithoutLast(ms, j);
      WithEnumsAppend(payload, Without(init, j), last);
      EnumLastTwo(payload, ms, j);
    }
  }

  lemma LastApart(ms: seq<EnumMapping>, j: nat)
    requires j < |ms| - 1 && EnumPathsApart(ms)
    ensures var shorter := Without(ms[..|ms| - 1], j);
            forall i :: 0 <= i < |shorter| ==> Apart(shorter[i].path, ms[|ms| - 1].path)
  {
    var n := |ms| - 1;
    var shorter := Without(ms[..n], j);
    forall i | 0 <= i < |shorter|
      ensures Apart(shorter[i].path, ms[n].path)
    {
      assert shorter[i] == ms[if i < j then i else i + 1];
    }
  }

  /** Enum mappings whose paths do not overlap may be listed in any order. */
  lemma {:induction false} EnumOrderIndependent(payload: Json, ms: seq<EnumMapping>, other: seq<EnumMapping>)
    requires EnumPathsApart(ms) && AllPlain(payload, ms)
    requires multiset(ms) == multiset(other)
    ensures WithEnums(payload, ms) == WithEnums(payload, other)
    decreases |ms|
  {
    EnumApartPermutes(ms, other);
    PlainPermutes(payload, ms, other);
    if ms == [] {
      EmptyPermutation(ms, other);
    } else {
      var j := Partner(ms, other);
      EnumLast(payload, other, j);
      EnumsWithout(payload, other, j);
      EnumOrderIndependent(payload, ms[..|ms| - 1], Without(other, j));
    }
  }

  lemma EnumApartPermutes(ms: seq<EnumMapping>, other: seq<EnumMapping>)
    requires EnumPathsApart(ms) && multiset(ms) == multiset(other)
    ensures EnumPathsApart(other)
  {
    forall i, j | 0 <= i < j < |other|
      ensures Apart(other[i].path, other[j].path)
    {
      var a, b := other[i], other[j];
      if a != b {
        assert a in multiset(ms) && b in multiset(ms);
        var k :| 0 <= k < |ms| && ms[k] == a;
        var l :| 0 <= l < |ms| && ms[l] == b;
        assert Apart(ms[if k < l then k else l].path, ms[if k < l then l else k].path);
      } else {
        TwiceIn(other, i, j);
        OccursTwice(ms, a);
        var k, l :| 0 <= k < l < |ms| && ms[k] == a && ms[l] == a;
      }
    }
  }

  lemma PlainPermutes(payload: Json, ms: seq<EnumMapping>, other: seq<EnumMapping>)
    requires AllPlain(payload, ms) && multiset(ms) == multiset(other)
    ensures AllPlain(payload, other)
  {
    forall i | 0 <= i < |other|
      ensures Plain(payload, other[i].path)
    {
      assert other[i] in multiset(ms);
    }
  }

  /** Plainness is needed: translating the length of a text takes its characters away. */
  lemma EnumInsideText(m: EnumMapping)
    requires m.path != "" && Split(m.path, '.') == ["a", "length"]
    ensures var payload := Obj(map["a" := Str("x")]);
            Get(payload, ["a", "0"]) == Str("x") && Get(EnumStep(payload, m), ["a", "0"]) == Undefined
  {
    var payload := Obj(map["a" := Str("x")]);
    LengthIsNoIndex();
    ZeroIsIndex();
    GetTwo(payload, "a", "length");
    GetTwo(payload, "a", "0");
    CharacterLost(Lookup(m.values, Num(1)));
  }

  lemma GetTwo(v: Json, a: string, b: string)
    ensures Get(v, [a, b]) == Step(Step(v, a), b)
  {
    var path: Path := [a, b];
    assert path[1..] == [b] && path[1..][1..] == [];
    assert Get(v, path) == Get(Step(v, a), path[1..]) == Get(Step(Step(v, a), b), path[1..][1..]);
  }

  lemma CharacterLost(x: Json)
    ensures Get(Put(Obj(map["a" := Str("x")]), ["a", "length"], x), ["a", "0"]) == Undefined
  {
    var payload: Json, path: Path, other: Path := Obj(map["a" := Str("x")]), ["a", "length"], ["a", "0"];
    PutHead(payload, path, x);
    assert path[1..] == ["length"] && other[1..] == ["0"];
    assert "0" != "length";
    assert !(["length"] <= ["0"]) && !(["0"] <= ["length"]);
    PutInNewObject(["length"], x, ["0"]);
  }

  // ---------------------------------------------------------------- order independence

  ghost predicate TargetsApart(ms: seq<FieldMapping>)
  {
    forall i, j :: 0 <= i < j < |ms| ==> Apart(ms[i].target, ms[j].target)
  }

  /** No target overlaps `path`. */
  ghost predicate ApartFromAll(ms: seq<FieldMapping>, path: Path)
  {
    forall i :: 0 <= i < |ms| ==> ms[i].target == "" || Disjoint(Split(ms[i].target, '.'), path)
  }

  lemma {:induction false} UntouchedClear(source: Json, ms: seq<FieldMapping>, path: Path)
    requires |path| >= 1 && TargetsApart(ms) && ApartFromAll(ms, path)
    ensures Clear(MapFields(source, ms), path)
  {
    if ms != [] {
      var n := |ms| - 1;
      var init, last := ms[..n], ms[n];
      UntouchedClear(source, init, path);
      if last.target != "" {
        var p := Split(last.target, '.');
        UntouchedClear(source, init, p);
        ClearPut(MapFields(source, init), p, Evaluate(source, last.transform), path);
      }
    }
  }

  lemma MappingsCommute(source: Json, a: FieldMapping, b: FieldMapping, target: Json)
    requires Apart(a.target, b.target)
    requires a.target != "" ==> Clear(target, Split(a.target, '.'))
    requires b.target != "" ==> Clear(target, Split(b.target, '.'))
    ensures ApplyFieldMapping(source, a, ApplyFieldMapping(source, b, target))
         == ApplyFieldMapping(source, b, ApplyFieldMapping(source, a, target))
  {
    if a.target != "" && b.target != "" {
      ClearLands(target, Split(a.target, '.'));
      ClearLands(target, Split(b.target, '.'));
      PutCommutes(target, Split(a.target, '.'), Evaluate(source, a.transform),
                  Split(b.target, '.'), Evaluate(source, b.transform));
    }
  }

  lemma MapFieldsAppend(source: Json, ms: seq<FieldMapping>, m: FieldMapping)
    ensures MapFields(source, ms + [m]) == ApplyFieldMapping(source, m, MapFields(source, ms))
  {
    assert (ms + [m])[..|ms|] == ms;
  }

  lemma ApartWithout(ms: seq<FieldMapping>, i: nat)
    requires i < |ms| && TargetsApart(ms)
    ensures TargetsApart(Without(ms, i))
  {
    var rest := Without(ms, i);
    forall k, l | 0 <= k < l < |rest|
      ensures Apart(rest[k].target, rest[l].target)
    {
      assert rest[k] == ms[if k < i then k else k + 1];
      assert rest[l] == ms[if l < i then l else l + 1];
    }
  }

  /** With two mappings taken out, both their targets are clear. */
  lemma RestApart(source: Json, ms: seq<FieldMapping>, j: nat)
    requires j < |ms| - 1 && TargetsApart(ms)
    ensures var target := MapFields(source, Without(ms[..|ms| - 1], j));
            forall k :: (k == j || k == |ms| - 1) && ms[k].target != "" ==> Clear(target, Split(ms[k].target, '.'))
  {
    var rest := Without(ms[..|ms| - 1], j);
    ApartWithout(ms[..|ms| - 1], j);
    forall k | (k == j || k == |ms| - 1) && ms[k].target != ""
      ensures Clear(MapFields(source, rest), Split(ms[k].target, '.'))
    {
      forall i | 0 <= i < |rest| && rest[i].target != ""
        ensures Disjoint(Split(rest[i].target, '.'), Split(ms[k].target, '.'))
      {
        var l := if i < j then i else i + 1;
        assert rest[i] == ms[l] && l != k;
        assert Apart(ms[if l < k then l else k].target, ms[if l < k then k else l].target);
      }
      UntouchedClear(source, rest, Split(ms[k].target, '.'));
    }
  }

  lemma LastTwoCommute(source: Json, ms: seq<FieldMapping>, j: nat)
    requires j < |ms| - 1 && TargetsApart(ms)
    ensures var a, b, target := ms[j], ms[|ms| - 1], MapFields(source, Without(ms[..|ms| - 1], j));
            ApplyFieldMapping(source, b, ApplyFieldMapping(source, a, target))
            == ApplyFieldMapping(source, a, ApplyFieldMapping(source, b, target))
  {
    RestApart(source, ms, j);
    MappingsCommute(source, ms[j], ms[|ms| - 1], MapFields(source, Without(ms[..|ms| - 1], j)));
  }

  /** Any mapping may as well be applied last. */
  lemma {:induction false} ApplyLast(source: Json, ms: seq<FieldMapping>, j: nat)
    requires j < |ms| && TargetsApart(ms)
    ensures MapFields(source, ms) == ApplyFieldMapping(source, ms[j], MapFields(source, Without(ms, j)))
  {
    var n := |ms| - 1;
    if j == n {
      assert Without(ms, j) == ms[..n];
    } else {
      var init := ms[..n];
      ApplyLast(source, init, j);
      var rest := Without(init, j);
      LastTwoCommute(source, ms, j);
      WithoutLast(ms, j);
      MapFieldsAppend(source, rest, ms[n]);
    }
  }

  /** Mappings whose targets do not overlap may be listed in any order. */
  lemma {:induction false} OrderIndependent(source: Json, ms: seq<FieldMapping>, other: seq<FieldMapping>)
    requires TargetsApart(ms) && TargetsApart(other)
    requires multiset(ms) == multiset(other)
    ensures MapFields(source, ms) == MapFields(source, other)
    decreases |ms|
  {
    if ms == [] {
      assert |multiset(other)| == 0;
    } else {
      var n := |ms| - 1;
      var j := Partner(ms, other);
      ApplyLast(source, other, j);
      ApartWithout(other, j);
      OrderIndependent(source, ms[..n], Without(other, j));
    }
  }

  /** Apartness does not depend on the order either. */
  lemma ApartPermutes(ms: seq<FieldMapping>, other: seq<FieldMapping>)
    requires TargetsApart(ms) && multiset(ms) == multiset(other)
    ensures TargetsApart(other)
  {
    forall i, j | 0 <= i < j < |other|
      ensures Apart(other[i].target, other[j].target)
    {
      var a, b := other[i], other[j];
      if a != b {
        assert a in multiset(ms) && b in multiset(ms);
        var k :| 0 <= k < |ms| && ms[k] == a;
        var l :| 0 <= l < |ms| && ms[l] == b;
        assert Apart(ms[if k < l then k else l].target, ms[if k < l then l else k].target);
      } else {
        TwiceIn(other, i, j);
        OccursTwice(ms, a);
        var k, l :| 0 <= k < l < |ms| && ms[k] == a && ms[l] == a;
      }
    }
  }

  /** The whole result, then, is the same for every permutation of the field mappings. */
  lemma PayloadOrderIndependent(payload: Json, profile: Profile, other: seq<FieldMapping>)
    requires TargetsApart(profile.fieldMappings)
    requires multiset(profile.fieldMappings) == multiset(other)
    ensures MapPayload(payload, profile) == MapPayload(payload, profile.(fieldMappings := other))
  {
    ApartPermutes(profile.fieldMappings, other);
    OrderIndependent(payload, profile.fieldMappings, other);
  }

  /** With overlapping targets the order does matter. */
  lemma OverlapOrderMatters()
    ensures var a := FieldMapping("x", Constant(Null));
            var b := FieldMapping("x.y", Constant(Null));
            MapFields(Null, [a, b]) != MapFields(Null, [b, a])
  {
    var a := FieldMapping("x", Constant(Null));
    var b := FieldMapping("x.y", Constant(Null));
    var empty: Json := Obj(map[]);
    SplitJoin(["x"], '.');
    SplitJoin(["x", "y"], '.');
    assert Join(["x", "y"], ".") == "x.y";
    assert [a, b][..1] == [a] && [b, a][..1] == [b] && [a][..0] == [] && [b][..0] == [];
    assert ["x", "y"][1..] == ["y"];
    var inner := Obj(map["y" := Null]);
    assert Put(empty, ["y"], Null) == inner;
    var ab := MapFields(Null, [a, b]);
    assert MapFields(Null, [a]) == Obj(map["x" := Null]);
    assert ab == Put(Obj(map["x" := Null]), ["x", "y"], Null);
    assert ab.fields["x"] == inner;
    var ba := MapFields(Null, [b, a]);
    assert ba == Put(MapFields(Null, [b]), ["x"], Null);
    MapFieldsObj(Null, [b]);
    assert ba.fields["x"] == Null;
  }

  // ---------------------------------------------------------------- each target its own value

  /** One more mapping on a target it does not overlap: its own value is there, and the others stay. */
  lemma WrittenThere(source: Json, m: FieldMapping, target: Json)
    requires m.target != "" && Clear(target, Split(m.target, '.'))
    ensures GetByPath(ApplyFieldMapping(source, m, target), m.target) == Evaluate(source, m.transform)
  {
    ClearLands(target, Split(m.target, '.'));
    GetPut(target, Split(m.target, '.'), Evaluate(source, m.transform));
  }

  lemma OthersStay(source: Json, m: FieldMapping, target: Json, path: string)
    requires m.target != "" ==> Clear(target, Split(m.target, '.'))
    requires path != "" && Apart(m.target, path)
    ensures GetByPath(ApplyFieldMapping(source, m, target), path) == GetByPath(target, path)
  {
    if m.target != "" {
      ClearSpares(target, Split(m.target, '.'), Split(path, '.'));
      GetPutDisjoint(target, Split(m.target, '.'), Evaluate(source, m.transform), Split(path, '.'));
    }
  }

  lemma LastIsClear(source: Json, ms: seq<FieldMapping>)
    requires ms != [] && TargetsApart(ms) && ms[|ms| - 1].target != ""
    ensures Clear(MapFields(source, ms[..|ms| - 1]), Split(ms[|ms| - 1].target, '.'))
  {
    UntouchedClear(source, ms[..|ms| - 1], Split(ms[|ms| - 1].target, '.'));
  }

  /** Every mapping's target holds that mapping's own value. */
  lemma {:induction false} TargetHoldsItsValue(source: Json, ms: seq<FieldMapping>, i: nat)
    requires i < |ms| && TargetsApart(ms) && ms[i].target != ""
    ensures GetByPath(MapFields(source, ms), ms[i].target) == Evaluate(source, ms[i].transform)
  {
    var n := |ms| - 1;
    var init, last := ms[..n], ms[n];
    if last.target != "" {
      LastIsClear(source, ms);
    }
    if i == n {
      WrittenThere(source, last, MapFields(source, init));
    } else {
      TargetHoldsItsValue(source, init, i);
      OthersStay(source, last, MapFields(source, init), ms[i].target);
    }
  }

  // ---------------------------------------------------------------- what each transform puts there

  function ValuesAt(source: Json, paths: seq<string>): (vs: seq<Json>)
    ensures |vs| == |paths|
  {
    seq(|paths|, i requires 0 <= i < |paths| => GetByPath(source, paths[i]))
  }

  function Texts(vs: seq<Json>): (ts: seq<string>)
    ensures |ts| == |vs|
  {
    seq(|vs|, i requires 0 <= i < |vs| => Text(vs[i]))
  }

  function IsThere(): Json -> bool
  {
    (v: Json) => v != Undefined && v != Null
  }

  lemma {:induction false} CollectFilters(source: Json, paths: seq<string>)
    ensures Collect(source, paths) == Filter(ValuesAt(source, paths), IsThere())
  {
    if paths != [] {
      var first, rest := [GetByPath(source, paths[0])], ValuesAt(source, paths[1..]);
      CollectFilters(source, paths[1..]);
      FilterConcat(first, rest, IsThere());
      assert ValuesAt(source, paths) == first + rest && first[..0] == [];
      assert Filter(first, IsThere()) == if IsThere()(first[0]) then first else [];
    }
  }

  lemma {:induction false} JoinTextsJoins(vs: seq<Json>, sep: string)
    requires forall v <- vs :: v != Undefined && v != Null
    ensures JoinTexts(vs, sep) == Join(Texts(vs), sep)
  {
    if vs != [] {
      assert vs[0] in vs && forall v <- vs[1..] :: v in vs;
      JoinTextsJoins(vs[1..], sep);
      assert Texts(vs)[1..] == Texts(vs[1..]);
    }
  }

  /** The texts of the values that are there, joined by the separator, or a space, and trimmed. */
  lemma CombineJoins(source: Json, sources: seq<string>, separator: string)
    ensures Evaluate(source, Combine(sources, separator)) ==
            Str(Trim(Join(Texts(Filter(ValuesAt(source, sources), IsThere())),
                          if separator == "" then " " else separator)))
  {
    var vs := Filter(ValuesAt(source, sources), IsThere());
    CollectFilters(source, sources);
    forall v | v in vs
      ensures v != Undefined && v != Null
    {
      FilterMember(ValuesAt(source, sources), IsThere(), v);
      assert IsThere()(v);
    }
    JoinTextsJoins(vs, if separator == "" then " " else separator);
  }

  /** The value at the target of each mapping, transform by transform. */
  lemma {:induction false} TargetHolds(source: Json, ms: seq<FieldMapping>, i: nat)
    requires i < |ms| && TargetsApart(ms) && ms[i].target != ""
    ensures var there := GetByPath(MapFields(source, ms), ms[i].target);
            match ms[i].transform
            case Copy(path) => there == GetByPath(source, path)
            case Constant(value) => there == value
            case Combine(sources, separator) =>
              var texts := Texts(Filter(ValuesAt(source, sources), IsThere()));
              there == Str(Trim(Join(texts, if separator == "" then " " else separator)))
            case BooleanToYesNo(path) => there == Str(if Truthy(GetByPath(source, path)) then "Yes" else "No")
            case YesNoToBoolean(path) => there == Bool(Lower(Text(GetByPath(source, path))) == "yes")
            case EnumMap(path, table) =>
              var text := Text(GetByPath(source, path));
              there == if text in table && table[text] != Undefined && table[text] != Null then table[text]
                       else GetByPath(source, path)
            case Conditional(path, equals, whenTrue, whenFalse) =>
              var v := GetByPath(source, path);
              there == if v == equals && !v.Arr? && !v.Obj? then whenTrue else whenFalse
  {
    TargetHoldsItsValue(source, ms, i);
    if ms[i].transform.Combine? {
      CombineJoins(source, ms[i].transform.sources, ms[i].transform.separator);
    }
  }

  // ---------------------------------------------------------------- round trip

  /** The table has something to say about this text: a null entry lets the value through. */
  predicate Translates(table: map<string, Json>, text: string)
  {
    text in table && !table[text].Undefined? && !table[text].Null?
  }

  /** No two texts are translated to values that read alike: an inverse table is keyed by text too. */
  ghost predicate InjectiveTable(table: map<string, Json>)
  {
    forall k, l :: Translates(table, k) && Translates(table, l) && Text(table[k]) == Text(table[l]) ==> k == l
  }

  /** The transforms that read one source path and can be undone. */
  predicate Reads(t: Transform)
  {
    t.Copy? || t.BooleanToYesNo? || t.EnumMap?
  }

  ghost predicate Invertible(m: FieldMapping)
  {
    m.target != "" && Reads(m.transform) && m.transform.source != "" &&
    (m.transform.EnumMap? ==> InjectiveTable(m.transform.table))
  }

  ghost predicate Inverts(inv: map<string, Json>, table: map<string, Json>)
  {
    (forall k :: Translates(table, k) ==> Text(table[k]) in inv && inv[Text(table[k])] == Str(k)) &&
    forall s :: s in inv ==> Produces(table, s)
  }

  /** Some entry of the table reads as this text. */
  ghost predicate Produces(table: map<string, Json>, text: string)
  {
    exists k :: Translates(table, k) && Text(table[k]) == text
  }

  ghost function InverseTable(table: map<string, Json>): (inv: map<string, Json>)
    requires InjectiveTable(table)
    ensures Inverts(inv, table)
  {
    map k | k in table && Translates(table, k) :: Text(table[k]) := Str(k)
  }

  ghost function Inverse(m: FieldMapping): FieldMapping
    requires Invertible(m)
  {
    match m.transform
    case Copy(source) => FieldMapping(source, Copy(m.target))
    case BooleanToYesNo(source) => FieldMapping(source, YesNoToBoolean(m.target))
    case EnumMap(source, table) => FieldMapping(source, EnumMap(m.target, InverseTable(table)))
    case _ => m
  }

  ghost predicate AllInvertible(ms: seq<FieldMapping>)
  {
    forall i :: 0 <= i < |ms| ==> Invertible(ms[i])
  }

  ghost function InverseAll(ms: seq<FieldMapping>): (inv: seq<FieldMapping>)
    requires AllInvertible(ms)
    ensures |inv| == |ms| && forall i :: 0 <= i < |ms| ==> inv[i] == Inverse(ms[i])
  {
    if ms == [] then [] else [Inverse(ms[0])] + InverseAll(ms[1..])
  }

  /** The transform on values. */
  function Forward(t: Transform, v: Json): Json
    requires Reads(t)
  {
    match t
    case BooleanToYesNo(_) => YesNo(v)
    case EnumMap(_, table) => Lookup(table, v)
    case _ => v
  }

  /** The inverse mapping's transform on values. */
  ghost function Back(t: Transform, v: Json): Json
    requires Reads(t) && (t.EnumMap? ==> InjectiveTable(t.table))
  {
    match t
    case BooleanToYesNo(_) => FromYesNo(v)
    case EnumMap(_, table) => Lookup(InverseTable(table), v)
    case _ => v
  }

  /**
   The source values that survive a round trip: any value under copy; a boolean under
   boolean_to_yes_no; under enum_map, text the table translates, or a value whose text
   the table neither translates nor produces.
   */
  ghost predicate Reversible(t: Transform, v: Json)
  {
    match t
    case BooleanToYesNo(_) => v.Bool?
    case EnumMap(_, table) => if Translates(table, Text(v)) then v.Str? else !Produces(table, Text(v))
    case _ => true
  }

  lemma YesNoRoundTrip(v: Json)
    ensures FromYesNo(YesNo(v)) == Bool(Truthy(v))
  {
    assert Lower("Yes") == "yes";
    assert Lower("No")[0] == 'n';
  }

  lemma EnumRoundTrip(table: map<string, Json>, inv: map<string, Json>, v: Json)
    requires InjectiveTable(table) && Inverts(inv, table)
    ensures Lookup(inv, Lookup(table, v)) == v <==>
            if Translates(table, Text(v)) then v.Str? else !Produces(table, Text(v))
  {
    var key := Text(v);
    if Translates(table, key) {
      assert Lookup(table, v) == table[key];
      assert Lookup(inv, table[key]) == Str(key);
    } else {
      assert Lookup(table, v) == v;
      if Produces(table, key) {
        var k :| Translates(table, k) && Text(table[k]) == key;
        assert Lookup(inv, v) == inv[key] == Str(k);
        assert k != key;
      }
    }
  }

  lemma ValueRoundTrip(t: Transform, v: Json)
    requires Reads(t) && (t.EnumMap? ==> InjectiveTable(t.table))
    ensures Back(t, Forward(t, v)) == v <==> Reversible(t, v)
  {
    match t
    case BooleanToYesNo(_) =>
      YesNoRoundTrip(v);
    case EnumMap(_, table) =>
      EnumRoundTrip(table, InverseTable(table), v);
    case _ =>
  }

  ghost predicate SourcesApart(ms: seq<FieldMapping>)
    requires AllInvertible(ms)
  {
    forall i, j :: 0 <= i < j < |ms| ==> Apart(Inverse(ms[i]).target, Inverse(ms[j]).target)
  }

  lemma EvaluateForward(source: Json, m: FieldMapping)
    requires Invertible(m)
    ensures Evaluate(source, m.transform) == Forward(m.transform, GetByPath(source, m.transform.source))
  {
  }

  lemma EvaluateBack(source: Json, m: FieldMapping)
    requires Invertible(m)
    ensures Inverse(m).target == m.transform.source
    ensures Evaluate(source, Inverse(m).transform) == Back(m.transform, GetByPath(source, m.target))
  {
    match m.transform
    case Copy(_) =>
    case BooleanToYesNo(_) =>
    case EnumMap(path, table) =>
      var inv := InverseTable(table);
      assert Inverse(m).transform == EnumMap(m.target, inv);
  }

  /** The value at a source path after a mapping and its inverse. */
  lemma ThereAndBack(payload: Json, ms: seq<FieldMapping>, i: nat)
    requires i < |ms| && AllInvertible(ms) && TargetsApart(ms) && SourcesApart(ms)
    ensures var t := ms[i].transform;
            GetByPath(MapFields(MapFields(payload, ms), InverseAll(ms)), t.source)
            == Back(t, Forward(t, GetByPath(payload, t.source)))
  {
    var m, inv, mid := ms[i], InverseAll(ms), MapFields(payload, ms);
    TargetHoldsItsValue(payload, ms, i);
    EvaluateForward(payload, m);
    EvaluateBack(mid, m);
    assert inv[i] == Inverse(m);
    assert TargetsApart(inv);
    TargetHoldsItsValue(mid, inv, i);
  }

  lemma NoLaterStages(payload: Json, ms: seq<FieldMapping>)
    ensures MapPayload(payload, Profile(ms, map[], [], [])) == Mapped(MapFields(payload, ms))
  {
    MapFieldsObj(payload, ms);
    var mapped := MapFields(payload, ms);
    assert WithDefaults(mapped, map[]).fields == mapped.fields;
  }

  /**
   Round trip: through a profile of invertible mappings with non-overlapping targets and
   sources and then through its inverse, a source path gets its value back exactly when
   that value is reversible.
   */
  lemma {:induction false} RoundTrip(payload: Json, ms: seq<FieldMapping>, i: nat)
    requires i < |ms| && AllInvertible(ms) && TargetsApart(ms) && SourcesApart(ms)
    ensures var outbound := MapPayload(payload, Profile(ms, map[], [], []));
            outbound.Mapped? &&
            var inbound := MapPayload(outbound.payload, Profile(InverseAll(ms), map[], [], []));
            inbound.Mapped? &&
            var source := ms[i].transform.source;
            (GetByPath(inbound.payload, source) == GetByPath(payload, source) <==>
             Reversible(ms[i].transform, GetByPath(payload, source)))
  {
    var t := ms[i].transform;
    NoLaterStages(payload, ms);
    NoLaterStages(MapFields(payload, ms), InverseAll(ms));
    ThereAndBack(payload, ms, i);
    ValueRoundTrip(t, GetByPath(payload, t.source));
  }
}

/**
 Reading and writing at dotted paths (`getByPath`, `setByPath`), first on lists of
 segments and then on the dotted strings. Writes give back the new value of the target, whose
 containers are each in one place; Ownership says when that is the write in place.
 */
module ObjectPath {
  import opened Strings
  import opened Json

  type Path = seq<string>

  /** A canonical array index: "0", "17", but not "" or "007", nor 2^32 - 1 and above. */
  predicate IsIndex(seg: string)
  {
    AllDigits(seg) && ParseNat(seg) < 0xFFFF_FFFF && seg == Decimal(ParseNat(seg))
  }

  /** `value == null ? undefined : value[segment]`, for own properties. */
  function Step(v: Json, seg: string): Json
  {
    match v
    case Obj(fields) => Field(fields, seg)
    case Arr(items) =>
      if IsIndex(seg) && ParseNat(seg) < |items| then items[ParseNat(seg)]
      else if seg == "length" then Num(|items|)
      else Undefined
    case Str(s) =>
      if IsIndex(seg) && ParseNat(seg) < |s| then Str([s[ParseNat(seg)]])
      else if seg == "length" then Num(|s|)
      else Undefined
    case _ => Undefined
  }

  function Get(v: Json, path: Path): Json
    decreases |path|
  {
    if path == [] then v else Get(Step(v, path[0]), path[1..])
  }

  /** An array with `x` at index `i`; the places skipped by a write past the end are holes. */
  function Extended<T>(items: seq<T>, i: nat, x: T, hole: T): (r: seq<T>)
    ensures |r| == if i < |items| then |items| else i + 1
    ensures forall k :: 0 <= k < |r| ==> r[k] == if k == i then x else if k < |items| then items[k] else hole
  {
    if i < |items| then items[i := x] else items + seq(i - |items|, _ => hole) + [x]
  }

  /**
   `current[segment] = x` at keys of objects and indices of arrays. What the code does at other
   names and on scalars is no value of this kind: Containers has it.
   */
  function Assign(v: Json, seg: string, x: Json): (w: Json)
    ensures IsContainer(v) ==> IsContainer(w)
  {
    match v
    case Obj(fields) => Obj(fields[seg := x])
    case Arr(items) => if IsIndex(seg) then Arr(Extended(items, ParseNat(seg), x, Undefined)) else v
    case _ => v
  }

  /** What the walk descends into: the container found, or a new object in its place. */
  function Descend(v: Json, seg: string): (w: Json)
    ensures IsContainer(w)
  {
    var child := Step(v, seg);
    if IsContainer(child) then child else Obj(map[])
  }

  function Put(v: Json, path: Path, x: Json): (w: Json)
    requires |path| >= 1
    ensures IsContainer(v) ==> IsContainer(w)
    decreases |path|
  {
    if |path| == 1 then Assign(v, path[0], x)
    else Assign(v, path[0], Put(Descend(v, path[0]), path[1..], x))
  }

  function GetByPath(source: Json, path: string): Json
  {
    if path == "" then Undefined else Get(source, Split(path, '.'))
  }

  function SetByPath(target: Json, path: string, x: Json): Json
  {
    if path == "" then target else Put(target, Split(path, '.'), x)
  }

  // ---------------------------------------------------------------- overlap of paths

  /** Neither path is a prefix of the other (equal paths overlap). */
  predicate Disjoint(p: Path, q: Path)
  {
    !(p <= q) && !(q <= p)
  }

  lemma DisjointTail(p: Path, q: Path)
    requires |p| >= 1 && |q| >= 1 && p[0] == q[0] && Disjoint(p, q)
    ensures |p| > 1 && |q| > 1 && Disjoint(p[1..], q[1..])
  {
    assert p == [p[0]] + p[1..];
    assert q == [q[0]] + q[1..];
  }

  /** Walking `path` down from `v` meets objects, or nothing, before its last segment. */
  predicate Clear(v: Json, path: Path)
    decreases |path|
  {
    v.Obj? && (|path| > 1 ==>
      var child := Step(v, path[0]);
      child.Undefined? || Clear(child, path[1..]))
  }

  // ---------------------------------------------------------------- laws

  lemma {:induction false} GetNothing(v: Json, path: Path)
    requires v.Undefined? || (v == Obj(map[]) && path != [])
    ensures Get(v, path) == Undefined
    decreases |path|
  {
    if path != [] {
      GetNothing(Undefined, path[1..]);
    }
  }

  /** An assignment at `seg` sets a key of an object or an item of an array. */
  predicate Assignable(v: Json, seg: string)
  {
    v.Obj? || (v.Arr? && IsIndex(seg))
  }

  /** The walk of a write at `path` assigns keys of objects and items of arrays only. */
  predicate Lands(v: Json, path: Path)
    requires |path| >= 1
    decreases |path|
  {
    Assignable(v, path[0]) && (|path| > 1 ==> Lands(Descend(v, path[0]), path[1..]))
  }

  lemma {:induction false} LandsInNewObject(path: Path)
    requires |path| >= 1
    ensures Lands(Obj(map[]), path)
    decreases |path|
  {
    if |path| > 1 {
      LandsInNewObject(path[1..]);
    }
  }

  /** A write that lands is read back at its own path. */
  lemma {:induction false} GetPut(v: Json, path: Path, x: Json)
    requires |path| >= 1 && Lands(v, path)
    ensures Get(Put(v, path, x), path) == x
    decreases |path|
  {
    if |path| == 1 {
      assert path[1..] == [];
    } else {
      GetPut(Descend(v, path[0]), path[1..], x);
    }
  }

  /**
   What a write at `path` leaves alone: all but the length of an array it extends, and what
   is read inside a text it replaces by an object.
   */
  predicate Spares(v: Json, path: Path, other: Path)
    requires |path| >= 1 && |other| >= 1 && Disjoint(path, other) && Lands(v, path)
    decreases |path|
  {
    if path[0] != other[0] then
      !(v.Arr? && ParseNat(path[0]) >= |v.items| && other == ["length"])
    else
      DisjointTail(path, other);
      var child := Step(v, path[0]);
      if IsContainer(child) then Spares(child, path[1..], other[1..]) else Get(child, other[1..]) == Undefined
  }

  /** In a new object a write is all there is to read. */
  lemma {:induction false} PutInNewObject(path: Path, x: Json, other: Path)
    requires |path| >= 1 && |other| >= 1 && Disjoint(path, other)
    ensures Get(Put(Obj(map[]), path, x), other) == Undefined
    decreases |path|
  {
    if path[0] == other[0] {
      DisjointTail(path, other);
      PutInNewObject(path[1..], x, other[1..]);
    } else {
      GetNothing(Undefined, other[1..]);
    }
  }

  lemma ItemElsewhere(items: seq<Json>, seg: string, x: Json, other: string)
    requires seg != other && IsIndex(seg)
    ensures Step(Arr(Extended(items, ParseNat(seg), x, Undefined)), other) ==
            if other == "length" && ParseNat(seg) >= |items| then Num(ParseNat(seg) + 1) else Step(Arr(items), other)
  {
    LengthIsNoIndex();
    if IsIndex(other) && ParseNat(seg) == ParseNat(other) {
      IndexInjective(seg, other);
    }
  }

  lemma StepElsewhere(v: Json, seg: string, x: Json, other: string)
    requires seg != other
    ensures Step(Assign(v, seg, x), other) ==
            if v.Arr? && other == "length" && IsIndex(seg) && ParseNat(seg) >= |v.items|
            then Num(ParseNat(seg) + 1) else Step(v, other)
  {
    if v.Arr? && IsIndex(seg) {
      ItemElsewhere(v.items, seg, x, other);
    }
  }

  lemma LengthIsNoIndex()
    ensures !IsIndex("length")
  {
    assert "length"[0] == 'l';
  }

  /** A write changes what is read at a disjoint path if and only if it does not spare it. */
  lemma {:induction false} GetPutDisjoint(v: Json, path: Path, x: Json, other: Path)
    requires |path| >= 1 && |other| >= 1 && Disjoint(path, other) && Lands(v, path)
    ensures Get(Put(v, path, x), other) == Get(v, other) <==> Spares(v, path, other)
    decreases |path|
  {
    PutHead(v, path, x);
    AssignSame(v, path[0], HeadValue(v, path, x), x);
    if path[0] != other[0] {
      StepElsewhere(v, path[0], HeadValue(v, path, x), other[0]);
      ReadElsewhere(v, path[0], HeadValue(v, path, x), other);
    } else {
      DisjointTail(path, other);
      var child := Step(v, path[0]);
      if IsContainer(child) {
        GetPutDisjoint(child, path[1..], x, other[1..]);
      } else {
        PutInNewObject(path[1..], x, other[1..]);
      }
    }
  }

  lemma NothingInNumber(n: int, path: Path)
    requires path != []
    ensures Get(Num(n), path) == Undefined
  {
    GetNothing(Undefined, path[1..]);
  }

  /** Writing past the end shows in the length, and below it nothing is read either way. */
  lemma LengthGrows(v: Json, seg: string, x: Json, rest: Path)
    requires v.Arr? && Assignable(v, seg) && ParseNat(seg) >= |v.items|
    ensures Get(Assign(v, seg, x), ["length"] + rest) == Get(v, ["length"] + rest) <==> rest != []
  {
    LengthIsNoIndex();
    StepElsewhere(v, seg, x, "length");
    assert (["length"] + rest)[0] == "length" && (["length"] + rest)[1..] == rest;
    LengthRead(|v.items|, ParseNat(seg) + 1, rest);
  }

  lemma SameStepSameRead(a: Json, b: Json, path: Path)
    requires path != [] && Step(a, path[0]) == Step(b, path[0])
    ensures Get(a, path) == Get(b, path)
  {
  }

  /** The write is past the end of an array, and the other path asks for its length. */
  predicate AsksLength(v: Json, seg: string, other: string)
    requires Assignable(v, seg)
  {
    v.Arr? && ParseNat(seg) >= |v.items| && other == "length"
  }

  lemma ReadElsewhere(v: Json, seg: string, x: Json, other: Path)
    requires |other| >= 1 && seg != other[0] && Assignable(v, seg)
    ensures Get(Assign(v, seg, x), other) == Get(v, other) <==> !(AsksLength(v, seg, other[0]) && |other| == 1)
  {
    if AsksLength(v, seg, other[0]) {
      LengthGrows(v, seg, x, other[1..]);
      assert other == ["length"] + other[1..];
    } else {
      StepElsewhere(v, seg, x, other[0]);
      SameStepSameRead(Assign(v, seg, x), v, other);
    }
  }

  lemma LengthRead(m: nat, n: nat, rest: Path)
    requires m != n
    ensures Get(Num(m), rest) == Get(Num(n), rest) <==> rest != []
  {
    if rest != [] {
      NothingInNumber(m, rest);
      NothingInNumber(n, rest);
    }
  }

  /** A clear path takes writes, and a write there spares every disjoint path. */
  lemma {:induction false} ClearLands(v: Json, path: Path)
    requires |path| >= 1 && Clear(v, path)
    ensures Lands(v, path)
    decreases |path|
  {
    if |path| > 1 {
      if Step(v, path[0]).Undefined? {
        LandsInNewObject(path[1..]);
      } else {
        ClearLands(Step(v, path[0]), path[1..]);
      }
    }
  }

  lemma {:induction false} ClearSpares(v: Json, path: Path, other: Path)
    requires |path| >= 1 && |other| >= 1 && Disjoint(path, other) && Clear(v, path)
    ensures Lands(v, path) && Spares(v, path, other)
    decreases |path|
  {
    ClearLands(v, path);
    if path[0] == other[0] {
      DisjointTail(path, other);
      if Step(v, path[0]).Undefined? {
        GetNothing(Undefined, other[1..]);
      } else {
        ClearSpares(Step(v, path[0]), path[1..], other[1..]);
      }
    }
  }

  /** A write keeps every disjoint path clear. */
  lemma {:induction false} ClearPut(v: Json, path: Path, x: Json, other: Path)
    requires |path| >= 1 && |other| >= 1 && Clear(v, path) && Clear(v, other) && Disjoint(path, other)
    ensures Clear(Put(v, path, x), other)
    decreases |path|
  {
    if path[0] == other[0] {
      DisjointTail(path, other);
      ClearPut(Descend(v, path[0]), path[1..], x, other[1..]);
    }
  }

  lemma IndexInjective(a: string, b: string)
    requires IsIndex(a) && IsIndex(b) && ParseNat(a) == ParseNat(b)
    ensures a == b
  {
  }

  // ---------------------------------------------------------------- replacing what is there

  /** `v` itself holds something at `seg`. */
  predicate Own(v: Json, seg: string)
  {
    (v.Obj? && seg in v.fields) || (v.Arr? && IsIndex(seg) && ParseNat(seg) < |v.items|)
  }

  /** The walk down `path` meets entries of objects and arrays only. */
  predicate Present(v: Json, path: Path)
    decreases |path|
  {
    path != [] ==> Own(v, path[0]) && Present(Step(v, path[0]), path[1..])
  }

  lemma AssignOwnValue(v: Json, seg: string)
    requires Own(v, seg)
    ensures Assign(v, seg, Step(v, seg)) == v
  {
    match v
    case Obj(fields) => assert fields[seg := fields[seg]] == fields;
    case Arr(items) => assert Extended(items, ParseNat(seg), items[ParseNat(seg)], Undefined) == items;
    case _ =>
  }

  /** Writing what is there changes nothing. */
  lemma {:induction false} PutOwnValue(v: Json, path: Path)
    requires |path| >= 1 && Present(v, path)
    ensures Put(v, path, Get(v, path)) == v
    decreases |path|
  {
    if |path| == 1 {
      assert path[1..] == [];
    } else {
      PutOwnValue(Step(v, path[0]), path[1..]);
    }
    AssignOwnValue(v, path[0]);
  }

  /** A write at a present path lands and spares every disjoint path, present or not. */
  lemma {:induction false} PresentLands(v: Json, path: Path)
    requires |path| >= 1 && Present(v, path)
    ensures Lands(v, path)
    decreases |path|
  {
    if |path| > 1 {
      PresentLands(Step(v, path[0]), path[1..]);
    }
  }

  lemma {:induction false} PresentSpares(v: Json, path: Path, other: Path)
    requires |path| >= 1 && |other| >= 1 && Disjoint(path, other) && Present(v, path)
    ensures Lands(v, path) && Spares(v, path, other)
    decreases |path|
  {
    PresentLands(v, path);
    if path[0] == other[0] {
      DisjointTail(path, other);
      PresentSpares(Step(v, path[0]), path[1..], other[1..]);
    }
  }

  lemma {:induction false} PresentKept(v: Json, path: Path, x: Json, other: Path)
    requires |path| >= 1 && |other| >= 1 && Disjoint(path, other) && Present(v, path)
    ensures Present(Put(v, path, x), other) <==> Present(v, other)
    decreases |path|
  {
    PutHead(v, path, x);
    if path[0] == other[0] {
      DisjointTail(path, other);
      AssignSame(v, path[0], HeadValue(v, path, x), x);
      PresentKept(Step(v, path[0]), path[1..], x, other[1..]);
    } else {
      StepElsewhere(v, path[0], HeadValue(v, path, x), other[0]);
    }
  }

  /** A write at `path` lands there and touches nothing beside it. */
  ghost predicate WriteIsLocal(v: Json, path: Path)
    requires |path| >= 1
  {
    Lands(v, path) && forall other: Path :: |other| >= 1 && Disjoint(path, other) ==> Spares(v, path, other)
  }

  /** The path leads to the length of an empty text. */
  predicate AtEmptyText(v: Json, path: Path)
    decreases |path|
  {
    |path| >= 2 && Own(v, path[0]) &&
    if |path| == 2 then Step(v, path[0]) == Str("") && path[1] == "length"
    else AtEmptyText(Step(v, path[0]), path[1..])
  }

  lemma SparesBelow(v: Json, path: Path, other: Path)
    requires |path| >= 2 && |other| >= 1 && Own(v, path[0]) && IsContainer(Step(v, path[0]))
    requires Disjoint(path[1..], other) && Lands(v, path)
    ensures Disjoint(path, [path[0]] + other)
    ensures Spares(v, path, [path[0]] + other) <==> Spares(Step(v, path[0]), path[1..], other)
  {
    var full := [path[0]] + other;
    assert full[1..] == other && path == [path[0]] + path[1..];
  }

  lemma SparesHere(v: Json, path: Path, other: Path)
    requires |path| >= 2 && |other| >= 1 && Own(v, path[0]) && IsContainer(Step(v, path[0]))
    requires Disjoint(path, other) && WriteIsLocal(Step(v, path[0]), path[1..])
    ensures Lands(v, path) && Spares(v, path, other)
  {
    if other[0] == path[0] {
      DisjointTail(path, other);
      assert Spares(Step(v, path[0]), path[1..], other[1..]);
    }
  }

  lemma {:induction false} LocalBelow(v: Json, path: Path)
    requires |path| >= 2 && Own(v, path[0]) && IsContainer(Step(v, path[0]))
    ensures WriteIsLocal(v, path) <==> WriteIsLocal(Step(v, path[0]), path[1..])
  {
    var child, rest := Step(v, path[0]), path[1..];
    assert Lands(v, path) <==> Lands(child, rest);
    if WriteIsLocal(v, path) {
      forall other: Path | |other| >= 1 && Disjoint(rest, other)
        ensures Spares(child, rest, other)
      {
        SparesBelow(v, path, other);
        assert Spares(v, path, [path[0]] + other);
      }
    }
    if WriteIsLocal(child, rest) {
      forall other: Path | |other| >= 1 && Disjoint(path, other)
        ensures Spares(v, path, other)
      {
        SparesHere(v, path, other);
      }
    }
  }

  lemma LocalInEmptyText(v: Json, path: Path)
    requires |path| >= 2 && Own(v, path[0]) && Step(v, path[0]) == Str("") && Get(v, path) != Undefined
    ensures path[1..] == ["length"] && WriteIsLocal(v, path)
  {
    LandsInNewObject(path[1..]);
    OnlyLengthInEmptyText(path[1..]);
    forall other: Path | |other| >= 1 && Disjoint(path, other)
      ensures Spares(v, path, other)
    {
      if other[0] == path[0] {
        DisjointTail(path, other);
        GetNothing(Undefined, other[1..][1..]);
      }
    }
  }

  lemma TextReads(s: string)
    requires s != ""
    ensures Step(Str(s), "0") != Undefined && Step(Str(s), "length") != Undefined
  {
    LengthIsNoIndex();
    ZeroIsIndex();
  }

  lemma NotSparedInText(v: Json, path: Path, lost: string)
    requires |path| >= 2 && Own(v, path[0]) && Step(v, path[0]).Str? && path[1] != lost
    requires Step(Step(v, path[0]), lost) != Undefined
    ensures !WriteIsLocal(v, path)
  {
    var other := [path[0], lost];
    assert other[0] == path[0] && other[1] != path[1];
    assert Disjoint(path, other);
    var child, last: Path := Step(v, path[0]), [lost];
    assert other[1..] == last && last[1..] == [];
    assert Get(child, last) == Get(Step(child, lost), last[1..]);
    LandsInNewObject(path[1..]);
    assert Lands(v, path);
    assert !Spares(v, path, other);
  }

  /** Inside a text that is not empty the write takes away a character or the length. */
  lemma NotLocalInText(v: Json, path: Path)
    requires |path| >= 2 && Own(v, path[0]) && Step(v, path[0]).Str? && Step(v, path[0]) != Str("")
    ensures !WriteIsLocal(v, path)
  {
    TextReads(Step(v, path[0]).s);
    assert "0" != "length";
    NotSparedInText(v, path, if path[1] == "length" then "0" else "length");
  }

  lemma LocalInText(v: Json, path: Path)
    requires |path| >= 2 && Own(v, path[0]) && Step(v, path[0]).Str? && Get(v, path) != Undefined
    ensures WriteIsLocal(v, path) <==> AtEmptyText(v, path)
  {
    if Step(v, path[0]) == Str("") {
      LocalInEmptyText(v, path);
      assert path[1] == path[1..][0];
    } else {
      NotLocalInText(v, path);
    }
  }

  lemma ZeroIsIndex()
    ensures IsIndex("0") && ParseNat("0") == 0
  {
    assert Decimal(0) == "0";
    ParseDecimal(0);
  }

  lemma OnlyLengthInEmptyText(rest: Path)
    requires |rest| >= 1 && Get(Str(""), rest) != Undefined
    ensures rest == ["length"]
  {
    LengthIsNoIndex();
    if rest[0] == "length" {
      if rest[1..] != [] {
        NothingInNumber(0, rest[1..]);
      }
    } else {
      GetNothing(Undefined, rest[1..]);
    }
  }

  /**
   On a value, where no container is in two places, replacing what is there is local if and
   only if the walk to it meets entries of objects and arrays only, or it is the length of an
   empty text.
   */
  lemma {:induction false} LocalIff(v: Json, path: Path)
    requires |path| >= 1 && Get(v, path) != Undefined
    ensures WriteIsLocal(v, path) <==> Present(v, path) || AtEmptyText(v, path)
    decreases |path|
  {
    var seg, child, rest := path[0], Step(v, path[0]), path[1..];
    if child.Undefined? {
      GetNothing(child, rest);
    }
    if Own(v, seg) {
      if |path| == 1 {
        PresentLands(v, path);
        forall other: Path | |other| >= 1 && Disjoint(path, other) ensures Spares(v, path, other) {
          PresentSpares(v, path, other);
        }
      } else if IsContainer(child) {
        LocalBelow(v, path);
        LocalIff(child, rest);
      } else if child.Str? {
        LocalInText(v, path);
      } else {
        GetNothing(Undefined, rest[1..]);
      }
    } else {
      LengthIsNoIndex();
    }
  }

  lemma AssignSame(v: Json, seg: string, x: Json, y: Json)
    ensures Assign(Assign(v, seg, x), seg, y) == Assign(v, seg, y)
    ensures Assignable(Assign(v, seg, x), seg) == Assignable(v, seg)
    ensures if Assignable(v, seg) then Step(Assign(v, seg, x), seg) == x else Assign(v, seg, x) == v
  {
  }

  lemma AssignApartObject(fields: map<string, Json>, a: string, x: Json, b: string, y: Json)
    requires a != b
    ensures fields[a := x][b := y] == fields[b := y][a := x]
  {
  }

  lemma AssignApartArray(items: seq<Json>, i: nat, x: Json, j: nat, y: Json)
    requires i != j
    ensures Extended(Extended(items, i, x, Undefined), j, y, Undefined)
         == Extended(Extended(items, j, y, Undefined), i, x, Undefined)
  {
  }

  lemma AssignApartItems(items: seq<Json>, a: string, x: Json, b: string, y: Json)
    requires a != b
    ensures Assign(Assign(Arr(items), a, x), b, y) == Assign(Assign(Arr(items), b, y), a, x)
  {
    if IsIndex(a) && IsIndex(b) {
      if ParseNat(a) == ParseNat(b) {
        IndexInjective(a, b);
      }
      AssignApartArray(items, ParseNat(a), x, ParseNat(b), y);
    }
  }

  lemma DescendElsewhere(v: Json, a: string, x: Json, b: string)
    requires a != b
    ensures Descend(Assign(v, a, x), b) == Descend(v, b)
  {
    StepElsewhere(v, a, x, b);
    if b == "length" {
      LengthIsNoIndex();
    }
  }

  lemma AssignApart(v: Json, a: string, x: Json, b: string, y: Json)
    requires a != b
    ensures Assign(Assign(v, a, x), b, y) == Assign(Assign(v, b, y), a, x)
  {
    match v
    case Obj(fields) => AssignApartObject(fields, a, x, b, y);
    case Arr(items) => AssignApartItems(items, a, x, b, y);
    case _ =>
  }

  /** What a write puts under its first segment. */
  function HeadValue(v: Json, path: Path, x: Json): Json
    requires |path| >= 1
  {
    if |path| == 1 then x else Put(Descend(v, path[0]), path[1..], x)
  }

  lemma PutHead(v: Json, path: Path, x: Json)
    requires |path| >= 1
    ensures Put(v, path, x) == Assign(v, path[0], HeadValue(v, path, x))
  {
  }

  lemma PutApart(v: Json, p: Path, x: Json, q: Path, y: Json)
    requires |p| >= 1 && |q| >= 1 && p[0] != q[0]
    ensures Put(Put(v, p, x), q, y) == Put(Put(v, q, y), p, x)
  {
    var xv, yv := HeadValue(v, p, x), HeadValue(v, q, y);
    var vp, vq := Put(v, p, x), Put(v, q, y);
    PutHead(v, p, x);
    PutHead(v, q, y);
    AssignApart(v, p[0], xv, q[0], yv);
    DescendElsewhere(v, p[0], xv, q[0]);
    DescendElsewhere(v, q[0], yv, p[0]);
    assert HeadValue(vp, q, y) == yv && HeadValue(vq, p, x) == xv;
    PutHead(vp, q, y);
    PutHead(vq, p, x);
  }

  /** A second write under the same first segment continues from the first. */
  lemma PutUnderSameHead(v: Json, p: Path, x: Json, q: Path, y: Json)
    requires |p| > 1 && |q| > 1 && p[0] == q[0]
    ensures var child := Descend(v, p[0]);
            Put(Put(v, p, x), q, y) == Assign(v, p[0], Put(Put(child, p[1..], x), q[1..], y))
  {
    var seg, child := p[0], Descend(v, p[0]);
    var px, vp := Put(child, p[1..], x), Put(v, p, x);
    PutHead(v, p, x);
    PutHead(vp, q, y);
    AssignSame(v, seg, px, HeadValue(vp, q, y));
    if Assignable(v, seg) {
      assert Descend(vp, seg) == px;
    } else {
      AssignSame(v, seg, Put(px, q[1..], y), y);
    }
  }

  /** Writes at disjoint paths commute, as long as both land. */
  lemma {:induction false} PutCommutes(v: Json, p: Path, x: Json, q: Path, y: Json)
    requires |p| >= 1 && |q| >= 1 && Disjoint(p, q) && Lands(v, p) && Lands(v, q)
    ensures Put(Put(v, p, x), q, y) == Put(Put(v, q, y), p, x)
    decreases |p|
  {
    if p[0] == q[0] {
      DisjointTail(p, q);
      PutUnderSameHead(v, p, x, q, y);
      PutUnderSameHead(v, q, y, p, x);
      PutCommutes(Descend(v, p[0]), p[1..], x, q[1..], y);
    } else {
      PutApart(v, p, x, q, y);
    }
  }
}

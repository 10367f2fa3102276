/**
 The recursive field differ behind `metadata.changedFields` (web/src/services/caf.service.js),
 and what its dotted paths are good for: carrying the old form data to the new.
 */
module FieldDiff {
  import opened Lists
  import opened Strings
  import opened Json
  import opened ObjectPath

  /** `path = prefix ? prefix + '.' + key : key`. */
  function Dotted(prefix: string, key: string): string
  {
    if prefix != "" then prefix + "." + key else key
  }

  function Render(prefix: string, path: Path): string
    decreases |path|
  {
    if path == [] then prefix else Render(Dotted(prefix, path[0]), path[1..])
  }

  /**
   `path` leads to a value the two objects disagree on, where the differ looks: it goes
   below a key exactly when both sides hold an object there.
   */
  predicate IsChanged(before: Json, after: Json, path: Path)
    decreases |path|
  {
    before.Obj? && after.Obj? && path != [] &&
    var a, b := Field(before.fields, path[0]), Field(after.fields, path[0]);
    if a.Obj? && b.Obj? then IsChanged(a, b, path[1..]) else |path| == 1 && a != b
  }

  /** The value at a path of plain objects; nothing is found below anything else. */
  function ValueAt(v: Json, path: Path): Json
    decreases |path|
  {
    if path == [] then v else if v.Obj? then ValueAt(Field(v.fields, path[0]), path[1..]) else Undefined
  }

  /** Objects all the way: at every proper beginning of the path there is one. */
  ghost predicate ObjectsAbove(v: Json, path: Path)
  {
    forall i :: 0 <= i < |path| ==> ValueAt(v, path[..i]).Obj?
  }

  lemma ObjectsAboveBelow(v: Json, path: Path)
    requires v.Obj? && path != []
    ensures ObjectsAbove(v, path) <==> ObjectsAbove(Field(v.fields, path[0]), path[1..])
  {
    var below := Field(v.fields, path[0]);
    forall i | 0 <= i < |path| - 1
      ensures ValueAt(v, path[..i + 1]) == ValueAt(below, path[1..][..i])
    {
      assert path[..i + 1][1..] == path[1..][..i];
    }
    assert ValueAt(v, path[..0]) == v;
    if ObjectsAbove(below, path[1..]) {
      forall i | 0 <= i < |path|
        ensures ValueAt(v, path[..i]).Obj?
      {
        if i > 0 {
          assert ValueAt(v, path[..(i - 1) + 1]) == ValueAt(below, path[1..][..i - 1]);
        }
      }
    }
  }

  /**
   A path is a changed one exactly when both forms have objects all the way to it, and at it
   different values that are not both objects: a changed leaf, as deep as it lies.
   */
  lemma {:induction false} ChangedIffLeafDiffers(before: Json, after: Json, path: Path)
    ensures IsChanged(before, after, path) <==>
            path != [] && ObjectsAbove(before, path) && ObjectsAbove(after, path) &&
            ValueAt(before, path) != ValueAt(after, path) &&
            !(ValueAt(before, path).Obj? && ValueAt(after, path).Obj?)
    decreases |path|
  {
    if path != [] {
      assert path[..0] == [];
      if before.Obj? && after.Obj? {
        var a, b := Field(before.fields, path[0]), Field(after.fields, path[0]);
        ObjectsAboveBelow(before, path);
        ObjectsAboveBelow(after, path);
        if |path| > 1 {
          ChangedIffLeafDiffers(a, b, path[1..]);
          assert path[1..][..0] == [];
          assert ObjectsAbove(a, path[1..]) ==> ValueAt(a, path[1..][..0]).Obj?;
          assert ObjectsAbove(b, path[1..]) ==> ValueAt(b, path[1..][..0]).Obj?;
        } else {
          assert path[1..] == [];
        }
      } else {
        assert !ObjectsAbove(before, path) || !ObjectsAbove(after, path) by {
          assert ValueAt(before, path[..0]) == before && ValueAt(after, path[..0]) == after;
        }
      }
    }
  }

  /** The list `trail` enumerates the changed paths, each once. */
  ghost predicate Enumerates(trail: seq<Path>, before: Json, after: Json)
  {
    NoRepeats(trail) && forall p :: IsChanged(before, after, p) <==> p in trail
  }

  /** The same, for the paths below the keys in `done`. */
  ghost predicate EnumeratesBelow(trail: seq<Path>, before: Json, after: Json, done: set<string>)
  {
    NoRepeats(trail) &&
    forall p :: p in trail <==> IsChanged(before, after, p) && p[0] in done
  }

  /** `changed` is `trail`, printed below `prefix`. */
  ghost predicate Prints(changed: seq<string>, prefix: string, trail: seq<Path>)
  {
    |changed| == |trail| && forall i :: 0 <= i < |trail| ==> changed[i] == Render(prefix, trail[i])
  }

  /**
   countChangedFields. `trail` is the list of paths as segments; `changed` is what is
   pushed. Keys are visited in no particular order.
   */
  method CountChangedFields(before: Json, after: Json, prefix: string)
    returns (changed: seq<string>, ghost trail: seq<Path>)
    requires before.Obj? && after.Obj?
    ensures (set p | p in changed) == ChangedPaths(before, after, prefix)
    ensures Enumerates(trail, before, after)
    ensures Prints(changed, prefix, trail)
    decreases before, 1
  {
    changed, trail := [], [];
    var all := before.fields.Keys + after.fields.Keys;
    var keys := all;
    while keys != {}
      invariant keys <= all
      invariant EnumeratesBelow(trail, before, after, all - keys)
      invariant Prints(changed, prefix, trail)
    {
      var key :| key in keys;
      var found;
      ghost var below;
      found, below := ChangedAtKey(before, after, prefix, key);
      AddKey(trail, below, before, after, all - keys, key);
      assert all - (keys - {key}) == all - keys + {key};
      keys := keys - {key};
      changed, trail := changed + found, trail + below;
    }
    assert all - keys == all;
    CoversAll(trail, before, after, all);
    ListingIsDiff(before, after, prefix, changed, trail);
  }

  /** The body of the loop, for one key. */
  method ChangedAtKey(before: Json, after: Json, prefix: string, key: string)
    returns (found: seq<string>, ghost below: seq<Path>)
    requires before.Obj? && after.Obj?
    requires key in before.fields.Keys + after.fields.Keys
    ensures EnumeratesBelow(below, before, after, {key})
    ensures Prints(found, prefix, below)
    decreases before, 0
  {
    var oldValue, newValue := Field(before.fields, key), Field(after.fields, key);
    var path := Dotted(prefix, key);
    if oldValue.Obj? && newValue.Obj? {
      ghost var inner;
      found, inner := CountChangedFields(oldValue, newValue, path);
      below := Under(key, inner);
      UnderEnumerates(before, after, key, inner);
    } else {
      LeafEnumerates(before, after, key);
      if oldValue != newValue {
        found, below := [path], [[key]];
      } else {
        found, below := [], [];
      }
    }
  }

  function Under(key: string, trail: seq<Path>): (lifted: seq<Path>)
    ensures |lifted| == |trail|
    ensures forall i :: 0 <= i < |trail| ==> lifted[i] == [key] + trail[i]
  {
    if trail == [] then [] else [[key] + trail[0]] + Under(key, trail[1..])
  }

  lemma UnderEnumerates(before: Json, after: Json, key: string, innerTrail: seq<Path>)
    requires before.Obj? && after.Obj?
    requires Field(before.fields, key).Obj? && Field(after.fields, key).Obj?
    requires Enumerates(innerTrail, Field(before.fields, key), Field(after.fields, key))
    ensures EnumeratesBelow(Under(key, innerTrail), before, after, {key})
  {
    var lifted := Under(key, innerTrail);
    UnderDistinct(key, innerTrail);
    forall p
      ensures p in lifted <==> IsChanged(before, after, p) && p[0] in {key}
    {
      UnderMember(key, innerTrail, p);
    }
  }

  lemma UnderDistinct(key: string, trail: seq<Path>)
    requires NoRepeats(trail)
    ensures NoRepeats(Under(key, trail))
  {
    var lifted := Under(key, trail);
    forall i, j | 0 <= i < j < |lifted|
      ensures lifted[i] != lifted[j]
    {
      assert lifted[i][1..] == trail[i] && lifted[j][1..] == trail[j];
    }
  }

  lemma UnderMember(key: string, trail: seq<Path>, p: Path)
    ensures p in Under(key, trail) <==> p != [] && p[0] == key && p[1..] in trail
  {
    var lifted := Under(key, trail);
    if p in lifted {
      var i :| 0 <= i < |lifted| && lifted[i] == p;
      assert p[1..] == trail[i];
    }
    if p != [] && p[0] == key && p[1..] in trail {
      var i :| 0 <= i < |trail| && trail[i] == p[1..];
      assert lifted[i] == [key] + p[1..] == p;
    }
  }

  lemma LeafEnumerates(before: Json, after: Json, key: string)
    requires before.Obj? && after.Obj?
    requires !(Field(before.fields, key).Obj? && Field(after.fields, key).Obj?)
    ensures var trail: seq<Path> := if Field(before.fields, key) != Field(after.fields, key) then [[key]] else [];
            EnumeratesBelow(trail, before, after, {key})
  {
    forall p | IsChanged(before, after, p) && p[0] == key
      ensures p == [key]
    {
    }
  }

  lemma AddKey(trail: seq<Path>, below: seq<Path>, before: Json, after: Json, done: set<string>, key: string)
    requires EnumeratesBelow(trail, before, after, done) && EnumeratesBelow(below, before, after, {key})
    requires key !in done
    ensures EnumeratesBelow(trail + below, before, after, done + {key})
  {
    var both := trail + below;
    forall i, j | 0 <= i < j < |both|
      ensures both[i] != both[j]
    {
      if i < |trail| <= j {
        assert both[i] in trail && both[j] in below;
      }
    }
  }

  lemma CoversAll(trail: seq<Path>, before: Json, after: Json, all: set<string>)
    requires before.Obj? && after.Obj? && all == before.fields.Keys + after.fields.Keys
    requires EnumeratesBelow(trail, before, after, all)
    ensures Enumerates(trail, before, after)
  {
    forall p | IsChanged(before, after, p)
      ensures p[0] in all
    {
    }
  }

  // ---------------------------------------------------------------- the diff as a set

  /** The changed paths as a set of dotted strings. */
  ghost function ChangedPaths(before: Json, after: Json, prefix: string): set<string>
    requires before.Obj? && after.Obj?
  {
    set p | p in ChangedSegments(before, after) :: Render(prefix, p)
  }

  ghost function ChangedSegments(before: Json, after: Json): set<Path>
    requires before.Obj? && after.Obj?
    decreases before, 1
  {
    (set k | k in before.fields.Keys + after.fields.Keys && IsChanged(before, after, [k]) :: [k])
    + SegmentsBelow(before, after)
  }

  ghost function SegmentsBelow(before: Json, after: Json): set<Path>
    requires before.Obj? && after.Obj?
    decreases before, 0
  {
    set k, p | k in before.fields.Keys + after.fields.Keys
               && Field(before.fields, k).Obj? && Field(after.fields, k).Obj?
               && p in ChangedSegments(Field(before.fields, k), Field(after.fields, k)) :: [k] + p
  }

  lemma {:induction false} ChangedSegmentsExact(before: Json, after: Json, path: Path)
    requires before.Obj? && after.Obj?
    ensures path in ChangedSegments(before, after) <==> IsChanged(before, after, path)
    decreases |path|
  {
    if path in SegmentsBelow(before, after) {
      var k, p :| [k] + p == path && k in before.fields.Keys + after.fields.Keys
        && Field(before.fields, k).Obj? && Field(after.fields, k).Obj?
        && p in ChangedSegments(Field(before.fields, k), Field(after.fields, k));
      assert path[1..] == p;
      ChangedSegmentsExact(Field(before.fields, k), Field(after.fields, k), p);
    }
    if IsChanged(before, after, path) {
      var k, p := path[0], path[1..];
      if Field(before.fields, k).Obj? && Field(after.fields, k).Obj? {
        ChangedSegmentsExact(Field(before.fields, k), Field(after.fields, k), p);
        assert [k] + p in SegmentsBelow(before, after);
        assert path == [k] + p;
      } else {
        assert path == [k];
      }
    }
  }

  /** A listing of the changed paths, printed, is the set of changed paths. */
  lemma ListingIsDiff(before: Json, after: Json, prefix: string, changed: seq<string>, trail: seq<Path>)
    requires before.Obj? && after.Obj? && Enumerates(trail, before, after) && Prints(changed, prefix, trail)
    ensures (set p | p in changed) == ChangedPaths(before, after, prefix)
  {
    forall p
      ensures p in changed <==> p in ChangedPaths(before, after, prefix)
    {
      if p in changed {
        var i :| 0 <= i < |changed| && changed[i] == p;
        assert trail[i] in trail;
        ChangedSegmentsExact(before, after, trail[i]);
      }
      if p in ChangedPaths(before, after, prefix) {
        var q :| q in ChangedSegments(before, after) && Render(prefix, q) == p;
        ChangedSegmentsExact(before, after, q);
        assert q in trail;
        var i :| 0 <= i < |trail| && trail[i] == q;
        assert changed[i] == p;
      }
    }
  }

  // ---------------------------------------------------------------- empty exactly when equal

  lemma {:induction false} NothingChanged(before: Json, after: Json)
    requires before.Obj? && after.Obj? && Proper(before) && Proper(after)
    requires forall p :: !IsChanged(before, after, p)
    ensures before == after
    decreases before
  {
    forall k | k in before.fields.Keys + after.fields.Keys
      ensures k in before.fields && k in after.fields && before.fields[k] == after.fields[k]
    {
      var a, b := Field(before.fields, k), Field(after.fields, k);
      if a.Obj? && b.Obj? {
        forall q
          ensures !IsChanged(a, b, q)
        {
          var p := [k] + q;
          assert p[0] == k && p[1..] == q;
          assert !IsChanged(before, after, p);
        }
        NothingChanged(a, b);
      } else {
        assert !IsChanged(before, after, [k]);
      }
    }
    assert before.fields == after.fields;
  }

  lemma {:induction false} SelfUnchanged(v: Json, p: Path)
    ensures !IsChanged(v, v, p)
    decreases |p|
  {
    if v.Obj? && p != [] {
      SelfUnchanged(Field(v.fields, p[0]), p[1..]);
    }
  }

  /** The diff is empty exactly when the two forms are equal. */
  lemma EmptyIffEqual(before: Json, after: Json, trail: seq<Path>)
    requires before.Obj? && after.Obj? && Proper(before) && Proper(after) && Enumerates(trail, before, after)
    ensures trail == [] <==> before == after
  {
    if trail == [] {
      NothingChanged(before, after);
    } else {
      assert trail[0] in trail;
      if before == after {
        SelfUnchanged(before, trail[0]);
      }
    }
  }

  // ---------------------------------------------------------------- patching

  /** `delete` at a path, for objects. */
  function Remove(v: Json, path: Path): (w: Json)
    requires |path| >= 1
    ensures v.Obj? ==> w.Obj?
    decreases |path|
  {
    if !v.Obj? then v
    else if |path| == 1 then Obj(v.fields - {path[0]})
    else if Step(v, path[0]).Obj? then Assign(v, path[0], Remove(Step(v, path[0]), path[1..]))
    else v
  }

  /** Copy what `new` holds at `path` (its value, or its absence) into `cur`. */
  function WriteSegments(cur: Json, after: Json, path: Path): Json
    requires |path| >= 1
  {
    if Get(after, path).Undefined? then Remove(cur, path) else Put(cur, path, Get(after, path))
  }

  /** The same at a dotted path, read the way `getByPath` and `setByPath` read it. */
  function Write(cur: Json, after: Json, path: string): Json
  {
    if path == "" then cur else WriteSegments(cur, after, Split(path, '.'))
  }

  function Patch(cur: Json, after: Json, paths: seq<string>): Json
    decreases |paths|
  {
    if paths == [] then cur else Patch(Write(cur, after, paths[0]), after, paths[1..])
  }

  function Rendered(trail: seq<Path>): (paths: seq<string>)
    ensures |paths| == |trail|
    ensures forall i :: 0 <= i < |trail| ==> paths[i] == Render("", trail[i])
  {
    if trail == [] then [] else [Render("", trail[0])] + Rendered(trail[1..])
  }

  /** Writing at a changed path removes exactly that path from the diff. */
  lemma {:induction false} WriteSettles(cur: Json, after: Json, path: Path, q: Path)
    requires Proper(cur) && Proper(after) && IsChanged(cur, after, path)
    ensures var next := WriteSegments(cur, after, path);
            next.Obj? && Proper(next) &&
            (IsChanged(next, after, q) <==> IsChanged(cur, after, q) && q != path)
    decreases |path|
  {
    var k := path[0];
    var a, b := Field(cur.fields, k), Field(after.fields, k);
    var next := WriteSegments(cur, after, path);
    if a.Obj? && b.Obj? {
      var tail := if q == [] then [] else q[1..];
      WriteSettles(a, b, path[1..], tail);
      assert next == Obj(cur.fields[k := WriteSegments(a, b, path[1..])]);
      if q != [] && q[0] == k {
        assert q == [k] + q[1..] && path == [k] + path[1..];
      }
    } else {
      assert path[1..] == [] && Get(after, path) == b;
      assert q != [] && q[0] == k && |q| == 1 ==> q == path;
      if q != [] && q[0] == k && b.Obj? {
        SelfUnchanged(b, q[1..]);
      }
    }
  }

  // ---------------------------------------------------------------- addressable keys

  predicate DotFreeKeys(v: Json)
  {
    v.Obj? ==> forall k :: k in v.fields ==> '.' !in k && DotFreeKeys(v.fields[k])
  }

  /** No key holds a dot, and no top-level key is empty. */
  predicate Addressable(v: Json)
  {
    v.Obj? && "" !in v.fields && DotFreeKeys(v)
  }

  lemma {:induction false} ChangedSegmentsDotFree(before: Json, after: Json, path: Path)
    requires DotFreeKeys(before) && DotFreeKeys(after) && IsChanged(before, after, path)
    ensures forall seg <- path :: '.' !in seg
    decreases |path|
  {
    var a, b := Field(before.fields, path[0]), Field(after.fields, path[0]);
    assert path == [path[0]] + path[1..];
    if a.Obj? && b.Obj? {
      ChangedSegmentsDotFree(a, b, path[1..]);
    } else {
      assert path[1..] == [];
    }
  }

  lemma {:induction false} RenderJoins(prefix: string, path: Path)
    requires |path| >= 1
    ensures prefix != "" ==> Render(prefix, path) == prefix + "." + Join(path, ".")
    ensures prefix == "" && path[0] != "" ==> Render(prefix, path) == Join(path, ".") != ""
    decreases |path|
  {
    if |path| == 1 {
      assert path[1..] == [];
    } else {
      RenderJoins(Dotted(prefix, path[0]), path[1..]);
      assert Join(path, ".") == path[0] + "." + Join(path[1..], ".");
      if prefix != "" {
        assert prefix + "." + path[0] + "." + Join(path[1..], ".") == prefix + "." + Join(path, ".");
      }
    }
  }

  /** On addressable forms a dotted path can be read back into its segments. */
  lemma PathReadsBack(before: Json, after: Json, path: Path)
    requires Addressable(before) && Addressable(after) && IsChanged(before, after, path)
    ensures Render("", path) != "" && Split(Render("", path), '.') == path
  {
    ChangedSegmentsDotFree(before, after, path);
    RenderJoins("", path);
    SplitJoin(path, '.');
  }

  /** The paths countChangedFields lists are pairwise distinct on addressable forms. */
  lemma PathsDistinct(before: Json, after: Json, trail: seq<Path>)
    requires Addressable(before) && Addressable(after) && Enumerates(trail, before, after)
    ensures NoRepeats(Rendered(trail))
  {
    forall i, j | 0 <= i < j < |trail|
      ensures Rendered(trail)[i] != Rendered(trail)[j]
    {
      assert trail[i] in trail && trail[j] in trail;
      PathReadsBack(before, after, trail[i]);
      PathReadsBack(before, after, trail[j]);
    }
  }

  /**
   Round trip: writing the after values at the listed paths, in the listed order, turns the
   before form into the after one. `before` stands for any intermediate form as well.
   */
  lemma {:induction false} PatchRestores(cur: Json, before: Json, after: Json, trail: seq<Path>)
    requires Addressable(before) && Addressable(after) && Proper(after)
    requires cur.Obj? && Proper(cur) && Enumerates(trail, cur, after)
    requires forall p <- trail :: IsChanged(before, after, p)
    ensures Patch(cur, after, Rendered(trail)) == after
    decreases |trail|
  {
    if trail == [] {
      NothingChanged(cur, after);
    } else {
      var p := trail[0];
      assert p in trail;
      PathReadsBack(before, after, p);
      var next := WriteSegments(cur, after, p);
      assert Write(cur, after, Rendered(trail)[0]) == next;
      WriteSettles(cur, after, p, p);
      RestEnumerates(cur, after, trail);
      PatchRestores(next, before, after, trail[1..]);
      assert Rendered(trail)[1..] == Rendered(trail[1..]);
    }
  }

  /** After the first write the rest of the list enumerates what is left. */
  lemma RestEnumerates(cur: Json, after: Json, trail: seq<Path>)
    requires cur.Obj? && Proper(cur) && Proper(after) && trail != [] && Enumerates(trail, cur, after)
    ensures trail[0] != [] && Enumerates(trail[1..], WriteSegments(cur, after, trail[0]), after)
  {
    var p := trail[0];
    assert trail == [p] + trail[1..] && p in trail;
    forall q
      ensures IsChanged(WriteSegments(cur, after, p), after, q) <==> q in trail[1..]
    {
      WriteSettles(cur, after, p, q);
    }
  }

  // ---------------------------------------------------------------- the exact condition

  /** Every key of `v`, at every depth the differ reaches, is in `keys`. */
  predicate KeysWithin(v: Json, keys: set<string>)
  {
    v.Obj? ==> forall k :: k in v.fields ==> k in keys && KeysWithin(v.fields[k], keys)
  }

  ghost predicate RoundTrips(before: Json, after: Json)
  {
    forall trail :: Enumerates(trail, before, after) ==> Patch(before, after, Rendered(trail)) == after
  }

  ghost predicate RoundTripsOver(keys: set<string>)
  {
    forall before: Json, after: Json ::
      before.Obj? && after.Obj? && Proper(before) && Proper(after) && KeysWithin(before, keys) &&
        KeysWithin(after, keys)
      ==> RoundTrips(before, after)
  }

  predicate SafeKey(k: string)
  {
    k != "" && '.' !in k
  }

  lemma {:induction false} SafeKeysDotFree(v: Json, keys: set<string>)
    requires KeysWithin(v, keys) && forall k <- keys :: SafeKey(k)
    ensures DotFreeKeys(v)
  {
    if v.Obj? {
      forall k | k in v.fields
        ensures DotFreeKeys(v.fields[k])
      {
        SafeKeysDotFree(v.fields[k], keys);
      }
    }
  }

  /** An unsafe key, put into an empty form, is lost by the patch. */
  lemma UnsafeKeyLost(k: string)
    requires !SafeKey(k)
    ensures !RoundTrips(Obj(map[]), Obj(map[k := Null]))
  {
    var before, after := Obj(map[]), Obj(map[k := Null]);
    var trail: seq<Path> := [[k]];
    forall p
      ensures IsChanged(before, after, p) <==> p in trail
    {
      assert |p| == 1 && p[0] == k ==> p == [k];
    }
    assert Enumerates(trail, before, after);
    assert Rendered(trail) == [Render("", [k])] == [k];
    if k != "" {
      var parts := Split(k, '.');
      assert parts[0] != k;
      GetNothing(Undefined, parts[1..]);
      assert Write(before, after, k) == Remove(before, parts);
      assert before.fields - {parts[0]} == map[];
    }
    assert Patch(before, after, [k]) == Patch(Write(before, after, k), after, []) == before;
    assert k in after.fields;
  }

  /** The round trip holds over a set of keys if and only if none is empty or dotted. */
  lemma RoundTripIffSafeKeys(keys: set<string>)
    ensures RoundTripsOver(keys) <==> forall k <- keys :: SafeKey(k)
  {
    if forall k <- keys :: SafeKey(k) {
      forall before: Json, after: Json, trail | before.Obj? && after.Obj? && Proper(before) && Proper(after)
        && KeysWithin(before, keys) && KeysWithin(after, keys) && Enumerates(trail, before, after)
        ensures Patch(before, after, Rendered(trail)) == after
      {
        SafeKeysDotFree(before, keys);
        SafeKeysDotFree(after, keys);
        PatchRestores(before, before, after, trail);
      }
    } else {
      var k :| k in keys && !SafeKey(k);
      UnsafeKeyLost(k);
      var before, after := Obj(map[]), Obj(map[k := Null]);
      assert Proper(before) && Proper(after) && KeysWithin(before, keys) && KeysWithin(after, keys);
      assert !RoundTrips(before, after);
    }
  }

  // ---------------------------------------------------------------- when listed paths are distinct

  /** No listing of two forms over these keys repeats a path. */
  ghost predicate DistinctOver(keys: set<string>)
  {
    forall before: Json, after: Json, trail: seq<Path> ::
      KeysWithin(before, keys) && KeysWithin(after, keys) && Enumerates(trail, before, after) ==>
      NoRepeats(Rendered(trail))
  }

  /** A changed path goes through keys of the two forms. */
  lemma {:induction false} ChangedKeys(before: Json, after: Json, path: Path, keys: set<string>)
    requires KeysWithin(before, keys) && KeysWithin(after, keys) && IsChanged(before, after, path)
    ensures forall seg <- path :: seg in keys
    decreases |path|
  {
    var a, b := Field(before.fields, path[0]), Field(after.fields, path[0]);
    assert path == [path[0]] + path[1..];
    if a.Obj? && b.Obj? {
      ChangedKeys(a, b, path[1..], keys);
    } else {
      assert path[1..] == [];
    }
  }

  /** Where every object has one key only, the empty one, there is one changed path at most. */
  lemma {:induction false} OneEmptyPath(before: Json, after: Json, p: Path, q: Path)
    requires KeysWithin(before, {""}) && KeysWithin(after, {""})
    requires IsChanged(before, after, p) && IsChanged(before, after, q)
    ensures p == q
    decreases |p|
  {
    ChangedKeys(before, after, p, {""});
    ChangedKeys(before, after, q, {""});
    assert p[0] in p && q[0] in q;
    var a, b := Field(before.fields, ""), Field(after.fields, "");
    assert p == [""] + p[1..] && q == [""] + q[1..];
    if a.Obj? && b.Obj? {
      OneEmptyPath(a, b, p[1..], q[1..]);
    }
  }

  /** Below an empty top-level key the prefix is dropped: there any key `k` prints like `k` at the top. */
  lemma EmptyKeyRepeatsAPath(k: string)
    requires k != ""
    ensures var before := Obj(map["" := Obj(map[k := Num(1)]), k := Num(1)]);
            var after := Obj(map["" := Obj(map[k := Num(2)]), k := Num(2)]);
            Enumerates([["", k], [k]], before, after) && Rendered([["", k], [k]]) == [k, k]
  {
    var innerOld, innerNew := Obj(map[k := Num(1)]), Obj(map[k := Num(2)]);
    var before := Obj(map["" := innerOld, k := Num(1)]);
    var after := Obj(map["" := innerNew, k := Num(2)]);
    var trail: seq<Path> := [["", k], [k]];
    assert trail[0] == ["", k] && trail[1] == [k] && trail[0] != trail[1];
    forall p
      ensures IsChanged(before, after, p) <==> p in trail
    {
      if IsChanged(before, after, p) && p[0] == "" {
        assert IsChanged(innerOld, innerNew, p[1..]);
        assert p == [p[0]] + p[1..] && p[1..] == [k];
        assert p == trail[0];
      }
      if IsChanged(before, after, p) && p[0] != "" {
        assert p == [k];
      }
      if p in trail {
        assert trail[0][1..] == [k];
        assert IsChanged(innerOld, innerNew, [k]);
      }
    }
    assert Render("", trail[0]) == k by {
      assert trail[0][1..] == [k];
      assert Dotted("", "") == "" && Dotted("", k) == k;
      assert Render("", [k]) == k;
    }
    assert Render("", trail[1]) == k;
  }

  lemma EmptyKeyClashes(keys: set<string>, k: string)
    requires "" in keys && k in keys && k != ""
    ensures !DistinctOver(keys)
  {
    var before := Obj(map["" := Obj(map[k := Num(1)]), k := Num(1)]);
    var after := Obj(map["" := Obj(map[k := Num(2)]), k := Num(2)]);
    var trail: seq<Path> := [["", k], [k]];
    EmptyKeyRepeatsAPath(k);
    assert KeysWithin(before, keys) && KeysWithin(after, keys) && Enumerates(trail, before, after);
    assert Rendered(trail)[0] == Rendered(trail)[1];
  }

  /** Over dot-free keys: exactly when the empty key is not among them, or the only one. */
  lemma DistinctIff(keys: set<string>)
    requires forall k <- keys :: '.' !in k
    ensures DistinctOver(keys) <==> "" !in keys || keys == {""}
  {
    if "" !in keys {
      forall before: Json, after: Json, trail: seq<Path> |
        KeysWithin(before, keys) && KeysWithin(after, keys) && Enumerates(trail, before, after)
        ensures NoRepeats(Rendered(trail))
      {
        SafeKeysDotFree(before, keys);
        SafeKeysDotFree(after, keys);
        if trail != [] {
          assert trail[0] in trail;
          PathsDistinct(before, after, trail);
        }
      }
    } else if keys == {""} {
      forall before: Json, after: Json, trail: seq<Path> |
        KeysWithin(before, keys) && KeysWithin(after, keys) && Enumerates(trail, before, after)
        ensures NoRepeats(Rendered(trail))
      {
        if |trail| >= 2 {
          assert trail[0] in trail && trail[1] in trail;
          OneEmptyPath(before, after, trail[0], trail[1]);
        }
      }
    } else {
      var k :| k in keys && k != "";
      EmptyKeyClashes(keys, k);
    }
  }
}

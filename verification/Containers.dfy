/**
 Objects and arrays the way JavaScript shares them: a heap of containers and references into
 it, with `getByPath` and `setByPath` (services/adapter-runtime/src/utils/object-path.js) on
 it. Here a write is in place, arrays have names and a length besides their items, and an
 assignment can throw. What ObjectPath says of writes on values is what happens here when
 the containers on the walk are held in one place only (Ownership).
 */
module Containers {
  import opened Options
  import opened Strings
  import opened Json
  import opened ObjectPath

  type Scalar = v: Json | !IsContainer(v) witness Undefined

  /** What a variable, a property or an item holds: a scalar, or a reference to a container. */
  datatype Slot = Lit(v: Scalar) | At(ref: nat)

  /** An object, or an array with its items and whatever else is set on it. */
  datatype Node = Record(fields: map<string, Slot>) | List(items: seq<Slot>, names: map<string, Slot>)

  /** A reference is an index: allocation appends, so what was there before is a prefix. */
  type Heap = seq<Node>

  const NOTHING: Slot := Lit(Undefined)

  function Entry(n: Node, seg: string): Slot
  {
    match n
    case Record(fields) => if seg in fields then fields[seg] else NOTHING
    case List(items, names) =>
      if IsIndex(seg) then (if ParseNat(seg) < |items| then items[ParseNat(seg)] else NOTHING)
      else if seg == "length" then Lit(Num(|items|))
      else if seg in names then names[seg] else NOTHING
  }

  /** `value == null ? undefined : value[segment]`. */
  function StepIn(h: Heap, s: Slot, seg: string): Slot
  {
    match s
    case Lit(v) => Lit(Step(v, seg))
    case At(r) => if r < |h| then Entry(h[r], seg) else NOTHING
  }

  function Walk(h: Heap, s: Slot, path: Path): Slot
    decreases |path|
  {
    if path == [] then s else Walk(h, StepIn(h, s, path[0]), path[1..])
  }

  function GetByPathIn(h: Heap, s: Slot, path: string): Slot
  {
    if path == "" then NOTHING else Walk(h, s, Split(path, '.'))
  }

  ghost function Unread(h: Heap, inside: set<nat>): set<nat>
  {
    set r: nat | r < |h| && r !in inside
  }

  lemma UnreadShrinks(h: Heap, inside: set<nat>, r: nat)
    requires r < |h| && r !in inside
    ensures Unread(h, inside + {r}) < Unread(h, inside)
  {
    assert r in Unread(h, inside);
  }

  /**
   The slot as a value. A reference back into a container being read comes out as undefined,
   which prints as nothing: so does `join` on an array inside itself.
   */
  function Unfold(h: Heap, s: Slot, inside: set<nat>): Json
    decreases Unread(h, inside)
  {
    match s
    case Lit(v) => v
    case At(r) =>
      if r in inside || r >= |h| then Undefined
      else
        UnreadShrinks(h, inside, r);
        match h[r]
        case Record(fields) => Obj(map k | k in fields :: Unfold(h, fields[k], inside + {r}))
        case List(items, _) => Arr(seq(|items|, i requires 0 <= i < |items| => Unfold(h, items[i], inside + {r})))
  }

  function TextIn(h: Heap, s: Slot): string
  {
    Text(Unfold(h, s, {}))
  }

  // ---------------------------------------------------------------- writing in place

  /** The heap after an assignment or a walk of them, and whether it got there without an error. */
  datatype Outcome = Outcome(heap: Heap, ok: bool)

  /** The number a text of digits stands for, as far as it is an array length. */
  function Numeral(s: string): Option<nat>
  {
    var t := Trim(s);
    if AllDigits(t) && ParseNat(t) < 0x1_0000_0000 then Some(ParseNat(t)) else None
  }

  /** What `array.length = x` makes of `x`; anything else is a RangeError. */
  function ToLength(h: Heap, x: Slot): Option<nat>
  {
    if x.At? then Numeral(TextIn(h, x))
    else
      match x.v
      case Num(n) => if 0 <= n < 0x1_0000_0000 then Some(n) else None
      case Bool(b) => Some(if b then 1 else 0)
      case Null => Some(0)
      case Str(s) => Numeral(s)
      case _ => None
  }

  function Resized(items: seq<Slot>, n: nat): (r: seq<Slot>)
    ensures |r| == n
    ensures forall k :: 0 <= k < n ==> r[k] == if k < |items| then items[k] else NOTHING
  {
    if n <= |items| then items[..n] else items + seq(n - |items|, _ => NOTHING)
  }

  /** `current[segment] = x`. On a number, a boolean or a text it is ignored, on nothing it throws. */
  function AssignIn(h: Heap, s: Slot, seg: string, x: Slot): (r: Outcome)
    ensures |r.heap| == |h|
  {
    match s
    case Lit(v) => Outcome(h, !v.Undefined? && !v.Null?)
    case At(r) =>
      if r >= |h| then Outcome(h, false)
      else
        match h[r]
        case Record(fields) => Outcome(h[r := Record(fields[seg := x])], true)
        case List(items, names) =>
          if IsIndex(seg) then
            Outcome(h[r := List(Extended(items, ParseNat(seg), x, NOTHING), names)], true)
          else if seg == "length" then
            var n := ToLength(h, x);
            if n.Some? then Outcome(h[r := List(Resized(items, n.value), names)], true) else Outcome(h, false)
          else Outcome(h[r := List(items, names[seg := x])], true)
  }

  /** The body of the walk: unless there is a container at `seg`, a new object is put there. */
  function OpenIn(h: Heap, s: Slot, seg: string): (r: Outcome)
    ensures |h| <= |r.heap|
  {
    if StepIn(h, s, seg).At? then Outcome(h, true) else AssignIn(h + [Record(map[])], s, seg, At(|h|))
  }

  function SetIn(h: Heap, s: Slot, path: Path, x: Slot): (r: Outcome)
    requires |path| >= 1
    ensures |h| <= |r.heap|
    decreases |path|
  {
    if |path| == 1 then AssignIn(h, s, path[0], x)
    else
      var first := OpenIn(h, s, path[0]);
      if first.ok then SetIn(first.heap, StepIn(first.heap, s, path[0]), path[1..], x) else first
  }

  function SetByPathIn(h: Heap, s: Slot, path: string, x: Slot): (r: Outcome)
    ensures |h| <= |r.heap|
  {
    if path == "" then Outcome(h, true) else SetIn(h, s, Split(path, '.'), x)
  }

  /** The containers, updated in place. */
  class Memory {
    var nodes: Heap

    constructor (initial: Heap)
      ensures nodes == initial
    {
      nodes := initial;
    }

    method Allocate(n: Node) returns (s: Slot)
      modifies this
      ensures nodes == old(nodes) + [n] && s == At(|old(nodes)|)
    {
      s := At(|nodes|);
      nodes := nodes + [n];
    }

    method Assign(s: Slot, seg: string, x: Slot) returns (ok: bool)
      modifies this
      ensures Outcome(nodes, ok) == AssignIn(old(nodes), s, seg, x)
    {
      var r := AssignIn(nodes, s, seg, x);
      nodes := r.heap;
      ok := r.ok;
    }

    method SetByPath(target: Slot, path: string, x: Slot) returns (ok: bool)
      modifies this
      ensures Outcome(nodes, ok) == SetByPathIn(old(nodes), target, path, x)
    {
      if path == "" {
        return true;
      }
      var segments := Split(path, '.');
      var current := target;
      var index := 0;
      while index < |segments| - 1
        invariant 0 <= index < |segments|
        invariant SetIn(nodes, current, segments[index..], x) == SetIn(old(nodes), target, segments, x)
      {
        var segment := segments[index];
        if !StepIn(nodes, current, segment).At? {
          var child := Allocate(Record(map[]));
          ok := Assign(current, segment, child);
          if !ok {
            return;
          }
        }
        current := StepIn(nodes, current, segment);
        index := index + 1;
      }
      ok := Assign(current, segments[index], x);
    }
  }

  // ---------------------------------------------------------------- heaps that hold trees

  /** Followed through the heap, the slot is the tree `j`. Two places may share a container. */
  predicate Holds(h: Heap, s: Slot, j: Json)
    decreases j
  {
    match j
    case Obj(fields) =>
      s.At? && s.ref < |h| && h[s.ref].Record? && h[s.ref].fields.Keys == fields.Keys &&
      forall k :: k in fields ==> Holds(h, h[s.ref].fields[k], fields[k])
    case Arr(items) =>
      s.At? && s.ref < |h| && h[s.ref].List? && h[s.ref].names == map[] && |h[s.ref].items| == |items| &&
      forall i :: 0 <= i < |items| ==> Holds(h, h[s.ref].items[i], items[i])
    case _ => s == Lit(j)
  }

  lemma HoldsStep(h: Heap, s: Slot, j: Json, seg: string)
    requires Holds(h, s, j)
    ensures Holds(h, StepIn(h, s, seg), Step(j, seg))
    ensures s.At? <==> IsContainer(j)
  {
  }

  lemma {:induction false} HoldsWalk(h: Heap, s: Slot, j: Json, path: Path)
    requires Holds(h, s, j)
    ensures Holds(h, Walk(h, s, path), Get(j, path))
    decreases |path|
  {
    if path != [] {
      HoldsStep(h, s, j, path[0]);
      HoldsWalk(h, StepIn(h, s, path[0]), Step(j, path[0]), path[1..]);
    }
  }

  /** What a heap holds it holds however it grows. */
  lemma {:induction false} HoldsLater(h: Heap, later: Heap, s: Slot, j: Json)
    requires Holds(h, s, j) && h <= later
    ensures Holds(later, s, j)
    decreases j
  {
    match j
    case Obj(fields) =>
      forall k | k in fields
        ensures Holds(later, later[s.ref].fields[k], fields[k])
      {
        HoldsLater(h, later, h[s.ref].fields[k], fields[k]);
      }
    case Arr(items) =>
      forall i | 0 <= i < |items|
        ensures Holds(later, later[s.ref].items[i], items[i])
      {
        HoldsLater(h, later, h[s.ref].items[i], items[i]);
      }
    case _ =>
  }

  lemma {:induction false} WalkLater(h: Heap, later: Heap, s: Slot, j: Json, path: Path)
    requires Holds(h, s, j) && h <= later
    ensures Walk(later, s, path) == Walk(h, s, path)
    decreases |path|
  {
    if path != [] {
      HoldsStep(h, s, j, path[0]);
      WalkLater(h, later, StepIn(h, s, path[0]), Step(j, path[0]), path[1..]);
    }
  }

  /** A slot holds one tree at most. */
  lemma {:induction false} HoldsOne(h: Heap, s: Slot, a: Json, b: Json)
    requires Holds(h, s, a) && Holds(h, s, b)
    ensures a == b
    decreases a
  {
    match a
    case Obj(fields) =>
      forall k | k in fields
        ensures fields[k] == b.fields[k]
      {
        HoldsOne(h, h[s.ref].fields[k], fields[k], b.fields[k]);
      }
      assert fields == b.fields;
    case Arr(items) =>
      forall i | 0 <= i < |items|
        ensures items[i] == b.items[i]
      {
        HoldsOne(h, h[s.ref].items[i], items[i], b.items[i]);
      }
      assert items == b.items;
    case _ =>
  }

  /** Every tree the containers in `inside` hold has `j` properly inside it. */
  ghost predicate Within(h: Heap, inside: set<nat>, j: Json)
  {
    forall r, outer :: r in inside && Holds(h, At(r), outer) ==> j < outer
  }

  lemma WithinInner(h: Heap, inside: set<nat>, r: nat, outer: Json, j: Json)
    requires Within(h, inside, outer) && Holds(h, At(r), outer) && j < outer
    ensures Within(h, inside + {r}, j)
  {
    forall q, other | q in inside + {r} && Holds(h, At(q), other)
      ensures j < other
    {
      if q == r {
        HoldsOne(h, At(r), outer, other);
      }
    }
  }

  /** Unfolding a slot gives the tree it holds. */
  lemma {:induction false} UnfoldHolds(h: Heap, s: Slot, inside: set<nat>, j: Json)
    requires Holds(h, s, j) && Within(h, inside, j)
    ensures Unfold(h, s, inside) == j
    decreases j
  {
    match j
    case Obj(fields) =>
      forall k | k in fields
        ensures Unfold(h, h[s.ref].fields[k], inside + {s.ref}) == fields[k]
      {
        WithinInner(h, inside, s.ref, j, fields[k]);
        UnfoldHolds(h, h[s.ref].fields[k], inside + {s.ref}, fields[k]);
      }
      assert Unfold(h, s, inside).fields == fields;
    case Arr(items) =>
      forall i | 0 <= i < |items|
        ensures Unfold(h, h[s.ref].items[i], inside + {s.ref}) == items[i]
      {
        WithinInner(h, inside, s.ref, j, items[i]);
        UnfoldHolds(h, h[s.ref].items[i], inside + {s.ref}, items[i]);
      }
      assert Unfold(h, s, inside).items == items;
    case _ =>
  }

  lemma TextHolds(h: Heap, s: Slot, j: Json)
    requires Holds(h, s, j)
    ensures Unfold(h, s, {}) == j && TextIn(h, s) == Text(j)
  {
    UnfoldHolds(h, s, {}, j);
  }

  // ---------------------------------------------------------------- what any target makes of a write

  /**
   On a number, a boolean or a text nothing is written, and there is no error unless the walk
   falls off it before its last segment; on nothing at all every write is an error.
   */
  lemma {:induction false} ScalarTarget(h: Heap, v: Scalar, path: Path, x: Slot)
    requires |path| >= 1
    ensures var r := SetIn(h, Lit(v), path, x);
            h <= r.heap &&
            (r.ok <==> Get(v, path[..|path| - 1]) != Undefined && Get(v, path[..|path| - 1]) != Null)
    decreases |path|
  {
    if |path| == 1 {
      assert path[..0] == [];
    } else {
      var w: Scalar, rest := Step(v, path[0]), path[1..];
      var before := path[..|path| - 1];
      assert before[0] == path[0] && before[1..] == rest[..|rest| - 1];
      if v.Undefined? || v.Null? {
        GetNothing(Undefined, before[1..]);
      } else {
        var grown := h + [Record(map[])];
        assert OpenIn(h, Lit(v), path[0]) == Outcome(grown, true);
        ScalarTarget(grown, w, rest, x);
      }
    }
  }

  /** In a new object everything on the walk is new. */
  lemma {:induction false} NewTarget(h: Heap, f: nat, path: Path, x: Slot)
    requires |path| >= 1 && f < |h| && h[f] == Record(map[])
    ensures var r := SetIn(h, At(f), path, x);
            r.ok && Walk(r.heap, At(f), path) == x && r.heap[f].Record? &&
            forall q :: 0 <= q < |h| && q != f ==> r.heap[q] == h[q]
    decreases |path|
  {
    var r := SetIn(h, At(f), path, x);
    if |path| == 1 {
      assert path[1..] == [];
    } else {
      var first := OpenIn(h, At(f), path[0]);
      assert first.heap[f] == Record(map[path[0] := At(|h|)]);
      NewTarget(first.heap, |h|, path[1..], x);
      assert r.heap[f] == first.heap[f];
    }
  }

  /** A write below a tree leaves the containers around that tree alone. */
  lemma {:induction false} OuterStays(h: Heap, s: Slot, j: Json, path: Path, x: Slot, q: nat)
    requires |path| >= 1 && q < |h| && Holds(h, s, j) && Within(h, {q}, j)
    ensures SetIn(h, s, path, x).heap[q] == h[q]
    decreases |path|
  {
    if s.Lit? {
      ScalarTarget(h, s.v, path, x);
    } else {
      assert s.ref != q;
      if |path| > 1 {
        var child := StepIn(h, s, path[0]);
        HoldsStep(h, s, j, path[0]);
        if child.At? {
          assert Step(j, path[0]) < j;
          OuterStays(h, child, Step(j, path[0]), path[1..], x, q);
        } else {
          var first := OpenIn(h, s, path[0]);
          if first.ok {
            OpensNew(h, s, path[0]);
            NewTarget(first.heap, |h|, path[1..], x);
          }
        }
      }
    }
  }

  /** Opening a place without a container: a new object is there, unless it is the length of an array. */
  lemma OpensNew(h: Heap, s: Slot, seg: string)
    requires s.At? && s.ref < |h| && !StepIn(h, s, seg).At?
    ensures var r := OpenIn(h, s, seg);
            (r.ok <==> !(h[s.ref].List? && seg == "length")) &&
            (r.ok ==> |r.heap| == |h| + 1 && r.heap[|h|] == Record(map[]) &&
                      StepIn(r.heap, s, seg) == At(|h|) &&
                      forall q :: 0 <= q < |h| && q != s.ref ==> r.heap[q] == h[q])
  {
    LengthIsNoIndex();
    if h[s.ref].List? && seg == "length" {
      NoLength(h + [Record(map[])], |h|);
    }
  }

  /** An object is no length. */
  lemma NoLength(h: Heap, f: nat)
    requires f < |h| && h[f] == Record(map[])
    ensures ToLength(h, At(f)) == None
  {
    assert Unfold(h, At(f), {}).Obj?;
    var t := "[object Object]";
    assert TextIn(h, At(f)) == t;
    assert t[0] == '[' && t[|t| - 1] == ']';
    assert TrimStart(t) == t && TrimEnd(t) == t;
  }

  /** The walk comes to the length of an array. */
  predicate ThroughLength(j: Json, path: Path)
    requires |path| >= 1
    decreases |path|
  {
    (j.Arr? && path[0] == "length") ||
    (|path| > 1 && IsContainer(Step(j, path[0])) && ThroughLength(Step(j, path[0]), path[1..]))
  }

  /** The last segment is the length of an array. */
  predicate AtLength(j: Json, path: Path)
    requires |path| >= 1
    decreases |path|
  {
    if |path| == 1 then j.Arr? && path[0] == "length"
    else IsContainer(Step(j, path[0])) && AtLength(Step(j, path[0]), path[1..])
  }

  /** After a write below a child, the child is still where it was. */
  lemma ChildStays(h: Heap, s: Slot, j: Json, path: Path, x: Slot)
    requires |path| > 1 && Holds(h, s, j) && StepIn(h, s, path[0]).At?
    ensures var r := SetIn(h, s, path, x);
            r == SetIn(h, StepIn(h, s, path[0]), path[1..], x) &&
            StepIn(r.heap, s, path[0]) == StepIn(h, s, path[0])
  {
    HoldsStep(h, s, j, path[0]);
    forall outer | Holds(h, s, outer)
      ensures Step(j, path[0]) < outer
    {
      HoldsOne(h, s, j, outer);
    }
    OuterStays(h, StepIn(h, s, path[0]), Step(j, path[0]), path[1..], x, s.ref);
  }

  /**
   A write into an object or an array, keys, items and other names alike, is read back at its
   own path, unless it comes to the length of an array: there it is an error, or the last
   segment and a length, and then that length is read back.
   */
  lemma {:induction false} ContainerTarget(h: Heap, s: Slot, j: Json, path: Path, x: Slot)
    requires |path| >= 1 && Holds(h, s, j) && IsContainer(j)
    ensures var r := SetIn(h, s, path, x);
            (r.ok <==> !ThroughLength(j, path) || (AtLength(j, path) && ToLength(h, x).Some?)) &&
            (r.ok ==> Walk(r.heap, s, path) ==
                        if ThroughLength(j, path) then Lit(Num(ToLength(h, x).value)) else x)
    decreases |path|
  {
    LengthIsNoIndex();
    if |path| == 1 {
      assert path[1..] == [];
    } else {
      HoldsStep(h, s, j, path[0]);
      if StepIn(h, s, path[0]).At? {
        ChildStays(h, s, j, path, x);
        ContainerTarget(h, StepIn(h, s, path[0]), Step(j, path[0]), path[1..], x);
      } else {
        var first := OpenIn(h, s, path[0]);
        OpensNew(h, s, path[0]);
        if first.ok {
          NewTarget(first.heap, |h|, path[1..], x);
        }
      }
    }
  }

  /** What is a length: a number of 32 bits, a truth value, null, or text of digits that is one. */
  lemma LengthsExact(h: Heap, n: int, b: bool, t: string)
    ensures ToLength(h, Lit(Num(n))) == if 0 <= n < 0x1_0000_0000 then Some(n) else None
    ensures ToLength(h, Lit(Bool(b))) == Some(if b then 1 else 0)
    ensures ToLength(h, Lit(Null)) == Some(0) && ToLength(h, NOTHING) == None
    ensures ToLength(h, Lit(Str(t))) ==
            if AllDigits(Trim(t)) && ParseNat(Trim(t)) < 0x1_0000_0000 then Some(ParseNat(Trim(t))) else None
  {
  }

  /** Setting the length of an array keeps the items below it and drops the others; other names stay. */
  lemma LengthCuts(h: Heap, r: nat, x: Slot, seg: string)
    requires r < |h| && h[r].List? && ToLength(h, x).Some? && seg != "length"
    ensures var after := SetIn(h, At(r), ["length"], x);
            after.ok && StepIn(after.heap, At(r), seg) ==
              if IsIndex(seg) && ParseNat(seg) >= ToLength(h, x).value then NOTHING else StepIn(h, At(r), seg)
  {
    LengthIsNoIndex();
  }

  // ---------------------------------------------------------------- replacing what is there

  lemma SameAgain(h: Heap, s: Slot, seg: string)
    requires s.At? && s.ref < |h|
    requires if h[s.ref].Record? then seg in h[s.ref].fields else IsIndex(seg) && ParseNat(seg) < |h[s.ref].items|
    ensures AssignIn(h, s, seg, StepIn(h, s, seg)).heap == h
  {
    match h[s.ref]
    case Record(fields) =>
      assert fields[seg := fields[seg]] == fields;
      assert h[s.ref := Record(fields)] == h;
    case List(items, names) =>
      assert Extended(items, ParseNat(seg), items[ParseNat(seg)], NOTHING) == items;
      assert h[s.ref := List(items, names)] == h;
  }

  /** Writing where something is allocates nothing, and writing what is there changes nothing. */
  lemma {:induction false} SetPresent(h: Heap, s: Slot, j: Json, path: Path, x: Slot)
    requires |path| >= 1 && Holds(h, s, j) && Present(j, path)
    ensures var r := SetIn(h, s, path, x);
            r.ok && |r.heap| == |h| && (x == Walk(h, s, path) ==> r.heap == h)
    decreases |path|
  {
    HoldsStep(h, s, j, path[0]);
    if |path| == 1 {
      assert path[1..] == [];
      SameAgain(h, s, path[0]);
      assert Walk(h, s, path) == StepIn(h, s, path[0]);
    } else {
      assert OpenIn(h, s, path[0]) == Outcome(h, true);

      HoldsStep(h, StepIn(h, s, path[0]), Step(j, path[0]), path[1]);
      SetPresent(h, StepIn(h, s, path[0]), Step(j, path[0]), path[1..], x);
    }
  }

  /** Writing something else where a tree of an earlier heap has something changes that heap's part. */
  lemma {:induction false} OldWrite(h0: Heap, h: Heap, s: Slot, j: Json, path: Path, x: Slot)
    requires |path| >= 1 && h0 <= h && Holds(h0, s, j) && Present(j, path) && x != Walk(h, s, path)
    ensures !(h0 <= SetIn(h, s, path, x).heap)
    decreases |path|
  {
    HoldsStep(h0, s, j, path[0]);
    assert StepIn(h, s, path[0]) == StepIn(h0, s, path[0]);
    if |path| == 1 {
      assert path[1..] == [];
      assert Entry(SetIn(h, s, path, x).heap[s.ref], path[0]) == x;
    } else {
      OldWrite(h0, h, StepIn(h, s, path[0]), Step(j, path[0]), path[1..], x);
    }
  }

  lemma {:induction false} WalkConcat(h: Heap, s: Slot, p: Path, q: Path)
    ensures Walk(h, s, p + q) == Walk(h, Walk(h, s, p), q)
    decreases |p|
  {
    if p == [] {
      assert p + q == q;
    } else {
      assert (p + q)[1..] == p[1..] + q;
      WalkConcat(h, StepIn(h, s, p[0]), p[1..], q);
    }
  }

  lemma {:induction false} ScalarWalk(h: Heap, v: Scalar, path: Path)
    ensures Walk(h, Lit(v), path).Lit?
    decreases |path|
  {
    if path != [] {
      ScalarWalk(h, Step(v, path[0]), path[1..]);
    }
  }

  /** Such a write changes that earlier part only. */
  lemma {:induction false} OldOnly(h0: Heap, h: Heap, s: Slot, j: Json, path: Path, x: Slot, q: nat)
    requires |path| >= 1 && h0 <= h && Holds(h0, s, j) && Present(j, path) && |h0| <= q < |h|
    ensures SetIn(h, s, path, x).heap[q] == h[q]
    decreases |path|
  {
    HoldsStep(h0, s, j, path[0]);
    assert StepIn(h, s, path[0]) == StepIn(h0, s, path[0]);
    if |path| > 1 {
      HoldsStep(h0, StepIn(h, s, path[0]), Step(j, path[0]), path[1]);
      OldOnly(h0, h, StepIn(h, s, path[0]), Step(j, path[0]), path[1..], x, q);
    }
  }

  /** It is read back. */
  lemma {:induction false} PresentReadsBack(h: Heap, s: Slot, j: Json, path: Path, x: Slot)
    requires |path| >= 1 && Holds(h, s, j) && Present(j, path)
    ensures Walk(SetIn(h, s, path, x).heap, s, path) == x
  {
    PresentNoLength(j, path);
    ContainerTarget(h, s, j, path, x);
  }

  lemma {:induction false} PresentNoLength(j: Json, path: Path)
    requires |path| >= 1 && Present(j, path)
    ensures !ThroughLength(j, path)
    decreases |path|
  {
    LengthIsNoIndex();
    if |path| > 1 {
      PresentNoLength(Step(j, path[0]), path[1..]);
    }
  }

  lemma {:induction false} PresentBelow(j: Json, p: Path, rest: Path)
    requires Present(j, p + rest)
    ensures Present(Get(j, p), rest)
    decreases |p|
  {
    if p == [] {
      assert p + rest == rest;
    } else {
      assert (p + rest)[1..] == p[1..] + rest;
      PresentBelow(Step(j, p[0]), p[1..], rest);
    }
  }
}

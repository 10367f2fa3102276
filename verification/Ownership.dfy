/**
 Which containers of a target are its own. A shape describes a target on the heap: the
 containers it alone refers to, each once, down to scalars and to containers that were there
 before it, which others may hold as well. As long as a write walks own containers only,
 writing in place is ObjectPath's write on values, and nothing older changes.
 */
module Ownership {
  import opened Strings
  import opened Json
  import opened ObjectPath
  import opened Containers

  datatype Shape =
    | Leaf(slot: Slot)
    | OwnRecord(ref: nat, fields: map<string, Shape>)
    | OwnList(ref: nat, items: seq<Shape>)

  /** The slot has this shape, with its own containers at `base` and above and the others below. */
  ghost predicate Matches(h: Heap, base: nat, s: Slot, sh: Shape)
    decreases sh
  {
    match sh
    case Leaf(slot) => s == slot && (slot.At? ==> slot.ref < base)
    case OwnRecord(r, fields) =>
      s == At(r) && base <= r < |h| && h[r].Record? && h[r].fields.Keys == fields.Keys &&
      forall k :: k in fields ==> Matches(h, base, h[r].fields[k], fields[k])
    case OwnList(r, items) =>
      s == At(r) && base <= r < |h| && h[r].List? && h[r].names == map[] && |h[r].items| == |items| &&
      forall i :: 0 <= i < |items| ==> Matches(h, base, h[r].items[i], items[i])
  }

  ghost function Refs(sh: Shape): set<nat>
    decreases sh
  {
    match sh
    case Leaf(_) => {}
    case OwnRecord(r, fields) => {r} + set k, q | k in fields && q in Refs(fields[k]) :: q
    case OwnList(r, items) => {r} + set i, q | 0 <= i < |items| && q in Refs(items[i]) :: q
  }

  /** No own container occurs twice. */
  ghost predicate Single(sh: Shape)
    decreases sh
  {
    match sh
    case Leaf(_) => true
    case OwnRecord(r, fields) =>
      (forall k :: k in fields ==> Single(fields[k]) && r !in Refs(fields[k])) &&
      forall k, l :: k in fields && l in fields && k != l ==> Refs(fields[k]) !! Refs(fields[l])
    case OwnList(r, items) =>
      (forall i :: 0 <= i < |items| ==> Single(items[i]) && r !in Refs(items[i])) &&
      forall i, k :: 0 <= i < |items| && 0 <= k < |items| && i != k ==> Refs(items[i]) !! Refs(items[k])
  }

  /** The value a shape stands for, its older containers read on the heap `h0`. */
  ghost predicate Stands(h0: Heap, sh: Shape, j: Json)
    decreases sh
  {
    match sh
    case Leaf(slot) => Holds(h0, slot, j)
    case OwnRecord(_, fields) =>
      j.Obj? && j.fields.Keys == fields.Keys && forall k :: k in fields ==> Stands(h0, fields[k], j.fields[k])
    case OwnList(_, items) =>
      j.Arr? && |j.items| == |items| && forall i :: 0 <= i < |items| ==> Stands(h0, items[i], j.items[i])
  }

  lemma {:induction false} StandsHolds(h0: Heap, h: Heap, s: Slot, sh: Shape, j: Json)
    requires h0 <= h && Matches(h, |h0|, s, sh) && Stands(h0, sh, j)
    ensures Holds(h, s, j)
    decreases sh
  {
    match sh
    case Leaf(slot) => HoldsLater(h0, h, slot, j);
    case OwnRecord(r, fields) =>
      forall k | k in fields
        ensures Holds(h, h[r].fields[k], j.fields[k])
      {
        StandsHolds(h0, h, h[r].fields[k], fields[k], j.fields[k]);
      }
    case OwnList(r, items) =>
      forall i | 0 <= i < |items|
        ensures Holds(h, h[r].items[i], j.items[i])
      {
        StandsHolds(h0, h, h[r].items[i], items[i], j.items[i]);
      }
  }

  lemma {:induction false} RefsInHeap(h: Heap, base: nat, s: Slot, sh: Shape)
    requires Matches(h, base, s, sh)
    ensures forall q :: q in Refs(sh) ==> base <= q < |h|
    decreases sh
  {
    match sh
    case Leaf(_) =>
    case OwnRecord(r, fields) =>
      forall k | k in fields
        ensures forall q :: q in Refs(fields[k]) ==> base <= q < |h|
      {
        RefsInHeap(h, base, h[r].fields[k], fields[k]);
      }
    case OwnList(r, items) =>
      forall i | 0 <= i < |items|
        ensures forall q :: q in Refs(items[i]) ==> base <= q < |h|
      {
        RefsInHeap(h, base, h[r].items[i], items[i]);
      }
  }

  /** A shape stays as long as its own containers do. */
  lemma {:induction false} MatchesFrame(h: Heap, later: Heap, base: nat, s: Slot, sh: Shape)
    requires Matches(h, base, s, sh) && |h| <= |later|
    requires forall q :: q in Refs(sh) && q < |h| ==> later[q] == h[q]
    ensures Matches(later, base, s, sh)
    decreases sh
  {
    match sh
    case Leaf(_) =>
    case OwnRecord(r, fields) =>
      assert r in Refs(sh);
      forall k | k in fields
        ensures Matches(later, base, later[r].fields[k], fields[k])
      {
        MatchesFrame(h, later, base, h[r].fields[k], fields[k]);
      }
    case OwnList(r, items) =>
      assert r in Refs(sh);
      forall i | 0 <= i < |items|
        ensures Matches(later, base, later[r].items[i], items[i])
      {
        MatchesFrame(h, later, base, h[r].items[i], items[i]);
      }
  }

  // ---------------------------------------------------------------- writing into a shape

  /** What is at a segment; in an older container, what the heap `h0` has there. */
  ghost function Kid(h0: Heap, sh: Shape, seg: string): Shape
  {
    match sh
    case Leaf(slot) => Leaf(StepIn(h0, slot, seg))
    case OwnRecord(_, fields) => if seg in fields then fields[seg] else Leaf(NOTHING)
    case OwnList(_, items) =>
      if IsIndex(seg) then (if ParseNat(seg) < |items| then items[ParseNat(seg)] else Leaf(NOTHING))
      else if seg == "length" then Leaf(Lit(Num(|items|))) else Leaf(NOTHING)
  }

  /** An own container that takes an assignment at `seg` as an entry. */
  predicate Takes(sh: Shape, seg: string)
  {
    sh.OwnRecord? || (sh.OwnList? && IsIndex(seg))
  }

  ghost function WithKid(sh: Shape, seg: string, kid: Shape): Shape
    requires Takes(sh, seg)
  {
    if sh.OwnRecord? then OwnRecord(sh.ref, sh.fields[seg := kid])
    else OwnList(sh.ref, Extended(sh.items, ParseNat(seg), kid, Leaf(NOTHING)))
  }

  /** Something with a container in it, own or older. */
  predicate IsHolder(sh: Shape)
  {
    !(sh.Leaf? && sh.slot.Lit?)
  }

  /** The walk of a write at `path` assigns entries of own containers only. */
  ghost predicate OwnWalk(sh: Shape, path: Path)
    requires |path| >= 1
    decreases |path|
  {
    Takes(sh, path[0]) &&
    (|path| > 1 && IsHolder(Kid([], sh, path[0])) ==> OwnWalk(Kid([], sh, path[0]), path[1..]))
  }

  /** The shape after the write; new objects get the indices from `next` on. */
  ghost function PutShape(sh: Shape, path: Path, slot: Slot, next: nat): Shape
    requires |path| >= 1 && OwnWalk(sh, path)
    decreases |path|
  {
    var kid := Kid([], sh, path[0]);
    WithKid(sh, path[0],
      if |path| == 1 then Leaf(slot)
      else if IsHolder(kid) then PutShape(kid, path[1..], slot, next)
      else PutShape(OwnRecord(next, map[]), path[1..], slot, next + 1))
  }

  lemma KidMatches(h: Heap, base: nat, s: Slot, sh: Shape, seg: string)
    requires Matches(h, base, s, sh) && Takes(sh, seg)
    ensures Matches(h, base, StepIn(h, s, seg), Kid([], sh, seg))
    ensures StepIn(h, s, seg).At? <==> IsHolder(Kid([], sh, seg))
  {
  }

  lemma KidRefs(sh: Shape, seg: string)
    requires Takes(sh, seg)
    ensures Refs(Kid([], sh, seg)) <= Refs(sh)
    ensures Single(sh) ==> Single(Kid([], sh, seg)) && sh.ref !in Refs(Kid([], sh, seg))
  {
  }

  /** Something made of one entry and of new containers shares none with the other entries. */
  lemma KidApart(sh: Shape, seg: string, kid: Shape, next: nat, other: Shape)
    requires Takes(sh, seg) && Single(sh)
    requires forall q :: q in Refs(kid) ==> q in Refs(Kid([], sh, seg)) || next <= q
    requires forall q :: q in Refs(sh) ==> q < next
    requires Refs(other) <= Refs(sh) && Refs(other) !! Refs(Kid([], sh, seg))
    ensures Refs(kid) !! Refs(other) && sh.ref !in Refs(kid)
  {
    KidRefs(sh, seg);
    assert sh.ref in Refs(sh);
  }

  /** Replacing one entry by such a thing keeps containers single. */
  lemma WithKidSingle(sh: Shape, seg: string, kid: Shape, next: nat)
    requires Takes(sh, seg) && Single(sh) && Single(kid)
    requires forall q :: q in Refs(kid) ==> q in Refs(Kid([], sh, seg)) || next <= q
    requires forall q :: q in Refs(sh) ==> q < next
    ensures Single(WithKid(sh, seg, kid))
  {
    KidApart(sh, seg, kid, next, Leaf(NOTHING));
    match sh
    case OwnRecord(r, fields) =>
      forall k | k in fields && k != seg
        ensures Refs(kid) !! Refs(fields[k])
      {
        KidApart(sh, seg, kid, next, fields[k]);
      }
    case OwnList(r, items) =>
      forall i | 0 <= i < |items| && i != ParseNat(seg)
        ensures Refs(kid) !! Refs(items[i])
      {
        KidApart(sh, seg, kid, next, items[i]);
      }
  }

  lemma WithKidRefs(sh: Shape, seg: string, kid: Shape)
    requires Takes(sh, seg)
    ensures Refs(WithKid(sh, seg, kid)) <= Refs(sh) + Refs(kid)
  {
  }

  /** The node with another entry at `seg`. */
  function WithEntry(n: Node, seg: string, x: Slot): Node
    requires n.Record? || IsIndex(seg)
  {
    match n
    case Record(fields) => Record(fields[seg := x])
    case List(items, names) => List(Extended(items, ParseNat(seg), x, NOTHING), names)
  }

  lemma SameEntry(h: Heap, base: nat, s: Slot, sh: Shape, seg: string)
    requires Matches(h, base, s, sh) && Takes(sh, seg) && StepIn(h, s, seg).At?
    ensures WithEntry(h[sh.ref], seg, StepIn(h, s, seg)) == h[sh.ref]
  {
    match h[sh.ref]
    case Record(fields) => assert fields[seg := fields[seg]] == fields;
    case List(items, _) => assert Extended(items, ParseNat(seg), items[ParseNat(seg)], NOTHING) == items;
  }

  lemma WithKidMatches(h: Heap, later: Heap, base: nat, s: Slot, sh: Shape, seg: string, x: Slot, kid: Shape)
    requires Matches(h, base, s, sh) && Single(sh) && Takes(sh, seg) && |h| <= |later|
    requires later[sh.ref] == WithEntry(h[sh.ref], seg, x) && Matches(later, base, x, kid)
    requires forall q :: q in Refs(sh) && q < |h| && q != sh.ref && q !in Refs(Kid([], sh, seg)) ==> later[q] == h[q]
    ensures Matches(later, base, s, WithKid(sh, seg, kid))
  {
    match sh
    case OwnRecord(r, fields) =>
      forall k | k in fields && k != seg
        ensures Matches(later, base, h[r].fields[k], fields[k])
      {
        MatchesFrame(h, later, base, h[r].fields[k], fields[k]);
      }
    case OwnList(r, items) =>
      forall i | 0 <= i < |items| && i != ParseNat(seg)
        ensures Matches(later, base, h[r].items[i], items[i])
      {
        MatchesFrame(h, later, base, h[r].items[i], items[i]);
      }
  }

  /** From `h` to `later` the shape became `after`, and only its own containers and new ones changed. */
  ghost predicate Follows(h: Heap, base: nat, s: Slot, sh: Shape, later: Heap, after: Shape)
  {
    |h| <= |later| && Matches(later, base, s, after) && Single(after) &&
    (forall q :: q in Refs(after) ==> q in Refs(sh) || |h| <= q) &&
    forall q :: 0 <= q < |h| && q !in Refs(sh) ==> later[q] == h[q]
  }

  /** A change at and below one entry of an own container. */
  lemma Rebuilt(h: Heap, later: Heap, base: nat, s: Slot, sh: Shape, seg: string, x: Slot, kid: Shape)
    requires Matches(h, base, s, sh) && Single(sh) && Takes(sh, seg) && base <= |h| <= |later|
    requires later[sh.ref] == WithEntry(h[sh.ref], seg, x) && Matches(later, base, x, kid) && Single(kid)
    requires forall q :: q in Refs(kid) ==> q in Refs(Kid([], sh, seg)) || |h| <= q
    requires forall q :: 0 <= q < |h| && q != sh.ref && q !in Refs(Kid([], sh, seg)) ==> later[q] == h[q]
    ensures Follows(h, base, s, sh, later, WithKid(sh, seg, kid))
  {
    RefsInHeap(h, base, s, sh);
    KidRefs(sh, seg);
    WithKidMatches(h, later, base, s, sh, seg, x, kid);
    WithKidSingle(sh, seg, kid, |h|);
    WithKidRefs(sh, seg, kid);
    assert sh.ref in Refs(sh);
  }

  lemma OpensBranch(h: Heap, base: nat, s: Slot, sh: Shape, seg: string)
    requires Matches(h, base, s, sh) && Takes(sh, seg) && base <= |h|
    requires !IsHolder(Kid([], sh, seg))
    ensures var r, branch := OpenIn(h, s, seg), OwnRecord(|h|, map[]);
            r.ok && |r.heap| == |h| + 1 && r.heap[sh.ref] == WithEntry(h[sh.ref], seg, At(|h|)) &&
            (forall q :: 0 <= q < |h| && q != sh.ref ==> r.heap[q] == h[q]) &&
            StepIn(r.heap, s, seg) == At(|h|) && Matches(r.heap, base, At(|h|), branch) && Single(branch) &&
            Refs(branch) == {|h|}
  {
    KidMatches(h, base, s, sh, seg);
  }

  /** The write succeeds and has the described effect. */
  ghost predicate OwnWritten(h: Heap, base: nat, s: Slot, sh: Shape, path: Path, slot: Slot)
    requires |path| >= 1 && OwnWalk(sh, path)
  {
    var r := SetIn(h, s, path, slot);
    r.ok && Follows(h, base, s, sh, r.heap, PutShape(sh, path, slot, |h|))
  }

  /** The step of the walk, when there is a container at the segment and when there is none. */
  lemma ThroughKid(h: Heap, base: nat, s: Slot, sh: Shape, path: Path, slot: Slot)
    requires |path| > 1 && Matches(h, base, s, sh) && Single(sh) && OwnWalk(sh, path) && base <= |h|
    requires IsHolder(Kid([], sh, path[0]))
    requires var kid, child := Kid([], sh, path[0]), StepIn(h, s, path[0]);
             Follows(h, base, child, kid, SetIn(h, child, path[1..], slot).heap,
                     PutShape(kid, path[1..], slot, |h|))
    requires SetIn(h, StepIn(h, s, path[0]), path[1..], slot).ok
    ensures SetIn(h, s, path, slot) == SetIn(h, StepIn(h, s, path[0]), path[1..], slot)
    ensures OwnWritten(h, base, s, sh, path, slot)
  {
    var seg, later := path[0], SetIn(h, s, path, slot).heap;
    KidMatches(h, base, s, sh, seg);
    KidRefs(sh, seg);
    SameEntry(h, base, s, sh, seg);
    Rebuilt(h, later, base, s, sh, seg, StepIn(h, s, seg), PutShape(Kid([], sh, seg), path[1..], slot, |h|));
  }

  lemma ThroughBranch(h: Heap, base: nat, s: Slot, sh: Shape, path: Path, slot: Slot)
    requires |path| > 1 && Matches(h, base, s, sh) && Single(sh) && OwnWalk(sh, path) && base <= |h|
    requires !IsHolder(Kid([], sh, path[0]))
    requires var first, branch := OpenIn(h, s, path[0]).heap, OwnRecord(|h|, map[]);
             Follows(first, base, At(|h|), branch, SetIn(first, At(|h|), path[1..], slot).heap,
                     PutShape(branch, path[1..], slot, |h| + 1))
    requires SetIn(OpenIn(h, s, path[0]).heap, At(|h|), path[1..], slot).ok
    ensures SetIn(h, s, path, slot) == SetIn(OpenIn(h, s, path[0]).heap, At(|h|), path[1..], slot)
    ensures OwnWritten(h, base, s, sh, path, slot)
  {
    var seg, later := path[0], SetIn(h, s, path, slot).heap;
    OpensBranch(h, base, s, sh, seg);
    Rebuilt(h, later, base, s, sh, seg, At(|h|), PutShape(OwnRecord(|h|, map[]), path[1..], slot, |h| + 1));
  }

  lemma OwnWriteHere(h: Heap, base: nat, s: Slot, sh: Shape, path: Path, slot: Slot)
    requires |path| == 1 && Matches(h, base, s, sh) && Single(sh) && OwnWalk(sh, path) && base <= |h|
    requires slot.At? ==> slot.ref < base
    ensures OwnWritten(h, base, s, sh, path, slot)
  {
    Rebuilt(h, SetIn(h, s, path, slot).heap, base, s, sh, path[0], slot, Leaf(slot));
  }

  /** The write in place has the described effect on the shape, and touches own containers only. */
  lemma {:induction false} OwnWrite(h: Heap, base: nat, s: Slot, sh: Shape, path: Path, slot: Slot)
    requires |path| >= 1 && Matches(h, base, s, sh) && Single(sh) && OwnWalk(sh, path) && base <= |h|
    requires slot.At? ==> slot.ref < base
    ensures OwnWritten(h, base, s, sh, path, slot)
    decreases |path|
  {
    var seg, kid := path[0], Kid([], sh, path[0]);
    if |path| == 1 {
      OwnWriteHere(h, base, s, sh, path, slot);
    } else if IsHolder(kid) {
      KidMatches(h, base, s, sh, seg);
      KidRefs(sh, seg);
      OwnWrite(h, base, StepIn(h, s, seg), kid, path[1..], slot);
      ThroughKid(h, base, s, sh, path, slot);
    } else {
      OpensBranch(h, base, s, sh, seg);
      OwnWrite(OpenIn(h, s, seg).heap, base, At(|h|), OwnRecord(|h|, map[]), path[1..], slot);
      ThroughBranch(h, base, s, sh, path, slot);
    }
  }

  // ---------------------------------------------------------------- in place, and on values

  lemma KidStands(h0: Heap, sh: Shape, j: Json, seg: string)
    requires Stands(h0, sh, j)
    ensures Stands(h0, Kid(h0, sh, seg), Step(j, seg))
    ensures IsHolder(sh) <==> IsContainer(j)
  {
    if sh.Leaf? {
      HoldsStep(h0, sh.slot, j, seg);
    }
  }

  lemma WithKidStands(h0: Heap, sh: Shape, j: Json, seg: string, kid: Shape, x: Json)
    requires Takes(sh, seg) && Stands(h0, sh, j) && Stands(h0, kid, x)
    ensures Assignable(j, seg) && Stands(h0, WithKid(sh, seg, kid), Assign(j, seg, x))
  {
  }

  lemma {:induction false} PutShapeStands(h0: Heap, sh: Shape, j: Json, path: Path, slot: Slot, x: Json, next: nat)
    requires |path| >= 1 && OwnWalk(sh, path) && Stands(h0, sh, j) && Holds(h0, slot, x)
    ensures Lands(j, path) && Stands(h0, PutShape(sh, path, slot, next), Put(j, path, x))
    decreases |path|
  {
    var seg, kid := path[0], Kid([], sh, path[0]);
    KidStands(h0, sh, j, seg);
    if |path| == 1 {
      WithKidStands(h0, sh, j, seg, Leaf(slot), x);
    } else {
      KidStands(h0, kid, Step(j, seg), "");
      var child := if IsHolder(kid) then kid else OwnRecord(next, map[]);
      var below := if IsHolder(kid) then next else next + 1;
      PutShapeStands(h0, child, Descend(j, seg), path[1..], slot, x, below);
      WithKidStands(h0, sh, j, seg, PutShape(child, path[1..], slot, below), Put(Descend(j, seg), path[1..], x));
    }
  }

  /**
   `setByPath` on a target whose walk meets own containers only: it succeeds, leaves
   everything older as it is, and the target then holds what the write on values gives.
   */
  lemma WriteIsPut(h0: Heap, h: Heap, s: Slot, sh: Shape, j: Json, path: Path, slot: Slot, x: Json)
    requires |path| >= 1 && h0 <= h && Matches(h, |h0|, s, sh) && Single(sh) && Stands(h0, sh, j)
    requires OwnWalk(sh, path) && Holds(h0, slot, x)
    ensures var r, after := SetIn(h, s, path, slot), PutShape(sh, path, slot, |h|);
            r.ok && h0 <= r.heap && Holds(r.heap, s, Put(j, path, x)) &&
            Follows(h, |h0|, s, sh, r.heap, after) && Stands(h0, after, Put(j, path, x))
  {
    var r, after := SetIn(h, s, path, slot), PutShape(sh, path, slot, |h|);
    HoldsStep(h0, slot, x, "");
    OwnWrite(h, |h0|, s, sh, path, slot);
    RefsInHeap(h, |h0|, s, sh);
    forall q | 0 <= q < |h0|
      ensures r.heap[q] == h0[q]
    {
      assert q !in Refs(sh);
    }
    PutShapeStands(h0, sh, j, path, slot, x, |h|);
    StandsHolds(h0, r.heap, s, after, Put(j, path, x));
  }

  /** A target without older containers: all of it is its own. */
  ghost predicate AllOwn(sh: Shape)
    decreases sh
  {
    match sh
    case Leaf(slot) => slot.Lit?
    case OwnRecord(_, fields) => forall k :: k in fields ==> AllOwn(fields[k])
    case OwnList(_, items) => forall i :: 0 <= i < |items| ==> AllOwn(items[i])
  }

  /** On such a target the writes ObjectPath speaks of are exactly those that walk entries. */
  lemma {:induction false} OwnWalkIffLands(h0: Heap, sh: Shape, j: Json, path: Path)
    requires |path| >= 1 && Stands(h0, sh, j) && AllOwn(sh)
    ensures OwnWalk(sh, path) <==> Lands(j, path)
    decreases |path|
  {
    var seg, kid := path[0], Kid([], sh, path[0]);
    if Takes(sh, seg) && |path| > 1 {
      KidStands(h0, sh, j, seg);
      KidStands(h0, kid, Step(j, seg), "");
      if IsHolder(kid) {
        OwnWalkIffLands(h0, kid, Step(j, seg), path[1..]);
      } else {
        LandsInNewObject(path[1..]);
      }
    }
  }

  // ---------------------------------------------------------------- older containers in a target

  /** The walk to the last segment of `path` comes to an older container. */
  ghost predicate Dips(sh: Shape, path: Path)
    requires |path| >= 1
    decreases |path|
  {
    match sh
    case Leaf(slot) => slot.At?
    case _ => |path| > 1 && Dips(Kid([], sh, path[0]), path[1..])
  }

  /** What the walk along `path` finds. */
  ghost function SlotAt(h0: Heap, sh: Shape, path: Path): Slot
    decreases |path|
  {
    if path == [] then (if sh.Leaf? then sh.slot else At(sh.ref))
    else SlotAt(h0, Kid(h0, sh, path[0]), path[1..])
  }

  /** The state of a target: older containers as they were, and a shape that stands for `j`. */
  ghost predicate State(h0: Heap, h: Heap, s: Slot, sh: Shape, j: Json)
  {
    h0 <= h && Matches(h, |h0|, s, sh) && Single(sh) && Stands(h0, sh, j)
  }

  lemma {:induction false} WalkShape(h0: Heap, h: Heap, s: Slot, sh: Shape, j: Json, path: Path)
    requires h0 <= h && Matches(h, |h0|, s, sh) && Stands(h0, sh, j)
    ensures Walk(h, s, path) == SlotAt(h0, sh, path)
    decreases |path|
  {
    if path != [] {
      KidStands(h0, sh, j, path[0]);
      if sh.Leaf? {
        HoldsStep(h0, sh.slot, j, path[0]);
        if s.At? {
          assert StepIn(h, s, path[0]) == StepIn(h0, s, path[0]);
        }
        OldKid(h0, sh.slot, j, path[0]);
      }
      WalkShape(h0, h, StepIn(h, s, path[0]), Kid(h0, sh, path[0]), Step(j, path[0]), path[1..]);
    }
  }

  /** What an older tree refers to is older too. */
  lemma OldKid(h0: Heap, s: Slot, j: Json, seg: string)
    requires Holds(h0, s, j)
    ensures StepIn(h0, s, seg).At? ==> StepIn(h0, s, seg).ref < |h0|
  {
    HoldsStep(h0, s, j, seg);
  }

  /** Of what is present the write walks own containers, or it comes to an older one. */
  lemma {:induction false} OwnOrDips(h0: Heap, sh: Shape, j: Json, path: Path)
    requires |path| >= 1 && Stands(h0, sh, j) && Present(j, path)
    ensures OwnWalk(sh, path) <==> !Dips(sh, path)
    decreases |path|
  {
    KidStands(h0, sh, j, path[0]);
    if !sh.Leaf? && |path| > 1 {
      KidStands(h0, Kid([], sh, path[0]), Step(j, path[0]), path[1]);
      OwnOrDips(h0, Kid([], sh, path[0]), Step(j, path[0]), path[1..]);
    }
  }

  lemma KidOfWithKid(h0: Heap, sh: Shape, seg: string, kid: Shape, other: string)
    requires Takes(sh, seg) && (sh.OwnList? ==> ParseNat(seg) < |sh.items|)
    ensures Kid(h0, WithKid(sh, seg, kid), other) == if other == seg then kid else Kid(h0, sh, other)
  {
    LengthIsNoIndex();
    if sh.OwnList? && IsIndex(other) && ParseNat(other) == ParseNat(seg) {
      IndexInjective(other, seg);
    }
  }

  /** Replacing something present leaves what other paths find, and where they come to older containers. */
  lemma {:induction false} PutShapeApart(h0: Heap, sh: Shape, j: Json, path: Path, slot: Slot, next: nat, other: Path)
    requires |path| >= 1 && |other| >= 1 && Disjoint(path, other)
    requires Stands(h0, sh, j) && Present(j, path) && OwnWalk(sh, path)
    ensures var after := PutShape(sh, path, slot, next);
            SlotAt(h0, after, other) == SlotAt(h0, sh, other) && (Dips(after, other) <==> Dips(sh, other))
    decreases |path|
  {
    var seg, kid := path[0], Kid([], sh, path[0]);
    var below := if |path| == 1 then Leaf(slot) else PutShape(kid, path[1..], slot, next);
    KidStands(h0, sh, j, seg);
    if |path| > 1 {
      KidStands(h0, kid, Step(j, seg), "");
    }
    assert PutShape(sh, path, slot, next) == WithKid(sh, seg, below);
    KidOfWithKid(h0, sh, seg, below, other[0]);
    KidOfWithKid([], sh, seg, below, other[0]);
    if other[0] == seg {
      DisjointTail(path, other);
      PutShapeApart(h0, kid, Step(j, seg), path[1..], slot, next, other[1..]);
    }
  }

  /** In a target a write comes to an older container and changes it, or it leaves all of them alone. */
  lemma {:induction false} DippingWrite(h0: Heap, h: Heap, s: Slot, sh: Shape, j: Json, path: Path, slot: Slot)
    requires |path| >= 1 && h0 <= h && Matches(h, |h0|, s, sh) && Stands(h0, sh, j)
    requires Present(j, path) && Dips(sh, path) && slot != Walk(h, s, path)
    ensures !(h0 <= SetIn(h, s, path, slot).heap)
    decreases |path|
  {
    if sh.Leaf? {
      OldWrite(h0, h, s, j, path, slot);
    } else {
      KidMatches(h, |h0|, s, sh, path[0]);
      KidStands(h0, sh, j, path[0]);
      KidStands(h0, Kid([], sh, path[0]), Step(j, path[0]), "");
      DippingWrite(h0, h, StepIn(h, s, path[0]), Kid([], sh, path[0]), Step(j, path[0]), path[1..], slot);
    }
  }

  // ---------------------------------------------------------------- writing at a clear path

  /** The walk meets own objects, or nothing, before its last segment. */
  ghost predicate ClearShape(sh: Shape, path: Path)
    requires |path| >= 1
    decreases |path|
  {
    sh.OwnRecord? && (|path| > 1 && path[0] in sh.fields ==> ClearShape(sh.fields[path[0]], path[1..]))
  }

  lemma {:induction false} ClearIsOwn(sh: Shape, path: Path)
    requires |path| >= 1 && ClearShape(sh, path)
    ensures OwnWalk(sh, path)
    decreases |path|
  {
    if |path| > 1 && path[0] in sh.fields {
      ClearIsOwn(sh.fields[path[0]], path[1..]);
    }
  }

  /** The part of the shape a write at a clear path goes on with. */
  ghost function Below(sh: Shape, path: Path, next: nat): (kid: Shape)
    requires |path| > 1 && ClearShape(sh, path)
    ensures ClearShape(kid, path[1..])
  {
    if path[0] in sh.fields then sh.fields[path[0]] else OwnRecord(next, map[])
  }

  lemma PutShapeHead(sh: Shape, path: Path, slot: Slot, next: nat)
    requires |path| >= 1 && ClearShape(sh, path)
    ensures OwnWalk(sh, path)
    ensures |path| == 1 ==> PutShape(sh, path, slot, next) == WithKid(sh, path[0], Leaf(slot))
    ensures |path| > 1 ==>
      var later := if path[0] in sh.fields then next else next + 1;
      OwnWalk(Below(sh, path, next), path[1..]) &&
      PutShape(sh, path, slot, next) == WithKid(sh, path[0], PutShape(Below(sh, path, next), path[1..], slot, later))
  {
    ClearIsOwn(sh, path);
    if |path| > 1 {
      ClearIsOwn(Below(sh, path, next), path[1..]);
    }
  }

  /** Such a write keeps every disjoint path clear. */
  lemma {:induction false} ClearStays(sh: Shape, path: Path, slot: Slot, next: nat, other: Path)
    requires |path| >= 1 && |other| >= 1 && Disjoint(path, other)
    requires ClearShape(sh, path) && ClearShape(sh, other)
    ensures OwnWalk(sh, path) && ClearShape(PutShape(sh, path, slot, next), other)
    decreases |path|
  {
    PutShapeHead(sh, path, slot, next);
    if path[0] == other[0] {
      DisjointTail(path, other);
      var later := if path[0] in sh.fields then next else next + 1;
      ClearStays(Below(sh, path, next), path[1..], slot, later, other[1..]);
    }
  }

  /** It brings in an older container exactly when it writes one, for the paths below its own. */
  lemma {:induction false} DipsAfter(sh: Shape, path: Path, slot: Slot, next: nat, other: Path)
    requires |path| >= 1 && |other| >= 1 && ClearShape(sh, path)
    ensures OwnWalk(sh, path)
    ensures Dips(PutShape(sh, path, slot, next), other) <==> if path < other then slot.At? else Dips(sh, other)
    decreases |path|
  {
    PutShapeHead(sh, path, slot, next);
    if path[0] == other[0] {
      TailPrefix(path, other);
      if |path| > 1 && |other| > 1 {
        var later := if path[0] in sh.fields then next else next + 1;
        DipsAfter(Below(sh, path, next), path[1..], slot, later, other[1..]);
      }
    }
  }

  lemma TailPrefix(path: Path, other: Path)
    requires |path| >= 1 && |other| >= 1 && path[0] == other[0]
    ensures path < other <==> path[1..] < other[1..]
  {
    assert path == [path[0]] + path[1..] && other == [other[0]] + other[1..];
  }

  // ---------------------------------------------------------------- one older container in two places

  /** An older container in a target is one that was there, with the value it had. */
  lemma {:induction false} OldTree(h0: Heap, h: Heap, s: Slot, sh: Shape, j: Json, path: Path)
    requires h0 <= h && Matches(h, |h0|, s, sh) && Stands(h0, sh, j)
    requires Walk(h, s, path).At? && Walk(h, s, path).ref < |h0|
    ensures Holds(h0, Walk(h, s, path), Get(j, path))
    decreases |path|
  {
    if sh.Leaf? {
      WalkLater(h0, h, s, j, path);
      HoldsWalk(h0, s, j, path);
    } else if path != [] {
      KidStands(h0, sh, j, path[0]);
      assert Matches(h, |h0|, StepIn(h, s, path[0]), Kid(h0, sh, path[0]));
      OldTree(h0, h, StepIn(h, s, path[0]), Kid(h0, sh, path[0]), Step(j, path[0]), path[1..]);
    }
  }

  /** A write below a container of a target is a write into that container. */
  lemma {:induction false} SetThrough(h: Heap, base: nat, s: Slot, sh: Shape, p: Path, rest: Path, x: Slot)
    requires |p| >= 1 && |rest| >= 1 && Matches(h, base, s, sh) && !Dips(sh, p) && Walk(h, s, p).At?
    ensures SetIn(h, s, p + rest, x) == SetIn(h, Walk(h, s, p), rest, x)
    decreases |p|
  {
    var child := StepIn(h, s, p[0]);
    assert (p + rest)[1..] == p[1..] + rest;
    if child.Lit? {
      ScalarWalk(h, child.v, p[1..]);
    } else if |p| == 1 {
      assert p[1..] + rest == rest;
    } else {
      assert s.At?;
      assert Matches(h, base, child, Kid([], sh, p[0]));
      SetThrough(h, base, child, Kid([], sh, p[0]), p[1..], rest, x);
    }
  }

  /** A walk along own containers does not depend on the older ones. */
  lemma {:induction false} OwnPathStays(h: Heap, later: Heap, base: nat, s: Slot, sh: Shape, path: Path)
    requires |path| >= 1 && Matches(h, base, s, sh) && !Dips(sh, path) && |h| <= |later|
    requires forall q :: base <= q < |h| ==> later[q] == h[q]
    ensures Walk(later, s, path) == Walk(h, s, path)
    decreases |path|
  {
    var child := StepIn(h, s, path[0]);
    if s.Lit? {
      SameScalarWalk(h, later, s.v, path);
    } else {
      assert StepIn(later, s, path[0]) == child;
      if |path| > 1 {
        assert Matches(h, base, child, Kid([], sh, path[0]));
        OwnPathStays(h, later, base, child, Kid([], sh, path[0]), path[1..]);
      }
    }
  }

  lemma {:induction false} SameScalarWalk(h: Heap, later: Heap, v: Scalar, path: Path)
    ensures Walk(later, Lit(v), path) == Walk(h, Lit(v), path)
    decreases |path|
  {
    if path != [] {
      SameScalarWalk(h, later, Step(v, path[0]), path[1..]);
    }
  }
}

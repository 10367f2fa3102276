/**
 Small-group suppression and stage counting of the public metrics
 (apps/public-portal/src/services/public-metrics.service.js).
 */
module PublicMetrics {
  import opened Lists

  /**
   A published row. `keyed` is `row[countKey]`, `count` is `row.count`; 0 stands for an
   absent or falsy field.
   */
  datatype Row = Row(name: string, keyed: nat, count: nat, insufficientPublicData: bool)

  /** `Number(row[countKey] || row.count || 0)`. */
  function CountOf(row: Row): nat
  {
    if row.keyed != 0 then row.keyed else row.count
  }

  const COUNT: Row -> nat := row => CountOf(row)

  function Large(threshold: nat): Row -> bool { row => CountOf(row) >= threshold }

  function Small(threshold: nat): Row -> bool { row => CountOf(row) < threshold }

  function Other(merged: nat): Row { Row("Other", merged, merged, true) }

  function Total(rows: seq<Row>): nat { SumBy(rows, COUNT) }

  /** The rows published as they are, and the number of applications hidden. */
  function Kept(rows: seq<Row>, threshold: nat): seq<Row> { Filter(rows, Large(threshold)) }

  function Hidden(rows: seq<Row>, threshold: nat): nat { Total(Filter(rows, Small(threshold))) }

  function Merged(rows: seq<Row>, threshold: nat): seq<Row>
  {
    Kept(rows, threshold) + if Hidden(rows, threshold) != 0 then [Other(Hidden(rows, threshold))] else []
  }

  method MergeSmallGroups(rows: seq<Row>, threshold: nat) returns (stable: seq<Row>)
    ensures stable == Merged(rows, threshold)
  {
    stable := [];
    var merged := 0;
    for i := 0 to |rows|
      invariant stable == Kept(rows[..i], threshold)
      invariant merged == Hidden(rows[..i], threshold)
    {
      var row := rows[i];
      assert rows[..i + 1] == rows[..i] + [row];
      FilterAppend(rows[..i], row, Large(threshold));
      FilterAppend(rows[..i], row, Small(threshold));
      SumAppend(Filter(rows[..i], Small(threshold)), row, COUNT);
      var count := CountOf(row);
      if count < threshold {
        merged := merged + count;
      } else {
        stable := stable + [row];
      }
    }
    assert rows[..|rows|] == rows;
    if merged != 0 {
      stable := stable + [Row("Other", merged, merged, true)];
    }
  }

  // ---------------------------------------------------------------- suppression laws

  /** Suppression conserves the total. */
  lemma TotalConserved(rows: seq<Row>, threshold: nat)
    ensures Total(Merged(rows, threshold)) == Total(rows)
  {
    var kept, hidden := Kept(rows, threshold), Hidden(rows, threshold);
    SumSplits(rows, COUNT, Large(threshold), Small(threshold));
    SumAppend(kept, Other(hidden), COUNT);
    if hidden == 0 {
      assert Merged(rows, threshold) == kept;
    }
  }

  /**
   The published rows are the ones at or above the threshold, at the positions `at` of the
   input in their order, followed by Other exactly when something is hidden.
   */
  lemma KeptInOrder(rows: seq<Row>, threshold: nat) returns (at: seq<nat>)
    ensures Positions(at, rows, (row: Row) => row.keyed >= threshold || (row.keyed == 0 && row.count >= threshold))
    ensures var hidden := Total(rows) - Total(Pick(rows, at));
            hidden >= 0 && Merged(rows, threshold) ==
            if hidden == 0 then Pick(rows, at) else Pick(rows, at) + [Row("Other", hidden, hidden, true)]
  {
    at := FilterKeepsOrder(rows, Large(threshold));
    SumSplits(rows, COUNT, Large(threshold), Small(threshold));
    assert Kept(rows, threshold) == Pick(rows, at);
    if Hidden(rows, threshold) == 0 {
      assert Merged(rows, threshold) == Pick(rows, at) + [];
    }
  }

  /** A row's count is the keyed one, or the plain one where that is 0. */
  lemma {:induction false} TotalReads(rows: seq<Row>)
    ensures Total(rows) ==
            SumBy(rows, (row: Row) => row.keyed) +
            SumBy(Filter(rows, (row: Row) => row.keyed == 0), (row: Row) => row.count)
  {
    if rows != [] {
      var init, last := rows[..|rows| - 1], rows[|rows| - 1];
      TotalReads(init);
      SumAppend(Filter(init, (row: Row) => row.keyed == 0), last, (row: Row) => row.count);
    }
  }

  /** A published row is at or above the threshold, or is the marked Other row. */
  lemma NoSmallGroup(rows: seq<Row>, threshold: nat, row: Row)
    requires row in Merged(rows, threshold)
    ensures row.keyed >= threshold || (row.keyed == 0 && row.count >= threshold) ||
            (row.name == "Other" && row.insufficientPublicData)
  {
    if row in Kept(rows, threshold) {
      FilterMember(rows, Large(threshold), row);
    }
  }

  /** Suppressing twice is suppressing once, whether Other itself is small or not. */
  lemma MergeIdempotent(rows: seq<Row>, threshold: nat)
    ensures Merged(Merged(rows, threshold), threshold) == Merged(rows, threshold)
  {
    var kept, hidden := Kept(rows, threshold), Hidden(rows, threshold);
    forall i | 0 <= i < |kept|
      ensures Large(threshold)(kept[i])
    {
      FilterMember(rows, Large(threshold), kept[i]);
    }
    FilterAll(kept, Large(threshold));
    FilterNone(kept, Small(threshold));
    if hidden == 0 {
      assert Merged(rows, threshold) == kept;
    } else {
      var other := Other(hidden);
      FilterAppend(kept, other, Large(threshold));
      FilterAppend(kept, other, Small(threshold));
      SumAppend([], other, COUNT);
      var published := kept + [other];
      if hidden >= threshold {
        assert Filter(published, Small(threshold)) == [];
      } else {
        assert Filter(published, Small(threshold)) == [] + [other];
        assert Filter(published, Large(threshold)) == kept;
      }
    }
  }

  /** Suppression treats permuted rows alike. */
  lemma MergedPermutes(rows: seq<Row>, other: seq<Row>, threshold: nat)
    requires multiset(rows) == multiset(other)
    ensures multiset(Merged(rows, threshold)) == multiset(Merged(other, threshold))
  {
    FilterPermutes(rows, other, Large(threshold));
    FilterPermutes(rows, other, Small(threshold));
    SumPermutes(Filter(rows, Small(threshold)), Filter(other, Small(threshold)), COUNT);
  }

  // ---------------------------------------------------------------- stage counts

  /** One entry of `stageCounts`. */
  datatype Entry = Entry(key: string, count: nat)

  /** A raw document: a ready-made stage row when `stage` is set, else per-stage counts. */
  datatype RawDoc = RawDoc(stage: string, count: nat, stageCounts: seq<Entry>)

  const ENTRY_COUNT: Entry -> nat := (e: Entry) => e.count

  function CountFor(key: string): Entry -> nat { (e: Entry) => if e.key == key then e.count else 0 }

  function KeysOf(entries: seq<Entry>): (keys: seq<string>)
    ensures |keys| == |entries| && forall i :: 0 <= i < |keys| ==> keys[i] == entries[i].key
  {
    seq(|entries|, i requires 0 <= i < |entries| => entries[i].key)
  }

  /** All entries of all documents, in reading order. */
  function AllEntries(docs: seq<RawDoc>): seq<Entry>
  {
    if docs == [] then [] else AllEntries(docs[..|docs| - 1]) + docs[|docs| - 1].stageCounts
  }

  lemma EntriesAppend(docs: seq<RawDoc>, doc: RawDoc)
    ensures AllEntries(docs + [doc]) == AllEntries(docs) + doc.stageCounts
  {
    assert (docs + [doc])[..|docs|] == docs;
  }

  lemma {:induction false} EntriesConcat(docs: seq<RawDoc>, more: seq<RawDoc>)
    ensures AllEntries(docs + more) == AllEntries(docs) + AllEntries(more)
  {
    if more == [] {
      assert docs + more == docs;
    } else {
      var init, last := more[..|more| - 1], more[|more| - 1];
      EntriesConcat(docs, init);
      EntriesAppend(docs + init, last);
      EntriesAppend(init, last);
      assert more == init + [last] && docs + more == docs + init + [last];
    }
  }

  /** One row per key, in order of first appearance, with the sum of that key's counts. */
  function RowsFor(keys: seq<string>, entries: seq<Entry>): (rows: seq<Row>)
    ensures |rows| == |keys|
    ensures forall i :: 0 <= i < |keys| ==>
      var n := SumBy(entries, CountFor(keys[i])); rows[i] == Row(keys[i], n, n, false)
  {
    seq(|keys|, i requires 0 <= i < |keys| =>
      var n := SumBy(entries, CountFor(keys[i])); Row(keys[i], n, n, false))
  }

  function StageRows(docs: seq<RawDoc>): seq<Row>
  {
    var entries := AllEntries(docs);
    RowsFor(Unique(KeysOf(entries)), entries)
  }

  function ReadyRows(docs: seq<RawDoc>): (rows: seq<Row>)
    ensures |rows| == |docs|
    ensures forall i :: 0 <= i < |docs| ==> rows[i] == Row(docs[i].stage, docs[i].count, docs[i].count, false)
  {
    seq(|docs|, i requires 0 <= i < |docs| => Row(docs[i].stage, docs[i].count, docs[i].count, false))
  }

  /** What buildStageCounts publishes. `mock` is the mock table when mock data is enabled. */
  function StageCounts(raw: seq<RawDoc>, mock: seq<Row>, threshold: nat): seq<Row>
  {
    if raw == [] then mock
    else if raw[0].stage != "" then Merged(ReadyRows(raw), threshold)
    else Merged(StageRows(raw), threshold)
  }

  /** The insertion-ordered map: its keys in order of insertion, and its values. */
  ghost predicate Accumulated(order: seq<string>, totals: map<string, nat>, entries: seq<Entry>)
  {
    order == Unique(KeysOf(entries)) &&
    (forall k :: k in totals <==> k in order) &&
    forall k :: k in totals ==> totals[k] == SumBy(entries, CountFor(k))
  }

  lemma KeysAppend(entries: seq<Entry>, e: Entry)
    ensures KeysOf(entries + [e]) == KeysOf(entries) + [e.key]
    ensures Unique(KeysOf(entries + [e])) ==
            if e.key in KeysOf(entries) then Unique(KeysOf(entries)) else Unique(KeysOf(entries)) + [e.key]
  {
    assert KeysOf(entries + [e]) == KeysOf(entries) + [e.key];
    UniqueAppend(KeysOf(entries), e.key);
  }

  /** The new total of a key, whether the key has been seen or not. */
  lemma TotalAppend(entries: seq<Entry>, e: Entry, k: string)
    ensures SumBy(entries + [e], CountFor(k)) ==
            (if k in KeysOf(entries) then SumBy(entries, CountFor(k)) else 0) + if k == e.key then e.count else 0
  {
    SumAppend(entries, e, CountFor(k));
    if k !in KeysOf(entries) {
      AbsentSumsToZero(entries, k);
    }
  }

  lemma AccumulateTotals(totals: map<string, nat>, entries: seq<Entry>, e: Entry)
    requires forall k :: k in totals <==> k in KeysOf(entries)
    requires forall k :: k in totals ==> totals[k] == SumBy(entries, CountFor(k))
    ensures var totals' := totals[e.key := (if e.key in totals then totals[e.key] else 0) + e.count];
            forall k :: k in totals' ==> totals'[k] == SumBy(entries + [e], CountFor(k))
  {
    var totals' := totals[e.key := (if e.key in totals then totals[e.key] else 0) + e.count];
    forall k | k in totals'
      ensures totals'[k] == SumBy(entries + [e], CountFor(k))
    {
      TotalAppend(entries, e, k);
    }
  }

  lemma AccumulateOne(order: seq<string>, totals: map<string, nat>, entries: seq<Entry>, e: Entry,
                      order': seq<string>, totals': map<string, nat>)
    requires Accumulated(order, totals, entries)
    requires order' == if e.key in order then order else order + [e.key]
    requires totals' == totals[e.key := (if e.key in totals then totals[e.key] else 0) + e.count]
    ensures Accumulated(order', totals', entries + [e])
  {
    KeysAppend(entries, e);
    AccumulateTotals(totals, entries, e);
  }

  lemma {:induction false} AbsentSumsToZero(entries: seq<Entry>, key: string)
    requires key !in KeysOf(entries)
    ensures SumBy(entries, CountFor(key)) == 0
  {
    if entries != [] {
      var init, last := entries[..|entries| - 1], entries[|entries| - 1];
      assert KeysOf(entries)[|init|] == last.key;
      forall i | 0 <= i < |init| ensures KeysOf(init)[i] != key {
        assert KeysOf(entries)[i] == init[i].key;
      }
      AbsentSumsToZero(init, key);
    }
  }

  method BuildStageCounts(raw: seq<RawDoc>, mock: seq<Row>, threshold: nat) returns (out: seq<Row>)
    ensures out == StageCounts(raw, mock, threshold)
  {
    if raw == [] {
      return mock;
    }
    if raw[0].stage != "" {
      out := MergeSmallGroups(ReadyRows(raw), threshold);
      return;
    }
    var rows := StageTable(raw);
    out := MergeSmallGroups(rows, threshold);
  }

  /** The map-accumulating loop over the documents and their entries. */
  method StageTable(raw: seq<RawDoc>) returns (rows: seq<Row>)
    ensures rows == StageRows(raw)
  {
    var order: seq<string>, totals: map<string, nat> := [], map[];
    for i := 0 to |raw|
      invariant Accumulated(order, totals, AllEntries(raw[..i]))
    {
      order, totals := AddDocument(order, totals, raw[i].stageCounts, AllEntries(raw[..i]));
      EntriesAppend(raw[..i], raw[i]);
      assert raw[..i + 1] == raw[..i] + [raw[i]];
    }
    assert raw[..|raw|] == raw;
    rows := seq(|order|, i requires 0 <= i < |order| => Row(order[i], totals[order[i]], totals[order[i]], false));
  }

  /** The inner loop, over one document's entries. */
  method AddDocument(order: seq<string>, totals: map<string, nat>, entries: seq<Entry>, ghost seen: seq<Entry>)
    returns (order': seq<string>, totals': map<string, nat>)
    requires Accumulated(order, totals, seen)
    ensures Accumulated(order', totals', seen + entries)
  {
    order', totals' := order, totals;
    ghost var done := seen;
    for j := 0 to |entries|
      invariant done == seen + entries[..j]
      invariant Accumulated(order', totals', done)
    {
      order', totals' := AddEntry(order', totals', entries[j], done);
      done := done + [entries[j]];
    }
    assert done == seen + entries;
  }

  /** `stageMap.set(stage, (stageMap.get(stage) || 0) + count)`. */
  method AddEntry(order: seq<string>, totals: map<string, nat>, e: Entry, ghost seen: seq<Entry>)
    returns (order': seq<string>, totals': map<string, nat>)
    requires Accumulated(order, totals, seen)
    ensures Accumulated(order', totals', seen + [e])
  {
    var current := if e.key in totals then totals[e.key] else 0;
    order' := if e.key in order then order else order + [e.key];
    totals' := totals[e.key := current + e.count];
    AccumulateOne(order, totals, seen, e, order', totals');
  }

  // ---------------------------------------------------------------- conservation

  function SumOverKeys(keys: seq<string>, entries: seq<Entry>): nat
  {
    SumBy(keys, (k: string) => SumBy(entries, CountFor(k)))
  }

  /** Adding an entry adds its count to the row of its key, and to no other row. */
  lemma {:induction false} OneKeyGrows(keys: seq<string>, entries: seq<Entry>, e: Entry)
    requires NoRepeats(keys)
    ensures SumOverKeys(keys, entries + [e]) == SumOverKeys(keys, entries) + if e.key in keys then e.count else 0
  {
    if keys != [] {
      var init, last := keys[..|keys| - 1], keys[|keys| - 1];
      assert keys == init + [last];
      OneKeyGrows(init, entries, e);
      SumAppend(entries, e, CountFor(last));
    }
  }

  lemma {:induction false} RowsTotal(keys: seq<string>, entries: seq<Entry>)
    ensures Total(RowsFor(keys, entries)) == SumOverKeys(keys, entries)
  {
    if keys != [] {
      var init, last := keys[..|keys| - 1], keys[|keys| - 1];
      RowsTotal(init, entries);
      var rows := RowsFor(keys, entries);
      assert rows[..|init|] == RowsFor(init, entries);
    }
  }

  /** The rows of distinct keys add up to all the entries. */
  lemma {:induction false} KeySumsAddUp(entries: seq<Entry>)
    ensures SumOverKeys(Unique(KeysOf(entries)), entries) == SumBy(entries, ENTRY_COUNT)
  {
    if entries != [] {
      var init, e := entries[..|entries| - 1], entries[|entries| - 1];
      assert entries == init + [e];
      var keys := Unique(KeysOf(init));
      assert KeysOf(entries) == KeysOf(init) + [e.key];
      UniqueAppend(KeysOf(init), e.key);
      KeySumsAddUp(init);
      OneKeyGrows(keys, init, e);
      if e.key !in keys {
        AbsentSumsToZero(init, e.key);
        SumAppend(init, e, CountFor(e.key));
        SumAppend(keys, e.key, (k: string) => SumBy(entries, CountFor(k)));
      }
    }
  }

  /** What one document reports: a ready-made row its count, any other the sum over its stages. */
  function ReportOf(doc: RawDoc): nat
  {
    if doc.stage != "" then doc.count else SumBy(doc.stageCounts, ENTRY_COUNT)
  }

  const REPORT: RawDoc -> nat := (doc: RawDoc) => ReportOf(doc)
  const ROW_COUNT: RawDoc -> nat := (doc: RawDoc) => doc.count
  const ENTRIES: RawDoc -> nat := (doc: RawDoc) => SumBy(doc.stageCounts, ENTRY_COUNT)

  /** What all of them report, document by document. */
  function Reported(raw: seq<RawDoc>): nat
  {
    SumBy(raw, REPORT)
  }

  const READY: RawDoc -> bool := (doc: RawDoc) => doc.stage != ""
  const UNREADY: RawDoc -> bool := (doc: RawDoc) => doc.stage == ""

  lemma {:induction false} ReadyTotal(raw: seq<RawDoc>)
    ensures Total(ReadyRows(raw)) == SumBy(raw, ROW_COUNT)
  {
    if raw != [] {
      ReadyTotal(raw[..|raw| - 1]);
      assert ReadyRows(raw)[..|raw| - 1] == ReadyRows(raw[..|raw| - 1]);
    }
  }

  lemma {:induction false} EntriesTotal(raw: seq<RawDoc>)
    ensures SumBy(AllEntries(raw), ENTRY_COUNT) == SumBy(raw, ENTRIES)
  {
    if raw != [] {
      EntriesTotal(raw[..|raw| - 1]);
      SumConcat(AllEntries(raw[..|raw| - 1]), raw[|raw| - 1].stageCounts, ENTRY_COUNT);
    }
  }

  /** What is published of any documents is suppressed. */
  lemma StageCountsSuppressed(raw: seq<RawDoc>, mock: seq<Row>, threshold: nat, row: Row)
    requires raw != [] && row in StageCounts(raw, mock, threshold)
    ensures row.keyed >= threshold || (row.keyed == 0 && row.count >= threshold) ||
            (row.name == "Other" && row.insufficientPublicData)
  {
    NoSmallGroup(if raw[0].stage != "" then ReadyRows(raw) else StageRows(raw), threshold, row);
  }

  /** The first document decides how all of them are read. */
  lemma PublishedTotal(raw: seq<RawDoc>, mock: seq<Row>, threshold: nat)
    ensures Total(StageCounts(raw, mock, threshold)) ==
            if raw == [] then Total(mock) else SumBy(raw, if raw[0].stage != "" then ROW_COUNT else ENTRIES)
  {
    if raw != [] {
      if raw[0].stage != "" {
        TotalConserved(ReadyRows(raw), threshold);
        ReadyTotal(raw);
      } else {
        TotalConserved(StageRows(raw), threshold);
        var entries := AllEntries(raw);
        RowsTotal(Unique(KeysOf(entries)), entries);
        KeySumsAddUp(entries);
        EntriesTotal(raw);
      }
    }
  }

  lemma {:induction false} SumAgrees<T>(xs: seq<T>, f: T -> nat, g: T -> nat)
    requires forall i :: 0 <= i < |xs| ==> f(xs[i]) == g(xs[i])
    ensures SumBy(xs, f) == SumBy(xs, g)
  {
    if xs != [] {
      SumAgrees(xs[..|xs| - 1], f, g);
    }
  }

  /** The documents of the other kind than the first. */
  function OtherKind(raw: seq<RawDoc>): seq<RawDoc>
    requires raw != []
  {
    Filter(raw, if raw[0].stage != "" then UNREADY else READY)
  }

  lemma FilterHolds(raw: seq<RawDoc>, keep: RawDoc -> bool)
    ensures forall i :: 0 <= i < |Filter(raw, keep)| ==> keep(Filter(raw, keep)[i])
  {
    forall i | 0 <= i < |Filter(raw, keep)|
      ensures keep(Filter(raw, keep)[i])
    {
      FilterMember(raw, keep, Filter(raw, keep)[i]);
    }
  }

  lemma SameKindAgrees(raw: seq<RawDoc>, ready: bool)
    ensures var same := Filter(raw, if ready then READY else UNREADY);
            SumBy(same, REPORT) == SumBy(same, if ready then ROW_COUNT else ENTRIES)
  {
    var same := Filter(raw, if ready then READY else UNREADY);
    FilterHolds(raw, if ready then READY else UNREADY);
    SumAgrees(same, REPORT, if ready then ROW_COUNT else ENTRIES);
  }

  /**
   The published counts add up to what the documents report if and only if those of the
   other kind than the first amount to the same when read as the first is; and, without any
   document, the table that stands in for missing data adds up to nothing.
   */
  lemma StageTotalConserved(raw: seq<RawDoc>, mock: seq<Row>, threshold: nat)
    ensures Total(StageCounts(raw, mock, threshold)) == Reported(raw) <==>
            if raw == [] then Total(mock) == 0
            else SumBy(OtherKind(raw), if raw[0].stage != "" then ROW_COUNT else ENTRIES) == Reported(OtherKind(raw))
  {
    PublishedTotal(raw, mock, threshold);
    if raw != [] {
      var ready := raw[0].stage != "";
      var f, same, other := if ready then ROW_COUNT else ENTRIES, if ready then READY else UNREADY,
                            if ready then UNREADY else READY;
      SumSplits(raw, REPORT, same, other);
      SumSplits(raw, f, same, other);
      SameKindAgrees(raw, ready);
    }
  }

  /** A document carries a stage and a count, or counts per stage, and not both. */
  predicate OneForm(doc: RawDoc)
  {
    if doc.stage != "" then doc.stageCounts == [] else doc.count == 0
  }

  /** For such documents: if and only if those of the other kind than the first report nothing. */
  lemma StageTotalOfOneForm(raw: seq<RawDoc>, mock: seq<Row>, threshold: nat)
    requires raw != [] && forall i :: 0 <= i < |raw| ==> OneForm(raw[i])
    ensures Total(StageCounts(raw, mock, threshold)) == Reported(raw) <==> Reported(OtherKind(raw)) == 0
  {
    StageTotalConserved(raw, mock, threshold);
    var f := if raw[0].stage != "" then ROW_COUNT else ENTRIES;
    var others := OtherKind(raw);
    forall i | 0 <= i < |others|
      ensures f(others[i]) == 0
    {
      FilterMember(raw, if raw[0].stage != "" then UNREADY else READY, others[i]);
    }
    SumAgrees(others, f, (doc: RawDoc) => 0);
    SumOfNothing(others);
  }

  lemma {:induction false} SumOfNothing(docs: seq<RawDoc>)
    ensures SumBy(docs, (doc: RawDoc) => 0) == 0
  {
    if docs != [] {
      SumOfNothing(docs[..|docs| - 1]);
    }
  }

  // ---------------------------------------------------------------- document order

  lemma EntriesWithout(docs: seq<RawDoc>, i: nat)
    requires i < |docs|
    ensures multiset(AllEntries(docs)) == multiset(AllEntries(Without(docs, i))) + multiset(docs[i].stageCounts)
  {
    var a, b := docs[..i], docs[i + 1..];
    SplitAt(docs, i);
    EntriesConcat(a + [docs[i]], b);
    EntriesAppend(a, docs[i]);
    EntriesConcat(a, b);
  }

  lemma {:induction false} EntriesPermute(docs: seq<RawDoc>, other: seq<RawDoc>)
    requires multiset(docs) == multiset(other)
    ensures multiset(AllEntries(docs)) == multiset(AllEntries(other))
    decreases |docs|
  {
    if docs == [] {
      EmptyPermutation(docs, other);
    } else {
      var j := Partner(docs, other);
      EntriesWithout(other, j);
      EntriesPermute(docs[..|docs| - 1], Without(other, j));
    }
  }

  lemma SameKeys(entries: seq<Entry>, other: seq<Entry>, key: string)
    requires multiset(entries) == multiset(other) && key in KeysOf(entries)
    ensures key in KeysOf(other)
  {
    var i :| 0 <= i < |entries| && entries[i].key == key;
    assert entries[i] in multiset(other);
    var j :| 0 <= j < |other| && other[j] == entries[i];
    assert KeysOf(other)[j] == key;
  }

  /** The rows of permuted documents are the same rows. */
  lemma StageRowsPermute(docs: seq<RawDoc>, other: seq<RawDoc>)
    requires multiset(docs) == multiset(other)
    ensures multiset(StageRows(docs)) == multiset(StageRows(other))
  {
    EntriesPermute(docs, other);
    var a, b := AllEntries(docs), AllEntries(other);
    forall row
      ensures row in StageRows(docs) <==> row in StageRows(other)
    {
      RowCarries(docs, other, row);
      RowCarries(other, docs, row);
    }
    SameMembersPermute(StageRows(docs), StageRows(other));
  }

  lemma RowCarries(docs: seq<RawDoc>, other: seq<RawDoc>, row: Row)
    requires multiset(AllEntries(docs)) == multiset(AllEntries(other))
    ensures row in StageRows(docs) ==> row in StageRows(other)
  {
    var a, b := AllEntries(docs), AllEntries(other);
    var keys, keys' := Unique(KeysOf(a)), Unique(KeysOf(b));
    if row in StageRows(docs) {
      var i :| 0 <= i < |keys| && StageRows(docs)[i] == row;
      SameKeys(a, b, keys[i]);
      var j :| 0 <= j < |keys'| && keys'[j] == keys[i];
      SumPermutes(a, b, CountFor(keys[i]));
      assert StageRows(other)[j] == row;
    }
  }

  lemma {:induction false} ReadyRowsPermute(docs: seq<RawDoc>, other: seq<RawDoc>)
    requires multiset(docs) == multiset(other)
    ensures multiset(ReadyRows(docs)) == multiset(ReadyRows(other))
    decreases |docs|
  {
    if docs == [] {
      EmptyPermutation(docs, other);
    } else {
      var n := |docs| - 1;
      var j := Partner(docs, other);
      ReadyRowsPermute(docs[..n], Without(other, j));
      assert ReadyRows(docs) == ReadyRows(docs[..n]) + [ReadyRows(docs)[n]];
      WithoutMultiset(ReadyRows(other), j);
      assert Without(ReadyRows(other), j) == ReadyRows(Without(other, j));
      assert ReadyRows(other)[j] in multiset(ReadyRows(other));
    }
  }

  /** As long as the first document stays of the same kind, the order changes no published row. */
  lemma {:induction false} StageCountsOrderIndependent(raw: seq<RawDoc>, other: seq<RawDoc>, mock: seq<Row>,
                                                       threshold: nat)
    requires multiset(raw) == multiset(other)
    requires raw != [] && other != [] ==> (raw[0].stage != "" <==> other[0].stage != "")
    ensures multiset(StageCounts(raw, mock, threshold)) == multiset(StageCounts(other, mock, threshold))
  {
    if raw == [] {
      EmptyPermutation(raw, other);
    } else if other == [] {
      EmptyPermutation(other, raw);
    } else if raw[0].stage != "" {
      ReadyRowsPermute(raw, other);
      MergedPermutes(ReadyRows(raw), ReadyRows(other), threshold);
    } else {
      StageRowsPermute(raw, other);
      MergedPermutes(StageRows(raw), StageRows(other), threshold);
    }
  }

  /** With documents of both kinds the one that comes first decides what is published. */
  lemma FirstDocumentDecides(mock: seq<Row>, threshold: nat)
    ensures var a, b := RawDoc("", 0, [Entry("A", 30)]), RawDoc("B", 90, []);
            Total(StageCounts([a, b], mock, threshold)) == 30 && Total(StageCounts([b, a], mock, threshold)) == 90
  {
    var a, b := RawDoc("", 0, [Entry("A", 30)]), RawDoc("B", 90, []);
    var none: seq<RawDoc> := [];
    PublishedTotal([a, b], mock, threshold);
    PublishedTotal([b, a], mock, threshold);
    SumAppend([a], b, ENTRIES);
    SumAppend(none, a, ENTRIES);
    SumAppend([b], a, ROW_COUNT);
    SumAppend(none, b, ROW_COUNT);
    assert none + [a] == [a] && none + [b] == [b] && [a] + [b] == [a, b] && [b] + [a] == [b, a];
    var nothing: seq<Entry> := [];
    SumAppend(nothing, Entry("A", 30), ENTRY_COUNT);
    assert nothing + [Entry("A", 30)] == [Entry("A", 30)];
  }
}

/**
 Case identifiers: the per-year counter (web/src/repositories/counter.repository.js), the
 universal case id (web/src/utils/universal-case-id.util.js), the draft case id
 (web/src/utils/caseId.js) and the acknowledgement number
 (web/src/services/acknowledgement.service.js).
 */
module CaseIds {
  import opened Lists
  import opened Strings

  const CASE_ID_PREFIX := "US360-KA"
  const ACK_PREFIX := "ACK-US360-KA"

  function UniversalId(prefix: string, year: nat, sequence: nat): string
  {
    prefix + "-" + Decimal(year) + "-" + PadStart(Decimal(sequence), 6)
  }

  /** generateCaseId: the date and a random five-digit suffix. */
  function DraftCaseId(year: nat, month: nat, day: nat, suffix: nat): string
  {
    "US360-" + (Decimal(year) + PadStart(Decimal(month), 2) + PadStart(Decimal(day), 2)) + "-" + Decimal(suffix)
  }

  /** `parts.slice(-2)`. */
  function LastTwo<T>(parts: seq<T>): seq<T>
  {
    if |parts| <= 2 then parts else parts[|parts| - 2..]
  }

  function AcknowledgementNumber(prefix: string, id: string): string
  {
    prefix + "-" + Join(LastTwo(Split(id, '-')), "-")
  }

  // ---------------------------------------------------------------- ids are readable

  /** An id splits into the parts of its prefix, its year and its padded sequence number. */
  lemma IdSplits(prefix: string, year: nat, sequence: nat)
    ensures Split(UniversalId(prefix, year, sequence), '-') ==
            Split(prefix, '-') + [Decimal(year), PadStart(Decimal(sequence), 6)]
  {
    var tail := [Decimal(year), PadStart(Decimal(sequence), 6)];
    var parts := Split(prefix, '-') + tail;
    JoinSplit(prefix, '-');
    JoinConcat(Split(prefix, '-'), tail, "-");
    JoinTwo(tail[0], tail[1]);
    assert Join(tail, "-") == Decimal(year) + "-" + PadStart(Decimal(sequence), 6);
    assert UniversalId(prefix, year, sequence) == Join(parts, "-");
    DigitsFreeOf(tail[0], '-');
    DigitsFreeOf(tail[1], '-');
    SplitJoin(parts, '-');
  }

  /** The last two parts of an id parse back to its year and its sequence number, of any size. */
  lemma IdReadsBack(prefix: string, year: nat, sequence: nat)
    ensures var parts := LastTwo(Split(UniversalId(prefix, year, sequence), '-'));
            |parts| == 2 && AllDigits(parts[0]) && AllDigits(parts[1]) &&
            ParseNat(parts[0]) == year && ParseNat(parts[1]) == sequence
  {
    IdSplits(prefix, year, sequence);
    ParseDecimal(year);
    ParseDecimal(sequence);
    ParsePadded(Decimal(sequence), 6);
  }

  lemma IdInjective(prefix: string, year: nat, sequence: nat, year': nat, sequence': nat)
    requires UniversalId(prefix, year, sequence) == UniversalId(prefix, year', sequence')
    ensures year == year' && sequence == sequence'
  {
    IdReadsBack(prefix, year, sequence);
    IdReadsBack(prefix, year', sequence');
  }

  /** The acknowledgement number is the universal id under another prefix. */
  lemma AcknowledgementOfId(ackPrefix: string, prefix: string, year: nat, sequence: nat)
    ensures AcknowledgementNumber(ackPrefix, UniversalId(prefix, year, sequence)) ==
            UniversalId(ackPrefix, year, sequence)
  {
    IdSplits(prefix, year, sequence);
    var tail := [Decimal(year), PadStart(Decimal(sequence), 6)];
    assert LastTwo(Split(UniversalId(prefix, year, sequence), '-')) == tail;
    JoinTwo(tail[0], tail[1]);
    assert ackPrefix + "-" + (tail[0] + "-" + tail[1]) == ackPrefix + "-" + tail[0] + "-" + tail[1];
  }

  lemma AcknowledgementInjective(ackPrefix: string, prefix: string, year: nat, sequence: nat, year': nat,
                                 sequence': nat)
    ensures AcknowledgementNumber(ackPrefix, UniversalId(prefix, year, sequence))
              == AcknowledgementNumber(ackPrefix, UniversalId(prefix, year', sequence')) <==>
            UniversalId(prefix, year, sequence) == UniversalId(prefix, year', sequence')
  {
    AcknowledgementOfId(ackPrefix, prefix, year, sequence);
    AcknowledgementOfId(ackPrefix, prefix, year', sequence');
    if UniversalId(ackPrefix, year, sequence) == UniversalId(ackPrefix, year', sequence') {
      IdInjective(ackPrefix, year, sequence, year', sequence');
    }
  }

  /** A draft case id is never a universal id, so a lookup by either is unambiguous. */
  lemma DraftIdIsNoUniversalId(y: nat, m: nat, d: nat, suffix: nat, year: nat, sequence: nat)
    ensures DraftCaseId(y, m, d, suffix) != UniversalId(CASE_ID_PREFIX, year, sequence)
  {
    var date := Decimal(y) + PadStart(Decimal(m), 2) + PadStart(Decimal(d), 2);
    var parts := ["US360", date, Decimal(suffix)];
    DigitsFreeOf(date, '-');
    DigitsFreeOf(Decimal(suffix), '-');
    assert parts[1..] == [date, Decimal(suffix)];
    JoinTwo(date, Decimal(suffix));
    DashAppend("US360", date, Decimal(suffix));
    assert "US360-" == "US360" + "-";
    assert DraftCaseId(y, m, d, suffix) == Join(parts, "-");
    SplitJoin(parts, '-');
    IdSplits(CASE_ID_PREFIX, year, sequence);
    SplitPrefix();
  }

  lemma JoinTwo(a: string, b: string)
    ensures Join([a, b], "-") == a + "-" + b
  {
    assert [a, b][1..] == [b];
  }

  lemma DashAppend(a: string, b: string, c: string)
    ensures a + "-" + (b + "-" + c) == (a + "-") + b + "-" + c
  {
  }

  lemma SplitPrefix()
    ensures Split(CASE_ID_PREFIX, '-') == ["US360", "KA"]
  {
    assert CASE_ID_PREFIX == "US360" + "-" + "KA";
    JoinTwo("US360", "KA");
    SplitJoin(["US360", "KA"], '-');
  }

  // ---------------------------------------------------------------- the counter

  function NextSequence(counters: map<string, nat>, key: string): nat
  {
    if key in counters then counters[key] + 1 else 1
  }

  function CounterKey(year: nat): string
  {
    "universal_case_id:" + Decimal(year)
  }

  lemma CounterKeyInjective(year: nat, year': nat)
    requires CounterKey(year) == CounterKey(year')
    ensures year == year'
  {
    var head := "universal_case_id:";
    assert CounterKey(year)[|head|..] == Decimal(year) && CounterKey(year')[|head|..] == Decimal(year');
    ParseDecimal(year);
    ParseDecimal(year');
  }

  class CounterRepository {
    var counters: map<string, nat>

    constructor ()
      ensures counters == map[]
    {
      counters := map[];
    }

    /** `$inc` with upsert, giving back the new value. */
    method GetNextSequence(key: string) returns (sequence: nat)
      modifies this
      ensures sequence == NextSequence(old(counters), key)
      ensures counters == old(counters)[key := sequence]
    {
      if key !in counters {
        counters := counters[key := 0];
      }
      counters := counters[key := counters[key] + 1];
      sequence := counters[key];
    }

    method GenerateUniversalCaseId(prefix: string, year: nat) returns (id: string)
      modifies this
      ensures id == UniversalId(prefix, year, NextSequence(old(counters), CounterKey(year)))
      ensures counters == old(counters)[CounterKey(year) := NextSequence(old(counters), CounterKey(year))]
    {
      var sequence := GetNextSequence(CounterKey(year));
      id := prefix + "-" + Decimal(year) + "-" + PadStart(Decimal(sequence), 6);
    }
  }

  /** The counters after generating ids in the given years, one after the other. */
  function CountersAfter(years: seq<nat>): map<string, nat>
  {
    if years == [] then map[]
    else
      var before := CountersAfter(years[..|years| - 1]);
      var key := CounterKey(years[|years| - 1]);
      before[key := NextSequence(before, key)]
  }

  /** The ids generated in such a run. */
  function IdsIssued(prefix: string, years: seq<nat>): (ids: seq<string>)
    ensures |ids| == |years|
  {
    if years == [] then []
    else
      var init, year := years[..|years| - 1], years[|years| - 1];
      IdsIssued(prefix, init) + [UniversalId(prefix, year, NextSequence(CountersAfter(init), CounterKey(year)))]
  }

  /** Every issued id is the one of its year and of a number the counter has passed. */
  lemma {:induction false} IssuedBelowCounter(prefix: string, years: seq<nat>, i: nat) returns (sequence: nat)
    requires i < |years|
    ensures IdsIssued(prefix, years)[i] == UniversalId(prefix, years[i], sequence)
    ensures var key := CounterKey(years[i]);
            key in CountersAfter(years) && sequence <= CountersAfter(years)[key]
  {
    var n := |years| - 1;
    if i == n {
      sequence := NextSequence(CountersAfter(years[..n]), CounterKey(years[n]));
    } else {
      sequence := IssuedBelowCounter(prefix, years[..n], i);
    }
  }

  /** Over every run of the generator no id is issued twice, within a year and across years. */
  lemma {:induction false} IdsNeverCollide(prefix: string, years: seq<nat>)
    ensures NoRepeats(IdsIssued(prefix, years))
  {
    if years != [] {
      var n := |years| - 1;
      var init, ids := years[..n], IdsIssued(prefix, years);
      IdsNeverCollide(prefix, init);
      forall i | 0 <= i < n
        ensures ids[i] != ids[n]
      {
        var sequence := IssuedBelowCounter(prefix, init, i);
        var last := NextSequence(CountersAfter(init), CounterKey(years[n]));
        if ids[i] == ids[n] {
          IdInjective(prefix, init[i], sequence, years[n], last);
        }
      }
    }
  }

  /** The counter of a year stands at the number of ids generated in it, whatever the other years. */
  lemma {:induction false} CounterCountsYear(years: seq<nat>, year: nat)
    ensures var counters, key := CountersAfter(years), CounterKey(year);
            (if key in counters then counters[key] else 0) == multiset(years)[year]
  {
    if years != [] {
      var init, last := years[..|years| - 1], years[|years| - 1];
      assert years == init + [last];
      CounterCountsYear(init, year);
      CounterCountsYear(init, last);
      if CounterKey(year) == CounterKey(last) {
        CounterKeyInjective(year, last);
      }
    }
  }

  /** The numbers of a year have no gaps: the n-th id generated in a year carries the number n. */
  lemma {:induction false} NumbersConsecutive(prefix: string, years: seq<nat>, i: nat)
    requires i < |years|
    ensures IdsIssued(prefix, years)[i] == UniversalId(prefix, years[i], multiset(years[..i + 1])[years[i]])
  {
    var n := |years| - 1;
    if i == n {
      var init := years[..n];
      CounterCountsYear(init, years[n]);
      assert years[..n + 1] == init + [years[n]];
    } else {
      NumbersConsecutive(prefix, years[..n], i);
      assert years[..n][..i + 1] == years[..i + 1];
    }
  }
}

/**
 JavaScript string operations the services share: `split`/`join` on a separator,
 ASCII `trim`/`toLowerCase`, `includes`/`startsWith`, decimal text and `padStart`.
 */
module Strings {

  // ---------------------------------------------------------------- split and join

  /** `s.split(sep)` for a one-character separator: always at least one part. */
  function Split(s: string, sep: char): (parts: seq<string>)
    ensures |parts| >= 1
    ensures forall p <- parts :: sep !in p
  {
    if s == "" then [""]
    else
      var rest := Split(s[1..], sep);
      if s[0] == sep then [""] + rest
      else [[s[0]] + rest[0]] + rest[1..]
  }

  /** `parts.join(sep)`. */
  function Join(parts: seq<string>, sep: string): string
  {
    if |parts| == 0 then ""
    else if |parts| == 1 then parts[0]
    else parts[0] + sep + Join(parts[1..], sep)
  }

  /** Splitting a concatenation at a separator-free first part. */
  lemma {:induction false} SplitHead(head: string, tail: string, sep: char)
    requires sep !in head
    ensures Split(head + [sep] + tail, sep) == [head] + Split(tail, sep)
    ensures Split(head, sep) == [head]
  {
    if head == "" {
      assert head + [sep] + tail == [sep] + tail;
      assert ([sep] + tail)[1..] == tail;
    } else {
      SplitHead(head[1..], tail, sep);
      assert (head + [sep] + tail)[1..] == head[1..] + [sep] + tail;
      assert [head[0]] + head[1..] == head;
    }
  }

  /** `split` undoes `join` on separator-free parts. */
  lemma {:induction false} SplitJoin(parts: seq<string>, sep: char)
    requires |parts| >= 1
    requires forall p <- parts :: sep !in p
    ensures Split(Join(parts, [sep]), sep) == parts
  {
    if |parts| == 1 {
      SplitHead(parts[0], "", sep);
    } else {
      SplitJoin(parts[1..], sep);
      SplitHead(parts[0], Join(parts[1..], [sep]), sep);
    }
  }

  /** `join` undoes `split`, whatever the string. */
  lemma {:induction false} JoinSplit(s: string, sep: char)
    ensures Join(Split(s, sep), [sep]) == s
  {
    if s != "" {
      JoinSplit(s[1..], sep);
      var rest := Split(s[1..], sep);
      if s[0] == sep {
        assert ([""] + rest)[1..] == rest;
      } else {
        var parts := [[s[0]] + rest[0]] + rest[1..];
        assert parts[1..] == rest[1..];
      }
    }
  }

  /** Joining two lists is joining their joins. */
  lemma {:induction false} JoinConcat(a: seq<string>, b: seq<string>, sep: string)
    requires |a| >= 1 && |b| >= 1
    ensures Join(a + b, sep) == Join(a, sep) + sep + Join(b, sep)
  {
    if |a| == 1 {
      assert (a + b)[1..] == b;
    } else {
      assert (a + b)[1..] == a[1..] + b;
      JoinConcat(a[1..], b, sep);
      assert Join(a + b, sep) == a[0] + sep + Join(a[1..] + b, sep);
    }
  }

  // ---------------------------------------------------------------- searching

  predicate StartsWith(s: string, prefix: string)
  {
    prefix <= s
  }

  predicate Includes(s: string, needle: string)
  {
    exists i :: 0 <= i <= |s| && needle <= s[i..]
  }

  // ---------------------------------------------------------------- case and blanks

  function LowerChar(c: char): char
  {
    if 'A' <= c <= 'Z' then ((c as int) - ('A' as int) + ('a' as int)) as char else c
  }

  /** `toLowerCase()` on ASCII letters; other characters stand for themselves. */
  function Lower(s: string): (t: string)
    ensures |t| == |s|
    ensures forall i :: 0 <= i < |s| ==> t[i] == LowerChar(s[i])
  {
    if s == "" then "" else [LowerChar(s[0])] + Lower(s[1..])
  }

  function UpperChar(c: char): char
  {
    if 'a' <= c <= 'z' then ((c as int) - ('a' as int) + ('A' as int)) as char else c
  }

  /** `toUpperCase()`, likewise. */
  function Upper(s: string): (t: string)
    ensures |t| == |s|
    ensures forall i :: 0 <= i < |s| ==> t[i] == UpperChar(s[i])
  {
    if s == "" then "" else [UpperChar(s[0])] + Upper(s[1..])
  }

  predicate IsBlank(c: char)
  {
    c == ' ' || c == '\t' || c == '\n' || c == '\r'
  }

  function TrimStart(s: string): (t: string)
    ensures |t| <= |s|
    ensures s != "" && IsBlank(s[0]) ==> |t| < |s|
  {
    if s != "" && IsBlank(s[0]) then TrimStart(s[1..]) else s
  }

  function TrimEnd(s: string): string
  {
    if s != "" && IsBlank(s[|s| - 1]) then TrimEnd(s[..|s| - 1]) else s
  }

  function Trim(s: string): string
  {
    TrimEnd(TrimStart(s))
  }

  /** Nothing to trim at either end. */
  predicate Tight(s: string)
  {
    s == "" || (!IsBlank(s[0]) && !IsBlank(s[|s| - 1]))
  }

  lemma TightIsTrimmed(s: string)
    requires Tight(s)
    ensures Trim(s) == s
  {
  }

  lemma {:induction false} TrimStartTight(s: string)
    ensures TrimStart(s) == "" || !IsBlank(TrimStart(s)[0])
  {
    if s != "" && IsBlank(s[0]) {
      TrimStartTight(s[1..]);
    }
  }

  lemma {:induction false} TrimEndTight(s: string)
    ensures var t := TrimEnd(s);
            t == "" || (!IsBlank(t[|t| - 1]) && s != "" && t[0] == s[0])
  {
    if s != "" && IsBlank(s[|s| - 1]) {
      TrimEndTight(s[..|s| - 1]);
    }
  }

  /** Trimming leaves nothing to trim. */
  lemma TrimIsTight(s: string)
    ensures Tight(Trim(s)) && Trim(Trim(s)) == Trim(s)
  {
    TrimStartTight(s);
    TrimEndTight(TrimStart(s));
    TightIsTrimmed(Trim(s));
  }

  lemma CasesOfChar(c: char)
    ensures LowerChar(LowerChar(c)) == LowerChar(c) && (IsBlank(LowerChar(c)) <==> IsBlank(c))
    ensures UpperChar(UpperChar(c)) == UpperChar(c) && (IsBlank(UpperChar(c)) <==> IsBlank(c))
  {
  }

  lemma SameText(s: string, t: string)
    requires |s| == |t| && forall i :: 0 <= i < |s| ==> s[i] == t[i]
    ensures s == t
  {
  }

  /** Changing the case of trimmed text once is changing it twice, and leaves nothing to trim. */
  lemma LowerUpper(s: string)
    ensures Lower(Upper(s)) == Lower(s)
  {
    forall i | 0 <= i < |s|
      ensures Lower(Upper(s))[i] == Lower(s)[i]
    {
      assert LowerChar(UpperChar(s[i])) == LowerChar(s[i]);
    }
    SameText(Lower(Upper(s)), Lower(s));
  }

  lemma UpperOfPiece(s: string, from: nat, to: nat)
    requires from <= to <= |s|
    ensures Upper(s)[from..to] == Upper(s[from..to])
  {
    SameText(Upper(s)[from..to], Upper(s[from..to]));
  }

  lemma {:induction false} TrimStartUpper(s: string)
    ensures TrimStart(Upper(s)) == Upper(TrimStart(s))
  {
    if s != "" {
      CasesOfChar(s[0]);
      if IsBlank(s[0]) {
        UpperOfPiece(s, 1, |s|);
        TrimStartUpper(s[1..]);
      }
    }
  }

  lemma {:induction false} TrimEndUpper(s: string)
    ensures TrimEnd(Upper(s)) == Upper(TrimEnd(s))
  {
    if s != "" {
      var n := |s| - 1;
      CasesOfChar(s[n]);
      if IsBlank(s[n]) {
        UpperOfPiece(s, 0, n);
        TrimEndUpper(s[..n]);
      }
    }
  }

  lemma TrimUpper(s: string)
    ensures Trim(Upper(s)) == Upper(Trim(s))
  {
    TrimStartUpper(s);
    TrimEndUpper(TrimStart(s));
  }

  lemma LowerTwice(t: string)
    requires Tight(t)
    ensures Lower(Lower(t)) == Lower(t) && Trim(Lower(t)) == Lower(t)
  {
    forall i | 0 <= i < |t|
      ensures Lower(Lower(t))[i] == Lower(t)[i]
    {
      CasesOfChar(t[i]);
    }
    SameText(Lower(Lower(t)), Lower(t));
    if t != "" {
      CasesOfChar(t[0]);
      CasesOfChar(t[|t| - 1]);
    }
    TightIsTrimmed(Lower(t));
  }

  lemma UpperTwice(t: string)
    requires Tight(t)
    ensures Upper(Upper(t)) == Upper(t) && Trim(Upper(t)) == Upper(t)
  {
    forall i | 0 <= i < |t|
      ensures Upper(Upper(t))[i] == Upper(t)[i]
    {
      CasesOfChar(t[i]);
    }
    SameText(Upper(Upper(t)), Upper(t));
    if t != "" {
      CasesOfChar(t[0]);
      CasesOfChar(t[|t| - 1]);
    }
    TightIsTrimmed(Upper(t));
  }

  /** `replaceAll(/\s+/g, ' ')`: every run of blanks becomes one space. */
  function CollapseBlanks(s: string): string
    decreases |s|
  {
    if s == "" then ""
    else if IsBlank(s[0]) then [' '] + CollapseBlanks(TrimStart(s))
    else [s[0]] + CollapseBlanks(s[1..])
  }

  // ---------------------------------------------------------------- decimal text

  function Digit(d: nat): (c: char)
    requires d < 10
    ensures '0' <= c <= '9'
  {
    ((d as int) + ('0' as int)) as char
  }

  predicate AllDigits(s: string)
  {
    forall i :: 0 <= i < |s| ==> '0' <= s[i] <= '9'
  }

  /** `String(n)` for a non-negative integer. */
  function Decimal(n: nat): (s: string)
    ensures |s| >= 1 && AllDigits(s)
  {
    if n < 10 then [Digit(n)] else Decimal(n / 10) + [Digit(n % 10)]
  }

  /** `s.padStart(width, '0')`. */
  function PadStart(s: string, width: nat): (t: string)
    ensures AllDigits(s) ==> AllDigits(t)
    ensures |t| == if |s| >= width then |s| else width
    decreases width - |s|
  {
    if |s| >= width then s else PadStart(['0'] + s, width)
  }

  /** `Number(s)` on a string of digits. */
  function ParseNat(s: string): nat
    requires AllDigits(s)
  {
    if s == "" then 0
    else 10 * ParseNat(s[..|s| - 1]) + ((s[|s| - 1] as int) - ('0' as int))
  }

  lemma {:induction false} ParseDecimal(n: nat)
    ensures ParseNat(Decimal(n)) == n
  {
    if n >= 10 {
      ParseDecimal(n / 10);
      var s := Decimal(n);
      assert s[..|s| - 1] == Decimal(n / 10);
    }
  }

  lemma {:induction false} ParseLeadingZero(s: string)
    requires AllDigits(s)
    ensures ParseNat(['0'] + s) == ParseNat(s)
  {
    var t := ['0'] + s;
    if s == "" {
      assert t[..|t| - 1] == "";
    } else {
      ParseLeadingZero(s[..|s| - 1]);
      assert t[..|t| - 1] == ['0'] + s[..|s| - 1];
    }
  }

  /** Zero padding keeps the number, whatever the width. */
  lemma {:induction false} ParsePadded(s: string, width: nat)
    requires AllDigits(s)
    ensures ParseNat(PadStart(s, width)) == ParseNat(s)
    decreases width - |s|
  {
    if |s| < width {
      ParseLeadingZero(s);
      ParsePadded(['0'] + s, width);
    }
  }

  /** Digits contain no separator that is not a digit. */
  lemma DigitsFreeOf(s: string, sep: char)
    requires AllDigits(s) && !('0' <= sep <= '9')
    ensures sep !in s
  {
  }
}

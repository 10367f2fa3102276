/**
 Log redaction (packages/shared/src/logger/redaction.js): values under sensitive keys are
 replaced at every depth of objects and arrays.
 */
module Redaction {
  import opened Strings
  import opened Json

  const SENSITIVE_KEYS: seq<string> := [
    "password", "passwordHash", "token", "accessToken", "refreshToken", "authorization",
    "cookie", "otp", "secret", "apiKey", "clientSecret", "privateKey", "s3Secret",
    "digilockerToken", "signedUrl", "documentPayload", "cardNumber", "cvv"]

  const REDACTED: Json := Str("[REDACTED]")

  /** Some sensitive word occurs in the key, whatever the case. */
  predicate ShouldRedact(key: string)
  {
    exists i :: 0 <= i < |SENSITIVE_KEYS| && Includes(Lower(key), Lower(SENSITIVE_KEYS[i]))
  }

  /** A test for the keys whose values are to be hidden. */
  type KeyTest = string -> bool

  const BY_NAME: KeyTest := key => ShouldRedact(key)

  /** What redaction makes of a value: a plain structural description. */
  function Redacted(v: Json, hidden: KeyTest): Json
  {
    match v
    case Arr(items) => Arr(seq(|items|, i requires 0 <= i < |items| => Redacted(items[i], hidden)))
    case Obj(fields) => Obj(map k | k in fields :: if hidden(k) then REDACTED else Redacted(fields[k], hidden))
    case _ => v
  }

  // ---------------------------------------------------------------- the code

  lemma WordStartsWithLetter(i: nat)
    requires i < |SENSITIVE_KEYS|
    ensures SENSITIVE_KEYS[i] != "" && 'a' <= SENSITIVE_KEYS[i][0] <= 'z'
  {
    assert SENSITIVE_KEYS[i][0] in "ptarcoskd" || SENSITIVE_KEYS[i][0] in "au";
  }

  /** Every sensitive word starts with a letter, so no array index is a sensitive key. */
  lemma IndexKeysAreSafe(key: string)
    requires AllDigits(key)
    ensures !ShouldRedact(key)
  {
    forall i | 0 <= i < |SENSITIVE_KEYS|
      ensures !Includes(Lower(key), Lower(SENSITIVE_KEYS[i]))
    {
      WordStartsWithLetter(i);
      DigitsExclude(key, SENSITIVE_KEYS[i]);
    }
  }

  lemma DigitsExclude(key: string, word: string)
    requires AllDigits(key) && word != "" && 'a' <= word[0] <= 'z'
    ensures !Includes(Lower(key), Lower(word))
  {
    var k, w := Lower(key), Lower(word);
    forall j | 0 <= j <= |k|
      ensures !(w <= k[j..])
    {
      assert j < |k| ==> k[j..][0] == k[j] == key[j];
    }
  }

  /** The same character, or the same ASCII letter in the other case. */
  predicate SameLetter(a: char, b: char)
  {
    a == b || ('A' <= a <= 'Z' && b as int == a as int + 32) || ('A' <= b <= 'Z' && a as int == b as int + 32)
  }

  lemma SameLetterIff(a: char, b: char)
    ensures SameLetter(a, b) <==> LowerChar(a) == LowerChar(b)
  {
  }

  /** The same letters in the same order, in upper or lower case. */
  predicate Spells(piece: string, word: string)
  {
    |piece| == |word| && forall k :: 0 <= k < |word| ==> SameLetter(piece[k], word[k])
  }

  lemma IncludesPiece(key: string, word: string) returns (from: nat)
    requires Includes(Lower(key), Lower(word))
    ensures from + |word| <= |key| && Spells(key[from..from + |word|], word)
  {
    var i :| 0 <= i <= |Lower(key)| && Lower(word) <= Lower(key)[i..];
    from := i;
    forall k | 0 <= k < |word|
      ensures SameLetter(key[from + k], word[k])
    {
      SameLetterIff(key[from + k], word[k]);
      assert Lower(key)[from..][k] == Lower(word)[k];
    }
  }

  lemma PieceIncluded(key: string, from: nat, to: nat, word: string)
    requires from <= to <= |key| && Spells(key[from..to], word)
    ensures Includes(Lower(key), Lower(word))
  {
    forall k | 0 <= k < |word|
      ensures Lower(word)[k] == Lower(key)[from..][k]
    {
      SameLetterIff(key[from..to][k], word[k]);
    }
    assert Lower(word) <= Lower(key)[from..];
  }

  predicate SpelledAt(key: string, i: int, from: int, to: int)
  {
    0 <= i < |SENSITIVE_KEYS| && 0 <= from <= to <= |key| && Spells(key[from..to], SENSITIVE_KEYS[i])
  }

  /**
   A key is sensitive exactly when a piece of it spells a sensitive word, letter case aside:
   whatever comes before and after, as in "userPASSWORD2".
   */
  lemma SensitiveIffSpelled(key: string)
    ensures ShouldRedact(key) <==>
            exists i, from, to :: SpelledAt(key, i, from, to)
  {
    if ShouldRedact(key) {
      var i :| 0 <= i < |SENSITIVE_KEYS| && Includes(Lower(key), Lower(SENSITIVE_KEYS[i]));
      var word := SENSITIVE_KEYS[i];
      var from := IncludesPiece(key, word);
      assert SpelledAt(key, i, from, from + |word|);
    }
    if i, from, to :| SpelledAt(key, i, from, to) {
      PieceIncluded(key, from, to, SENSITIVE_KEYS[i]);
    }
  }

  /** One pass of the loop over the entries. */
  method RedactEntry(key: string, value: Json) returns (r: Json)
    ensures r == if ShouldRedact(key) then REDACTED else Redacted(value, BY_NAME)
    decreases value, 2
  {
    if ShouldRedact(key) {
      return REDACTED;
    }
    if IsContainer(value) {
      r := RedactValue(value);
      return;
    }
    return value;
  }

  method RedactValue(value: Json) returns (r: Json)
    ensures r == if IsContainer(value) then Redacted(value, BY_NAME) else REDACTED
    decreases value, 1
  {
    if value.Arr? {
      var items := [];
      for i := 0 to |value.items|
        invariant |items| == i && forall j :: 0 <= j < i ==> items[j] == Redacted(value.items[j], BY_NAME)
      {
        var item := RedactSensitive(value.items[i]);
        items := items + [item];
      }
      return Arr(items);
    }
    if !IsContainer(value) {
      return REDACTED;
    }
    r := RedactSensitive(value);
  }

  /**
   redactSensitive. The entries of an array are keyed by their indices, so a top-level
   array takes another route through the code than a nested one, to the same result.
   */
  method RedactSensitive(input: Json) returns (output: Json)
    ensures output == Redacted(input, BY_NAME)
    decreases input, 0
  {
    match input
    case Arr(items) =>
      var filled := [];
      for i := 0 to |items|
        invariant |filled| == i && forall j :: 0 <= j < i ==> filled[j] == Redacted(items[j], BY_NAME)
      {
        IndexKeysAreSafe(Decimal(i));
        var entry := RedactEntry(Decimal(i), items[i]);
        filled := filled + [entry];
      }
      output := Arr(filled);
    case Obj(fields) =>
      var filled: map<string, Json> := map[];
      var keys := fields.Keys;
      while keys != {}
        invariant keys <= fields.Keys && filled.Keys == fields.Keys - keys
        invariant forall k :: k in filled ==>
          filled[k] == if ShouldRedact(k) then REDACTED else Redacted(fields[k], BY_NAME)
      {
        var key :| key in keys;
        var entry := RedactEntry(key, fields[key]);
        filled := filled[key := entry];
        keys := keys - {key};
      }
      assert filled == Redacted(input, BY_NAME).fields;
      output := Obj(filled);
    case _ =>
      output := input;
  }

  // ---------------------------------------------------------------- exactness

  /** The two values agree everywhere except below sensitive keys. */
  predicate SameOutsideSecrets(x: Json, y: Json, hidden: KeyTest)
  {
    match x
    case Arr(items) =>
      y.Arr? && |items| == |y.items| &&
      forall i :: 0 <= i < |items| ==> SameOutsideSecrets(items[i], y.items[i], hidden)
    case Obj(fields) =>
      y.Obj? && fields.Keys == y.fields.Keys &&
      forall k :: k in fields && !hidden(k) ==> SameOutsideSecrets(fields[k], y.fields[k], hidden)
    case _ => x == y
  }

  lemma ArraysExact(x: Json, y: Json, hidden: KeyTest)
    requires x.Arr? && y.Arr? && |x.items| == |y.items|
    requires forall i :: 0 <= i < |x.items| ==>
               (Redacted(x.items[i], hidden) == Redacted(y.items[i], hidden) <==>
                SameOutsideSecrets(x.items[i], y.items[i], hidden))
    ensures Redacted(x, hidden) == Redacted(y, hidden) <==> SameOutsideSecrets(x, y, hidden)
  {
    var a, b := Redacted(x, hidden).items, Redacted(y, hidden).items;
    if SameOutsideSecrets(x, y, hidden) {
      assert a == b;
    } else {
      var i :| 0 <= i < |x.items| && !SameOutsideSecrets(x.items[i], y.items[i], hidden);
      assert a[i] == Redacted(x.items[i], hidden) != Redacted(y.items[i], hidden) == b[i];
    }
  }

  /** What redaction leaves under a key. */
  lemma RedactedField(v: Json, k: string, hidden: KeyTest)
    requires v.Obj? && k in v.fields
    ensures var r := Redacted(v, hidden);
            r.Obj? && r.fields.Keys == v.fields.Keys &&
            r.fields[k] == if hidden(k) then REDACTED else Redacted(v.fields[k], hidden)
  {
  }

  /** Two objects with the same keys redact alike exactly when their visible values do. */
  lemma ObjectsRedactAlike(x: Json, y: Json, hidden: KeyTest)
    requires x.Obj? && y.Obj? && x.fields.Keys == y.fields.Keys
    ensures Redacted(x, hidden) == Redacted(y, hidden) <==>
            forall k :: k in x.fields && !hidden(k) ==>
              Redacted(x.fields[k], hidden) == Redacted(y.fields[k], hidden)
  {
    var a, b := Redacted(x, hidden), Redacted(y, hidden);
    forall k | k in x.fields
      ensures a.fields[k] == if hidden(k) then REDACTED else Redacted(x.fields[k], hidden)
      ensures b.fields[k] == if hidden(k) then REDACTED else Redacted(y.fields[k], hidden)
    {
      RedactedField(x, k, hidden);
      RedactedField(y, k, hidden);
    }
    assert a == b <==> a.fields == b.fields;
  }

  /** Redaction hides the values below sensitive keys, and hides nothing else. */
  lemma {:induction false} RedactionExact(x: Json, y: Json, hidden: KeyTest)
    ensures Redacted(x, hidden) == Redacted(y, hidden) <==> SameOutsideSecrets(x, y, hidden)
    decreases x
  {
    if x.Arr? && y.Arr? {
      if |x.items| == |y.items| {
        forall i | 0 <= i < |x.items| { RedactionExact(x.items[i], y.items[i], hidden); }
        ArraysExact(x, y, hidden);
      } else {
        assert |Redacted(x, hidden).items| != |Redacted(y, hidden).items|;
      }
    } else if x.Obj? && y.Obj? {
      if x.fields.Keys == y.fields.Keys {
        forall k | k in x.fields && !hidden(k) { RedactionExact(x.fields[k], y.fields[k], hidden); }
        ObjectsRedactAlike(x, y, hidden);
      } else {
        assert Redacted(x, hidden).fields.Keys == x.fields.Keys;
        assert Redacted(y, hidden).fields.Keys == y.fields.Keys;
      }
    }
  }

  /** Every sensitive key, at any depth, holds the marker. */
  predicate NoSecretLeft(v: Json, hidden: KeyTest)
  {
    match v
    case Arr(items) => forall i :: 0 <= i < |items| ==> NoSecretLeft(items[i], hidden)
    case Obj(fields) => forall k :: k in fields ==>
        if hidden(k) then fields[k] == REDACTED else NoSecretLeft(fields[k], hidden)
    case _ => true
  }

  lemma {:induction false} RedactedHasNoSecret(v: Json, hidden: KeyTest)
    ensures NoSecretLeft(Redacted(v, hidden), hidden)
  {
    match v
    case Arr(items) =>
      forall i | 0 <= i < |items| { RedactedHasNoSecret(items[i], hidden); }
    case Obj(fields) =>
      forall k | k in fields && !hidden(k) { RedactedHasNoSecret(fields[k], hidden); }
    case _ =>
  }

  /** Redaction changes a value exactly when some sensitive key still holds something else. */
  lemma {:induction false} UnchangedIffNoSecret(v: Json, hidden: KeyTest)
    ensures Redacted(v, hidden) == v <==> NoSecretLeft(v, hidden)
  {
    match v
    case Arr(items) =>
      var r := Redacted(v, hidden).items;
      forall i | 0 <= i < |items|
        ensures r[i] == items[i] <==> NoSecretLeft(items[i], hidden)
      {
        UnchangedIffNoSecret(items[i], hidden);
      }
      assert r == items <==> forall i :: 0 <= i < |items| ==> r[i] == items[i];
    case Obj(fields) =>
      var r := Redacted(v, hidden).fields;
      forall k | k in fields && !hidden(k)
        ensures r[k] == fields[k] <==> NoSecretLeft(fields[k], hidden)
      {
        UnchangedIffNoSecret(fields[k], hidden);
      }
      assert r == fields <==> forall k :: k in fields ==> r[k] == fields[k];
    case _ =>
  }

  lemma RedactionIdempotent(v: Json, hidden: KeyTest)
    ensures Redacted(Redacted(v, hidden), hidden) == Redacted(v, hidden)
  {
    RedactedHasNoSecret(v, hidden);
    UnchangedIffNoSecret(Redacted(v, hidden), hidden);
  }

  /** Same containers, lengths and keys; scalars outside sensitive keys untouched. */
  predicate KeepsShape(v: Json, r: Json, hidden: KeyTest)
  {
    match v
    case Arr(items) =>
      r.Arr? && |items| == |r.items| && forall i :: 0 <= i < |items| ==> KeepsShape(items[i], r.items[i], hidden)
    case Obj(fields) =>
      r.Obj? && fields.Keys == r.fields.Keys &&
      forall k :: k in fields && !hidden(k) ==> KeepsShape(fields[k], r.fields[k], hidden)
    case _ => r == v
  }

  lemma {:induction false} RedactionKeepsShape(v: Json, hidden: KeyTest)
    ensures KeepsShape(v, Redacted(v, hidden), hidden)
  {
    match v
    case Arr(items) =>
      forall i | 0 <= i < |items| { RedactionKeepsShape(items[i], hidden); }
    case Obj(fields) =>
      forall k | k in fields && !hidden(k) { RedactionKeepsShape(fields[k], hidden); }
    case _ =>
  }
}

/** `sanitizeLogData`: a copy of a log record in which every entry whose key
    names sensitive data, at any depth, is replaced by "[REDACTED]". Nested
    objects are recursed into; arrays and other objects without entries of
    their own are not modelled. */
module LogSanitizer {
  import Text
  import opened JsObject

  /** A JSON-like log value; `Object` holds its entries in key order. */
  datatype LogValue =
    | Str(s: string)
    | Num(n: int)
    | Bool(b: bool)
    | Null
    | Object(fields: seq<Field>)

  /** One entry of a log object. */
  type Field = Entry<LogValue>

  /** The words that mark a key as sensitive. */
  const SensitiveKeys: seq<string> :=
    ["password", "token", "secret", "credit_card", "ssn", "social_security", "birth_date", "dob", "address",
     "health_record"]

  /** The value that replaces a sensitive entry. */
  const Redacted: string := "[REDACTED]"

  /** A key is sensitive when its lower-case form contains one of the words. */
  predicate IsSensitiveKey(key: string)
  {
    exists i :: 0 <= i < |SensitiveKeys| && Text.Contains(Text.ToLower(key), SensitiveKeys[i])
  }

  /** Two examples: "Password" and "homeAddress" are sensitive. */
  lemma SensitiveKeyExamples()
    ensures IsSensitiveKey("Password")
    ensures IsSensitiveKey("homeAddress")
  {
    assert Text.ToLower("Password") == "password";
    assert Text.Contains("password", SensitiveKeys[0]);
    var home := Text.ToLower("homeAddress");
    assert home == "homeaddress";
    assert Text.OccursAt(home, "address", 4);
    Text.ContainsIff(home, "address");
    assert Text.Contains(home, SensitiveKeys[8]);
  }

  /** The match ignores case: a key is sensitive exactly when its lower-case
      form is, and exactly when one of the words occurs somewhere in that form. */
  lemma SensitiveKeyMatch(key: string)
    ensures IsSensitiveKey(key) <==> IsSensitiveKey(Text.ToLower(key))
    ensures IsSensitiveKey(key) <==>
      exists i, p :: 0 <= i < |SensitiveKeys| && Text.OccursAt(Text.ToLower(key), SensitiveKeys[i], p)
  {
    Text.ToLowerIdempotent(key);
    var low := Text.ToLower(key);
    forall i | 0 <= i < |SensitiveKeys|
      ensures Text.Contains(low, SensitiveKeys[i]) <==> exists p :: Text.OccursAt(low, SensitiveKeys[i], p)
    {
      Text.ContainsIff(low, SensitiveKeys[i]);
    }
  }

  /** The match looks anywhere in the key: a key holding one of the words, in
      any mix of cases, between any prefix and suffix, is sensitive. */
  lemma SensitiveAnywhere(prefix: string, word: string, suffix: string, i: nat)
    requires i < |SensitiveKeys| && Text.ToLower(word) == SensitiveKeys[i]
    ensures IsSensitiveKey(prefix + word + suffix)
  {
    var low := Text.ToLower(prefix + word + suffix);
    Text.ToLowerConcat(prefix + word, suffix);
    Text.ToLowerConcat(prefix, word);
    assert low == Text.ToLower(prefix) + SensitiveKeys[i] + Text.ToLower(suffix);
    assert Text.OccursAt(low, SensitiveKeys[i], |prefix|);
    Text.ContainsIff(low, SensitiveKeys[i]);
  }

  /** One entry after sanitising: redacted when its key is sensitive, an
      object sanitised in turn, anything else kept. */
  function SanitizedField(f: Field): Field
    decreases f
  {
    if IsSensitiveKey(f.key) then Entry(f.key, Str(Redacted))
    else if f.value.Object? then Entry(f.key, Object(Sanitized(f.value.fields)))
    else f
  }

  /** The entries of an object after sanitising, entry by entry. */
  function Sanitized(fs: seq<Field>): (r: seq<Field>)
    ensures |r| == |fs|
    ensures forall i :: 0 <= i < |fs| ==> r[i] == SanitizedField(fs[i])
    decreases fs
  {
    if fs == [] then [] else [SanitizedField(fs[0])] + Sanitized(fs[1..])
  }

  /** No sensitive key, at any depth, holds anything but "[REDACTED]". */
  predicate NoSensitiveLeaks(fs: seq<Field>)
    decreases fs
  {
    forall i :: 0 <= i < |fs| ==>
      if IsSensitiveKey(fs[i].key) then fs[i].value == Str(Redacted)
      else fs[i].value.Object? ==> NoSensitiveLeaks(fs[i].value.fields)
  }

  /** Sanitising keeps every key, in place, at the top level. */
  lemma SanitizedKeys(fs: seq<Field>)
    ensures Keys(Sanitized(fs)) == Keys(fs)
  {
  }

  /** Sanitising changes only sensitive entries and nested objects: a
      non-sensitive entry holding a plain value is kept as it is, and a
      nested object keeps its keys. */
  lemma SanitizedEntries(fs: seq<Field>, i: nat)
    requires i < |fs|
    ensures IsSensitiveKey(fs[i].key) ==> Sanitized(fs)[i].value == Str(Redacted)
    ensures !IsSensitiveKey(fs[i].key) && !fs[i].value.Object? ==> Sanitized(fs)[i] == fs[i]
    ensures !IsSensitiveKey(fs[i].key) && fs[i].value.Object? ==>
      Sanitized(fs)[i].value.Object? && Keys(Sanitized(fs)[i].value.fields) == Keys(fs[i].value.fields)
  {
    if !IsSensitiveKey(fs[i].key) && fs[i].value.Object? {
      SanitizedKeys(fs[i].value.fields);
    }
  }

  /** The sanitised record leaks nothing. */
  lemma {:induction false} SanitizedHasNoLeaks(fs: seq<Field>)
    ensures NoSensitiveLeaks(Sanitized(fs))
    decreases fs
  {
    var r := Sanitized(fs);
    forall i | 0 <= i < |fs| && !IsSensitiveKey(fs[i].key) && fs[i].value.Object?
      ensures NoSensitiveLeaks(r[i].value.fields)
    {
      SanitizedHasNoLeaks(fs[i].value.fields);
    }
  }

  /** A record is left exactly as it is precisely when it leaks nothing. */
  lemma {:induction false} SanitizedFixpoint(fs: seq<Field>)
    ensures Sanitized(fs) == fs <==> NoSensitiveLeaks(fs)
    decreases fs
  {
    forall i | 0 <= i < |fs| && !IsSensitiveKey(fs[i].key) && fs[i].value.Object?
      ensures Sanitized(fs[i].value.fields) == fs[i].value.fields <==> NoSensitiveLeaks(fs[i].value.fields)
    {
      SanitizedFixpoint(fs[i].value.fields);
    }
    if NoSensitiveLeaks(fs) {
      forall i | 0 <= i < |fs|
        ensures Sanitized(fs)[i] == fs[i]
      {
      }
    } else {
      var i :| 0 <= i < |fs| && !(if IsSensitiveKey(fs[i].key) then fs[i].value == Str(Redacted)
                                   else fs[i].value.Object? ==> NoSensitiveLeaks(fs[i].value.fields));
      assert Sanitized(fs)[i] != fs[i];
    }
  }

  /** Sanitising twice is sanitising once. */
  lemma SanitizedIdempotent(fs: seq<Field>)
    ensures Sanitized(Sanitized(fs)) == Sanitized(fs)
  {
    SanitizedHasNoLeaks(fs);
    SanitizedFixpoint(Sanitized(fs));
  }

  /** `sanitizeObject`: copy the entries, then walk over the keys, overwriting
      a sensitive entry with "[REDACTED]" and a nested object with its own
      sanitised copy. The argument is a value, so it is never changed. */
  method SanitizeObject(obj: seq<Field>) returns (result: seq<Field>)
    ensures result == Sanitized(obj)
    decreases obj
  {
    result := obj;
    var i := 0;
    while i < |result|
      invariant |result| == |obj| && 0 <= i <= |obj|
      invariant forall j :: 0 <= j < i ==> result[j] == SanitizedField(obj[j])
      invariant forall j :: i <= j < |obj| ==> result[j] == obj[j]
    {
      var key := result[i].key;
      if IsSensitiveKey(key) {
        result := result[i := Entry(key, Str(Redacted))];
      } else if result[i].value.Object? {
        var inner := SanitizeObject(obj[i].value.fields);
        result := result[i := Entry(key, Object(inner))];
      }
      i := i + 1;
    }
  }

  /** `sanitizeLogData`: sanitise a copy of the record. */
  method SanitizeLogData(data: seq<Field>) returns (result: seq<Field>)
    ensures result == Sanitized(data)
    ensures NoSensitiveLeaks(result) && Keys(result) == Keys(data)
  {
    var copy := data;
    result := SanitizeObject(copy);
    SanitizedHasNoLeaks(data);
  }
}

/** Masking of personal data (security pii.py) and the audit service's use of it on write and on read. */
module Redaction {
  import opened Base
  import opened Json

  type Fields = map<string, Json>

  const MASK := "***REDACTED***"

  const PII_FIELDS: set<string> := {
    "ssn", "social_security_number", "government_id", "tax_id", "phone", "email", "address", "full_name",
    "date_of_birth", "credit_card_number" }

  function Lower(c: char): char {
    if 'A' <= c <= 'Z' then (c as int + 32) as char else c
  }

  function Lowered(s: string): string {
    seq(|s|, i requires 0 <= i < |s| => Lower(s[i]))
  }

  function StripLeft(s: string): string {
    if s != "" && IsSpace(s[0]) then StripLeft(s[1..]) else s
  }

  function StripRight(s: string): string {
    if s != "" && IsSpace(s[|s| - 1]) then StripRight(s[..|s| - 1]) else s
  }

  predicate Sensitive(key: string) {
    StripRight(StripLeft(Lowered(key))) in PII_FIELDS
  }

  // ---- which names are sensitive ----

  /** The field's letters, in either case. */
  predicate Spells(word: string, f: string) {
    |word| == |f| && forall i | 0 <= i < |f| :: word[i] == f[i] || ('A' <= word[i] <= 'Z' && word[i] as int + 32 == f[i] as int)
  }

  predicate Spaces(s: string, from: nat, to: nat)
    requires from <= to <= |s|
  {
    forall i | from <= i < to :: IsSpace(s[i])
  }

  /** The key is white space, one of the ten fields in either case, white space. */
  ghost predicate NamesField(key: string, i: nat, j: nat) {
    && i <= j <= |key| && Spaces(key, 0, i) && Spaces(key, j, |key|)
    && exists f | f in FieldNames() :: Spells(key[i..j], f)
  }

  function FieldNames(): seq<string> {
    ["ssn", "social_security_number", "government_id", "tax_id", "phone", "email", "address", "full_name",
     "date_of_birth", "credit_card_number"]
  }

  /** Small letters and underscores only, and some. */
  predicate Plain(f: string) {
    f != "" && forall i | 0 <= i < |f| :: 'a' <= f[i] <= 'z' || f[i] == '_'
  }

  lemma FieldsArePlain(f: string)
    ensures f in FieldNames() <==> f in PII_FIELDS
    ensures f in PII_FIELDS ==> Plain(f)
  {
    assert Plain("ssn") && Plain("social_security_number") && Plain("government_id") && Plain("tax_id") && Plain("phone");
    assert Plain("email") && Plain("address") && Plain("full_name") && Plain("date_of_birth") && Plain("credit_card_number");
  }

  lemma SpellsIsLowered(word: string, f: string)
    requires Plain(f)
    ensures Spells(word, f) <==> Lowered(word) == f
  {
    if Lowered(word) == f {
      forall i | 0 <= i < |f| ensures word[i] == f[i] || ('A' <= word[i] <= 'Z' && word[i] as int + 32 == f[i] as int) {
        assert Lowered(word)[i] == f[i];
      }
    }
    if Spells(word, f) {
      forall i | 0 <= i < |f| ensures Lowered(word)[i] == f[i] {
        assert 'a' <= f[i] <= 'z' || f[i] == '_';
      }
    }
  }

  /** Stripping takes white space off both ends until something else is met. */
  lemma {:induction false} StripsLeft(s: string) returns (i: nat)
    ensures i <= |s| && Spaces(s, 0, i) && StripLeft(s) == s[i..] && (i < |s| ==> !IsSpace(s[i]))
  {
    if s != "" && IsSpace(s[0]) {
      var rest := s[1..];
      var k := StripsLeft(rest);
      i := k + 1;
      assert forall m | 1 <= m < |s| :: s[m] == rest[m - 1];
    } else {
      i := 0;
    }
  }

  lemma {:induction false} StripsRight(s: string) returns (j: nat)
    ensures j <= |s| && Spaces(s, j, |s|) && StripRight(s) == s[..j] && (j > 0 ==> !IsSpace(s[j - 1]))
  {
    if s != "" && IsSpace(s[|s| - 1]) {
      var init := s[..|s| - 1];
      j := StripsRight(init);
      assert forall m | 0 <= m < |init| :: s[m] == init[m];
    } else {
      j := |s|;
    }
  }

  lemma LoweredSpaces(key: string)
    ensures forall m | 0 <= m < |key| :: IsSpace(Lowered(key)[m]) <==> IsSpace(key[m])
  {
  }

  /** The stripped, lowered key as a part of the key. */
  lemma StrippedPart(key: string) returns (i: nat, j: nat)
    ensures i <= j <= |key| && Spaces(key, 0, i) && Spaces(key, j, |key|)
    ensures StripRight(StripLeft(Lowered(key))) == Lowered(key[i..j])
    ensures i < j ==> !IsSpace(key[i]) && !IsSpace(key[j - 1])
  {
    var low := Lowered(key);
    i := StripsLeft(low);
    var rest := low[i..];
    var k := StripsRight(rest);
    j := i + k;
    LoweredSpaces(key);
    assert forall m | i <= m < |key| :: low[m] == rest[m - i];
    assert rest[..k] == Lowered(key[i..j]);
  }

  /** Two ways to cut white space off a key that leave a word without white space at its ends are one. */
  lemma OneCut(key: string, i: nat, j: nat, a: nat, b: nat)
    requires i <= j <= |key| && a < b <= |key|
    requires Spaces(key, 0, i) && Spaces(key, j, |key|) && Spaces(key, 0, a) && Spaces(key, b, |key|)
    requires (i < j ==> !IsSpace(key[i]) && !IsSpace(key[j - 1])) && !IsSpace(key[a]) && !IsSpace(key[b - 1])
    ensures i == a && j == b
  {
  }

  lemma WordHasNoSpace(word: string, f: string)
    requires Plain(f) && Spells(word, f)
    ensures word != "" && !IsSpace(word[0]) && !IsSpace(word[|word| - 1])
  {
    assert 'a' <= f[0] <= 'z' || f[0] == '_';
    assert 'a' <= f[|f| - 1] <= 'z' || f[|f| - 1] == '_';
  }

  lemma SensitiveNames(key: string) returns (i: nat, j: nat)
    requires Sensitive(key)
    ensures NamesField(key, i, j)
  {
    i, j := StrippedPart(key);
    var f := Lowered(key[i..j]);
    FieldsArePlain(f);
    SpellsIsLowered(key[i..j], f);
  }

  lemma NamedIsSensitive(key: string, a: nat, b: nat)
    requires NamesField(key, a, b)
    ensures Sensitive(key)
  {
    var f :| f in FieldNames() && Spells(key[a..b], f);
    FieldsArePlain(f);
    WordHasNoSpace(key[a..b], f);
    var i, j := StrippedPart(key);
    OneCut(key, i, j, a, b);
    SpellsIsLowered(key[a..b], f);
  }

  /** A key is sensitive exactly when it is one of the ten field names, whatever the case of its letters and the
      white space around it. */
  lemma SensitiveIff(key: string)
    ensures Sensitive(key) <==> exists i: nat, j: nat :: NamesField(key, i, j)
  {
    if Sensitive(key) {
      var i, j := SensitiveNames(key);
    }
    if a: nat, b: nat :| NamesField(key, a, b) {
      NamedIsSensitive(key, a, b);
    }
  }

  /** The redacted value of a member that is not sensitive: mappings are redacted, and so are the mappings
      that are direct items of a list. */
  function RedactedValue(j: Json, mask: string): Json
    decreases j, 1
  {
    match j
    case Obj(fields) => Obj(Redacted(fields, mask))
    case Arr(items) => Arr(RedactedItems(items, mask))
    case _ => j
  }

  function Redacted(payload: Fields, mask: string): (r: Fields)
    ensures r.Keys == payload.Keys
    decreases Obj(payload), 0
  {
    map key | key in payload :: if Sensitive(key) then Str(mask) else RedactedValue(payload[key], mask)
  }

  function RedactedItem(j: Json, mask: string): Json
    decreases j, 1
  {
    if j.Obj? then Obj(Redacted(j.fields, mask)) else j
  }

  function RedactedItems(items: seq<Json>, mask: string): (r: seq<Json>)
    ensures |r| == |items|
    decreases Arr(items), 0
  {
    seq(|items|, i requires 0 <= i < |items| => RedactedItem(items[i], mask))
  }

  /** redact_pii: the loop over the members and, for a list, over its items. */
  method RedactPii(payload: Fields, mask: string) returns (redacted: Fields)
    ensures redacted == Redacted(payload, mask)
    decreases Obj(payload)
  {
    redacted := map[];
    var rest := payload.Keys;
    while rest != {}
      invariant rest <= payload.Keys && redacted.Keys == payload.Keys - rest
      invariant forall key | key in redacted :: redacted[key] == Redacted(payload, mask)[key]
      decreases |rest|
    {
      var key :| key in rest;
      var value := payload[key];
      var entry := value;
      if Sensitive(key) {
        entry := Str(mask);
      } else if value.Obj? {
        var nested := RedactPii(value.fields, mask);
        entry := Obj(nested);
      } else if value.Arr? {
        var list: seq<Json> := [];
        for i := 0 to |value.items|
          invariant |list| == i && forall k | 0 <= k < i :: list[k] == RedactedItem(value.items[k], mask)
        {
          var item := value.items[i];
          if item.Obj? {
            var nested := RedactPii(item.fields, mask);
            item := Obj(nested);
          }
          list := list + [item];
        }
        assert list == RedactedItems(value.items, mask);
        entry := Arr(list);
      }
      redacted := redacted[key := entry];
      rest := rest - {key};
    }
  }

  // ---- idempotence ----

  lemma {:induction false} RedactedValueTwice(j: Json, mask: string)
    ensures RedactedValue(RedactedValue(j, mask), mask) == RedactedValue(j, mask)
    decreases j, 1
  {
    match j
    case Obj(fields) => RedactedTwice(fields, mask);
    case Arr(items) =>
      forall i | 0 <= i < |items| ensures RedactedItem(RedactedItem(items[i], mask), mask) == RedactedItem(items[i], mask) {
        if items[i].Obj? {
          RedactedTwice(items[i].fields, mask);
        }
      }
      assert RedactedItems(RedactedItems(items, mask), mask) == RedactedItems(items, mask);
    case _ =>
  }

  /** Redacting what is redacted changes nothing. */
  lemma {:induction false} RedactedTwice(payload: Fields, mask: string)
    ensures Redacted(Redacted(payload, mask), mask) == Redacted(payload, mask)
    decreases Obj(payload), 0
  {
    var once := Redacted(payload, mask);
    forall key | key in payload ensures Redacted(once, mask)[key] == once[key] {
      if !Sensitive(key) {
        RedactedValueTwice(payload[key], mask);
      }
    }
  }

  // ---- what is masked ----

  /** Every sensitive key, at any depth, holds the mask. */
  predicate Clean(j: Json, mask: string) {
    match j
    case Obj(fields) =>
      forall key | key in fields :: if Sensitive(key) then fields[key] == Str(mask) else Clean(fields[key], mask)
    case Arr(items) => forall i | 0 <= i < |items| :: Clean(items[i], mask)
    case _ => true
  }

  /** Redaction does not look into a list that is itself an item of a list: such lists must be clean already. */
  predicate InnerListsClean(j: Json, mask: string) {
    match j
    case Obj(fields) => forall key | key in fields && !Sensitive(key) :: InnerListsClean(fields[key], mask)
    case Arr(items) =>
      forall i | 0 <= i < |items| :: if items[i].Arr? then Clean(items[i], mask) else InnerListsClean(items[i], mask)
    case _ => true
  }

  lemma {:induction false} ValueMaskedIff(j: Json, mask: string)
    ensures Clean(RedactedValue(j, mask), mask) <==> InnerListsClean(j, mask)
    decreases j, 1
  {
    match j
    case Obj(fields) => MaskedIff(fields, mask);
    case Arr(items) =>
      forall i | 0 <= i < |items|
        ensures Clean(RedactedItem(items[i], mask), mask)
           <==> if items[i].Arr? then Clean(items[i], mask) else InnerListsClean(items[i], mask)
      {
        if items[i].Obj? {
          MaskedIff(items[i].fields, mask);
        }
      }
      ItemsMaskedIff(items, mask);
    case _ =>
  }

  lemma ItemsMaskedIff(items: seq<Json>, mask: string)
    requires forall i | 0 <= i < |items| ::
      Clean(RedactedItem(items[i], mask), mask) <==> (if items[i].Arr? then Clean(items[i], mask) else InnerListsClean(items[i], mask))
    ensures Clean(Arr(RedactedItems(items, mask)), mask) <==> InnerListsClean(Arr(items), mask)
  {
    var r := RedactedItems(items, mask);
    forall i | 0 <= i < |items| ensures r[i] == RedactedItem(items[i], mask) {
    }
    if Clean(Arr(r), mask) {
      forall i | 0 <= i < |items| ensures Clean(RedactedItem(items[i], mask), mask) {
        assert Clean(r[i], mask);
      }
    }
  }

  /** After redaction every sensitive key at any depth holds the mask, exactly when the lists nested directly
      in lists held no unmasked one before. */
  lemma {:induction false} MaskedIff(payload: Fields, mask: string)
    ensures Clean(Obj(Redacted(payload, mask)), mask) <==> InnerListsClean(Obj(payload), mask)
    decreases Obj(payload), 0
  {
    var r := Redacted(payload, mask);
    forall key | key in payload && !Sensitive(key)
      ensures Clean(r[key], mask) <==> InnerListsClean(payload[key], mask)
    {
      ValueMaskedIff(payload[key], mask);
    }
    assert Clean(Obj(r), mask) <==> forall key | key in r :: if Sensitive(key) then r[key] == Str(mask) else Clean(r[key], mask);
  }

  /** A list in a list can keep a sensitive value. */
  lemma InnerListLeaks()
    ensures !Clean(Obj(Redacted(map["rows" := Arr([Arr([Obj(map["ssn" := Str("123")])])])], MASK)), MASK)
  {
    var person := Obj(map["ssn" := Str("123")]);
    var payload := map["rows" := Arr([Arr([person])])];
    SsnIsSensitive();
    assert !Clean(person, MASK) by {
      assert "ssn" in person.fields && "123" != MASK;
      assert |"123"| != |MASK|;
    }
    assert !Clean(Arr([person]), MASK) by {
      assert [person][0] == person;
    }
    var outer := Arr([Arr([person])]);
    assert !InnerListsClean(outer, MASK) by {
      assert outer.items[0] == Arr([person]);
    }
    assert "rows" in payload && !Sensitive("rows") by {
      RowsIsNot();
    }
    MaskedIff(payload, MASK);
  }

  lemma SsnIsSensitive()
    ensures Sensitive("ssn")
  {
    assert Lowered("ssn") == "ssn";
  }

  lemma RowsIsNot()
    ensures !Sensitive("rows")
  {
    assert Lowered("rows") == "rows";
    assert |"rows"| == 4 && "rows"[0] == 'r';
  }

  // ---- what is kept ----

  datatype Step = Member(key: string) | Item(i: nat)

  function At(j: Json, path: seq<Step>): Option<Json>
    decreases |path|
  {
    if path == [] then Some(j)
    else
      match path[0]
      case Member(key) => if j.Obj? && key in j.fields then At(j.fields[key], path[1..]) else None
      case Item(i) => if j.Arr? && i < |j.items| then At(j.items[i], path[1..]) else None
  }

  predicate Leaf(j: Json) {
    !j.Obj? && !j.Arr?
  }

  lemma ItemAt(items: seq<Json>, i: nat, mask: string)
    requires i < |items|
    ensures RedactedValue(Arr(items), mask) == Arr(RedactedItems(items, mask))
    ensures RedactedItems(items, mask)[i] == RedactedItem(items[i], mask)
  {
  }

  /** A leaf that is not under a sensitive key is the same after redaction, at the same place. */
  lemma {:induction false} LeafIsKept(j: Json, path: seq<Step>, leaf: Json, mask: string)
    requires At(j, path) == Some(leaf) && Leaf(leaf)
    requires forall s | s in path && s.Member? :: !Sensitive(s.key)
    ensures At(RedactedValue(j, mask), path) == Some(leaf)
    decreases |path|
  {
    if path != [] {
      match path[0]
      case Member(key) => LeafIsKept(j.fields[key], path[1..], leaf, mask);
      case Item(i) =>
        ItemAt(j.items, i, mask);
        if j.items[i].Obj? {
          LeafIsKept(j.items[i], path[1..], leaf, mask);
        }
    }
  }
}

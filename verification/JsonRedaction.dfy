/** `redact_mapping` (infrastructure/pii_redaction.py): the recursive walk over a payload. */
module JsonRedaction {
  import opened CharTable
  import PiiRedaction

  /** A logged payload. Dictionaries keep their insertion order. */
  datatype Json =
    | Null
    | Bool(b: bool)
    | Number(n: real)
    | Str(s: string)
    | List(items: seq<Json>)
    | Dict(fields: seq<Field>)

  datatype Field = Field(key: string, value: Json)

  const SENSITIVE_KEYS: set<string> := {
    "applicant_full_name", "ssn", "social_security_number", "email", "phone", "phone_number",
    "address", "employer_name", "reviewer_id"}

  /** The table of characters and the key set `SENSITIVE_KEYS | extra` in force. */
  datatype Rules = Rules(u: Table, extra: set<string>) {
    predicate Sensitive(key: string) {
      u.Lower(key) in SENSITIVE_KEYS + extra
    }
  }

  const MASK := Str(PiiRedaction.REDACTED)

  // ----- The walk, as a function -----

  function Fields(r: Rules, fs: seq<Field>): (out: seq<Field>)
    ensures |out| == |fs|
    decreases fs
  {
    if fs == [] then [] else [Field(fs[0].key, FieldValue(r, fs[0]))] + Fields(r, fs[1..])
  }

  function FieldValue(r: Rules, f: Field): Json
    decreases f
  {
    if r.Sensitive(f.key) then MASK
    else
      match f.value
      case Dict(fs) => Dict(Fields(r, fs))
      case List(items) => List(Items(r, items))
      case Str(s) => Str(PiiRedaction.Redacted(r.u, s))
      case v => v
  }

  function Items(r: Rules, items: seq<Json>): (out: seq<Json>)
    ensures |out| == |items|
    decreases items
  {
    if items == [] then [] else [Item(r, items[0])] + Items(r, items[1..])
  }

  /** A list inside a list is passed through as it is. */
  function Item(r: Rules, v: Json): Json
    decreases v
  {
    match v
    case Dict(fs) => Dict(Fields(r, fs))
    case Str(s) => Str(PiiRedaction.Redacted(r.u, s))
    case _ => v
  }

  // ----- The walk, as the source's loop -----

  /** `redact_mapping`: fills the output dictionary key by key. */
  method RedactMapping(r: Rules, data: seq<Field>) returns (out: seq<Field>)
    ensures out == Fields(r, data)
    decreases data, 1
  {
    hide Rules.Sensitive, PiiRedaction.Redacted;
    out := [];
    for n := 0 to |data|
      invariant out + Fields(r, data[n..]) == Fields(r, data)
    {
      var f := data[n];
      assert data[n..][1..] == data[n + 1..];
      var value := f.value;
      if r.Sensitive(f.key) {
        value := MASK;
      } else if f.value.Dict? {
        var inner := RedactMapping(r, f.value.fields);
        value := Dict(inner);
      } else if f.value.List? {
        var inner := RedactItems(r, f.value.items);
        value := List(inner);
      } else if f.value.Str? {
        var s := PiiRedaction.RedactText(r.u, f.value.s);
        value := Str(s);
      }
      out := out + [Field(f.key, value)];
    }
  }

  method RedactItems(r: Rules, items: seq<Json>) returns (out: seq<Json>)
    ensures out == Items(r, items)
    decreases items, 0
  {
    hide Rules.Sensitive, PiiRedaction.Redacted;
    out := [];
    for n := 0 to |items|
      invariant out + Items(r, items[n..]) == Items(r, items)
    {
      var v := items[n];
      assert items[n..][1..] == items[n + 1..];
      if v.Dict? {
        var inner := RedactMapping(r, v.fields);
        v := Dict(inner);
      } else if v.Str? {
        var s := PiiRedaction.RedactText(r.u, v.s);
        v := Str(s);
      }
      out := out + [v];
    }
  }

  // ----- What a safe payload is -----

  /** Every sensitive key at any depth is masked, and every string is a fixpoint of redaction. */
  ghost predicate Scrubbed(r: Rules, v: Json)
    decreases v, 1
  {
    match v
    case Str(s) => PiiRedaction.Redacted(r.u, s) == s
    case List(items) => forall k | 0 <= k < |items| :: Scrubbed(r, items[k])
    case Dict(fs) => forall k | 0 <= k < |fs| :: ScrubbedField(r, fs[k])
    case _ => true
  }

  ghost predicate ScrubbedField(r: Rules, f: Field)
    decreases f, 0
  {
    if r.Sensitive(f.key) then f.value == MASK else Scrubbed(r, f.value)
  }

  /** Whatever sits in a list directly inside a list, outside sensitive keys, is already scrubbed. */
  ghost predicate NestedListsAreScrubbed(r: Rules, v: Json)
    decreases v
  {
    match v
    case List(items) =>
      forall k | 0 <= k < |items| ::
        if items[k].List? then Scrubbed(r, items[k]) else NestedListsAreScrubbed(r, items[k])
    case Dict(fs) =>
      forall k | 0 <= k < |fs| :: r.Sensitive(fs[k].key) || NestedListsAreScrubbed(r, fs[k].value)
    case _ => true
  }

  lemma {:induction false} FieldsAt(r: Rules, fs: seq<Field>, k: nat)
    requires k < |fs|
    ensures Fields(r, fs)[k] == Field(fs[k].key, FieldValue(r, fs[k]))
  {
    if k > 0 { FieldsAt(r, fs[1..], k - 1); }
  }

  lemma {:induction false} ItemsAt(r: Rules, items: seq<Json>, k: nat)
    requires k < |items|
    ensures Items(r, items)[k] == Item(r, items[k])
  {
    if k > 0 { ItemsAt(r, items[1..], k - 1); }
  }

  /**
   The exact reach of `redact_mapping`: its output is scrubbed if and only if no unscrubbed
   value was hidden in a list directly inside a list.
   */
  lemma {:induction false} ScrubbedIff(r: Rules, fs: seq<Field>)
    requires r.u.Valid()
    ensures Scrubbed(r, Dict(Fields(r, fs))) <==> NestedListsAreScrubbed(r, Dict(fs))
    decreases fs, 1
  {
    hide Rules.Sensitive, PiiRedaction.Redacted;
    var out := Fields(r, fs);
    forall k | 0 <= k < |fs|
      ensures ScrubbedField(r, out[k]) <==> r.Sensitive(fs[k].key) || NestedListsAreScrubbed(r, fs[k].value)
    {
      FieldsAt(r, fs, k);
      if !r.Sensitive(fs[k].key) { FieldScrubbedIff(r, fs[k]); }
    }
  }

  lemma {:induction false} FieldScrubbedIff(r: Rules, f: Field)
    requires r.u.Valid() && !r.Sensitive(f.key)
    ensures Scrubbed(r, FieldValue(r, f)) <==> NestedListsAreScrubbed(r, f.value)
    decreases f
  {
    hide Rules.Sensitive, PiiRedaction.Redacted;
    match f.value
    case Dict(fs) => ScrubbedIff(r, fs);
    case List(items) => ListScrubbedIff(r, items);
    case Str(s) => PiiRedaction.RedactionIsIdempotent(r.u, s);
    case _ =>
  }

  lemma {:induction false} ListScrubbedIff(r: Rules, items: seq<Json>)
    requires r.u.Valid()
    ensures Scrubbed(r, List(Items(r, items))) <==> NestedListsAreScrubbed(r, List(items))
    decreases items
  {
    hide Rules.Sensitive, PiiRedaction.Redacted;
    var out := Items(r, items);
    forall k | 0 <= k < |items|
      ensures Scrubbed(r, out[k]) <==>
              if items[k].List? then Scrubbed(r, items[k]) else NestedListsAreScrubbed(r, items[k])
    {
      ItemsAt(r, items, k);
      match items[k]
      case Dict(fs) => ScrubbedIff(r, fs);
      case Str(s) => PiiRedaction.RedactionIsIdempotent(r.u, s);
      case _ =>
    }
  }

  /** Scrubbed payloads pass through unchanged. */
  lemma {:induction false} ScrubbedIsFixed(r: Rules, fs: seq<Field>)
    requires Scrubbed(r, Dict(fs))
    ensures Fields(r, fs) == fs
    decreases fs, 1
  {
    hide Rules.Sensitive, PiiRedaction.Redacted;
    forall k | 0 <= k < |fs| ensures Fields(r, fs)[k] == fs[k] {
      FieldsAt(r, fs, k);
      assert ScrubbedField(r, fs[k]);
      ScrubbedFieldIsFixed(r, fs[k]);
    }
  }

  lemma {:induction false} ScrubbedFieldIsFixed(r: Rules, f: Field)
    requires ScrubbedField(r, f)
    ensures FieldValue(r, f) == f.value
    decreases f, 1
  {
    hide Rules.Sensitive, PiiRedaction.Redacted;
    if !r.Sensitive(f.key) {
      match f.value
      case Dict(inner) => ScrubbedIsFixed(r, inner);
      case List(items) => ScrubbedListIsFixed(r, items);
      case _ =>
    }
  }

  lemma {:induction false} ScrubbedListIsFixed(r: Rules, items: seq<Json>)
    requires Scrubbed(r, List(items))
    ensures Items(r, items) == items
    decreases items, 0
  {
    hide Rules.Sensitive, PiiRedaction.Redacted;
    forall k | 0 <= k < |items| ensures Items(r, items)[k] == items[k] {
      ItemsAt(r, items, k);
      assert Scrubbed(r, items[k]);
      match items[k]
      case Dict(inner) => ScrubbedIsFixed(r, inner);
      case _ =>
    }
  }

  /** Redacting a redacted mapping changes nothing, for every mapping. */
  lemma {:induction false} MappingIsIdempotent(r: Rules, fs: seq<Field>)
    requires r.u.Valid()
    ensures Fields(r, Fields(r, fs)) == Fields(r, fs)
    decreases fs, 1
  {
    hide Rules.Sensitive, PiiRedaction.Redacted;
    var out := Fields(r, fs);
    forall k | 0 <= k < |fs| ensures Fields(r, out)[k] == out[k] {
      FieldsAt(r, fs, k);
      FieldsAt(r, out, k);
      if !r.Sensitive(fs[k].key) { FieldValueIsIdempotent(r, fs[k]); }
    }
  }

  lemma {:induction false} FieldValueIsIdempotent(r: Rules, f: Field)
    requires r.u.Valid() && !r.Sensitive(f.key)
    ensures FieldValue(r, Field(f.key, FieldValue(r, f))) == FieldValue(r, f)
    decreases f
  {
    hide Rules.Sensitive, PiiRedaction.Redacted;
    match f.value
    case Dict(inner) => MappingIsIdempotent(r, inner);
    case List(items) => ItemsAreIdempotent(r, items);
    case Str(s) => PiiRedaction.RedactionIsIdempotent(r.u, s);
    case _ =>
  }

  lemma {:induction false} ItemsAreIdempotent(r: Rules, items: seq<Json>)
    requires r.u.Valid()
    ensures Items(r, Items(r, items)) == Items(r, items)
    decreases items
  {
    hide Rules.Sensitive, PiiRedaction.Redacted;
    var out := Items(r, items);
    forall k | 0 <= k < |items| ensures Items(r, out)[k] == out[k] {
      ItemsAt(r, items, k);
      ItemsAt(r, out, k);
      match items[k]
      case Dict(inner) => MappingIsIdempotent(r, inner);
      case Str(s) => PiiRedaction.RedactionIsIdempotent(r.u, s);
      case _ =>
    }
  }

  // ----- What redaction keeps -----

  /** `v` and `w` have the same shape: only strings and values under sensitive keys may differ. */
  ghost predicate SameShape(r: Rules, v: Json, w: Json)
    decreases v
  {
    match v
    case Str(_) => w.Str?
    case List(items) => w.List? && |w.items| == |items|
                        && forall k | 0 <= k < |items| :: SameShape(r, items[k], w.items[k])
    case Dict(fs) => w.Dict? && |w.fields| == |fs|
                     && forall k | 0 <= k < |fs| ::
                          fs[k].key == w.fields[k].key
                          && (r.Sensitive(fs[k].key) || SameShape(r, fs[k].value, w.fields[k].value))
    case _ => v == w
  }

  lemma {:induction false} ShapeIsReflexive(r: Rules, v: Json)
    ensures SameShape(r, v, v)
    decreases v
  {
    match v
    case List(items) => forall k | 0 <= k < |items| { ShapeIsReflexive(r, items[k]); }
    case Dict(fs) => forall k | 0 <= k < |fs| { ShapeIsReflexive(r, fs[k].value); }
    case _ =>
  }

  /** Keys, their order, list lengths and every number, boolean and null outside sensitive keys stay. */
  lemma {:induction false} MappingKeepsShape(r: Rules, fs: seq<Field>)
    ensures SameShape(r, Dict(fs), Dict(Fields(r, fs)))
    decreases fs, 1
  {
    hide Rules.Sensitive, PiiRedaction.Redacted;
    var out := Fields(r, fs);
    forall k | 0 <= k < |fs|
      ensures fs[k].key == out[k].key
      ensures r.Sensitive(fs[k].key) || SameShape(r, fs[k].value, out[k].value)
    {
      FieldsAt(r, fs, k);
      if !r.Sensitive(fs[k].key) {
        match fs[k].value
        case Dict(inner) => MappingKeepsShape(r, inner);
        case List(items) => ItemsKeepShape(r, items);
        case _ =>
      }
    }
  }

  lemma {:induction false} ItemsKeepShape(r: Rules, items: seq<Json>)
    ensures SameShape(r, List(items), List(Items(r, items)))
    decreases items, 0
  {
    hide Rules.Sensitive, PiiRedaction.Redacted;
    forall k | 0 <= k < |items| ensures SameShape(r, items[k], Items(r, items)[k]) {
      ItemsAt(r, items, k);
      match items[k]
      case Dict(inner) => MappingKeepsShape(r, inner);
      case _ => ShapeIsReflexive(r, items[k]);
    }
  }

  // ----- The gap -----

  /** A list directly inside a list is not walked: an SSN in one reaches the log in the clear. */
  lemma {:induction false} NestedListLeaks(r: Rules, s: string)
    requires r.u.Valid() && !r.Sensitive("notes") && PiiRedaction.Redacted(r.u, s) != s
    ensures var leak := List([List([Str(s)])]);
            Fields(r, [Field("notes", leak)]) == [Field("notes", leak)]
            && !Scrubbed(r, Dict(Fields(r, [Field("notes", leak)])))
  {
    hide Rules.Sensitive, PiiRedaction.Redacted;
    var inner := List([Str(s)]);
    var fs := [Field("notes", List([inner]))];
    assert Items(r, [inner]) == [inner];
    assert Fields(r, fs) == fs;
    assert !Scrubbed(r, inner.items[0]);
    assert !NestedListsAreScrubbed(r, List([inner])) by {
      assert !Scrubbed(r, List([inner]).items[0]);
    }
    assert !NestedListsAreScrubbed(r, Dict(fs)) by {
      assert !r.Sensitive(fs[0].key) && !NestedListsAreScrubbed(r, fs[0].value);
    }
    ScrubbedIff(r, fs);
  }

  lemma {:induction false} LowerStays(u: Table, s: string)
    requires u.Valid() && forall k | 0 <= k < |s| :: 'a' <= s[k] <= 'z'
    ensures u.Lower(s) == s
    decreases |s|
  {
    if s != "" {
      assert IsAscii(s[0]) && AsciiLower(s[0]) == s[0];
      LowerStays(u, s[1..]);
    }
  }

  lemma {:induction false} NotesAreNotSensitive(u: Table)
    requires u.Valid()
    ensures !Rules(u, {}).Sensitive("notes")
  {
    hide Table.Lower;
    LowerStays(u, "notes");
  }

  /** An actual payload whose SSN passes in the clear, though on its own the SSN would be redacted. */
  lemma {:induction false} NestedSsnLeaks(u: Table)
    requires u.Valid()
    ensures var leak := [Field("notes", List([List([Str(PiiRedaction.SSN)])]))];
            && Fields(Rules(u, {}), leak) == leak
            && !Scrubbed(Rules(u, {}), Dict(leak))
            && Fields(Rules(u, {}), [Field("notes", Str(PiiRedaction.SSN))]) != [Field("notes", Str(PiiRedaction.SSN))]
  {
    hide Rules.Sensitive, PiiRedaction.Redacted;
    NotesAreNotSensitive(u);
    PiiRedaction.SsnShape();
    assert PiiRedaction.SSN[0..11] == PiiRedaction.SSN;
    PiiRedaction.SsnIsRedacted(u, PiiRedaction.SSN, 0);
    NestedListLeaks(Rules(u, {}), PiiRedaction.SSN);
    FieldsAt(Rules(u, {}), [Field("notes", Str(PiiRedaction.SSN))], 0);
  }

  // ----- Which keys are masked -----

  /** An ASCII key, letter by letter, in either case. */
  predicate Spells(key: string, word: string) {
    |key| == |word| && forall k | 0 <= k < |key| :: IsAscii(key[k]) && AsciiLower(key[k]) == word[k]
  }

  /** The key names something about a person. */
  predicate NamesPerson(key: string) {
    || Spells(key, "applicant_full_name") || Spells(key, "employer_name") || Spells(key, "reviewer_id")
    || Spells(key, "ssn") || Spells(key, "social_security_number")
    || Spells(key, "email") || Spells(key, "phone") || Spells(key, "phone_number") || Spells(key, "address")
  }

  lemma {:induction false} LowerSpells(u: Table, key: string, word: string)
    requires u.Valid() && forall c | c in key :: IsAscii(c)
    ensures u.Lower(key) == word <==> Spells(key, word)
    decreases |key|
  {
    if key != "" {
      var rest := key[1..];
      assert IsAscii(key[0]) && u.lower[key[0]] == [AsciiLower(key[0])];
      assert u.Lower(key) == [AsciiLower(key[0])] + u.Lower(rest);
      if word != "" {
        LowerSpells(u, rest, word[1..]);
        assert word == [word[0]] + word[1..];
        if Spells(rest, word[1..]) && AsciiLower(key[0]) == word[0] {
          forall k | 0 <= k < |key| ensures IsAscii(key[k]) && AsciiLower(key[k]) == word[k] {
            if k > 0 { assert rest[k - 1] == key[k] && word[1..][k - 1] == word[k]; }
          }
        }
        if Spells(key, word) {
          forall k | 0 <= k < |rest| ensures IsAscii(rest[k]) && AsciiLower(rest[k]) == word[1..][k] {
            assert rest[k] == key[k + 1];
          }
        }
        assert u.Lower(key) == word ==> u.Lower(rest) == word[1..] by {
          if u.Lower(key) == word { assert u.Lower(key)[1..] == u.Lower(rest); }
        }
      }
    }
  }

  lemma {:induction false} SensitiveIff(u: Table, key: string)
    requires u.Valid() && forall c | c in key :: IsAscii(c)
    ensures Rules(u, {}).Sensitive(key) <==> NamesPerson(key)
  {
    hide Spells, Table.Valid;
    var name := u.Lower(key);
    LowerSpells(u, key, "applicant_full_name");
    LowerSpells(u, key, "employer_name");
    LowerSpells(u, key, "reviewer_id");
    LowerSpells(u, key, "ssn");
    LowerSpells(u, key, "social_security_number");
    LowerSpells(u, key, "email");
    LowerSpells(u, key, "phone");
    LowerSpells(u, key, "phone_number");
    LowerSpells(u, key, "address");
    assert SENSITIVE_KEYS + {} == SENSITIVE_KEYS;
    hide Table.Lower;
  }

  /** A number in a mapping is masked if its key names something about a person, and let through if not. */
  lemma {:induction false} MaskedIffNamesPerson(u: Table, fs: seq<Field>, k: nat)
    requires u.Valid() && k < |fs| && fs[k].value.Number? && forall c | c in fs[k].key :: IsAscii(c)
    ensures Fields(Rules(u, {}), fs)[k]
            == Field(fs[k].key, if NamesPerson(fs[k].key) then Str("***REDACTED***") else fs[k].value)
    decreases |fs|
  {
    hide NamesPerson, Rules.Sensitive, Table.Valid;
    if k > 0 {
      MaskedIffNamesPerson(u, fs[1..], k - 1);
    } else {
      SensitiveIff(u, fs[0].key);
    }
  }
}

/** Receipt metadata: its canonical text determines every field. */
module ReceiptMetadata {
  import opened Outcomes
  import opened CanonicalJson
  import opened CanonicalLaws
  import opened CanonicalReading
  import opened CanonicalText

  /** Any JavaScript number. */
  type Number = v: Json | v.Whole? || v.Fraction? || v.NotFinite? witness Whole(0)

  datatype Metadata = Metadata(
    schema: Text, proofId: Text, providerCode: Text, proofMode: Text, attesterType: Text, usageBasis: Text, model: Text,
    providerRequestId: Option<Text>, issuedAt: Option<Number>, expiresAt: Option<Number>)

  /** "schema", "proof_id", "provider_code", "proof_mode", "attester_type", "usage_basis", "model",
      "provider_request_id", "issued_at", "expires_at" */
  const KEYS: seq<Text> := [
    [115, 99, 104, 101, 109, 97],
    [112, 114, 111, 111, 102, 95, 105, 100],
    [112, 114, 111, 118, 105, 100, 101, 114, 95, 99, 111, 100, 101],
    [112, 114, 111, 111, 102, 95, 109, 111, 100, 101],
    [97, 116, 116, 101, 115, 116, 101, 114, 95, 116, 121, 112, 101],
    [117, 115, 97, 103, 101, 95, 98, 97, 115, 105, 115],
    [109, 111, 100, 101, 108],
    [112, 114, 111, 118, 105, 100, 101, 114, 95, 114, 101, 113, 117, 101, 115, 116, 95, 105, 100],
    [105, 115, 115, 117, 101, 100, 95, 97, 116],
    [101, 120, 112, 105, 114, 101, 115, 95, 97, 116]]

  function TextOrUndefined(t: Option<Text>): Json {
    if t.Some? then Str(t.value) else Undefined
  }

  function NumberOrUndefined(n: Option<Number>): Json {
    if n.Some? then n.value else Undefined
  }

  /** The times, if given, are numbers as an engine prints them. */
  ghost predicate IsMetadata(m: Metadata) {
    (m.issuedAt.Some? ==> WellFormed(m.issuedAt.value)) && (m.expiresAt.Some? ==> WellFormed(m.expiresAt.value))
  }

  predicate HasFiniteTimes(m: Metadata) {
    m.issuedAt != Some(NotFinite) && m.expiresAt != Some(NotFinite)
  }

  function Values(m: Metadata): (vs: seq<Json>)
    ensures |vs| == |KEYS|
  {
    [Str(m.schema), Str(m.proofId), Str(m.providerCode), Str(m.proofMode), Str(m.attesterType), Str(m.usageBasis),
     Str(m.model), TextOrUndefined(m.providerRequestId), NumberOrUndefined(m.issuedAt), NumberOrUndefined(m.expiresAt)]
  }

  function Entries(m: Metadata): (es: seq<Entry>)
    ensures |es| == |KEYS|
    ensures forall i :: 0 <= i < |KEYS| ==> es[i] == Entry(KEYS[i], Values(m)[i])
  {
    seq(|KEYS|, i requires 0 <= i < |KEYS| => Entry(KEYS[i], Values(m)[i]))
  }

  function StableMetadataJson(m: Metadata): Option<Text> {
    Canonicalize(Obj(Entries(m)))
  }

  lemma KeysAreDistinct()
    ensures forall i, j :: 0 <= i < j < |KEYS| ==> KEYS[i] != KEYS[j]
  {
    assert KEYS[2][0] != KEYS[4][0] && KEYS[3][0] != KEYS[9][0];
    forall i, j | 0 <= i < j < |KEYS| ensures KEYS[i] != KEYS[j] {
      assert |KEYS[i]| != |KEYS[j]| || (i == 2 && j == 4) || (i == 3 && j == 9);
    }
  }

  lemma MetadataIsPrintable(m: Metadata)
    requires IsMetadata(m)
    ensures WellFormed(Obj(Entries(m)))
    ensures Printable(Obj(Entries(m))) <==> HasFiniteTimes(m)
  {
    KeysAreDistinct();
    var es := Entries(m);
    forall i | 0 <= i < |es| ensures WellFormed(es[i].value) {
      assert es[i].value == Values(m)[i];
    }
    forall i | 0 <= i < |es| && HasFiniteTimes(m) ensures es[i].value == Undefined || Printable(es[i].value) {
      assert es[i].value == Values(m)[i];
    }
    assert es[8].value == NumberOrUndefined(m.issuedAt) && es[9].value == NumberOrUndefined(m.expiresAt);
  }

  lemma OnlyEntry(m: Metadata, i: nat)
    requires i < |KEYS|
    ensures forall e :: e in Entries(m) && e.key == KEYS[i] <==> e == Entry(KEYS[i], Values(m)[i])
  {
    KeysAreDistinct();
    assert Entries(m)[i] in Entries(m);
    forall e | e in Entries(m) && e.key == KEYS[i] ensures e == Entry(KEYS[i], Values(m)[i]) {
      var j :| 0 <= j < |KEYS| && Entries(m)[j] == e;
      assert KEYS[j] == KEYS[i];
    }
  }

  /** Equal fields have equal values, key by key. */
  lemma SameFieldSameValue(m: Metadata, m': Metadata, i: nat)
    requires i < |KEYS| && WellFormed(Obj(Entries(m))) && Printable(Obj(Entries(m)))
    requires WellFormed(Obj(Entries(m'))) && Printable(Obj(Entries(m')))
    requires FieldsOf(Entries(m)) == FieldsOf(Entries(m'))
    ensures (Values(m)[i] == Undefined) == (Values(m')[i] == Undefined)
    ensures Values(m)[i] != Undefined ==>
              Printable(Values(m)[i]) && Printable(Values(m')[i]) && MeaningOf(Values(m)[i]) == MeaningOf(Values(m')[i])
  {
    FieldsByKey(Entries(m), KEYS[i]);
    FieldsByKey(Entries(m'), KEYS[i]);
    OnlyEntry(m, i);
    OnlyEntry(m', i);
  }

  lemma Scalars(m: Metadata, i: nat)
    requires i < |KEYS|
    ensures var v := Values(m)[i]; v.Str? || v.Whole? || v.Fraction? || v.NotFinite? || v == Undefined
  {
  }

  lemma SameValuesSameMetadata(m: Metadata, m': Metadata)
    requires Values(m) == Values(m')
    ensures m == m'
  {
    assert forall i :: 0 <= i < |KEYS| ==> Values(m)[i] == Values(m')[i];
    assert Values(m)[0] == Str(m.schema) && Values(m')[0] == Str(m'.schema);
  }

  /** Metadata is accepted unless a time is infinite or no number, and accepted metadata that differ in any field have
      different canonical texts. */
  lemma MetadataTextIsInjective(m: Metadata, m': Metadata)
    requires IsMetadata(m) && IsMetadata(m')
    ensures StableMetadataJson(m).Some? <==> HasFiniteTimes(m)
    ensures HasFiniteTimes(m) && HasFiniteTimes(m') ==> (StableMetadataJson(m) == StableMetadataJson(m') <==> m == m')
  {
    MetadataIsPrintable(m);
    MetadataIsPrintable(m');
    ThrowsExactly(Obj(Entries(m)));
    if HasFiniteTimes(m) && HasFiniteTimes(m') {
      TextIsMeaning(Obj(Entries(m)), Obj(Entries(m')));
      if StableMetadataJson(m) == StableMetadataJson(m') {
        forall i | 0 <= i < |KEYS| ensures Values(m)[i] == Values(m')[i] {
          SameFieldSameValue(m, m', i);
          Scalars(m, i);
          Scalars(m', i);
        }
        assert Values(m) == Values(m');
        SameValuesSameMetadata(m, m');
      }
    }
  }

  // ---- the text of metadata ------------------------------------------------

  /** The ten fields under the names and in the order in which they are printed. */
  function Named(m: Metadata): seq<Entry> {
    [Entry(Units("attester_type"), Str(m.attesterType)), Entry(Units("expires_at"), NumberOrUndefined(m.expiresAt)),
     Entry(Units("issued_at"), NumberOrUndefined(m.issuedAt)), Entry(Units("model"), Str(m.model)),
     Entry(Units("proof_id"), Str(m.proofId)), Entry(Units("proof_mode"), Str(m.proofMode)),
     Entry(Units("provider_code"), Str(m.providerCode)),
     Entry(Units("provider_request_id"), TextOrUndefined(m.providerRequestId)),
     Entry(Units("schema"), Str(m.schema)), Entry(Units("usage_basis"), Str(m.usageBasis))]
  }

  lemma TextNamesAreKeys()
    ensures Units("schema") == KEYS[0] && Units("proof_id") == KEYS[1] && Units("provider_code") == KEYS[2]
    ensures Units("proof_mode") == KEYS[3] && Units("attester_type") == KEYS[4] && Units("usage_basis") == KEYS[5]
  {
  }

  lemma NamesAreKeys()
    ensures Units("schema") == KEYS[0] && Units("proof_id") == KEYS[1] && Units("provider_code") == KEYS[2]
    ensures Units("proof_mode") == KEYS[3] && Units("attester_type") == KEYS[4] && Units("usage_basis") == KEYS[5]
    ensures Units("model") == KEYS[6] && Units("provider_request_id") == KEYS[7]
    ensures Units("issued_at") == KEYS[8] && Units("expires_at") == KEYS[9]
  {
    TextNamesAreKeys();
  }

  lemma NamedAreEntries(m: Metadata)
    ensures forall e :: e in Named(m) <==> e in Entries(m)
  {
    NamesAreKeys();
    var es, ns := Entries(m), Named(m);
    assert ns == [es[4], es[9], es[8], es[6], es[1], es[3], es[2], es[7], es[0], es[5]];
  }

  /** Where two names first differ, for names in the order in which they are printed. */
  function Apart(i: nat, j: nat): nat {
    if i == 4 && j == 5 then 6 else if i == 6 && j == 7 then 9 else if 4 <= i <= 5 && 6 <= j <= 7 then 3 else 0
  }

  lemma NamedAreInOrder(m: Metadata)
    ensures InKeyOrder(Named(m))
  {
    var ns := Named(m);
    NamesAreKeys();
    forall i, j | 0 <= i < j < |ns| ensures ComesBefore(ns[i].key, ns[j].key) {
      assert DiffersAt(ns[i].key, ns[j].key, Apart(i, j));
    }
  }

  /** The entries that are printed: all but the optional ones that are not given. */
  function Given(m: Metadata): seq<Entry> {
    Defined(Named(m))
  }

  lemma {:induction false} DefinedKeepsKeyOrder(es: seq<Entry>)
    requires InKeyOrder(es)
    ensures InKeyOrder(Defined(es))
  {
    if es != [] {
      DefinedKeepsKeyOrder(es[1..]);
      DefinedAreThere(es[1..]);
      forall e | e in Defined(es[1..]) ensures ComesBefore(es[0].key, e.key) {
        var j :| 0 <= j < |es[1..]| && es[1..][j] == e;
        assert ComesBefore(es[0].key, es[j + 1].key);
      }
    }
  }

  lemma GivenIsPrintOrder(m: Metadata)
    ensures IsPrintOrder(Entries(m), Given(m))
  {
    NamedAreEntries(m);
    NamedAreInOrder(m);
    DefinedKeepsKeyOrder(Named(m));
    DefinedAreThere(Named(m));
  }

  /** The text of metadata with finite times: each field that is given, under its name, in the order of the names. */
  lemma MetadataTextExactly(m: Metadata)
    requires IsMetadata(m) && HasFiniteTimes(m)
    ensures forall i :: 0 <= i < |Given(m)| ==> Printable(Given(m)[i].value)
    ensures StableMetadataJson(m) == Some(Units("{") + Commas(MemberTexts(Given(m))) + Units("}"))
  {
    MetadataIsPrintable(m);
    GivenIsPrintOrder(m);
    ObjectExactly(Entries(m), Given(m));
  }
}

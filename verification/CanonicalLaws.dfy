/** The canonical text says exactly what the value means: not in what order an object was built, nor which of its
    entries are undefined, but everything else. */
module CanonicalLaws {
  import opened Outcomes
  import opened Widths
  import opened CanonicalJson

  // ---- what a value means --------------------------------------------------

  datatype Meaning =
    | NullMeaning
    | BoolMeaning(value: bool)
    | WholeMeaning(amount: int)
    | FractionMeaning(printed: Text)
    | StrMeaning(text: Text)
    | ListMeaning(items: seq<Meaning>)
    | RecordMeaning(fields: map<Text, Meaning>)

  /** The values the script accepts: finite numbers, nothing foreign, and nothing undefined but entries of objects. */
  predicate Printable(v: Json) {
    match v
    case NotFinite => false
    case Undefined => false
    case Foreign => false
    case Arr(items) => forall i :: 0 <= i < |items| ==> Printable(items[i])
    case Obj(es) => forall i :: 0 <= i < |es| ==> es[i].value == Undefined || Printable(es[i].value)
    case _ => true
  }

  function FieldsOf(es: seq<Entry>): map<Text, Meaning>
    requires forall i :: 0 <= i < |es| ==> es[i].value == Undefined || Printable(es[i].value)
  {
    if es == [] then map[]
    else if es[0].value == Undefined then FieldsOf(es[1..])
    else FieldsOf(es[1..])[es[0].key := MeaningOf(es[0].value)]
  }

  function MeaningOf(v: Json): Meaning
    requires Printable(v)
  {
    match v
    case Null => NullMeaning
    case Bool(b) => BoolMeaning(b)
    case Whole(n) => WholeMeaning(n)
    case Fraction(printed) => FractionMeaning(printed)
    case Str(s) => StrMeaning(s)
    case Arr(items) => ListMeaning(MeaningsOf(items))
    case Obj(es) => RecordMeaning(FieldsOf(es))
  }

  function MeaningsOf(items: seq<Json>): (ms: seq<Meaning>)
    requires forall i :: 0 <= i < |items| ==> Printable(items[i])
  {
    if items == [] then [] else [MeaningOf(items[0])] + MeaningsOf(items[1..])
  }

  ghost predicate AllPrintable(es: seq<Entry>) {
    forall i :: 0 <= i < |es| ==> Printable(es[i].value)
  }

  ghost predicate AllAccepted(es: seq<Entry>) {
    forall i :: 0 <= i < |es| ==> es[i].value == Undefined || Printable(es[i].value)
  }

  // ---- the order of keys ---------------------------------------------------

  ghost predicate DiffersAt(a: Text, b: Text, k: nat) {
    && k <= |a| && k < |b| && a[..k] == b[..k]
    && (k == |a| || a[k] < b[k])
  }

  /** In the order of strings: at the first place where they differ, one has ended or has the smaller unit. */
  ghost predicate ComesBefore(a: Text, b: Text) {
    exists k: nat :: DiffersAt(a, b, k)
  }

  lemma FirstUnitApart(a: Text, b: Text, k: nat)
    requires a != [] && b != [] && k > 0
    ensures DiffersAt(a, b, k) <==> a[0] == b[0] && DiffersAt(a[1..], b[1..], k - 1)
  {
    if k <= |a| && k < |b| {
      assert a[..k] == [a[0]] + a[1..][..k - 1] && b[..k] == [b[0]] + b[1..][..k - 1];
      assert a[..k][0] == a[0] && b[..k][0] == b[0];
      assert a[..k][1..] == a[1..][..k - 1] && b[..k][1..] == b[1..][..k - 1];
    }
  }

  /** The comparison the sort makes, which looks at one unit after the other, is that order. */
  lemma {:induction false} LessExactly(a: Text, b: Text)
    ensures Less(a, b) <==> ComesBefore(a, b)
  {
    if a != [] && b != [] {
      LessExactly(a[1..], b[1..]);
      forall k: nat | k > 0 ensures DiffersAt(a, b, k) <==> a[0] == b[0] && DiffersAt(a[1..], b[1..], k - 1) {
        FirstUnitApart(a, b, k);
      }
      if Less(a, b) && a[0] == b[0] {
        var k: nat :| DiffersAt(a[1..], b[1..], k);
        assert DiffersAt(a, b, k + 1);
      }
    }
    if Less(a, b) && (a == [] || a[0] < b[0]) {
      assert DiffersAt(a, b, 0);
    }
  }

  lemma {:induction false} LessIsTotal(a: Text, b: Text)
    ensures !(Less(a, b) && Less(b, a))
    ensures Less(a, b) || Less(b, a) || a == b
    ensures Less(a, b) ==> a != b
  {
    if a != [] && b != [] && a[0] == b[0] {
      LessIsTotal(a[1..], b[1..]);
      assert a == [a[0]] + a[1..] && b == [b[0]] + b[1..];
    }
  }

  /** Of two different strings exactly one comes before the other, and the comparison says which. */
  lemma KeysAreCompared(a: Text, b: Text)
    ensures CompareCanonicalKeys(a, b) < 0 <==> ComesBefore(a, b)
    ensures CompareCanonicalKeys(a, b) > 0 <==> ComesBefore(b, a)
    ensures CompareCanonicalKeys(a, b) == 0 <==> a == b
    ensures !(ComesBefore(a, b) && ComesBefore(b, a))
  {
    LessExactly(a, b);
    LessExactly(b, a);
    LessIsTotal(a, b);
  }

  lemma {:induction false} LessIsTransitive(a: Text, b: Text, c: Text)
    requires Less(a, b) && Less(b, c)
    ensures Less(a, c)
  {
    if a != [] && a[0] == b[0] == c[0] {
      LessIsTransitive(a[1..], b[1..], c[1..]);
    }
  }

  /** Each key strictly before every later one. */
  ghost predicate Increasing(es: seq<Entry>) {
    forall i, j :: 0 <= i < j < |es| ==> Less(es[i].key, es[j].key)
  }

  lemma {:induction false} InsertKeepsOrder(e: Entry, es: seq<Entry>)
    requires Increasing(es) && forall f :: f in es ==> f.key != e.key
    ensures Increasing(Insert(e, es))
    ensures forall f :: f in Insert(e, es) <==> f == e || f in es
  {
    if es != [] {
      LessIsTotal(e.key, es[0].key);
      if Less(e.key, es[0].key) {
        forall j | 0 <= j < |es| ensures Less(e.key, es[j].key) {
          if j > 0 {
            LessIsTransitive(e.key, es[0].key, es[j].key);
          }
        }
      } else {
        InsertKeepsOrder(e, es[1..]);
        assert es[0] in es && Less(es[0].key, e.key);
        var rest := Insert(e, es[1..]);
        forall j | 0 <= j < |rest| ensures Less(es[0].key, rest[j].key) {
          assert rest[j] == e || rest[j] in es[1..];
        }
        assert Insert(e, es) == [es[0]] + rest;
      }
    }
  }

  lemma {:induction false} SortKeepsOrder(es: seq<Entry>)
    requires DistinctKeys(es)
    ensures Increasing(Sort(es))
    ensures forall f :: f in Sort(es) <==> f in es
  {
    if es != [] {
      SortKeepsOrder(es[1..]);
      InsertKeepsOrder(es[0], Sort(es[1..]));
    }
  }

  /** Each key before every later one, in the order of strings. */
  ghost predicate InKeyOrder(es: seq<Entry>) {
    forall i, j :: 0 <= i < j < |es| ==> ComesBefore(es[i].key, es[j].key)
  }

  lemma IncreasingIsKeyOrder(es: seq<Entry>)
    ensures Increasing(es) <==> InKeyOrder(es)
  {
    forall i, j | 0 <= i < j < |es| ensures Less(es[i].key, es[j].key) <==> ComesBefore(es[i].key, es[j].key) {
      LessExactly(es[i].key, es[j].key);
    }
  }

  /** Sorting puts distinct keys in the order of strings and loses nothing. */
  lemma SortSorts(es: seq<Entry>)
    requires DistinctKeys(es)
    ensures InKeyOrder(Sort(es)) && Increasing(Sort(es))
    ensures multiset(Sort(es)) == multiset(es)
  {
    SortKeepsOrder(es);
    IncreasingIsKeyOrder(Sort(es));
    SortKeepsEntries(es);
  }

  lemma EmptyTogether(es: seq<Entry>, fs: seq<Entry>)
    requires forall e :: e in es <==> e in fs
    ensures es == [] <==> fs == []
  {
    if es != [] {
      assert es[0] in fs;
    }
    if fs != [] {
      assert fs[0] in es;
    }
  }

  lemma TailIsRest(es: seq<Entry>, e: Entry)
    requires Increasing(es) && es != []
    ensures e in es[1..] <==> e in es && e != es[0]
  {
    assert es == [es[0]] + es[1..];
    if e in es[1..] {
      LessIsTotal(es[0].key, e.key);
    }
  }

  /** Whatever algorithm an engine uses, distinct keys have one order: there is one increasing list of the entries. */
  lemma {:induction false} OneOrderOnly(es: seq<Entry>, fs: seq<Entry>)
    requires Increasing(es) && Increasing(fs)
    requires forall e :: e in es <==> e in fs
    ensures es == fs
  {
    if es == [] {
      EmptyTogether(es, fs);
    } else {
      EmptyTogether(es, fs);
      assert es[0] in fs;
      assert fs[0] in es;
      LessIsTotal(es[0].key, fs[0].key);
      assert es[0] == fs[0];
      forall e ensures e in es[1..] <==> e in fs[1..] {
        TailIsRest(es, e);
        TailIsRest(fs, e);
      }
      OneOrderOnly(es[1..], fs[1..]);
    }
  }

  lemma {:induction false} DefinedKeepsDistinct(es: seq<Entry>)
    requires DistinctKeys(es)
    ensures DistinctKeys(Defined(es))
  {
    if es != [] {
      DefinedKeepsDistinct(es[1..]);
      DefinedAreThere(es[1..]);
    }
  }

  // ---- fields do not depend on order or on undefined entries ----------------

  lemma {:induction false} FieldsByKey(es: seq<Entry>, k: Text)
    requires DistinctKeys(es) && AllAccepted(es)
    ensures k in FieldsOf(es) <==> exists e :: e in es && e.key == k && e.value != Undefined
    ensures forall e :: e in es && e.key == k && e.value != Undefined ==>
              k in FieldsOf(es) && Printable(e.value) && FieldsOf(es)[k] == MeaningOf(e.value)
  {
    if es != [] {
      assert es == [es[0]] + es[1..];
      FieldsByKey(es[1..], k);
      if es[0].key == k {
        assert es[0] in es;
        assert forall e :: e in es && e.key == k ==> e == es[0];
      }
    }
  }

  /** Lists with the same defined entries give the same fields. */
  lemma SameEntriesSameFields(es: seq<Entry>, fs: seq<Entry>)
    requires DistinctKeys(es) && AllAccepted(es) && DistinctKeys(fs) && AllAccepted(fs)
    requires forall e: Entry :: e.value != Undefined ==> (e in es <==> e in fs)
    ensures FieldsOf(es) == FieldsOf(fs)
  {
    forall k ensures k in FieldsOf(es) <==> k in FieldsOf(fs) {
      FieldsByKey(es, k);
      FieldsByKey(fs, k);
    }
    forall k | k in FieldsOf(es) ensures FieldsOf(es)[k] == FieldsOf(fs)[k] {
      FieldsByKey(es, k);
      FieldsByKey(fs, k);
    }
  }

  /** The entries of an object as they are printed: defined, sorted, and meaning the same. */
  lemma PrintedEntries(v: Json)
    requires v.Obj? && WellFormed(v) && Printable(v)
    ensures var es := Sort(Defined(v.entries));
            && Increasing(es) && AllPrintable(es) && DistinctKeys(es) && FieldsOf(es) == FieldsOf(v.entries)
            && (forall i :: 0 <= i < |es| ==> es[i].value < v && WellFormed(es[i].value))
  {
    var es := Sort(Defined(v.entries));
    SortedAreInside(v);
    DefinedKeepsDistinct(v.entries);
    SortSorts(Defined(v.entries));
    forall i | 0 <= i < |es| ensures Printable(es[i].value) && es[i].value < v && WellFormed(es[i].value) {
      assert es[i] in v.entries;
    }
    forall i, j | 0 <= i < j < |es| ensures es[i].key != es[j].key {
      LessIsTotal(es[i].key, es[j].key);
    }
    SameEntriesSameFields(es, v.entries);
  }

  // ---- when the script throws ----------------------------------------------

  lemma {:induction false} EntriesThrowExactly(owner: Json, es: seq<Entry>)
    requires forall i :: 0 <= i < |es| ==> es[i].value < owner
    ensures EntryTexts(owner, es).Some? <==> AllPrintable(es)
    decreases owner, 0, |es|
  {
    if es != [] {
      ThrowsExactly(es[0].value);
      EntriesThrowExactly(owner, es[1..]);
      assert es == [es[0]] + es[1..];
    }
  }

  lemma {:induction false} ThrowsExactly(v: Json)
    ensures Canonicalize(v).Some? <==> Printable(v)
    decreases v, 1, 0
  {
    if v.Arr? {
      ItemsThrowExactly(v, v.items);
    } else if v.Obj? {
      SortedAreInside(v);
      var es := Sort(Defined(v.entries));
      EntriesThrowExactly(v, es);
      forall i | 0 <= i < |es| && Printable(v) ensures Printable(es[i].value) {
        assert es[i] in v.entries;
      }
      forall i | 0 <= i < |v.entries| && v.entries[i].value != Undefined && AllPrintable(es)
        ensures Printable(v.entries[i].value)
      {
        assert v.entries[i] in es;
      }
    }
  }

  lemma {:induction false} ItemsThrowExactly(owner: Json, items: seq<Json>)
    requires forall i :: 0 <= i < |items| ==> items[i] < owner
    ensures ItemTexts(owner, items).Some? <==> forall i :: 0 <= i < |items| ==> Printable(items[i])
    decreases owner, 0, |items|
  {
    if items != [] {
      ThrowsExactly(items[0]);
      ItemsThrowExactly(owner, items[1..]);
      assert items == [items[0]] + items[1..];
    }
  }

  // ---- the same meaning prints the same ------------------------------------

  ghost predicate PrintableInside(owner: Json, es: seq<Entry>) {
    && Increasing(es) && DistinctKeys(es) && AllPrintable(es)
    && forall i :: 0 <= i < |es| ==> es[i].value < owner && WellFormed(es[i].value)
  }

  lemma RestIsInside(owner: Json, es: seq<Entry>)
    requires PrintableInside(owner, es) && es != []
    ensures PrintableInside(owner, es[1..])
  {
  }

  lemma NoFieldsNoEntries(es: seq<Entry>)
    requires AllPrintable(es)
    ensures FieldsOf(es) == map[] <==> es == []
  {
    if es != [] {
      assert es[0].key in FieldsOf(es);
    }
  }

  /** The first key of an increasing list is the least key of its fields. */
  lemma SameFirstKey(es: seq<Entry>, fs: seq<Entry>)
    requires Increasing(es) && DistinctKeys(es) && AllPrintable(es) && es != []
    requires Increasing(fs) && DistinctKeys(fs) && AllPrintable(fs) && fs != []
    requires FieldsOf(es) == FieldsOf(fs)
    ensures es[0].key == fs[0].key && MeaningOf(es[0].value) == MeaningOf(fs[0].value)
  {
    var j, k := es[0].key, fs[0].key;
    assert FieldsOf(es)[j] == MeaningOf(es[0].value) && FieldsOf(fs)[k] == MeaningOf(fs[0].value);
    FieldsByKey(es, k);
    FieldsByKey(fs, j);
    LessIsTotal(j, k);
  }

  lemma WithoutFirst(es: seq<Entry>)
    requires DistinctKeys(es) && AllPrintable(es) && es != []
    ensures FieldsOf(es[1..]) == FieldsOf(es) - {es[0].key}
  {
    var fields, rest := FieldsOf(es), FieldsOf(es[1..]);
    FieldsByKey(es[1..], es[0].key);
    assert es[0].key !in rest && fields == rest[es[0].key := MeaningOf(es[0].value)];
    assert fields - {es[0].key} == rest;
  }

  lemma {:induction false} SameEntries(v: Json, es: seq<Entry>, w: Json, fs: seq<Entry>)
    requires PrintableInside(v, es) && PrintableInside(w, fs) && FieldsOf(es) == FieldsOf(fs)
    ensures EntryTexts(v, es) == EntryTexts(w, fs)
    decreases v, 0, |es|
  {
    if es == [] || fs == [] {
      NoFieldsNoEntries(es);
      NoFieldsNoEntries(fs);
    } else {
      SameFirstKey(es, fs);
      SameMeaningSameText(es[0].value, fs[0].value);
      WithoutFirst(es);
      WithoutFirst(fs);
      RestIsInside(v, es);
      RestIsInside(w, fs);
      SameEntries(v, es[1..], w, fs[1..]);
    }
  }

  lemma {:induction false} SameMeaningSameText(v: Json, w: Json)
    requires WellFormed(v) && WellFormed(w) && Printable(v) && Printable(w) && MeaningOf(v) == MeaningOf(w)
    ensures Canonicalize(v) == Canonicalize(w)
    decreases v, 1, 0
  {
    if v.Arr? {
      SameItems(v, v.items, w, w.items);
    } else if v.Obj? {
      PrintedEntries(v);
      PrintedEntries(w);
      SameEntries(v, Sort(Defined(v.entries)), w, Sort(Defined(w.entries)));
    }
  }

  lemma {:induction false} SameItems(v: Json, xs: seq<Json>, w: Json, ys: seq<Json>)
    requires forall i :: 0 <= i < |xs| ==> xs[i] < v && WellFormed(xs[i]) && Printable(xs[i])
    requires forall i :: 0 <= i < |ys| ==> ys[i] < w && WellFormed(ys[i]) && Printable(ys[i])
    requires MeaningsOf(xs) == MeaningsOf(ys)
    ensures ItemTexts(v, xs) == ItemTexts(w, ys)
    decreases v, 0, |xs|
  {
    if xs != [] {
      assert ys != [];
      assert MeaningsOf(xs)[0] == MeaningOf(xs[0]) && MeaningsOf(ys)[0] == MeaningOf(ys[0]);
      assert MeaningsOf(xs)[1..] == MeaningsOf(xs[1..]) && MeaningsOf(ys)[1..] == MeaningsOf(ys[1..]);
      SameMeaningSameText(xs[0], ys[0]);
      SameItems(v, xs[1..], w, ys[1..]);
    }
  }

  // ---- reading strings back ------------------------------------------------

  function HexValue(c: u16): Option<int> {
    if 48 <= c < 58 then Some(c - 48) else if 97 <= c < 103 then Some(c - 87) else None
  }

  function ShortValue(c: u16): Option<u16> {
    if c == 98 then Some(8)
    else if c == 116 then Some(9)
    else if c == 110 then Some(10)
    else if c == 102 then Some(12)
    else if c == 114 then Some(13)
    else if c == QUOTE then Some(QUOTE)
    else if c == BACKSLASH then Some(BACKSLASH)
    else None
  }

  function ReadHex(h: Text): Option<u16>
    requires |h| == 4
  {
    match (HexValue(h[0]), HexValue(h[1]), HexValue(h[2]), HexValue(h[3]))
    case (Some(a), Some(b), Some(c), Some(d)) =>
      var value := 16 * (16 * (16 * a + b) + c) + d;
      if 0 <= value < 0x1_0000 then Some(value) else None
    case _ => None
  }

  /** The unit a quoted text starts with, and how many units of text it takes. */
  function ReadUnit(b: Text): Option<(u16, nat)>
    ensures ReadUnit(b).Some? ==> 0 < ReadUnit(b).value.1 <= |b|
  {
    if b == [] || b[0] == QUOTE then None
    else if b[0] != BACKSLASH then Some((b[0], 1))
    else if |b| >= 2 && b[1] != 117 && ShortValue(b[1]).Some? then Some((ShortValue(b[1]).value, 2))
    else if |b| >= 6 && b[1] == 117 && ReadHex(b[2..6]).Some? then Some((ReadHex(b[2..6]).value, 6))
    else None
  }

  function Before(c: u16, r: Option<(Text, Text)>): Option<(Text, Text)> {
    match r
    case Some((s, rest)) => Some(([c] + s, rest))
    case None => None
  }

  /** A reader of quoted text, from after the opening quote: the string, and what follows the closing quote. */
  function ReadQuoted(b: Text): Option<(Text, Text)>
    decreases |b|
  {
    if b != [] && b[0] == QUOTE then Some(([], b[1..]))
    else
      match ReadUnit(b)
      case Some((c, width)) => Before(c, ReadQuoted(b[width..]))
      case None => None
  }

  lemma HexDigitReads(n: int)
    requires 0 <= n < 16
    ensures HexValue(HexDigit(n)) == Some(n)
  {
  }

  lemma HexRoundTrip(c: u16)
    ensures ReadHex(UnicodeEscape(c)[2..6]) == Some(c)
  {
    HexDigitReads(c / 16 / 16 / 16);
    HexDigitReads(c / 16 / 16 % 16);
    HexDigitReads(c / 16 % 16);
    HexDigitReads(c % 16);
  }

  lemma EscapedUnitReads(c: u16, r: Text)
    ensures ReadUnit(EscapeUnit(c) + r) == Some((c, |EscapeUnit(c)|))
    ensures (EscapeUnit(c) + r)[|EscapeUnit(c)|..] == r
    ensures (EscapeUnit(c) + r)[0] != QUOTE
  {
    if ShortEscape(c).None? && (c < 0x20 || IsHigh(c) || IsLow(c)) {
      HexRoundTrip(c);
      assert (EscapeUnit(c) + r)[2..6] == UnicodeEscape(c)[2..6];
    }
  }

  /** One more unit in front, escaped or as it is. */
  lemma ReadsOneMore(c: u16, token: Text, b: Text, s: Text, r: Text)
    requires ReadQuoted(b) == Some((s, r))
    requires token == EscapeUnit(c) || (token == [c] && (IsHigh(c) || IsLow(c)))
    ensures ReadQuoted(token + b) == Some(([c] + s, r))
  {
    var whole := token + b;
    if token == EscapeUnit(c) {
      EscapedUnitReads(c, b);
    }
    assert whole[|token|..] == b;
    assert ReadUnit(whole) == Some((c, |token|)) && whole[0] != QUOTE;
    assert ReadQuoted(whole) == Before(c, ReadQuoted(b));
  }

  predicate StartsWithPair(s: Text) {
    |s| >= 2 && IsHigh(s[0]) && IsLow(s[1])
  }

  lemma TwoInFront(a: u16, b: u16, tail: Text, end: Text)
    ensures [a, b] + tail + end == [a] + ([b] + (tail + end))
  {
  }

  lemma PairInFront(s: Text, tail: Text, end: Text, r: Text)
    requires StartsWithPair(s) && ReadQuoted(tail + end) == Some((s[2..], r))
    ensures ReadQuoted([s[0], s[1]] + tail + end) == Some((s, r))
  {
    var low := [s[1]] + (tail + end);
    ReadsOneMore(s[1], [s[1]], tail + end, s[2..], r);
    ReadsOneMore(s[0], [s[0]], low, [s[1]] + s[2..], r);
    TwoInFront(s[0], s[1], tail, end);
    assert s == [s[0]] + ([s[1]] + s[2..]);
  }

  lemma UnitInFront(s: Text, token: Text, tail: Text, end: Text, r: Text)
    requires s != [] && token == EscapeUnit(s[0]) && ReadQuoted(tail + end) == Some((s[1..], r))
    ensures ReadQuoted(token + tail + end) == Some((s, r))
  {
    ReadsOneMore(s[0], token, tail + end, s[1..], r);
    assert token + tail + end == token + (tail + end);
    assert s == [s[0]] + s[1..];
  }

  /** A quoted string reads back, whatever follows it. */
  lemma {:induction false} QuotedReadsBack(s: Text, r: Text)
    ensures ReadQuoted(Escape(s) + ([QUOTE] + r)) == Some((s, r))
    decreases |s|
  {
    var end := [QUOTE] + r;
    if s == [] {
      assert Escape(s) + end == end;
    } else if StartsWithPair(s) {
      QuotedReadsBack(s[2..], r);
      PairInFront(s, Escape(s[2..]), end, r);
    } else {
      QuotedReadsBack(s[1..], r);
      UnitInFront(s, EscapeUnit(s[0]), Escape(s[1..]), end, r);
    }
  }

  lemma AfterOpeningQuote(s: Text, r: Text)
    ensures (Quote(s) + r)[1..] == Escape(s) + ([QUOTE] + r)
  {
  }

  lemma QuotesDiffer(s: Text, r: Text, t: Text, u: Text)
    requires Quote(s) + r == Quote(t) + u
    ensures s == t && r == u
  {
    QuotedReadsBack(s, r);
    QuotedReadsBack(t, u);
    AfterOpeningQuote(s, r);
    AfterOpeningQuote(t, u);
  }

  // ---- reading numbers back ------------------------------------------------

  function DigitsValue(b: Text): int {
    if b == [] then 0 else 10 * DigitsValue(b[..|b| - 1]) + b[|b| - 1] - 48
  }

  lemma {:induction false} DigitsReadBack(n: nat)
    ensures Digits(n) != [] && forall i :: 0 <= i < |Digits(n)| ==> IsDigit(Digits(n)[i])
    ensures DigitsValue(Digits(n)) == n
  {
    if n < 10 {
      assert [48 + n][..0] == [];
    } else {
      DigitsReadBack(n / 10);
      assert Digits(n)[..|Digits(n)| - 1] == Digits(n / 10);
    }
  }

  /** What may follow a value in a text: nothing, a comma, or a closing bracket or brace. */
  predicate Ends(r: Text) {
    r == [] || r[0] == COMMA || r[0] == CLOSE_BRACKET || r[0] == CLOSE_BRACE
  }

  lemma RunsOn(d: Text, r: Text, e: Text, t: Text)
    requires d + r == e + t && |d| < |e|
    ensures r != [] && r[0] == e[|d|]
  {
    assert (d + r)[|d|] == (e + t)[|d|];
  }

  lemma IntTextReadsBack(m: int, n: int)
    ensures IsNumberText(IntText(m))
    ensures IntText(m) == IntText(n) ==> m == n
  {
    DigitsReadBack(if m < 0 then -m else m);
    DigitsReadBack(if n < 0 then -n else n);
    if m < 0 && n < 0 {
      assert IntText(m)[1..] == Digits(-m) && IntText(n)[1..] == Digits(-n);
    }
  }

  /** Numbers that end properly and make the same text are the same text. */
  lemma NumbersDiffer(d: Text, r: Text, e: Text, t: Text)
    requires IsNumberText(d) && IsNumberText(e) && d + r == e + t && Ends(r) && Ends(t)
    ensures d == e && r == t
  {
    var whole := d + r;
    if |d| < |e| {
      RunsOn(d, r, e, t);
      assert false;
    } else if |e| < |d| {
      RunsOn(e, t, d, r);
      assert false;
    } else {
      assert whole[..|d|] == d && whole[..|e|] == e;
      assert whole[|d|..] == r && whole[|e|..] == t;
    }
  }
}

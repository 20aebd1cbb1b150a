/** Canonical texts can be read in one way only. */
module CanonicalReading {
  import opened Widths
  import opened CanonicalJson
  import opened CanonicalLaws

  function TextOf(v: Json): Text
    requires Printable(v)
  {
    ThrowsExactly(v);
    Canonicalize(v).value
  }

  /** Whatever ends them, the two texts end in the same place, or differ. */
  ghost predicate Separate(p: Text, q: Text) {
    forall a, b :: Ends(a) && Ends(b) && p + a == q + b ==> p == q && a == b
  }

  ghost predicate AllSeparate(ps: seq<Text>, qs: seq<Text>) {
    forall i, j :: 0 <= i < |ps| && 0 <= j < |qs| ==> Separate(ps[i], qs[j])
  }

  predicate Closes(end: Text) {
    end != [] && (end[0] == CLOSE_BRACKET || end[0] == CLOSE_BRACE)
  }

  /** A part of a list starts with neither a comma nor what closes the list. */
  predicate Opens(p: Text) {
    p != [] && !Ends(p)
  }

  // ---- joined parts --------------------------------------------------------

  lemma FirstOfRest(ps: seq<Text>, end: Text)
    requires Closes(end)
    ensures Ends(JoinRest(ps) + end)
    ensures (JoinRest(ps) + end)[0] == if ps == [] then end[0] else COMMA
  {
  }

  lemma OnePart(p: Text, ps: seq<Text>, a: Text, q: Text, qs: seq<Text>, b: Text)
    requires Separate(p, q) && Closes(a) && Closes(b)
    requires p + (JoinRest(ps) + a) == q + (JoinRest(qs) + b)
    ensures p == q && JoinRest(ps) + a == JoinRest(qs) + b
  {
    FirstOfRest(ps, a);
    FirstOfRest(qs, b);
  }

  lemma WithoutFirstUnit(c: u16, x: Text, y: Text, a: Text)
    ensures ([c] + x + y + a)[1..] == x + (y + a)
  {
  }

  lemma AfterComma(ps: seq<Text>, a: Text)
    requires ps != []
    ensures (JoinRest(ps) + a)[1..] == ps[0] + (JoinRest(ps[1..]) + a)
  {
    WithoutFirstUnit(COMMA, ps[0], JoinRest(ps[1..]), a);
  }

  lemma {:induction false} RestReads(ps: seq<Text>, a: Text, qs: seq<Text>, b: Text)
    requires AllSeparate(ps, qs) && Closes(a) && Closes(b)
    requires JoinRest(ps) + a == JoinRest(qs) + b
    ensures ps == qs && a == b
    decreases |ps|
  {
    FirstOfRest(ps, a);
    FirstOfRest(qs, b);
    if ps == [] {
      assert qs == [];
      assert JoinRest(ps) + a == a && JoinRest(qs) + b == b;
    } else {
      assert qs != [];
      AfterComma(ps, a);
      AfterComma(qs, b);
      OnePart(ps[0], ps[1..], a, qs[0], qs[1..], b);
      RestReads(ps[1..], a, qs[1..], b);
      assert ps == [ps[0]] + ps[1..] && qs == [qs[0]] + qs[1..];
    }
  }

  lemma StartOfJoin(ps: seq<Text>, a: Text)
    requires Closes(a) && forall i :: 0 <= i < |ps| ==> Opens(ps[i])
    ensures ps == [] ==> Join(ps) + a == a
    ensures ps != [] ==>
              && Join(ps) + a == ps[0] + (JoinRest(ps[1..]) + a)
              && ps[0] != [] && Join(ps) + a != [] && (Join(ps) + a)[0] == ps[0][0]
  {
    if ps != [] {
      assert Opens(ps[0]);
    }
  }

  /** Joined lists with separate parts are read in one way. */
  lemma JoinReads(ps: seq<Text>, a: Text, qs: seq<Text>, b: Text)
    requires AllSeparate(ps, qs) && Closes(a) && Closes(b)
    requires (forall i :: 0 <= i < |ps| ==> Opens(ps[i])) && (forall i :: 0 <= i < |qs| ==> Opens(qs[i]))
    requires Join(ps) + a == Join(qs) + b
    ensures ps == qs && a == b
  {
    StartOfJoin(ps, a);
    StartOfJoin(qs, b);
    if ps == [] {
      assert qs == [];
    } else {
      assert qs != [];
      OnePart(ps[0], ps[1..], a, qs[0], qs[1..], b);
      RestReads(ps[1..], a, qs[1..], b);
      assert ps == [ps[0]] + ps[1..] && qs == [qs[0]] + qs[1..];
    }
  }

  // ---- parts of arrays and objects -----------------------------------------

  lemma {:induction false} ItemTextsAt(owner: Json, items: seq<Json>)
    requires forall i :: 0 <= i < |items| ==> items[i] < owner && Printable(items[i])
    ensures ItemTexts(owner, items).Some? && |ItemTexts(owner, items).value| == |items|
    ensures forall i :: 0 <= i < |items| ==> ItemTexts(owner, items).value[i] == TextOf(items[i])
    decreases |items|
  {
    if items != [] {
      ThrowsExactly(items[0]);
      ItemTextsAt(owner, items[1..]);
    }
  }

  function EntryText(e: Entry): Text
    requires Printable(e.value)
  {
    Quote(e.key) + [COLON] + TextOf(e.value)
  }

  lemma {:induction false} EntryTextsAt(owner: Json, es: seq<Entry>)
    requires forall i :: 0 <= i < |es| ==> es[i].value < owner && Printable(es[i].value)
    ensures EntryTexts(owner, es).Some? && |EntryTexts(owner, es).value| == |es|
    ensures forall i :: 0 <= i < |es| ==> EntryTexts(owner, es).value[i] == EntryText(es[i])
    decreases |es|
  {
    if es != [] {
      ThrowsExactly(es[0].value);
      EntryTextsAt(owner, es[1..]);
    }
  }

  /** What each kind of value starts with. */
  lemma FirstUnit(v: Json)
    requires WellFormed(v) && Printable(v)
    ensures Opens(TextOf(v))
    ensures var c := TextOf(v)[0];
            match v
            case Null => c == 110
            case Bool(b) => c == if b then 116 else 102
            case Whole(_) => IsDigit(c) || c == MINUS
            case Fraction(_) => IsDigit(c) || c == MINUS
            case Str(_) => c == QUOTE
            case Arr(_) => c == OPEN_BRACKET
            case Obj(_) => c == OPEN_BRACE
            case _ => false
  {
    ThrowsExactly(v);
    if v.Whole? {
      IntTextReadsBack(v.amount, v.amount);
    }
  }

  /** A text followed by the same end on both sides is the same text. */
  lemma SameEnd(p: Text, q: Text, a: Text, b: Text)
    requires p + a == q + b && a == b
    ensures p == q
  {
    assert (p + a)[..|p|] == p && (q + b)[..|q|] == q;
  }

  lemma EntrySplits(e: Entry, a: Text)
    requires Printable(e.value)
    ensures EntryText(e) + a == Quote(e.key) + ([COLON] + (TextOf(e.value) + a))
  {
  }

  lemma EntriesSeparate(d: Entry, e: Entry)
    requires Printable(d.value) && Printable(e.value) && Separate(TextOf(d.value), TextOf(e.value))
    ensures Separate(EntryText(d), EntryText(e))
    ensures Opens(EntryText(d))
    ensures EntryText(d) == EntryText(e) ==> d.key == e.key && TextOf(d.value) == TextOf(e.value)
  {
    forall a, b | Ends(a) && Ends(b) && EntryText(d) + a == EntryText(e) + b
      ensures EntryText(d) == EntryText(e) && a == b && d.key == e.key && TextOf(d.value) == TextOf(e.value)
    {
      EntrySplits(d, a);
      EntrySplits(e, b);
      QuotesDiffer(d.key, [COLON] + (TextOf(d.value) + a), e.key, [COLON] + (TextOf(e.value) + b));
      assert ([COLON] + (TextOf(d.value) + a))[1..] == TextOf(d.value) + a;
      assert ([COLON] + (TextOf(e.value) + b))[1..] == TextOf(e.value) + b;
    }
    assert EntryText(d) + [] == EntryText(d) && EntryText(e) + [] == EntryText(e);
  }

  // ---- whole values --------------------------------------------------------

  lemma NumbersRead(v: Json, r: Text, w: Json, t: Text)
    requires (v.Whole? || v.Fraction?) && (w.Whole? || w.Fraction?) && WellFormed(v) && WellFormed(w)
    requires Ends(r) && Ends(t) && TextOf(v) + r == TextOf(w) + t
    ensures MeaningOf(v) == MeaningOf(w) && r == t
  {
    var m, n := if v.Whole? then v.amount else 0, if w.Whole? then w.amount else 0;
    IntTextReadsBack(m, n);
    IntTextReadsBack(n, m);
    NumbersDiffer(TextOf(v), r, TextOf(w), t);
  }

  lemma SameStart(p: Text, a: Text, b: Text)
    requires p + a == p + b
    ensures a == b
  {
    assert (p + a)[|p|..] == a && (p + b)[|p|..] == b;
  }

  lemma ReadsSeparate(v: Json, w: Json)
    requires WellFormed(v) && WellFormed(w) && Printable(v) && Printable(w)
    ensures Separate(TextOf(v), TextOf(w))
    decreases v, 2
  {
    forall a, b | Ends(a) && Ends(b) && TextOf(v) + a == TextOf(w) + b ensures TextOf(v) == TextOf(w) && a == b {
      Reads(v, a, w, b);
    }
  }

  lemma Unwrap(open: u16, body: Text, close: u16, r: Text)
    ensures ([open] + body + [close] + r)[1..] == body + ([close] + r)
  {
  }

  lemma {:induction false} ItemsMeanTheSame(xs: seq<Json>, ys: seq<Json>)
    requires |xs| == |ys|
    requires forall i :: 0 <= i < |xs| ==> Printable(xs[i]) && Printable(ys[i]) && MeaningOf(xs[i]) == MeaningOf(ys[i])
    ensures MeaningsOf(xs) == MeaningsOf(ys)
  {
    if xs != [] {
      ItemsMeanTheSame(xs[1..], ys[1..]);
    }
  }

  lemma {:induction false} ArraysRead(v: Json, r: Text, w: Json, t: Text)
    requires v.Arr? && w.Arr? && WellFormed(v) && WellFormed(w) && Printable(v) && Printable(w)
    requires TextOf(v) + r == TextOf(w) + t
    ensures MeaningOf(v) == MeaningOf(w) && r == t
    decreases v, 0
  {
    ItemTextsAt(v, v.items);
    ItemTextsAt(w, w.items);
    var ps, qs := ItemTexts(v, v.items).value, ItemTexts(w, w.items).value;
    Unwrap(OPEN_BRACKET, Join(ps), CLOSE_BRACKET, r);
    Unwrap(OPEN_BRACKET, Join(qs), CLOSE_BRACKET, t);
    forall i, j | 0 <= i < |ps| && 0 <= j < |qs| ensures Separate(ps[i], qs[j]) {
      ReadsSeparate(v.items[i], w.items[j]);
    }
    forall i | 0 <= i < |ps| ensures Opens(ps[i]) {
      FirstUnit(v.items[i]);
    }
    forall i | 0 <= i < |qs| ensures Opens(qs[i]) {
      FirstUnit(w.items[i]);
    }
    JoinReads(ps, [CLOSE_BRACKET] + r, qs, [CLOSE_BRACKET] + t);
    SameStart([CLOSE_BRACKET], r, t);
    forall i | 0 <= i < |ps| ensures MeaningOf(v.items[i]) == MeaningOf(w.items[i]) {
      assert ps[i] == qs[i];
      Reads(v.items[i], [], w.items[i], []);
    }
    ItemsMeanTheSame(v.items, w.items);
  }

  lemma EntriesOpen(es: seq<Entry>)
    requires AllPrintable(es)
    ensures forall i :: 0 <= i < |es| ==> Opens(EntryText(es[i]))
  {
  }

  lemma {:induction false} EntriesMeanTheSame(es: seq<Entry>, fs: seq<Entry>)
    requires |es| == |fs| && AllPrintable(es) && AllPrintable(fs)
    requires forall i :: 0 <= i < |es| ==> es[i].key == fs[i].key && MeaningOf(es[i].value) == MeaningOf(fs[i].value)
    ensures FieldsOf(es) == FieldsOf(fs)
  {
    if es != [] {
      EntriesMeanTheSame(es[1..], fs[1..]);
    }
  }

  lemma {:induction false} ObjectsRead(v: Json, r: Text, w: Json, t: Text)
    requires v.Obj? && w.Obj? && WellFormed(v) && WellFormed(w) && Printable(v) && Printable(w)
    requires TextOf(v) + r == TextOf(w) + t
    ensures MeaningOf(v) == MeaningOf(w) && r == t
    decreases v, 0
  {
    PrintedEntries(v);
    PrintedEntries(w);
    var es, fs := Sort(Defined(v.entries)), Sort(Defined(w.entries));
    EntryTextsAt(v, es);
    EntryTextsAt(w, fs);
    var ps, qs := EntryTexts(v, es).value, EntryTexts(w, fs).value;
    Unwrap(OPEN_BRACE, Join(ps), CLOSE_BRACE, r);
    Unwrap(OPEN_BRACE, Join(qs), CLOSE_BRACE, t);
    forall i, j | 0 <= i < |ps| && 0 <= j < |qs| ensures Separate(ps[i], qs[j]) {
      ReadsSeparate(es[i].value, fs[j].value);
      EntriesSeparate(es[i], fs[j]);
    }
    EntriesOpen(es);
    EntriesOpen(fs);
    JoinReads(ps, [CLOSE_BRACE] + r, qs, [CLOSE_BRACE] + t);
    SameStart([CLOSE_BRACE], r, t);
    forall i | 0 <= i < |ps| ensures es[i].key == fs[i].key && MeaningOf(es[i].value) == MeaningOf(fs[i].value) {
      assert ps[i] == qs[i];
      ReadsSeparate(es[i].value, fs[i].value);
      EntriesSeparate(es[i], fs[i]);
      Reads(es[i].value, [], fs[i].value, []);
    }
    EntriesMeanTheSame(es, fs);
  }

  /** Two canonical texts, each ended properly, that make the same text: their values mean the same. */
  lemma {:induction false} Reads(v: Json, r: Text, w: Json, t: Text)
    requires WellFormed(v) && WellFormed(w) && Printable(v) && Printable(w)
    requires Ends(r) && Ends(t) && TextOf(v) + r == TextOf(w) + t
    ensures MeaningOf(v) == MeaningOf(w) && TextOf(v) == TextOf(w) && r == t
    decreases v, 1
  {
    FirstUnit(v);
    FirstUnit(w);
    assert (TextOf(v) + r)[0] == TextOf(v)[0] && (TextOf(w) + t)[0] == TextOf(w)[0];
    match v {
      case Null => SameStart(TextOf(v), r, t);
      case Bool(_) => SameStart(TextOf(v), r, t);
      case Whole(_) => NumbersRead(v, r, w, t);
      case Fraction(_) => NumbersRead(v, r, w, t);
      case Str(s) => QuotesDiffer(s, r, w.text, t);
      case Arr(_) => ArraysRead(v, r, w, t);
      case Obj(_) => ObjectsRead(v, r, w, t);
    }
    SameEnd(TextOf(v), TextOf(w), r, t);
  }

  /** The main law: two accepted values have one canonical text exactly when they mean the same. */
  lemma TextIsMeaning(v: Json, w: Json)
    requires WellFormed(v) && WellFormed(w) && Printable(v) && Printable(w)
    ensures Canonicalize(v).Some? && Canonicalize(w).Some?
    ensures Canonicalize(v) == Canonicalize(w) <==> MeaningOf(v) == MeaningOf(w)
  {
    ThrowsExactly(v);
    ThrowsExactly(w);
    if Canonicalize(v) == Canonicalize(w) {
      assert TextOf(v) + [] == TextOf(w) + [];
      Reads(v, [], w, []);
    } else if MeaningOf(v) == MeaningOf(w) {
      SameMeaningSameText(v, w);
    }
  }

  /** In particular: however an object's entries are ordered, and whatever undefined entries it has, its text is one. */
  lemma OrderDoesNotMatter(es: seq<Entry>, fs: seq<Entry>)
    requires WellFormed(Obj(es)) && WellFormed(Obj(fs))
    requires forall e: Entry :: e.value != Undefined ==> (e in es <==> e in fs)
    ensures Canonicalize(Obj(es)) == Canonicalize(Obj(fs))
  {
    ThrowsExactly(Obj(es));
    ThrowsExactly(Obj(fs));
    if Printable(Obj(es)) {
      forall i | 0 <= i < |fs| ensures fs[i].value == Undefined || Printable(fs[i].value) {
        assert fs[i].value != Undefined ==> fs[i] in es;
      }
      SameEntriesSameFields(es, fs);
      TextIsMeaning(Obj(es), Obj(fs));
    } else {
      var i :| 0 <= i < |es| && es[i].value != Undefined && !Printable(es[i].value);
      assert es[i] in fs;
    }
  }
}

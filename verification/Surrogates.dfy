/** Canonical texts are well-formed UTF-16 even where the strings in them are not, so that encoding them as UTF-8 before
    hashing replaces nothing. */
module Surrogates {
  import opened Widths
  import opened CanonicalJson
  import opened CanonicalLaws
  import opened CanonicalReading

  /** Surrogates only in pairs. */
  predicate Paired(t: Text) {
    if t == [] then true
    else if IsHigh(t[0]) then |t| >= 2 && IsLow(t[1]) && Paired(t[2..])
    else !IsLow(t[0]) && Paired(t[1..])
  }

  lemma {:induction false} PairedAppend(a: Text, b: Text)
    requires Paired(a) && Paired(b)
    ensures Paired(a + b)
    decreases |a|
  {
    if a == [] {
      assert a + b == b;
    } else if IsHigh(a[0]) {
      PairedAppend(a[2..], b);
      assert (a + b)[2..] == a[2..] + b;
    } else {
      PairedAppend(a[1..], b);
      assert (a + b)[1..] == a[1..] + b;
    }
  }

  lemma {:induction false} PlainIsPaired(t: Text)
    requires forall i :: 0 <= i < |t| ==> !IsHigh(t[i]) && !IsLow(t[i])
    ensures Paired(t)
    decreases |t|
  {
    if t != [] {
      PlainIsPaired(t[1..]);
    }
  }

  lemma PairIsPaired(high: u16, low: u16)
    requires IsHigh(high) && IsLow(low)
    ensures Paired([high, low])
  {
    assert [high, low][2..] == [];
  }

  lemma {:induction false} EscapedIsPaired(s: Text)
    ensures Paired(Escape(s))
    decreases |s|
  {
    if s == [] {
    } else if StartsWithPair(s) {
      EscapedIsPaired(s[2..]);
      PairIsPaired(s[0], s[1]);
      PairedAppend([s[0], s[1]], Escape(s[2..]));
    } else {
      EscapedIsPaired(s[1..]);
      PlainIsPaired(EscapeUnit(s[0]));
      PairedAppend(EscapeUnit(s[0]), Escape(s[1..]));
    }
  }

  lemma Between(open: u16, t: Text, close: u16)
    requires Paired(t) && open < 0xD800 && close < 0xD800
    ensures Paired([open] + t + [close])
  {
    PlainIsPaired([open]);
    PlainIsPaired([close]);
    PairedAppend([open], t);
    PairedAppend([open] + t, [close]);
  }

  ghost predicate AllPaired(ps: seq<Text>) {
    forall i :: 0 <= i < |ps| ==> Paired(ps[i])
  }

  lemma {:induction false} RestIsPaired(ps: seq<Text>)
    requires AllPaired(ps)
    ensures Paired(JoinRest(ps))
  {
    if ps != [] {
      RestIsPaired(ps[1..]);
      PlainIsPaired([COMMA]);
      PairedAppend([COMMA], ps[0]);
      PairedAppend([COMMA] + ps[0], JoinRest(ps[1..]));
    }
  }

  lemma JoinIsPaired(ps: seq<Text>)
    requires AllPaired(ps)
    ensures Paired(Join(ps))
  {
    if ps != [] {
      RestIsPaired(ps[1..]);
      PairedAppend(ps[0], JoinRest(ps[1..]));
    }
  }

  lemma QuotedIsPaired(s: Text)
    ensures Paired(Quote(s))
  {
    EscapedIsPaired(s);
    Between(QUOTE, Escape(s), QUOTE);
  }

  lemma EntryIsPaired(e: Entry)
    requires Printable(e.value) && Paired(TextOf(e.value))
    ensures Paired(EntryText(e))
  {
    QuotedIsPaired(e.key);
    PlainIsPaired([COLON]);
    PairedAppend(Quote(e.key), [COLON]);
    PairedAppend(Quote(e.key) + [COLON], TextOf(e.value));
  }

  lemma {:induction false} TextIsPaired(v: Json)
    requires WellFormed(v) && Printable(v)
    ensures Canonicalize(v).Some? && Paired(Canonicalize(v).value)
    decreases v
  {
    ThrowsExactly(v);
    match v {
      case Str(s) => QuotedIsPaired(s);
      case Whole(n) => IntTextReadsBack(n, n); PlainIsPaired(IntText(n));
      case Fraction(printed) => PlainIsPaired(printed);
      case Null => PlainIsPaired(NULL_TEXT);
      case Bool(b) => PlainIsPaired(if b then TRUE_TEXT else FALSE_TEXT);
      case Arr(items) => {
        ItemTextsAt(v, items);
        var ps := ItemTexts(v, items).value;
        forall i | 0 <= i < |ps| ensures Paired(ps[i]) {
          TextIsPaired(items[i]);
        }
        JoinIsPaired(ps);
        Between(OPEN_BRACKET, Join(ps), CLOSE_BRACKET);
      }
      case Obj(_) => {
        PrintedEntries(v);
        var es := Sort(Defined(v.entries));
        EntryTextsAt(v, es);
        var ps := EntryTexts(v, es).value;
        forall i | 0 <= i < |ps| ensures Paired(ps[i]) {
          TextIsPaired(es[i].value);
          EntryIsPaired(es[i]);
        }
        JoinIsPaired(ps);
        Between(OPEN_BRACE, Join(ps), CLOSE_BRACE);
      }
    }
  }
}

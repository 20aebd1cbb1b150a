/** The canonical text spelled out: which characters stand in it, and in what order. */
module CanonicalText {
  import opened Outcomes
  import opened Widths
  import opened CanonicalJson
  import opened CanonicalLaws
  import opened CanonicalReading

  /** ASCII as code units. */
  function Units(s: string): (t: Text)
    ensures |t| == |s|
  {
    seq(|s|, i requires 0 <= i < |s| => s[i] as int % 0x1_0000)
  }

  /** The parts with commas between them. */
  function Commas(parts: seq<Text>): Text {
    if |parts| == 0 then []
    else if |parts| == 1 then parts[0]
    else Commas(parts[..|parts| - 1]) + Units(",") + parts[|parts| - 1]
  }

  lemma {:induction false} JoinRestAppends(parts: seq<Text>, p: Text)
    ensures JoinRest(parts + [p]) == JoinRest(parts) + [COMMA] + p
  {
    if parts == [] {
      assert (parts + [p])[1..] == [];
    } else {
      assert (parts + [p])[1..] == parts[1..] + [p];
      JoinRestAppends(parts[1..], p);
    }
  }

  lemma {:induction false} JoinIsCommas(parts: seq<Text>)
    ensures Join(parts) == Commas(parts)
  {
    if |parts| == 1 {
      assert JoinRest(parts[1..]) == [];
    } else if |parts| > 1 {
      var init, last := parts[..|parts| - 1], parts[|parts| - 1];
      JoinIsCommas(init);
      assert parts[1..] == init[1..] + [last];
      JoinRestAppends(init[1..], last);
      assert Units(",") == [COMMA];
    }
  }

  // ---- strings -------------------------------------------------------------

  const HEX_DIGITS: string := "0123456789abcdef"

  function HexUnit(n: int): u16
    requires 0 <= n < 16
  {
    Units(HEX_DIGITS)[n]
  }

  /** How a unit is written that is not half of a surrogate pair. */
  function LoneUnit(c: u16): Text {
    if c == 8 then Units("\\b")
    else if c == 9 then Units("\\t")
    else if c == 10 then Units("\\n")
    else if c == 12 then Units("\\f")
    else if c == 13 then Units("\\r")
    else if c == 0x22 then Units("\\\"")
    else if c == 0x5C then Units("\\\\")
    else if c < 0x20 || 0xD800 <= c <= 0xDFFF then
      Units("\\u") + [HexUnit(c / 4096), HexUnit(c / 256 % 16), HexUnit(c / 16 % 16), HexUnit(c % 16)]
    else [c]
  }

  /** A unit stands in a pair if it is a high one before a low one or a low one after a high one. */
  predicate InPair(s: Text, i: nat)
    requires i < |s|
  {
    || (0xD800 <= s[i] <= 0xDBFF && i + 1 < |s| && 0xDC00 <= s[i + 1] <= 0xDFFF)
    || (0xDC00 <= s[i] <= 0xDFFF && i > 0 && 0xD800 <= s[i - 1] <= 0xDBFF)
  }

  function UnitText(s: Text, i: nat): Text
    requires i < |s|
  {
    if InPair(s, i) then [s[i]] else LoneUnit(s[i])
  }

  /** The texts of the units from `i` on. */
  function UnitsFrom(s: Text, i: nat): Text
    requires i <= |s|
    decreases |s| - i
  {
    if i == |s| then [] else UnitText(s, i) + UnitsFrom(s, i + 1)
  }

  lemma HexUnitsAgree(n: int)
    requires 0 <= n < 16
    ensures HexUnit(n) == HexDigit(n)
  {
    assert HEX_DIGITS[n] as int == HexDigit(n);
  }

  lemma Quarters(c: u16)
    ensures c / 16 / 16 / 16 == c / 4096 && c / 16 / 16 % 16 == c / 256 % 16
  {
  }

  lemma FourDigitsAgree(c: u16)
    ensures UnicodeEscape(c)
         == Units("\\u") + [HexUnit(c / 4096), HexUnit(c / 256 % 16), HexUnit(c / 16 % 16), HexUnit(c % 16)]
  {
    Quarters(c);
    HexUnitsAgree(c / 4096);
    HexUnitsAgree(c / 256 % 16);
    HexUnitsAgree(c / 16 % 16);
    HexUnitsAgree(c % 16);
    assert Units("\\u") == [BACKSLASH, 117];
  }

  lemma LettersAgree(c: u16)
    requires ShortEscape(c).Some?
    ensures EscapeUnit(c) == LoneUnit(c)
  {
  }

  lemma LoneUnitAgrees(c: u16)
    ensures EscapeUnit(c) == LoneUnit(c)
  {
    if ShortEscape(c).Some? {
      LettersAgree(c);
    } else if c < 0x20 || 0xD800 <= c <= 0xDFFF {
      FourDigitsAgree(c);
    }
  }

  lemma {:induction false} EscapedFrom(s: Text, i: nat)
    requires i <= |s|
    requires 0 < i < |s| ==> !(IsHigh(s[i - 1]) && IsLow(s[i]))
    ensures Escape(s[i..]) == UnitsFrom(s, i)
    decreases |s| - i
  {
    if i < |s| {
      var t := s[i..];
      if |t| >= 2 && IsHigh(t[0]) && IsLow(t[1]) {
        EscapedFrom(s, i + 2);
        assert t[2..] == s[i + 2..];
        assert UnitsFrom(s, i) == [s[i]] + ([s[i + 1]] + UnitsFrom(s, i + 2));
      } else {
        EscapedFrom(s, i + 1);
        LoneUnitAgrees(s[i]);
        assert t[1..] == s[i + 1..];
      }
    }
  }

  lemma QuoteIsQuotes()
    ensures Units("\"") == [QUOTE]
  {
  }

  lemma QuoteExactly(s: Text)
    ensures Quote(s) == Units("\"") + UnitsFrom(s, 0) + Units("\"")
  {
    EscapedFrom(s, 0);
    assert s[0..] == s;
    QuoteIsQuotes();
  }

  /** A string is written unit by unit between quotes: surrogate pairs as they are, seven units with a letter, other
      controls and unpaired surrogates as four hexadecimal digits, and all else as it is. */
  lemma QuotedExactly(s: Text)
    ensures Canonicalize(Str(s)) == Some(Units("\"") + UnitsFrom(s, 0) + Units("\""))
  {
    QuoteExactly(s);
  }

  // ---- the other scalars ---------------------------------------------------

  /** The number a row of decimal digits names. */
  function Decimal(t: Text): int {
    if t == [] then 0 else 10 * Decimal(t[..|t| - 1]) + t[|t| - 1] - 0x30
  }

  /** Digits, and no zero in front of others. */
  predicate IsDecimal(t: Text) {
    t != [] && (forall i :: 0 <= i < |t| ==> 0x30 <= t[i] <= 0x39) && (t[0] == 0x30 ==> |t| == 1)
  }

  lemma {:induction false} DigitsAreDecimal(n: nat)
    ensures IsDecimal(Digits(n)) && Decimal(Digits(n)) == n && (n > 0 ==> Digits(n)[0] != 0x30)
  {
    if n < 10 {
      assert [48 + n][..0] == [];
    } else {
      DigitsAreDecimal(n / 10);
      assert Digits(n)[..|Digits(n)| - 1] == Digits(n / 10);
    }
  }

  lemma Words()
    ensures Units("null") == NULL_TEXT && Units("true") == TRUE_TEXT && Units("false") == FALSE_TEXT
    ensures Units("-") == [MINUS]
  {
  }

  /** The scalars: three words, and numbers in decimal, without leading zeros, behind a sign if they are negative. */
  lemma ScalarsExactly(n: SafeInt)
    ensures Canonicalize(Null) == Some(Units("null"))
    ensures Canonicalize(Bool(true)) == Some(Units("true")) && Canonicalize(Bool(false)) == Some(Units("false"))
    ensures Canonicalize(Whole(n)).Some?
    ensures var t := Canonicalize(Whole(n)).value;
            if n >= 0 then IsDecimal(t) && Decimal(t) == n
            else t != [] && t[..1] == Units("-") && IsDecimal(t[1..]) && Decimal(t[1..]) == -n
  {
    DigitsAreDecimal(if n < 0 then -n else n);
    assert n < 0 ==> IntText(n)[1..] == Digits(-n) && IntText(n)[..1] == [MINUS];
    Words();
  }

  // ---- arrays and objects --------------------------------------------------

  lemma Brackets()
    ensures Units("[") == [OPEN_BRACKET] && Units("]") == [CLOSE_BRACKET]
    ensures Units("{") == [OPEN_BRACE] && Units("}") == [CLOSE_BRACE] && Units(":") == [COLON]
  {
  }

  /** An array is its items' texts, in their order, between brackets. */
  lemma ArrayExactly(items: seq<Json>)
    requires Printable(Arr(items))
    ensures Canonicalize(Arr(items))
         == Some(Units("[") + Commas(seq(|items|, i requires 0 <= i < |items| => TextOf(items[i]))) + Units("]"))
  {
    var v := Arr(items);
    ItemTextsAt(v, items);
    var parts := ItemTexts(v, items).value;
    assert parts == seq(|items|, i requires 0 <= i < |items| => TextOf(items[i]));
    JoinIsCommas(parts);
    Brackets();
  }

  /** One entry: the quoted key, a colon, the value. */
  function MemberText(e: Entry): Text
    requires Printable(e.value)
  {
    Units("\"") + UnitsFrom(e.key, 0) + Units("\"") + Units(":") + TextOf(e.value)
  }

  lemma MemberTextIsEntryText(e: Entry)
    requires Printable(e.value)
    ensures EntryText(e) == MemberText(e)
  {
    QuoteExactly(e.key);
    Brackets();
  }

  /** The entries that are printed, in the order in which they are. */
  ghost predicate IsPrintOrder(es: seq<Entry>, sorted: seq<Entry>) {
    (forall e :: e in sorted <==> e in es && e.value != Undefined) && InKeyOrder(sorted)
  }

  lemma PrintOrderIsSorted(es: seq<Entry>, sorted: seq<Entry>)
    requires DistinctKeys(es) && IsPrintOrder(es, sorted)
    ensures sorted == Sort(Defined(es))
  {
    DefinedKeepsDistinct(es);
    SortSorts(Defined(es));
    SortedAreInside(Obj(es));
    IncreasingIsKeyOrder(sorted);
    OneOrderOnly(sorted, Sort(Defined(es)));
  }

  lemma PrintOrderIsPrintable(es: seq<Entry>, sorted: seq<Entry>)
    requires Printable(Obj(es)) && IsPrintOrder(es, sorted)
    ensures forall i :: 0 <= i < |sorted| ==> Printable(sorted[i].value)
  {
    forall i | 0 <= i < |sorted| ensures Printable(sorted[i].value) {
      assert sorted[i] in sorted;
      var j :| 0 <= j < |es| && es[j] == sorted[i];
    }
  }

  function MemberTexts(es: seq<Entry>): seq<Text>
    requires forall i :: 0 <= i < |es| ==> Printable(es[i].value)
  {
    seq(|es|, i requires 0 <= i < |es| => MemberText(es[i]))
  }

  /** An object is its defined entries between braces, and nothing else, in the order of their keys. */
  lemma ObjectExactly(es: seq<Entry>, sorted: seq<Entry>)
    requires WellFormed(Obj(es)) && Printable(Obj(es)) && IsPrintOrder(es, sorted)
    ensures forall i :: 0 <= i < |sorted| ==> Printable(sorted[i].value)
    ensures Canonicalize(Obj(es)) == Some(Units("{") + Commas(MemberTexts(sorted)) + Units("}"))
  {
    var v := Obj(es);
    PrintOrderIsSorted(es, sorted);
    PrintOrderIsPrintable(es, sorted);
    SortedAreInside(v);
    forall i | 0 <= i < |sorted| ensures sorted[i].value < v {
      assert sorted[i] in sorted;
    }
    EntryTextsAt(v, sorted);
    forall i | 0 <= i < |sorted| ensures EntryText(sorted[i]) == MemberText(sorted[i]) {
      MemberTextIsEntryText(sorted[i]);
    }
    assert EntryTexts(v, sorted).value == MemberTexts(sorted);
    JoinIsCommas(MemberTexts(sorted));
    Brackets();
  }
}

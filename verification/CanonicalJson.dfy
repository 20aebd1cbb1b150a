/** The canonical text of receipt metadata: what the off-chain script hashes. */
module CanonicalJson {
  import opened Outcomes
  import opened Widths

  /** A JavaScript string: UTF-16 code units, paired or not. */
  type Text = seq<u16>

  const MAX_SAFE: int := 0x1F_FFFF_FFFF_FFFF

  /** The integers a JavaScript number prints digit by digit. */
  type SafeInt = n: int | -MAX_SAFE <= n <= MAX_SAFE

  /** The values the script may be given. A finite number that is no safe integer is known by the text the engine
      prints for it, which is a different one for every number (Number::toString of ECMA-262). `Foreign` is a bigint,
      a function or a symbol. An object lists its entries in whatever order it enumerates them. */
  datatype Json =
    | Null
    | Bool(value: bool)
    | Whole(amount: SafeInt)
    | Fraction(printed: Text)
    | NotFinite
    | Str(text: Text)
    | Arr(items: seq<Json>)
    | Obj(entries: seq<Entry>)
    | Undefined
    | Foreign

  datatype Entry = Entry(key: Text, value: Json)

  const QUOTE: u16 := 34
  const COMMA: u16 := 44
  const MINUS: u16 := 45
  const COLON: u16 := 58
  const OPEN_BRACKET: u16 := 91
  const BACKSLASH: u16 := 92
  const CLOSE_BRACKET: u16 := 93
  const OPEN_BRACE: u16 := 123
  const CLOSE_BRACE: u16 := 125
  const NULL_TEXT: Text := [110, 117, 108, 108]
  const TRUE_TEXT: Text := [116, 114, 117, 101]
  const FALSE_TEXT: Text := [102, 97, 108, 115, 101]

  predicate DistinctKeys(es: seq<Entry>) {
    forall i, j :: 0 <= i < j < |es| ==> es[i].key != es[j].key
  }

  // ---- strings, as JSON.stringify quotes them ------------------------------

  predicate IsHigh(c: u16) {
    0xD800 <= c < 0xDC00
  }

  predicate IsLow(c: u16) {
    0xDC00 <= c < 0xE000
  }

  function HexDigit(n: int): u16
    requires 0 <= n < 16
  {
    if n < 10 then 48 + n else 97 + n - 10
  }

  function UnicodeEscape(c: u16): Text {
    [BACKSLASH, 117, HexDigit(c / 16 / 16 / 16), HexDigit(c / 16 / 16 % 16), HexDigit(c / 16 % 16), HexDigit(c % 16)]
  }

  /** The letter of a two-unit escape, if the unit has one. */
  function ShortEscape(c: u16): Option<u16> {
    if c == 8 then Some(98)
    else if c == 9 then Some(116)
    else if c == 10 then Some(110)
    else if c == 12 then Some(102)
    else if c == 13 then Some(114)
    else if c == QUOTE then Some(QUOTE)
    else if c == BACKSLASH then Some(BACKSLASH)
    else None
  }

  /** One unit outside a surrogate pair. */
  function EscapeUnit(c: u16): Text {
    if ShortEscape(c).Some? then [BACKSLASH, ShortEscape(c).value]
    else if c < 0x20 || IsHigh(c) || IsLow(c) then UnicodeEscape(c)
    else [c]
  }

  function Escape(s: Text): Text {
    if s == [] then []
    else if |s| >= 2 && IsHigh(s[0]) && IsLow(s[1]) then [s[0], s[1]] + Escape(s[2..])
    else EscapeUnit(s[0]) + Escape(s[1..])
  }

  function Quote(s: Text): Text {
    [QUOTE] + Escape(s) + [QUOTE]
  }

  // ---- numbers -------------------------------------------------------------

  function Digits(n: nat): Text {
    if n < 10 then [48 + n] else Digits(n / 10) + [48 + n % 10]
  }

  function IntText(n: int): Text {
    if n < 0 then [MINUS] + Digits(-n) else Digits(n)
  }

  predicate IsDigit(c: u16) {
    48 <= c < 58
  }

  /** Digits, and in a number also a sign, a point and an exponent. */
  predicate InNumber(c: u16) {
    IsDigit(c) || c == MINUS || c == 43 || c == 46 || c == 101
  }

  predicate IsNumberText(t: Text) {
    t != [] && (IsDigit(t[0]) || t[0] == MINUS) && forall i :: 0 <= i < |t| ==> InNumber(t[i])
  }

  /** No object has a key twice, and no number that is not a safe integer prints like one. */
  ghost predicate WellFormed(v: Json) {
    match v
    case Fraction(printed) => IsNumberText(printed) && forall n: SafeInt :: IntText(n) != printed
    case Arr(items) => forall i :: 0 <= i < |items| ==> WellFormed(items[i])
    case Obj(es) => DistinctKeys(es) && forall i :: 0 <= i < |es| ==> WellFormed(es[i].value)
    case _ => true
  }

  // ---- keys in order -------------------------------------------------------

  /** Comparison of strings by code units. */
  predicate Less(a: Text, b: Text) {
    b != [] && (a == [] || a[0] < b[0] || (a[0] == b[0] && Less(a[1..], b[1..])))
  }

  function CompareCanonicalKeys(left: Text, right: Text): int {
    if Less(left, right) then -1 else if Less(right, left) then 1 else 0
  }

  function Insert(e: Entry, es: seq<Entry>): seq<Entry> {
    if es == [] || CompareCanonicalKeys(e.key, es[0].key) <= 0 then [e] + es
    else [es[0]] + Insert(e, es[1..])
  }

  function Sort(es: seq<Entry>): seq<Entry> {
    if es == [] then [] else Insert(es[0], Sort(es[1..]))
  }

  /** The entries whose value is not undefined. */
  function Defined(es: seq<Entry>): seq<Entry> {
    if es == [] then []
    else (if es[0].value == Undefined then [] else [es[0]]) + Defined(es[1..])
  }

  // ---- the printer ---------------------------------------------------------

  function JoinRest(parts: seq<Text>): Text {
    if parts == [] then [] else [COMMA] + parts[0] + JoinRest(parts[1..])
  }

  function Join(parts: seq<Text>): Text {
    if parts == [] then [] else parts[0] + JoinRest(parts[1..])
  }

  function ItemTexts(owner: Json, items: seq<Json>): Option<seq<Text>>
    requires forall i :: 0 <= i < |items| ==> items[i] < owner
    decreases owner, 0, |items|
  {
    if items == [] then Some([])
    else
      match (Canonicalize(items[0]), ItemTexts(owner, items[1..]))
      case (Some(first), Some(rest)) => Some([first] + rest)
      case _ => None
  }

  function EntryTexts(owner: Json, es: seq<Entry>): Option<seq<Text>>
    requires forall i :: 0 <= i < |es| ==> es[i].value < owner
    decreases owner, 0, |es|
  {
    if es == [] then Some([])
    else
      match (Canonicalize(es[0].value), EntryTexts(owner, es[1..]))
      case (Some(first), Some(rest)) => Some([Quote(es[0].key) + [COLON] + first] + rest)
      case _ => None
  }

  lemma {:induction false} InsertKeepsEntries(e: Entry, es: seq<Entry>)
    ensures multiset(Insert(e, es)) == multiset{e} + multiset(es)
  {
    if es != [] {
      assert es == [es[0]] + es[1..];
      InsertKeepsEntries(e, es[1..]);
    }
  }

  lemma {:induction false} SortKeepsEntries(es: seq<Entry>)
    ensures multiset(Sort(es)) == multiset(es)
  {
    if es != [] {
      assert es == [es[0]] + es[1..];
      SortKeepsEntries(es[1..]);
      InsertKeepsEntries(es[0], Sort(es[1..]));
    }
  }

  lemma {:induction false} DefinedAreThere(es: seq<Entry>)
    ensures forall e :: e in Defined(es) <==> e in es && e.value != Undefined
    ensures multiset(Defined(es)) <= multiset(es)
  {
    if es != [] {
      assert es == [es[0]] + es[1..];
      DefinedAreThere(es[1..]);
    }
  }

  lemma SortedAreInside(v: Json)
    requires v.Obj?
    ensures forall e :: e in Sort(Defined(v.entries)) <==> e in v.entries && e.value != Undefined
    ensures forall e :: e in v.entries ==> e.value < v
  {
    SortKeepsEntries(Defined(v.entries));
    DefinedAreThere(v.entries);
    forall e ensures e in Sort(Defined(v.entries)) <==> e in Defined(v.entries) {
      assert e in multiset(Sort(Defined(v.entries))) <==> e in multiset(Defined(v.entries));
    }
  }

  /** None where the script throws. */
  function Canonicalize(v: Json): Option<Text>
    decreases v, 1, 0
  {
    match v
    case Null => Some(NULL_TEXT)
    case Str(s) => Some(Quote(s))
    case Whole(n) => Some(IntText(n))
    case Fraction(printed) => Some(printed)
    case NotFinite => None
    case Bool(b) => Some(if b then TRUE_TEXT else FALSE_TEXT)
    case Arr(items) =>
      var parts := ItemTexts(v, items);
      if parts.Some? then Some([OPEN_BRACKET] + Join(parts.value) + [CLOSE_BRACKET]) else None
    case Obj(es) =>
      SortedAreInside(v);
      var parts := EntryTexts(v, Sort(Defined(es)));
      if parts.Some? then Some([OPEN_BRACE] + Join(parts.value) + [CLOSE_BRACE]) else None
    case Undefined => None
    case Foreign => None
  }
}

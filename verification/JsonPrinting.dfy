/**
 * JSON.stringify (section 25.5.2 of ECMA-262): own-key order (section 10.1.11.1), numbers, strings
 * and whole values as text.
 */
module JsonPrinting {
  import opened Digits
  import opened Json

  /* ---- own-key order ---- */

  predicate AllDigits(s: JString) { forall i :: 0 <= i < |s| ==> 48 <= s[i] < 58 }

  function DigitsOf(s: JString): (ds: seq<Digit>)
    requires AllDigits(s)
    ensures |ds| == |s| && forall i :: 0 <= i < |s| ==> ds[i] == s[i] - 48
  {
    seq(|s|, i requires 0 <= i < |s| => s[i] - 48)
  }

  /** The number a string of decimal digits stands for. */
  function Decimal(s: JString): nat
    requires AllDigits(s)
  {
    DigitsValue(DigitsOf(s))
  }

  /** A canonical numeric string below 2^32 - 1. */
  predicate ArrayIndex(s: JString) {
    |s| > 0 && AllDigits(s) && (s[0] == 48 ==> |s| == 1) && Decimal(s) < 0xFFFF_FFFF
  }

  predicate IndexBefore(a: JString, b: JString) {
    ArrayIndex(a) && ArrayIndex(b) && Decimal(a) <= Decimal(b)
  }

  /** Insertion sort of members by key. */
  function Insert(m: Member, ms: seq<Member>, before: (JString, JString) -> bool): seq<Member> {
    if ms == [] || before(m.key, ms[0].key) then [m] + ms else [ms[0]] + Insert(m, ms[1..], before)
  }

  function Sort(ms: seq<Member>, before: (JString, JString) -> bool): seq<Member> {
    if ms == [] then [] else Insert(ms[0], Sort(ms[1..], before), before)
  }

  function IndexMembers(ms: seq<Member>): seq<Member> {
    if ms == [] then []
    else if ArrayIndex(ms[0].key) then [ms[0]] + IndexMembers(ms[1..]) else IndexMembers(ms[1..])
  }

  function NamedMembers(ms: seq<Member>): seq<Member> {
    if ms == [] then []
    else if ArrayIndex(ms[0].key) then NamedMembers(ms[1..]) else [ms[0]] + NamedMembers(ms[1..])
  }

  /** Object.entries order: array indices ascending, then the other keys as created. */
  function OwnOrder(ms: seq<Member>): seq<Member> {
    Sort(IndexMembers(ms), IndexBefore) + NamedMembers(ms)
  }

  /** Every object of v with its members in own-key order. */
  function Enumerated(v: Json): Json {
    match v
    case Arr(items) => Arr(seq(|items|, i requires 0 <= i < |items| => Enumerated(items[i])))
    case Obj(ms) => Obj(OwnOrder(EnumeratedMembers(ms)))
    case _ => v
  }

  function EnumeratedMembers(ms: seq<Member>): seq<Member>
    decreases ms
  {
    if ms == [] then [] else [Member(ms[0].key, Enumerated(ms[0].value))] + EnumeratedMembers(ms[1..])
  }

  /* ---- text ---- */

  function DigitText(ds: seq<Digit>): (r: JString)
    ensures |r| == |ds| && forall i :: 0 <= i < |ds| ==> r[i] == 48 + ds[i] as int
  {
    seq(|ds|, i requires 0 <= i < |ds| => 48 + ds[i] as int)
  }

  function NatText(n: nat): JString { DigitText(NatDigits(n)) }

  /** Number::toString of a non-zero magnitude with digits ds, 0.ds * 10^p. */
  function MagnitudeText(ds: seq<Digit>, p: int): JString
    requires |ds| > 0
  {
    var k := |ds|;
    if k <= p <= 21 then DigitText(ds + Zeros(p - k))
    else if 0 < p <= 21 then DigitText(ds[..p]) + [46] + DigitText(ds[p..])
    else if -6 < p <= 0 then [48, 46] + DigitText(Zeros(-p) + ds)
    else DigitText(ds[..1]) + (if k == 1 then [] else [46] + DigitText(ds[1..]))
         + [101] + ExponentText(p - 1)
  }

  function ExponentText(e: int): JString {
    if e < 0 then [45] + NatText(-e) else [43] + NatText(e)
  }

  function NumberText(n: Number): JString
    requires NumberOk(n)
  {
    match n
    case Zero => [48]
    case Finite(neg, ds, p) => (if neg then [45] else []) + MagnitudeText(ds, p)
  }

  predicate Lead(u: CodeUnit) { 0xD800 <= u < 0xDC00 }
  predicate Trail(u: CodeUnit) { 0xDC00 <= u < 0xE000 }

  function Hex(d: int): CodeUnit
    requires 0 <= d < 16
  {
    if d < 10 then 48 + d else 87 + d
  }

  function UnicodeEscape(u: CodeUnit): JString {
    [92, 117, Hex(u / 4096), Hex(u / 256 % 16), Hex(u / 16 % 16), Hex(u % 16)]
  }

  /** QuoteJSONString for one code unit that is not half of a surrogate pair. */
  function Escape(u: CodeUnit): JString {
    if u == 8 then [92, 98] else if u == 9 then [92, 116] else if u == 10 then [92, 110]
    else if u == 12 then [92, 102] else if u == 13 then [92, 114]
    else if u == 34 then [92, 34] else if u == 92 then [92, 92]
    else if u < 32 || Lead(u) || Trail(u) then UnicodeEscape(u)
    else [u]
  }

  /** How many code units the first code point of s takes. */
  function PointSize(s: JString): nat
    requires s != []
    ensures 1 <= PointSize(s) <= |s|
  {
    if |s| >= 2 && Lead(s[0]) && Trail(s[1]) then 2 else 1
  }

  function QuotePoint(s: JString): JString
    requires s != []
  {
    if PointSize(s) == 2 then s[..2] else Escape(s[0])
  }

  function QuoteBody(s: JString): JString
    decreases |s|
  {
    if s == [] then [34] else QuotePoint(s) + QuoteBody(s[PointSize(s)..])
  }

  function Quote(s: JString): JString { [34] + QuoteBody(s) }

  /** The text of a value, members as listed: JSON.stringify with no indentation. */
  function Text(v: Json): JString
    requires WellFormed(v)
    decreases v, 0
  {
    match v
    case Null => Js("null")
    case Bool(b) => if b then Js("true") else Js("false")
    case Num(n) => NumberText(n)
    case Str(s) => Quote(s)
    case Arr(items) => [91] + (if items == [] then [93] else Text(items[0]) + ItemsText(items[1..]))
    case Obj(ms) => [123] + (if ms == [] then [125] else MemberText(ms[0]) + MembersText(ms[1..]))
  }

  function MemberText(m: Member): JString
    requires WellFormed(m.value)
    decreases m, 1
  {
    Quote(m.key) + [58] + Text(m.value)
  }

  function ItemsText(items: seq<Json>): JString
    requires forall i :: 0 <= i < |items| ==> WellFormed(items[i])
    decreases items
  {
    if items == [] then [93] else [44] + Text(items[0]) + ItemsText(items[1..])
  }

  function MembersText(ms: seq<Member>): JString
    requires forall i :: 0 <= i < |ms| ==> WellFormed(ms[i].value)
    decreases ms
  {
    if ms == [] then [125] else [44] + MemberText(ms[0]) + MembersText(ms[1..])
  }
}

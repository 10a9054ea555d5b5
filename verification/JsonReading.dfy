/**
 * Reading JSON text after the grammar of RFC 8259, with no white space between tokens.  A reader
 * takes a value off the front of a text and gives the text after it; members stay as listed.
 */
module JsonReading {
  import opened Wrappers
  import opened Json
  import opened Digits

  datatype Read<T> = Read(value: T, rest: JString)

  /* ---- numbers, section 6 ---- */

  predicate IsDigit(u: CodeUnit) { 48 <= u <= 57 }

  /** How many digits a text begins with. */
  function DigitRun(t: JString): (n: nat)
    ensures n <= |t| && (forall i :: 0 <= i < n ==> IsDigit(t[i])) && (n < |t| ==> !IsDigit(t[n]))
  {
    if t == [] || !IsDigit(t[0]) then 0 else 1 + DigitRun(t[1..])
  }

  /** The digits a text begins with. */
  function LeadingDigits(t: JString): (ds: seq<Digit>)
    ensures |ds| == DigitRun(t)
  {
    seq(DigitRun(t), i requires 0 <= i < DigitRun(t) => t[i] - 48)
  }

  /** Nothing, or a point and digits. */
  function ReadFraction(t: JString): (r: Option<Read<seq<Digit>>>)
    ensures r.Some? ==> |r.value.rest| <= |t|
  {
    if t == [] || t[0] != 46 then Some(Read([], t))
    else if DigitRun(t[1..]) == 0 then None
    else Some(Read(LeadingDigits(t[1..]), t[1..][DigitRun(t[1..])..]))
  }

  /** The digits of a power. */
  function ReadPower(negative: bool, t: JString): (r: Option<Read<int>>)
    ensures r.Some? ==> |r.value.rest| <= |t|
  {
    if DigitRun(t) == 0 then None
    else
      var e := DigitsValue(LeadingDigits(t));
      Some(Read(if negative then 0 - e else e, t[DigitRun(t)..]))
  }

  /** Nothing, or e or E, perhaps a sign, and digits. */
  function ReadExponent(t: JString): (r: Option<Read<int>>)
    ensures r.Some? ==> |r.value.rest| <= |t|
  {
    if t == [] || (t[0] != 101 && t[0] != 69) then Some(Read(0, t))
    else if |t| > 1 && t[1] == 43 then ReadPower(false, t[2..])
    else if |t| > 1 && t[1] == 45 then ReadPower(true, t[2..])
    else ReadPower(false, t[1..])
  }

  function LeadingZeros(ds: seq<Digit>): (k: nat)
    ensures k <= |ds| && (forall i :: 0 <= i < k ==> ds[i] == 0) && (k < |ds| ==> ds[k] != 0)
  {
    if ds == [] || ds[0] != 0 then 0 else 1 + LeadingZeros(ds[1..])
  }

  function DropTrailingZeros(ds: seq<Digit>): seq<Digit> {
    if ds == [] || ds[|ds| - 1] != 0 then ds else DropTrailingZeros(ds[..|ds| - 1])
  }

  /** The number with these digits and the point after so many of them. */
  function NumberOf(negative: bool, ds: seq<Digit>, point: int): Number {
    var k := LeadingZeros(ds);
    if k == |ds| then Zero else Finite(negative, DropTrailingZeros(ds[k..]), point - k)
  }

  /** Digits without a leading zero, a fraction and an exponent. */
  function ReadUnsigned(negative: bool, t: JString): (r: Option<Read<Number>>)
    ensures r.Some? ==> |r.value.rest| < |t|
  {
    var n := DigitRun(t);
    if n == 0 || (t[0] == 48 && n > 1) then None
    else match ReadFraction(t[n..])
      case None => None
      case Some(f) =>
        match ReadExponent(f.rest)
        case None => None
        case Some(e) => Some(Read(NumberOf(negative, LeadingDigits(t) + f.value, n + e.value), e.rest))
  }

  /** The same, perhaps after a minus. */
  function ReadNumber(t: JString): (r: Option<Read<Number>>)
    ensures r.Some? ==> |r.value.rest| < |t|
  {
    if t != [] && t[0] == 45 then ReadUnsigned(true, t[1..]) else ReadUnsigned(false, t)
  }

  /* ---- strings, section 7 ---- */

  /** What the letter after a backslash stands for. */
  function ShortEscape(letter: CodeUnit): Option<CodeUnit> {
    match letter
    case 34 => Some(34)   // quotation mark
    case 92 => Some(92)   // reverse solidus
    case 47 => Some(47)   // solidus
    case 98 => Some(8)    // b
    case 102 => Some(12)  // f
    case 110 => Some(10)  // n
    case 114 => Some(13)  // r
    case 116 => Some(9)   // t
    case _ => None
  }

  function HexDigit(u: CodeUnit): (d: Option<int>)
    ensures d.Some? ==> 0 <= d.value < 16
  {
    if 48 <= u <= 57 then Some(u - 48)
    else if 65 <= u <= 70 then Some(u - 55)
    else if 97 <= u <= 102 then Some(u - 87)
    else None
  }

  function ReadHex(h: JString): Option<CodeUnit>
    requires |h| == 4
  {
    var a, b, c, d := HexDigit(h[0]), HexDigit(h[1]), HexDigit(h[2]), HexDigit(h[3]);
    if a.None? || b.None? || c.None? || d.None? then None
    else Some(((a.value * 16 + b.value) * 16 + c.value) * 16 + d.value)
  }

  /** One code unit: itself, or escaped. */
  function ReadChar(t: JString): (r: Option<Read<CodeUnit>>)
    requires t != []
    ensures r.Some? ==> |r.value.rest| < |t|
  {
    if t[0] < 32 || t[0] == 34 then None
    else if t[0] != 92 then Some(Read(t[0], t[1..]))
    else if |t| < 2 then None
    else if ShortEscape(t[1]).Some? then Some(Read(ShortEscape(t[1]).value, t[2..]))
    else if t[1] == 117 && |t| >= 6 && ReadHex(t[2..6]).Some? then Some(Read(ReadHex(t[2..6]).value, t[6..]))
    else None
  }

  /** What comes after an opening quotation mark, up to the closing one. */
  function ReadChars(t: JString): (r: Option<Read<JString>>)
    ensures r.Some? ==> |r.value.rest| < |t|
    decreases |t|
  {
    if t == [] then None
    else if t[0] == 34 then Some(Read([], t[1..]))
    else match ReadChar(t)
      case None => None
      case Some(c) =>
        match ReadChars(c.rest)
        case None => None
        case Some(s) => Some(Read([c.value] + s.value, s.rest))
  }

  /* ---- values, sections 3 to 5 ---- */

  function ReadLiteral(t: JString, literal: string, v: Json): (r: Option<Read<Json>>)
    requires forall i :: 0 <= i < |literal| ==> literal[i] < 128 as char
  {
    if Js(literal) <= t then Some(Read(v, t[|literal|..])) else None
  }

  function ReadValue(t: JString): (r: Option<Read<Json>>)
    ensures r.Some? ==> |r.value.rest| < |t|
    decreases |t|, 0
  {
    if t == [] then None
    else match t[0]
      case 110 => ReadLiteral(t, "null", Null)
      case 116 => ReadLiteral(t, "true", Bool(true))
      case 102 => ReadLiteral(t, "false", Bool(false))
      case 34 => (match ReadChars(t[1..]) case None => None case Some(s) => Some(Read(Str(s.value), s.rest)))
      case 91 => (match ReadArray(t[1..]) case None => None case Some(a) => Some(Read(Arr(a.value), a.rest)))
      case 123 => (match ReadObject(t[1..]) case None => None case Some(o) => Some(Read(Obj(o.value), o.rest)))
      case _ => (match ReadNumber(t) case None => None case Some(n) => Some(Read(Num(n.value), n.rest)))
  }

  /** What comes after an opening square bracket. */
  function ReadArray(t: JString): (r: Option<Read<seq<Json>>>)
    ensures r.Some? ==> |r.value.rest| < |t|
    decreases |t|, 2
  {
    if t != [] && t[0] == 93 then Some(Read([], t[1..])) else ReadItems(t)
  }

  /** Values with commas between them, and the closing bracket. */
  function ReadItems(t: JString): (r: Option<Read<seq<Json>>>)
    ensures r.Some? ==> |r.value.rest| < |t|
    decreases |t|, 1
  {
    match ReadValue(t)
    case None => None
    case Some(v) =>
      if v.rest == [] then None
      else if v.rest[0] == 93 then Some(Read([v.value], v.rest[1..]))
      else if v.rest[0] != 44 then None
      else match ReadItems(v.rest[1..])
        case None => None
        case Some(more) => Some(Read([v.value] + more.value, more.rest))
  }

  /** What comes after an opening brace. */
  function ReadObject(t: JString): (r: Option<Read<seq<Member>>>)
    ensures r.Some? ==> |r.value.rest| < |t|
    decreases |t|, 2
  {
    if t != [] && t[0] == 125 then Some(Read([], t[1..])) else ReadMembers(t)
  }

  /** A name, a colon and a value. */
  function ReadMember(t: JString): (r: Option<Read<Member>>)
    ensures r.Some? ==> |r.value.rest| < |t|
    decreases |t|, 0
  {
    if t == [] || t[0] != 34 then None
    else match ReadChars(t[1..])
      case None => None
      case Some(k) =>
        if k.rest == [] || k.rest[0] != 58 then None
        else match ReadValue(k.rest[1..])
          case None => None
          case Some(v) => Some(Read(Member(k.value, v.value), v.rest))
  }

  /** Members with commas between them, and the closing brace. */
  function ReadMembers(t: JString): (r: Option<Read<seq<Member>>>)
    ensures r.Some? ==> |r.value.rest| < |t|
    decreases |t|, 1
  {
    match ReadMember(t)
    case None => None
    case Some(m) =>
      if m.rest == [] then None
      else if m.rest[0] == 125 then Some(Read([m.value], m.rest[1..]))
      else if m.rest[0] != 44 then None
      else match ReadMembers(m.rest[1..])
        case None => None
        case Some(more) => Some(Read([m.value] + more.value, more.rest))
  }

  /** A whole text that is one value. */
  function ReadText(t: JString): Option<Json> {
    match ReadValue(t)
    case None => None
    case Some(r) => if r.rest == [] then Some(r.value) else None
  }
}

/**
 * The text of a value: read back by the grammar of RFC 8259 it is the value, whatever legal text
 * follows, and each code unit of a string is printed in its one shortest form.
 */
module JsonText {
  import opened Wrappers
  import opened Json
  import opened JsonPrinting
  import opened JsonReading
  import opened NumberSyntax

  /** What may follow a value: nothing, a comma or a closing bracket. */
  predicate Ends(r: JString) { r == [] || r[0] == 44 || r[0] == 93 || r[0] == 125 }

  lemma Assoc(x: JString, y: JString, z: JString)
    ensures (x + y) + z == x + (y + z)
  {
  }

  lemma Behind(u: CodeUnit, t: JString)
    ensures ([u] + t)[0] == u && ([u] + t)[1..] == t
  {
  }

  /* ---- strings ---- */

  lemma HexBack(d: int)
    requires 0 <= d < 16
    ensures HexDigit(Hex(d)) == Some(d)
  {
  }

  lemma HexParts(u: CodeUnit)
    ensures u == ((u / 4096 * 16 + u / 256 % 16) * 16 + u / 16 % 16) * 16 + u % 16
    ensures 0 <= u / 4096 < 16
  {
    assert u / 4096 == u / 256 / 16 && u / 256 == u / 16 / 16;
  }

  lemma UnicodeBack(u: CodeUnit, r: JString)
    ensures ReadChar(UnicodeEscape(u) + r) == Some(Read(u, r))
  {
    var t := UnicodeEscape(u) + r;
    HexParts(u);
    HexBack(u / 4096);
    HexBack(u / 256 % 16);
    HexBack(u / 16 % 16);
    HexBack(u % 16);
    assert t[2..6] == [Hex(u / 4096), Hex(u / 256 % 16), Hex(u / 16 % 16), Hex(u % 16)];
    assert t[6..] == r;
    hide Hex, HexDigit;
  }

  lemma EscapeBack(u: CodeUnit, r: JString)
    ensures ReadChar(Escape(u) + r) == Some(Read(u, r))
  {
    var t := Escape(u) + r;
    if |Escape(u)| == 6 {
      UnicodeBack(u, r);
    } else if |Escape(u)| == 2 {
      assert t[2..] == r;
    } else {
      assert t[1..] == r;
    }
    hide ReadHex, UnicodeEscape;
  }

  lemma PairForm(s: JString, r: JString)
    requires s != [] && PointSize(s) == 2
    ensures QuoteBody(s) + r == [s[0], s[1]] + (QuoteBody(s[2..]) + r)
    ensures Lead(s[0]) && Trail(s[1]) && s == [s[0]] + ([s[1]] + s[2..])
  {
    assert s[..2] == [s[0], s[1]];
    Assoc([s[0], s[1]], QuoteBody(s[2..]), r);
  }

  lemma UnitForm(s: JString, r: JString)
    requires s != [] && PointSize(s) == 1
    ensures QuoteBody(s) + r == Escape(s[0]) + (QuoteBody(s[1..]) + r) && s == [s[0]] + s[1..]
  {
    Assoc(Escape(s[0]), QuoteBody(s[1..]), r);
    hide Escape;
  }

  lemma OneOrTwo(s: JString)
    requires s != []
    ensures PointSize(s) == 1 || PointSize(s) == 2
  {
  }

  lemma EmptyBack(r: JString)
    ensures ReadChars(QuoteBody([]) + r) == Some(Read([], r))
  {
    Behind(34, r);
  }

  lemma {:induction false} QuoteBack(s: JString, r: JString)
    ensures ReadChars(QuoteBody(s) + r) == Some(Read(s, r))
    decreases |s|
  {
    hide *;
    if s == [] {
      EmptyBack(r);
    } else if PointSize(s) == 2 {
      QuoteBack(s[2..], r);
      PairForm(s, r);
      PairBack(s[0], s[1], QuoteBody(s[2..]) + r);
    } else {
      QuoteBack(s[1..], r);
      OneOrTwo(s);
      UnitForm(s, r);
      UnitBack(s[0], QuoteBody(s[1..]) + r);
    }
  }

  lemma UnitBack(u: CodeUnit, rest: JString)
    requires ReadChars(rest).Some?
    ensures ReadChars(Escape(u) + rest)
            == Some(Read([u] + ReadChars(rest).value.value, ReadChars(rest).value.rest))
  {
    EscapeBack(u, rest);
    EscapeStarts(u);
    assert (Escape(u) + rest)[0] == Escape(u)[0];
    hide Escape, ReadChar;
  }

  lemma EscapeStarts(u: CodeUnit)
    ensures Escape(u) != [] && Escape(u)[0] != 34
  {
  }

  lemma PairBack(a: CodeUnit, b: CodeUnit, rest: JString)
    requires Lead(a) && Trail(b) && ReadChars(rest).Some?
    ensures ReadChars([a, b] + rest)
            == Some(Read([a] + ([b] + ReadChars(rest).value.value), ReadChars(rest).value.rest))
  {
    assert [a, b] + rest == [a] + ([b] + rest);
    Behind(a, [b] + rest);
    Behind(b, rest);
  }

  /** A code unit that JSON.stringify leaves as it is. */
  predicate Printable(u: CodeUnit) { u >= 32 && u != 34 && u != 92 && !(0xD800 <= u <= 0xDFFF) }

  predicate LowerHex(u: CodeUnit) { 48 <= u <= 57 || 97 <= u <= 102 }

  /** Itself if that is possible, else a backslash and a letter if there is one, else four lower-case digits. */
  ghost predicate ShortestForm(u: CodeUnit, e: JString) {
    if Printable(u) then |e| == 1
    else if exists x :: ShortEscape(x) == Some(u) then |e| == 2
    else |e| == 6 && forall i :: 2 <= i < 6 ==> LowerHex(e[i])
  }

  lemma LowerHexUnique(x: CodeUnit, y: CodeUnit)
    requires LowerHex(x) && LowerHex(y) && HexDigit(x) == HexDigit(y)
    ensures x == y
  {
  }

  lemma ShortForms(u: CodeUnit)
    ensures !Printable(u) ==> ((exists x :: ShortEscape(x) == Some(u))
                               <==> u == 8 || u == 9 || u == 10 || u == 12 || u == 13 || u == 34 || u == 92)
  {
    assert ShortEscape(34) == Some(34) && ShortEscape(92) == Some(92) && ShortEscape(98) == Some(8);
    assert ShortEscape(102) == Some(12) && ShortEscape(110) == Some(10) && ShortEscape(114) == Some(13);
    assert ShortEscape(116) == Some(9);
  }

  lemma EscapeForm(u: CodeUnit)
    ensures ShortestForm(u, Escape(u))
  {
    ShortForms(u);
    if |Escape(u)| == 6 { HexParts(u); }
  }

  /** A lone code unit is printed in the one shortest form that reads back as it. */
  lemma EscapeIff(u: CodeUnit, e: JString)
    requires e != []
    ensures e == Escape(u) <==> ReadChar(e) == Some(Read(u, [])) && ShortestForm(u, e)
  {
    EscapeBack(u, []);
    assert Escape(u) + [] == Escape(u);
    EscapeForm(u);
    ShortForms(u);
    if ReadChar(e) == Some(Read(u, [])) && ShortestForm(u, e) {
      if |e| == 6 {
        SameHex(e, Escape(u), u);
      } else if |e| == 2 {
        assert e == [e[0], e[1]];
      } else {
        assert e == [e[0]];
      }
    }
  }

  lemma SameHex(e: JString, f: JString, u: CodeUnit)
    requires |e| == |f| == 6 && ReadChar(e) == Some(Read(u, [])) && ReadChar(f) == Some(Read(u, []))
    requires forall i :: 2 <= i < 6 ==> LowerHex(e[i]) && LowerHex(f[i])
    ensures e == f
  {
    assert e[0] == 92 && f[0] == 92 && e[1] == 117 && f[1] == 117;
    var a, b := e[2..6], f[2..6];
    assert ReadHex(a) == Some(u) && ReadHex(b) == Some(u);
    FourDigits(a, b);
    hide ReadChar, ReadHex;
    forall i | 2 <= i < 6 ensures e[i] == f[i] {
      assert HexDigit(a[i - 2]) == HexDigit(b[i - 2]);
      LowerHexUnique(e[i], f[i]);
    }
    assert e == [e[0], e[1], e[2], e[3], e[4], e[5]] && f == [f[0], f[1], f[2], f[3], f[4], f[5]];
  }

  lemma FourDigits(a: JString, b: JString)
    requires |a| == |b| == 4 && ReadHex(a).Some? && ReadHex(a) == ReadHex(b)
    ensures forall i :: 0 <= i < 4 ==> HexDigit(a[i]) == HexDigit(b[i])
  {
    hide HexDigit;
    SameParts(HexDigit(a[0]).value, HexDigit(a[1]).value, HexDigit(a[2]).value, HexDigit(a[3]).value,
              HexDigit(b[0]).value, HexDigit(b[1]).value, HexDigit(b[2]).value, HexDigit(b[3]).value);
    hide ReadHex;
    forall i | 0 <= i < 4 ensures HexDigit(a[i]) == HexDigit(b[i]) {
      assert i == 0 || i == 1 || i == 2 || i == 3;
    }
  }

  lemma SameParts(a: int, b: int, c: int, d: int, w: int, x: int, y: int, z: int)
    requires 0 <= a < 16 && 0 <= b < 16 && 0 <= c < 16 && 0 <= d < 16
    requires 0 <= w < 16 && 0 <= x < 16 && 0 <= y < 16 && 0 <= z < 16
    requires ((a * 16 + b) * 16 + c) * 16 + d == ((w * 16 + x) * 16 + y) * 16 + z
    ensures a == w && b == x && c == y && d == z
  {
  }

  /* ---- whole strings ---- */

  /** s and t do not share a surrogate pair. */
  predicate Apart(s: JString, t: JString) {
    s == [] || t == [] || !(0xD800 <= s[|s| - 1] <= 0xDBFF && 0xDC00 <= t[0] <= 0xDFFF)
  }

  lemma BodyStep(s: JString)
    requires s != []
    ensures QuoteBody(s) == QuotePoint(s) + QuoteBody(s[PointSize(s)..])
  {
    hide QuotePoint, PointSize;
  }

  lemma ApartRest(s: JString, t: JString, k: nat)
    requires Apart(s, t) && k <= |s|
    ensures Apart(s[k..], t) && (s + t)[k..] == s[k..] + t
  {
    hide Lead, Trail;
  }

  lemma EmptyBody()
    ensures QuoteBody([]) == [34]
  {
  }

  lemma NothingBefore(t: JString)
    ensures [] + t == t
  {
  }

  lemma EmptyJoin(t: JString)
    ensures QuoteBody([]) != [] && QuoteBody([] + t) == QuoteBody([])[..|QuoteBody([])| - 1] + QuoteBody(t)
  {
    EmptyBody();
    hide QuoteBody;
    NothingBefore(t);
    NothingBefore(QuoteBody(t));
    assert [34][..0] == [];
  }

  /** The text of a string is that of its parts, one after the other, unless a surrogate pair is torn. */
  lemma {:induction false} QuoteJoin(s: JString, t: JString)
    requires Apart(s, t)
    ensures QuoteBody(s) != [] && QuoteBody(s + t) == QuoteBody(s)[..|QuoteBody(s)| - 1] + QuoteBody(t)
    decreases |s|
  {
    hide *;
    if s == [] {
      EmptyJoin(t);
    } else {
      var k := PointSize(s);
      ApartRest(s, t, k);
      QuoteJoin(s[k..], t);
      PointStays(s, t);
      BodyStep(s);
      BodyStep(s + t);
      JoinFront(QuotePoint(s), QuoteBody(s[k..]), QuoteBody(t));
    }
  }

  /** The same with both quotation marks. */
  lemma QuoteSum(s: JString, t: JString)
    requires Apart(s, t)
    ensures Quote(s) != [] && Quote(t) != []
    ensures Quote(s + t) == Quote(s)[..|Quote(s)| - 1] + Quote(t)[1..]
  {
    QuoteJoin(s, t);
    hide QuoteBody;
    JoinFront([34], QuoteBody(s), QuoteBody(t));
    Behind(34, QuoteBody(t));
  }

  lemma JoinFront(x: JString, q: JString, y: JString)
    requires q != []
    ensures (x + q)[..|x + q| - 1] + y == x + (q[..|q| - 1] + y)
  {
    assert (x + q)[..|x + q| - 1] == x + q[..|q| - 1];
  }

  lemma PointStays(s: JString, t: JString)
    requires s != [] && Apart(s, t)
    ensures PointSize(s + t) == PointSize(s) && QuotePoint(s + t) == QuotePoint(s)
  {
    if PointSize(s) == 2 { assert (s + t)[..2] == s[..2]; }
  }

  /** A lone code unit takes its escape, a surrogate pair is left as it is. */
  lemma QuoteParts(u: CodeUnit, a: CodeUnit, b: CodeUnit)
    requires 0xD800 <= a <= 0xDBFF && 0xDC00 <= b <= 0xDFFF
    ensures Quote([u]) == [34] + Escape(u) + [34] && Quote([a, b]) == [34, a, b, 34] && Quote([]) == [34, 34]
  {
    assert [u][1..] == [] && [a, b][2..] == [] && [a, b][..2] == [a, b];
    assert QuoteBody([a, b]) == [a, b] + [34];
    hide Escape;
  }

  /* ---- values ---- */

  lemma LiteralBack(literal: string, v: Json, r: JString)
    requires forall i :: 0 <= i < |literal| ==> literal[i] < 128 as char
    ensures ReadLiteral(Js(literal) + r, literal, v) == Some(Read(v, r))
  {
    assert (Js(literal) + r)[|literal|..] == r;
  }

  /** The text of a value does not start with a closing bracket or brace. */
  lemma FirstUnit(v: Json)
    requires WellFormed(v)
    ensures Text(v) != [] && Text(v)[0] != 93
    ensures v.Num? ==> Text(v)[0] == 45 || IsDigit(Text(v)[0])
  {
    hide ItemsText, MembersText, MemberText, QuoteBody;
    if v.Num? && v.n.Finite? {
      NotationPrinted(v.n.digits, v.n.point);
      var m := Notation(v.n.digits, v.n.point);
      StartsWithDigit(m.whole, FractionText(m.fraction) + PowerText(m.exponent));
      hide MagnitudeText, DigitText;
    }
  }

  /** How a reader goes on after the first code unit of a string, array or object. */
  lemma Opens(u: CodeUnit, t: JString)
    ensures u == 34 && ReadChars(t).Some? ==>
              ReadValue([u] + t) == Some(Read(Str(ReadChars(t).value.value), ReadChars(t).value.rest))
    ensures u == 91 && ReadArray(t).Some? ==>
              ReadValue([u] + t) == Some(Read(Arr(ReadArray(t).value.value), ReadArray(t).value.rest))
    ensures u == 123 && ReadObject(t).Some? ==>
              ReadValue([u] + t) == Some(Read(Obj(ReadObject(t).value.value), ReadObject(t).value.rest))
  {
    Behind(u, t);
    hide ReadChars, ReadArray, ReadObject, ReadNumber, ReadLiteral;
  }

  lemma ReadsNumber(t: JString)
    requires t != [] && (t[0] == 45 || IsDigit(t[0])) && ReadNumber(t).Some?
    ensures ReadValue(t) == Some(Read(Num(ReadNumber(t).value.value), ReadNumber(t).value.rest))
  {
    hide ReadChars, ReadArray, ReadObject, ReadNumber, ReadLiteral;
  }

  lemma ReadsLiteral(t: JString)
    requires t != []
    ensures t[0] == 110 ==> ReadValue(t) == ReadLiteral(t, "null", Null)
    ensures t[0] == 116 ==> ReadValue(t) == ReadLiteral(t, "true", Bool(true))
    ensures t[0] == 102 ==> ReadValue(t) == ReadLiteral(t, "false", Bool(false))
  {
    hide ReadChars, ReadArray, ReadObject, ReadNumber, ReadLiteral;
  }

  lemma ScalarBack(v: Json, r: JString)
    requires v.Null? || v.Bool?
    ensures ReadValue(Text(v) + r) == Some(Read(v, r))
  {
    var t := Text(v) + r;
    assert t != [] && t[0] == Text(v)[0];
    ReadsLiteral(t);
    LiteralBack(if v.Null? then "null" else if v.b then "true" else "false", v, r);
    hide ReadLiteral, ReadValue;
  }

  lemma NumberBack(n: Number, r: JString)
    requires NumberOk(n) && Ends(r)
    ensures ReadValue(NumberText(n) + r) == Some(Read(Num(n), r))
  {
    var t := NumberText(n) + r;
    FirstUnit(Num(n));
    assert t[0] == Text(Num(n))[0];
    RoundTrip(n, r);
    hide ReadNumber, NumberText;
    ReadsNumber(t);
  }

  lemma StringBack(s: JString, r: JString)
    ensures ReadValue(Quote(s) + r) == Some(Read(Str(s), r))
  {
    Assoc([34], QuoteBody(s), r);
    QuoteBack(s, r);
    Opens(34, QuoteBody(s) + r);
    hide QuoteBody, ReadChars, ReadValue;
  }

  /** The text of a value, in front of any legal continuation, reads back as the value. */
  lemma {:induction false} ReadsBack(v: Json, r: JString)
    requires WellFormed(v) && Ends(r)
    ensures ReadValue(Text(v) + r) == Some(Read(v, r))
    decreases v, 0
  {
    hide ReadValue, Ends;
    match v {
      case Null | Bool(_) => ScalarBack(v, r);
      case Num(n) => NumberBack(n, r);
      case Str(s) => StringBack(s, r);
      case Arr(items) =>
        ArrayText(items, r);
        ArrayBack(items, r);
        Opens(91, ArrayRest(items) + r);
      case Obj(ms) =>
        ObjectText(ms, r);
        ObjectBack(ms, r);
        Opens(123, ObjectRest(ms) + r);
    }
    hide Text, ArrayRest, ObjectRest, ReadArray, ReadObject, NumberText, Quote;
  }

  function ArrayRest(items: seq<Json>): JString
    requires WellFormed(Arr(items))
  {
    if items == [] then [93] else Text(items[0]) + ItemsText(items[1..])
  }

  lemma ArrayText(items: seq<Json>, r: JString)
    requires WellFormed(Arr(items))
    ensures Text(Arr(items)) + r == [91] + (ArrayRest(items) + r)
  {
    hide ItemsText;
    Assoc([91], ArrayRest(items), r);
  }

  lemma {:induction false} ArrayBack(items: seq<Json>, r: JString)
    requires WellFormed(Arr(items))
    ensures ReadArray(ArrayRest(items) + r) == Some(Read(items, r))
    decreases items, 2
  {
    hide ReadItems, ItemsText;
    if items == [] {
      Behind(93, r);
    } else {
      FirstUnit(items[0]);
      assert (ArrayRest(items) + r)[0] == Text(items[0])[0];
      ItemsBack(items, r);
    }
  }

  /** What follows the first item of a list: the close, or a comma and the rest of the list. */
  function AfterItem(items: seq<Json>, r: JString): JString
    requires WellFormed(Arr(items)) && items != []
  {
    if |items| == 1 then [93] + r else [44] + (ArrayRest(items[1..]) + r)
  }

  lemma ItemsForm(items: seq<Json>, r: JString)
    requires WellFormed(Arr(items)) && items != []
    ensures WellFormed(items[0]) && WellFormed(Arr(items[1..])) && Ends(AfterItem(items, r))
    ensures ArrayRest(items) + r == Text(items[0]) + AfterItem(items, r)
  {
    Assoc(Text(items[0]), ItemsText(items[1..]), r);
    if |items| > 1 {
      assert items[1..][1..] == items[2..];
      Assoc([44], Text(items[1]), ItemsText(items[2..]));
      Assoc([44], ArrayRest(items[1..]), r);
    }
    hide Text;
  }

  lemma LastItem(t: JString, v: Json, r: JString)
    requires ReadValue(t) == Some(Read(v, [93] + r))
    ensures ReadItems(t) == Some(Read([v], r))
  {
    Behind(93, r);
    hide ReadValue;
  }

  lemma NextItem(t: JString, v: Json, more: JString, items: seq<Json>, r: JString)
    requires ReadValue(t) == Some(Read(v, [44] + more)) && ReadItems(more) == Some(Read(items, r))
    ensures ReadItems(t) == Some(Read([v] + items, r))
  {
    Behind(44, more);
    hide ReadValue;
  }

  /** A list is read when its first item is, and the rest of it, if there is one. */
  lemma ItemsStep(items: seq<Json>, r: JString, t: JString)
    requires WellFormed(Arr(items)) && items != [] && WellFormed(Arr(items[1..]))
    requires ReadValue(t) == Some(Read(items[0], AfterItem(items, r)))
    requires |items| > 1 ==> ReadItems(ArrayRest(items[1..]) + r) == Some(Read(items[1..], r))
    ensures ReadItems(t) == Some(Read(items, r))
  {
    hide ReadValue, ReadItems, ArrayRest, WellFormed;
    if |items| == 1 {
      LastItem(t, items[0], r);
      assert items == [items[0]];
    } else {
      NextItem(t, items[0], ArrayRest(items[1..]) + r, items[1..], r);
      assert items == [items[0]] + items[1..];
    }
  }

  lemma {:induction false} ItemsBack(items: seq<Json>, r: JString)
    requires WellFormed(Arr(items)) && items != []
    ensures ReadItems(ArrayRest(items) + r) == Some(Read(items, r))
    decreases items, 1
  {
    hide *;
    ItemsForm(items, r);
    ReadsBack(items[0], AfterItem(items, r));
    if |items| > 1 { ItemsBack(items[1..], r); }
    ItemsStep(items, r, ArrayRest(items) + r);
  }

  predicate MembersOk(ms: seq<Member>) { forall i :: 0 <= i < |ms| ==> WellFormed(ms[i].value) }

  function ObjectRest(ms: seq<Member>): JString
    requires MembersOk(ms)
  {
    if ms == [] then [125] else MemberText(ms[0]) + MembersText(ms[1..])
  }

  lemma ObjectText(ms: seq<Member>, r: JString)
    requires WellFormed(Obj(ms))
    ensures Text(Obj(ms)) + r == [123] + (ObjectRest(ms) + r)
  {
    hide MemberText, MembersText;
    Assoc([123], ObjectRest(ms), r);
  }

  lemma {:induction false} ObjectBack(ms: seq<Member>, r: JString)
    requires MembersOk(ms)
    ensures ReadObject(ObjectRest(ms) + r) == Some(Read(ms, r))
    decreases ms, 2
  {
    hide ReadMembers, MembersText, MemberText;
    if ms == [] {
      Behind(125, r);
    } else {
      MemberStarts(ms[0]);
      assert (ObjectRest(ms) + r)[0] == MemberText(ms[0])[0];
      MembersBack(ms, r);
    }
  }

  lemma MemberStarts(m: Member)
    requires WellFormed(m.value)
    ensures MemberText(m) != [] && MemberText(m)[0] == 34
  {
    hide QuoteBody, Text;
  }

  /** What follows the first member of a list: the close, or a comma and the rest of the list. */
  function AfterMember(ms: seq<Member>, r: JString): JString
    requires MembersOk(ms) && ms != []
  {
    if |ms| == 1 then [125] + r else [44] + (ObjectRest(ms[1..]) + r)
  }

  lemma MembersForm(ms: seq<Member>, r: JString)
    requires MembersOk(ms) && ms != []
    ensures WellFormed(ms[0].value) && MembersOk(ms[1..]) && Ends(AfterMember(ms, r))
    ensures ObjectRest(ms) + r == MemberText(ms[0]) + AfterMember(ms, r)
  {
    Assoc(MemberText(ms[0]), MembersText(ms[1..]), r);
    if |ms| > 1 {
      assert ms[1..][1..] == ms[2..];
      Assoc([44], MemberText(ms[1]), MembersText(ms[2..]));
      Assoc([44], ObjectRest(ms[1..]), r);
    }
    hide MemberText;
  }

  lemma LastMember(t: JString, m: Member, r: JString)
    requires ReadMember(t) == Some(Read(m, [125] + r))
    ensures ReadMembers(t) == Some(Read([m], r))
  {
    Behind(125, r);
    hide ReadMember;
  }

  lemma NextMember(t: JString, m: Member, more: JString, ms: seq<Member>, r: JString)
    requires ReadMember(t) == Some(Read(m, [44] + more)) && ReadMembers(more) == Some(Read(ms, r))
    ensures ReadMembers(t) == Some(Read([m] + ms, r))
  {
    Behind(44, more);
    hide ReadMember;
  }

  lemma MembersStep(ms: seq<Member>, r: JString, t: JString)
    requires MembersOk(ms) && ms != [] && MembersOk(ms[1..])
    requires ReadMember(t) == Some(Read(ms[0], AfterMember(ms, r)))
    requires |ms| > 1 ==> ReadMembers(ObjectRest(ms[1..]) + r) == Some(Read(ms[1..], r))
    ensures ReadMembers(t) == Some(Read(ms, r))
  {
    hide ReadMember, ReadMembers, ObjectRest, MembersOk;
    if |ms| == 1 {
      LastMember(t, ms[0], r);
      assert ms == [ms[0]];
    } else {
      NextMember(t, ms[0], ObjectRest(ms[1..]) + r, ms[1..], r);
      assert ms == [ms[0]] + ms[1..];
    }
  }

  lemma {:induction false} MembersBack(ms: seq<Member>, r: JString)
    requires MembersOk(ms) && ms != []
    ensures ReadMembers(ObjectRest(ms) + r) == Some(Read(ms, r))
    decreases ms, 1
  {
    hide *;
    MembersForm(ms, r);
    MemberBack(ms[0], AfterMember(ms, r));
    if |ms| > 1 { MembersBack(ms[1..], r); }
    MembersStep(ms, r, ObjectRest(ms) + r);
  }

  lemma {:induction false} MemberBack(m: Member, r: JString)
    requires WellFormed(m.value) && Ends(r)
    ensures ReadMember(MemberText(m) + r) == Some(Read(m, r))
    decreases m, 0
  {
    var v := [58] + (Text(m.value) + r);
    MemberForm(m, r);
    Behind(34, QuoteBody(m.key) + v);
    QuoteBack(m.key, v);
    Behind(58, Text(m.value) + r);
    ReadsBack(m.value, r);
    hide QuoteBody, Text, ReadChars, ReadValue, MemberText;
  }

  lemma MemberForm(m: Member, r: JString)
    requires WellFormed(m.value)
    ensures MemberText(m) + r == [34] + (QuoteBody(m.key) + ([58] + (Text(m.value) + r)))
  {
    hide Text, QuoteBody;
  }

  /** Two values with the same text, even in front of different continuations, are equal. */
  lemma TextUnique(v: Json, w: Json, r: JString, q: JString)
    requires WellFormed(v) && WellFormed(w) && Ends(r) && Ends(q)
    requires Text(v) + r == Text(w) + q
    ensures v == w && r == q
  {
    ReadsBack(v, r);
    ReadsBack(w, q);
    hide Text, ReadValue;
  }
}

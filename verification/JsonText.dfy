/**
 The JSON text that `canonicalizeParameters` emits, as a printer on finite trees, and the
 parser that undoes it.  A JavaScript string is a sequence of UTF-16 code units.
 */
module JsonText {
  import opened Outcomes

  type CodeUnit = u: int | 0 <= u < 0x1_0000
  type Text = seq<CodeUnit>

  const QUOTE: CodeUnit := 0x22
  const BACKSLASH: CodeUnit := 0x5C
  const COMMA: CodeUnit := 0x2C
  const COLON: CodeUnit := 0x3A
  const OPEN_BRACKET: CodeUnit := 0x5B
  const CLOSE_BRACKET: CodeUnit := 0x5D
  const OPEN_BRACE: CodeUnit := 0x7B
  const CLOSE_BRACE: CodeUnit := 0x7D
  const LOWER_U: CodeUnit := 0x75

  const NULL_TEXT: Text := [0x6E, 0x75, 0x6C, 0x6C]
  const TRUE_TEXT: Text := [0x74, 0x72, 0x75, 0x65]
  const FALSE_TEXT: Text := [0x66, 0x61, 0x6C, 0x73, 0x65]

  // ----- Numbers -----

  /** The code units of `0`-`9`, `+`, `-`, `.` and `e`. */
  predicate IsNumeralUnit(u: CodeUnit) {
    0x30 <= u <= 0x39 || u == 0x2B || u == 0x2D || u == 0x2E || u == 0x65
  }

  /** Every text `Number::toString` yields for a finite number starts with a digit or `-`. */
  predicate IsNumeral(t: Text) {
    t != [] && (0x30 <= t[0] <= 0x39 || t[0] == 0x2D) && forall i :: 0 <= i < |t| ==> IsNumeralUnit(t[i])
  }

  /** A finite double, named by its shortest round-trip decimal text (0 and -0 share one). */
  type Numeral = t: Text | IsNumeral(t) witness [0x30]

  // ----- Strings: JSON.stringify, with its escapes for lone surrogates -----

  predicate IsLead(u: CodeUnit) { 0xD800 <= u <= 0xDBFF }

  predicate IsTrail(u: CodeUnit) { 0xDC00 <= u <= 0xDFFF }

  function HexDigit(n: int): CodeUnit
    requires 0 <= n < 16
  {
    if n < 10 then 0x30 + n else 0x57 + n
  }

  function HexEscape(u: CodeUnit): Text {
    [BACKSLASH, LOWER_U, HexDigit(u / 0x1000), HexDigit(u / 0x100 % 16), HexDigit(u / 16 % 16), HexDigit(u % 16)]
  }

  /** One code unit that is not half of a surrogate pair. */
  function QuoteUnit(u: CodeUnit): Text {
    if u == 0x08 then [BACKSLASH, 0x62]
    else if u == 0x09 then [BACKSLASH, 0x74]
    else if u == 0x0A then [BACKSLASH, 0x6E]
    else if u == 0x0C then [BACKSLASH, 0x66]
    else if u == 0x0D then [BACKSLASH, 0x72]
    else if u == QUOTE || u == BACKSLASH then [BACKSLASH, u]
    else if u < 0x20 || IsLead(u) || IsTrail(u) then HexEscape(u)
    else [u]
  }

  /** The text between the quotes. */
  function QuoteBody(s: Text): Text {
    if s == [] then []
    else if |s| >= 2 && IsLead(s[0]) && IsTrail(s[1]) then s[..2] + QuoteBody(s[2..])
    else QuoteUnit(s[0]) + QuoteBody(s[1..])
  }

  function Quote(s: Text): Text {
    [QUOTE] + QuoteBody(s) + [QUOTE]
  }

  // ----- Trees -----

  datatype Tree =
    | Null
    | Bool(truth: bool)
    | Number(numeral: Numeral)
    | Str(text: Text)
    | Arr(items: seq<Tree>)
    | Rec(members: seq<Member>)

  datatype Member = Member(key: Text, value: Tree)

  function Render(t: Tree): Text {
    match t
    case Null => NULL_TEXT
    case Bool(b) => if b then TRUE_TEXT else FALSE_TEXT
    case Number(n) => n
    case Str(s) => Quote(s)
    case Arr(items) => [OPEN_BRACKET] + RenderItems(items) + [CLOSE_BRACKET]
    case Rec(members) => [OPEN_BRACE] + RenderMembers(members) + [CLOSE_BRACE]
  }

  function RenderItems(items: seq<Tree>): Text {
    if items == [] then []
    else if |items| == 1 then Render(items[0])
    else Render(items[0]) + [COMMA] + RenderItems(items[1..])
  }

  function RenderMember(m: Member): Text {
    Quote(m.key) + [COLON] + Render(m.value)
  }

  function RenderMembers(members: seq<Member>): Text {
    if members == [] then []
    else if |members| == 1 then RenderMember(members[0])
    else RenderMember(members[0]) + [COMMA] + RenderMembers(members[1..])
  }

  // ----- The parser -----

  /** What was read, and what is left. */
  datatype Parsed<+T> = Parsed(value: T, rest: Text) | Malformed

  function HexValue(u: CodeUnit): Option<int> {
    if 0x30 <= u <= 0x39 then Some(u - 0x30)
    else if 0x41 <= u <= 0x46 then Some(u - 0x37)
    else if 0x61 <= u <= 0x66 then Some(u - 0x57)
    else None
  }

  /** One character of a string: section 7 of RFC 8259. */
  function ReadUnit(t: Text): (r: Parsed<CodeUnit>)
    ensures r.Parsed? ==> |r.rest| < |t|
  {
    if t == [] || t[0] < 0x20 || t[0] == QUOTE then Malformed
    else if t[0] != BACKSLASH then Parsed(t[0], t[1..])
    else if |t| < 2 then Malformed
    else if t[1] == QUOTE || t[1] == BACKSLASH || t[1] == 0x2F then Parsed(t[1], t[2..])
    else if t[1] == 0x62 then Parsed(0x08, t[2..])
    else if t[1] == 0x66 then Parsed(0x0C, t[2..])
    else if t[1] == 0x6E then Parsed(0x0A, t[2..])
    else if t[1] == 0x72 then Parsed(0x0D, t[2..])
    else if t[1] == 0x74 then Parsed(0x09, t[2..])
    else if t[1] == LOWER_U && |t| >= 6 then
      match (HexValue(t[2]), HexValue(t[3]), HexValue(t[4]), HexValue(t[5]))
      case (Some(a), Some(b), Some(c), Some(d)) =>
        if 0 <= a < 16 && 0 <= b < 16 && 0 <= c < 16 && 0 <= d < 16
        then Parsed(0x1000 * a + 0x100 * b + 16 * c + d, t[6..])
        else Malformed
      case _ => Malformed
    else Malformed
  }

  /** The characters up to the closing quote, which is consumed. */
  function ReadBody(t: Text): (r: Parsed<Text>)
    ensures r.Parsed? ==> |r.rest| < |t|
    decreases |t|
  {
    if t != [] && t[0] == QUOTE then Parsed([], t[1..])
    else
      match ReadUnit(t)
      case Malformed => Malformed
      case Parsed(u, rest) =>
        match ReadBody(rest)
        case Malformed => Malformed
        case Parsed(s, rest') => Parsed([u] + s, rest')
  }

  function NumeralLength(t: Text): (n: nat)
    ensures n <= |t|
  {
    if t == [] || !IsNumeralUnit(t[0]) then 0 else 1 + NumeralLength(t[1..])
  }

  function ReadNumeral(t: Text): (r: Parsed<Tree>)
    ensures r.Parsed? ==> |r.rest| < |t|
  {
    var n := NumeralLength(t);
    if IsNumeral(t[..n]) then Parsed(Number(t[..n]), t[n..]) else Malformed
  }

  function ReadWord(word: Text, value: Tree, t: Text): (r: Parsed<Tree>)
    requires word != []
    ensures r.Parsed? ==> |r.rest| < |t|
  {
    if word <= t then Parsed(value, t[|word|..]) else Malformed
  }

  function Parse(t: Text): (r: Parsed<Tree>)
    ensures r.Parsed? ==> |r.rest| < |t|
    decreases |t|, 0
  {
    if t == [] then Malformed
    else if t[0] == NULL_TEXT[0] then ReadWord(NULL_TEXT, Null, t)
    else if t[0] == TRUE_TEXT[0] then ReadWord(TRUE_TEXT, Bool(true), t)
    else if t[0] == FALSE_TEXT[0] then ReadWord(FALSE_TEXT, Bool(false), t)
    else if t[0] == QUOTE then
      match ReadBody(t[1..])
      case Malformed => Malformed
      case Parsed(s, rest) => Parsed(Str(s), rest)
    else if t[0] == OPEN_BRACKET then
      match ParseItems(t[1..])
      case Malformed => Malformed
      case Parsed(items, rest) => Parsed(Arr(items), rest)
    else if t[0] == OPEN_BRACE then
      match ParseMembers(t[1..])
      case Malformed => Malformed
      case Parsed(members, rest) => Parsed(Rec(members), rest)
    else ReadNumeral(t)
  }

  /** Items up to the closing bracket, which is consumed. */
  function ParseItems(t: Text): (r: Parsed<seq<Tree>>)
    ensures r.Parsed? ==> |r.rest| < |t|
    decreases |t|, 2
  {
    if t != [] && t[0] == CLOSE_BRACKET then Parsed([], t[1..]) else ParseItemsTail(t)
  }

  function ParseItemsTail(t: Text): (r: Parsed<seq<Tree>>)
    ensures r.Parsed? ==> |r.rest| < |t|
    decreases |t|, 1
  {
    match Parse(t)
    case Malformed => Malformed
    case Parsed(item, rest) =>
      if rest == [] then Malformed
      else if rest[0] == CLOSE_BRACKET then Parsed([item], rest[1..])
      else if rest[0] != COMMA then Malformed
      else
        match ParseItemsTail(rest[1..])
        case Malformed => Malformed
        case Parsed(items, rest') => Parsed([item] + items, rest')
  }

  function ParseMember(t: Text): (r: Parsed<Member>)
    ensures r.Parsed? ==> |r.rest| < |t|
    decreases |t|, 1
  {
    if t == [] || t[0] != QUOTE then Malformed
    else
      match ReadBody(t[1..])
      case Malformed => Malformed
      case Parsed(key, rest) =>
        if rest == [] || rest[0] != COLON then Malformed
        else
          match Parse(rest[1..])
          case Malformed => Malformed
          case Parsed(value, rest') => Parsed(Member(key, value), rest')
  }

  /** Members up to the closing brace, which is consumed. */
  function ParseMembers(t: Text): (r: Parsed<seq<Member>>)
    ensures r.Parsed? ==> |r.rest| < |t|
    decreases |t|, 3
  {
    if t != [] && t[0] == CLOSE_BRACE then Parsed([], t[1..]) else ParseMembersTail(t)
  }

  function ParseMembersTail(t: Text): (r: Parsed<seq<Member>>)
    ensures r.Parsed? ==> |r.rest| < |t|
    decreases |t|, 2
  {
    match ParseMember(t)
    case Malformed => Malformed
    case Parsed(m, rest) =>
      if rest == [] then Malformed
      else if rest[0] == CLOSE_BRACE then Parsed([m], rest[1..])
      else if rest[0] != COMMA then Malformed
      else
        match ParseMembersTail(rest[1..])
        case Malformed => Malformed
        case Parsed(members, rest') => Parsed([m] + members, rest')
  }

  // ----- The parser undoes the printer -----

  lemma HexDigitReads(n: int)
    requires 0 <= n < 16
    ensures HexValue(HexDigit(n)) == Some(n)
  {
  }

  lemma HexDigitsAddUp(u: CodeUnit)
    ensures 0x1000 * (u / 0x1000) + 0x100 * (u / 0x100 % 16) + 16 * (u / 16 % 16) + u % 16 == u
  {
    var a := u / 16;
    var b := a / 16;
    assert b == u / 0x100 && b / 16 == u / 0x1000;
    assert u == 16 * a + u % 16 && a == 16 * b + a % 16 && b == 16 * (b / 16) + b % 16;
  }

  lemma HexEscapeReads(u: CodeUnit, rest: Text)
    ensures ReadUnit(HexEscape(u) + rest) == Parsed(u, rest)
  {
    var t := HexEscape(u) + rest;
    HexDigitsAddUp(u);
    HexDigitReads(u / 0x1000);
    HexDigitReads(u / 0x100 % 16);
    HexDigitReads(u / 16 % 16);
    HexDigitReads(u % 16);
    assert t[..6] == HexEscape(u) && t[6..] == rest;
  }

  lemma QuoteUnitReads(u: CodeUnit, rest: Text)
    ensures ReadUnit(QuoteUnit(u) + rest) == Parsed(u, rest)
  {
    var t := QuoteUnit(u) + rest;
    HexEscapeReads(u, rest);
    assert |QuoteUnit(u)| == 1 ==> t[1..] == rest;
    assert |QuoteUnit(u)| == 2 ==> t[2..] == rest;
  }

  /** One more character in front of a body that is read as `s`. */
  lemma ReadBodyStep(unit: Text, u: CodeUnit, t: Text, s: Text, rest: Text)
    requires unit != [] && unit[0] != QUOTE
    requires ReadUnit(unit + t) == Parsed(u, t)
    requires ReadBody(t) == Parsed(s, rest)
    ensures ReadBody(unit + t) == Parsed([u] + s, rest)
  {
  }

  lemma SurrogateReads(u: CodeUnit, t: Text)
    requires IsLead(u) || IsTrail(u)
    ensures ReadUnit([u] + t) == Parsed(u, t)
  {
  }

  lemma Regroup(a: Text, b: Text, c: Text)
    ensures (a + b) + c == a + (b + c)
  {
  }

  lemma {:induction false} QuoteReads(s: Text, rest: Text)
    ensures ReadBody(QuoteBody(s) + ([QUOTE] + rest)) == Parsed(s, rest)
  {
    var close := [QUOTE] + rest;
    if s == [] {
      assert QuoteBody(s) + close == close;
    } else if |s| >= 2 && IsLead(s[0]) && IsTrail(s[1]) {
      QuoteReads(s[2..], rest);
      PairReads(s, QuoteBody(s[2..]) + close, rest);
      Regroup(s[..2], QuoteBody(s[2..]), close);
    } else {
      var t := QuoteBody(s[1..]) + close;
      QuoteReads(s[1..], rest);
      QuoteUnitReads(s[0], t);
      ReadBodyStep(QuoteUnit(s[0]), s[0], t, s[1..], rest);
      Regroup(QuoteUnit(s[0]), QuoteBody(s[1..]), close);
      assert [s[0]] + s[1..] == s;
    }
  }

  lemma PairReads(s: Text, t: Text, rest: Text)
    requires |s| >= 2 && IsLead(s[0]) && IsTrail(s[1])
    requires ReadBody(t) == Parsed(s[2..], rest)
    ensures ReadBody(s[..2] + t) == Parsed(s, rest)
  {
    SurrogateReads(s[1], t);
    ReadBodyStep([s[1]], s[1], t, s[2..], rest);
    SurrogateReads(s[0], [s[1]] + t);
    ReadBodyStep([s[0]], s[0], [s[1]] + t, [s[1]] + s[2..], rest);
    assert s[..2] + t == [s[0]] + ([s[1]] + t);
    assert [s[0]] + ([s[1]] + s[2..]) == s;
  }

  predicate Plain(s: Text) {
    forall i :: 0 <= i < |s| ==> !IsLead(s[i]) && !IsTrail(s[i])
  }

  /** No text of a unit is shorter than its quotation. */
  lemma ReadUnitLength(t: Text)
    requires ReadUnit(t).Parsed? && !IsLead(ReadUnit(t).value) && !IsTrail(ReadUnit(t).value)
    ensures |t| - |ReadUnit(t).rest| >= |QuoteUnit(ReadUnit(t).value)|
  {
  }

  /** Of all the texts that are read as a string without surrogates, the quotation is a shortest one. */
  lemma {:induction false} QuoteIsShortest(t: Text)
    requires ReadBody(t).Parsed? && Plain(ReadBody(t).value)
    ensures |QuoteBody(ReadBody(t).value)| + 1 <= |t| - |ReadBody(t).rest|
    decreases |t|
  {
    hide QuoteUnit, ReadUnit;
    if !(t != [] && t[0] == QUOTE) {
      var unit, s := ReadUnit(t), ReadBody(t).value;
      var tail := ReadBody(unit.rest);
      assert s == [unit.value] + tail.value && s[1..] == tail.value;
      assert s[0] == unit.value && forall i :: 0 <= i < |tail.value| ==> tail.value[i] == s[i + 1];
      ReadUnitLength(t);
      QuoteIsShortest(unit.rest);
    }
  }

  /** Surrogates stand in pairs only. */
  predicate Paired(t: Text) {
    t == [] || (if IsLead(t[0]) then |t| >= 2 && IsTrail(t[1]) && Paired(t[2..]) else !IsTrail(t[0]) && Paired(t[1..]))
  }

  /** The units of an escape: the backslash, the letters b, f, n, r, t and u, and lower-case hexadecimal digits. */
  predicate Added(u: CodeUnit) {
    u == BACKSLASH || 0x30 <= u <= 0x39 || 0x61 <= u <= 0x66 || u == 0x6E || u == 0x72 || u == 0x74 || u == LOWER_U
  }

  lemma QuoteUnitAdds(u: CodeUnit)
    ensures forall i :: 0 <= i < |QuoteUnit(u)| ==>
      !IsLead(QuoteUnit(u)[i]) && !IsTrail(QuoteUnit(u)[i]) && QuoteUnit(u)[i] >= 0x20
      && (QuoteUnit(u)[i] == u || Added(QuoteUnit(u)[i]))
  {
  }

  lemma {:induction false} PairedJoins(a: Text, b: Text)
    requires Plain(a) && Paired(b)
    ensures Paired(a + b)
  {
    if a == [] {
      assert a + b == b;
    } else {
      assert (a + b)[1..] == a[1..] + b;
      PairedJoins(a[1..], b);
    }
  }

  /** Every quotation is well-formed UTF-16 without control characters, and adds nothing but units of escapes. */
  lemma {:induction false} QuoteIsWellFormed(s: Text)
    ensures Paired(QuoteBody(s))
    ensures forall i :: 0 <= i < |QuoteBody(s)| ==>
      QuoteBody(s)[i] >= 0x20 && (QuoteBody(s)[i] in s || Added(QuoteBody(s)[i]))
  {
    hide QuoteUnit, Added;
    if s == [] {
    } else if |s| >= 2 && IsLead(s[0]) && IsTrail(s[1]) {
      QuoteIsWellFormed(s[2..]);
      assert QuoteBody(s)[2..] == QuoteBody(s[2..]);
      forall i | 0 <= i < |QuoteBody(s)|
        ensures QuoteBody(s)[i] >= 0x20 && (QuoteBody(s)[i] in s || Added(QuoteBody(s)[i]))
      {
        if i >= 2 { assert QuoteBody(s)[i] == QuoteBody(s[2..])[i - 2]; }
      }
    } else {
      var unit, tail := QuoteUnit(s[0]), QuoteBody(s[1..]);
      QuoteIsWellFormed(s[1..]);
      QuoteUnitAdds(s[0]);
      PairedJoins(unit, tail);
      forall i | 0 <= i < |QuoteBody(s)|
        ensures QuoteBody(s)[i] >= 0x20 && (QuoteBody(s)[i] in s || Added(QuoteBody(s)[i]))
      {
        if i < |unit| { assert QuoteBody(s)[i] == unit[i]; } else { assert QuoteBody(s)[i] == tail[i - |unit|]; }
      }
    }
  }

  /** What may follow a value inside a canonical text. */
  predicate Delimited(rest: Text) {
    rest == [] || rest[0] == COMMA || rest[0] == CLOSE_BRACKET || rest[0] == CLOSE_BRACE
  }

  lemma {:induction false} NumeralReads(n: Text, rest: Text)
    requires forall i :: 0 <= i < |n| ==> IsNumeralUnit(n[i])
    requires Delimited(rest)
    ensures NumeralLength(n + rest) == |n|
  {
    if n == [] {
      assert n + rest == rest;
    } else {
      NumeralReads(n[1..], rest);
      assert (n + rest)[1..] == n[1..] + rest;
    }
  }

  lemma WrapShape(open: CodeUnit, inner: Text, close: CodeUnit, rest: Text)
    ensures ([open] + inner + [close]) + rest == [open] + (inner + ([close] + rest))
  {
  }

  /** A quoted string is read back as itself. */
  lemma QuotedReads(s: Text, rest: Text)
    ensures (Quote(s) + rest)[0] == QUOTE
    ensures ReadBody((Quote(s) + rest)[1..]) == Parsed(s, rest)
  {
    QuoteReads(s, rest);
    WrapShape(QUOTE, QuoteBody(s), QUOTE, rest);
    var body := QuoteBody(s) + ([QUOTE] + rest);
    assert ([QUOTE] + body)[1..] == body;
  }

  /** Every rendered value starts with a unit that is no delimiter. */
  lemma RenderStarts(t: Tree)
    ensures Render(t) != [] && !Delimited(Render(t))
  {
  }

  lemma ParseScalar(t: Tree, rest: Text)
    requires t.Null? || t.Bool? || t.Str?
    ensures Parse(Render(t) + rest) == Parsed(t, rest)
  {
    var text := Render(t) + rest;
    assert text[..|Render(t)|] == Render(t) && text[|Render(t)|..] == rest;
    if t.Str? {
      QuotedReads(t.text, rest);
    }
  }

  lemma ParseNumber(n: Numeral, rest: Text)
    requires Delimited(rest)
    ensures Parse(n + rest) == Parsed(Number(n), rest)
  {
    NumeralReads(n, rest);
    assert (n + rest)[..|n|] == n && (n + rest)[|n|..] == rest;
  }

  lemma ParseBracketed(inner: Text, items: seq<Tree>, rest: Text)
    requires ParseItems(inner) == Parsed(items, rest)
    ensures Parse([OPEN_BRACKET] + inner) == Parsed(Arr(items), rest)
  {
    assert ([OPEN_BRACKET] + inner)[1..] == inner;
  }

  lemma ParseBraced(inner: Text, members: seq<Member>, rest: Text)
    requires ParseMembers(inner) == Parsed(members, rest)
    ensures Parse([OPEN_BRACE] + inner) == Parsed(Rec(members), rest)
  {
    assert ([OPEN_BRACE] + inner)[1..] == inner;
  }

  lemma {:induction false} ParseRender(t: Tree, rest: Text)
    requires Delimited(rest)
    ensures Parse(Render(t) + rest) == Parsed(t, rest)
    decreases t, 0
  {
    match t
    case Number(n) =>
      ParseNumber(n, rest);
    case Arr(items) =>
      ParseRenderItems(items, rest);
      ParseBracketed(RenderItems(items) + ([CLOSE_BRACKET] + rest), items, rest);
      WrapShape(OPEN_BRACKET, RenderItems(items), CLOSE_BRACKET, rest);
    case Rec(members) =>
      ParseRenderMembers(members, rest);
      ParseBraced(RenderMembers(members) + ([CLOSE_BRACE] + rest), members, rest);
      WrapShape(OPEN_BRACE, RenderMembers(members), CLOSE_BRACE, rest);
    case _ =>
      ParseScalar(t, rest);
  }

  lemma {:induction false} ParseRenderItems(items: seq<Tree>, rest: Text)
    ensures ParseItems(RenderItems(items) + ([CLOSE_BRACKET] + rest)) == Parsed(items, rest)
    decreases items, 2
  {
    var close := [CLOSE_BRACKET] + rest;
    if items == [] {
      assert RenderItems(items) + close == close;
    } else {
      ParseRenderItemsTail(items, rest);
      RenderStarts(items[0]);
      assert RenderItems(items)[0] == Render(items[0])[0];
    }
  }

  lemma ItemsTailStep(t: Text, item: Tree, tail: Text, items: seq<Tree>, rest: Text)
    requires Parse(t) == Parsed(item, [COMMA] + tail)
    requires ParseItemsTail(tail) == Parsed(items, rest)
    ensures ParseItemsTail(t) == Parsed([item] + items, rest)
  {
    assert ([COMMA] + tail)[1..] == tail;
  }

  lemma {:induction false} ParseRenderItemsTail(items: seq<Tree>, rest: Text)
    requires items != []
    ensures ParseItemsTail(RenderItems(items) + ([CLOSE_BRACKET] + rest)) == Parsed(items, rest)
    decreases items, 1
  {
    var close := [CLOSE_BRACKET] + rest;
    if |items| == 1 {
      ParseRender(items[0], close);
      assert close[1..] == rest;
      assert RenderItems(items) == Render(items[0]);
      assert items == [items[0]];
    } else {
      var tail := RenderItems(items[1..]) + close;
      ParseRenderItemsTail(items[1..], rest);
      ParseRender(items[0], [COMMA] + tail);
      ItemsTailStep(Render(items[0]) + ([COMMA] + tail), items[0], tail, items[1..], rest);
      JoinShape(Render(items[0]), RenderItems(items[1..]), close);
      assert [items[0]] + items[1..] == items;
    }
  }

  lemma JoinShape(head: Text, others: Text, close: Text)
    ensures (head + [COMMA] + others) + close == head + ([COMMA] + (others + close))
  {
  }

  lemma MemberShape(key: Text, value: Text, rest: Text)
    ensures (key + [COLON] + value) + rest == key + ([COLON] + (value + rest))
  {
  }

  lemma {:induction false} ParseRenderMember(m: Member, rest: Text)
    requires Delimited(rest)
    ensures ParseMember(RenderMember(m) + rest) == Parsed(m, rest)
    ensures RenderMember(m)[0] == QUOTE
    decreases m, 0
  {
    var value := Render(m.value) + rest;
    QuotedReads(m.key, [COLON] + value);
    ParseRender(m.value, rest);
    assert ([COLON] + value)[1..] == value;
    MemberShape(Quote(m.key), Render(m.value), rest);
  }

  lemma {:induction false} ParseRenderMembers(members: seq<Member>, rest: Text)
    ensures ParseMembers(RenderMembers(members) + ([CLOSE_BRACE] + rest)) == Parsed(members, rest)
    decreases members, 2
  {
    var close := [CLOSE_BRACE] + rest;
    if members == [] {
      assert RenderMembers(members) + close == close;
    } else {
      ParseRenderMembersTail(members, rest);
      assert RenderMembers(members)[0] == RenderMember(members[0])[0] == QUOTE;
    }
  }

  lemma MembersTailStep(t: Text, m: Member, tail: Text, members: seq<Member>, rest: Text)
    requires ParseMember(t) == Parsed(m, [COMMA] + tail)
    requires ParseMembersTail(tail) == Parsed(members, rest)
    ensures ParseMembersTail(t) == Parsed([m] + members, rest)
  {
    assert ([COMMA] + tail)[1..] == tail;
  }

  lemma {:induction false} ParseRenderMembersTail(members: seq<Member>, rest: Text)
    requires members != []
    ensures ParseMembersTail(RenderMembers(members) + ([CLOSE_BRACE] + rest)) == Parsed(members, rest)
    decreases members, 1
  {
    var close := [CLOSE_BRACE] + rest;
    if |members| == 1 {
      ParseRenderMember(members[0], close);
      assert close[1..] == rest;
      assert RenderMembers(members) == RenderMember(members[0]);
      assert members == [members[0]];
    } else {
      var tail := RenderMembers(members[1..]) + close;
      ParseRenderMembersTail(members[1..], rest);
      ParseRenderMember(members[0], [COMMA] + tail);
      MembersTailStep(RenderMember(members[0]) + ([COMMA] + tail), members[0], tail, members[1..], rest);
      JoinShape(RenderMember(members[0]), RenderMembers(members[1..]), close);
      assert [members[0]] + members[1..] == members;
    }
  }

  /** The printed form is uniquely decodable. */
  lemma RenderInjective(t1: Tree, t2: Tree)
    ensures Render(t1) == Render(t2) ==> t1 == t2
  {
    ParseRender(t1, []);
    ParseRender(t2, []);
    assert Render(t1) + [] == Render(t1);
    assert Render(t2) + [] == Render(t2);
  }
}

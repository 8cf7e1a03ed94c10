/** The part of JSON that order payloads use: strings with all their escapes, numbers with up
    to two decimals, arrays and objects, written without white space. Numbers are kept in
    hundredths. */
module Json {

  datatype Option<+T> = None | Some(value: T)

  datatype Json =
    | Num(hundredths: int)
    | Str(text: string)
    | Arr(elements: seq<Json>)
    | Obj(members: seq<(string, Json)>)

  /** A value read from the front of a text, and what follows it. */
  datatype Read<+T> = Read(value: T, rest: string)

  // ------------------------------------------------------------------------- characters

  function Digit(d: nat): char
    requires d < 16
  {
    if d < 10 then '0' + d as char else 'a' + (d - 10) as char
  }

  predicate IsDigit(c: char) {
    '0' <= c <= '9'
  }

  function DigitOf(c: char): nat
    requires IsDigit(c)
  {
    (c - '0') as nat
  }

  function HexOf(c: char): Option<nat> {
    if IsDigit(c) then Some(DigitOf(c))
    else if 'a' <= c <= 'f' then Some((c - 'a') as nat + 10)
    else if 'A' <= c <= 'F' then Some((c - 'A') as nat + 10)
    else None
  }

  // -------------------------------------------------------------------------- stringify

  function EscapeChar(c: char): string {
    if c == '\"' then "\\\""
    else if c == '\\' then "\\\\"
    else if c == '\U{8}' then "\\b"
    else if c == '\U{C}' then "\\f"
    else if c == '\n' then "\\n"
    else if c == '\r' then "\\r"
    else if c == '\t' then "\\t"
    else if c < ' ' then "\\u00" + [Digit(c as nat / 16), Digit(c as nat % 16)]
    else [c]
  }

  function Escape(s: string): string {
    if s == "" then "" else EscapeChar(s[0]) + Escape(s[1..])
  }

  function Quote(s: string): string {
    "\"" + Escape(s) + "\""
  }

  function Digits(n: nat): string {
    if n < 10 then [Digit(n)] else Digits(n / 10) + [Digit(n % 10)]
  }

  function Fraction(h: nat): string
    requires h < 100
  {
    if h == 0 then ""
    else if h % 10 == 0 then ['.', Digit(h / 10)]
    else ['.', Digit(h / 10), Digit(h % 10)]
  }

  function Number(h: int): string {
    if h < 0 then "-" + Digits(-h / 100) + Fraction(-h % 100)
    else Digits(h / 100) + Fraction(h % 100)
  }

  function Stringify(j: Json): string
    decreases j, 1, 0
  {
    match j
    case Num(h) => Number(h)
    case Str(s) => Quote(s)
    case Arr(es) => "[" + Elements(j, 0)
    case Obj(ms) => "{" + Members(j, 0)
  }

  /** The elements of an array from the `i`th on, and the closing bracket. */
  function Elements(j: Json, i: nat): string
    requires j.Arr? && i <= |j.elements|
    decreases j, 0, |j.elements| - i
  {
    if i == |j.elements| then "]"
    else (if i == 0 then "" else ",") + Stringify(j.elements[i]) + Elements(j, i + 1)
  }

  function Members(j: Json, i: nat): string
    requires j.Obj? && i <= |j.members|
    decreases j, 0, |j.members| - i
  {
    if i == |j.members| then "}"
    else (if i == 0 then "" else ",") + Quote(j.members[i].0) + ":" + Stringify(j.members[i].1) + Members(j, i + 1)
  }

  // ------------------------------------------------------------------------------ parse

  /** The digits at the front of a text. */
  function Span(s: string): (n: nat)
    ensures n <= |s|
  {
    if s != "" && IsDigit(s[0]) then 1 + Span(s[1..]) else 0
  }

  function Value(ds: string): nat
    requires forall i | 0 <= i < |ds| :: IsDigit(ds[i])
  {
    if ds == "" then 0 else 10 * Value(ds[..|ds| - 1]) + DigitOf(ds[|ds| - 1])
  }

  lemma {:induction false} SpanDigits(s: string)
    ensures forall i | 0 <= i < Span(s) :: IsDigit(s[i])
    ensures Span(s) < |s| ==> !IsDigit(s[Span(s)])
  {
    if s != "" && IsDigit(s[0]) {
      SpanDigits(s[1..]);
      forall i | 0 <= i < Span(s) ensures IsDigit(s[i]) {
        if i > 0 { assert s[i] == s[1..][i - 1]; }
      }
    }
  }

  function ReadNat(s: string): (r: Option<Read<nat>>)
    ensures r.Some? ==> |r.value.rest| < |s|
  {
    var n := Span(s);
    SpanDigits(s);
    if n == 0 || (n > 1 && s[0] == '0') then None else Some(Read(Value(s[..n]), s[n..]))
  }

  /** Hundredths after a decimal point; none without one. */
  function ReadFraction(s: string): (r: Option<Read<nat>>)
    ensures r.Some? ==> |r.value.rest| <= |s|
  {
    if s == "" || s[0] != '.' then Some(Read(0, s))
    else
      var n := Span(s[1..]);
      SpanDigits(s[1..]);
      if n == 1 then Some(Read(10 * DigitOf(s[1]), s[2..]))
      else if n == 2 then
        assert s[2] == s[1..][1];
        Some(Read(10 * DigitOf(s[1]) + DigitOf(s[2]), s[3..]))
      else None
  }

  function ReadMagnitude(s: string): (r: Option<Read<nat>>)
    ensures r.Some? ==> |r.value.rest| < |s|
  {
    match ReadNat(s)
    case None => None
    case Some(whole) =>
      match ReadFraction(whole.rest)
      case None => None
      case Some(part) => Some(Read(100 * whole.value + part.value, part.rest))
  }

  /** The character an escape stands for; `s` follows the backslash. */
  function ReadEscape(s: string): (r: Option<Read<char>>)
    ensures r.Some? ==> |r.value.rest| < |s|
  {
    if s == "" then None
    else if s[0] == '\"' || s[0] == '\\' || s[0] == '/' then Some(Read(s[0], s[1..]))
    else if s[0] == 'b' then Some(Read('\U{8}', s[1..]))
    else if s[0] == 'f' then Some(Read('\U{C}', s[1..]))
    else if s[0] == 'n' then Some(Read('\n', s[1..]))
    else if s[0] == 'r' then Some(Read('\r', s[1..]))
    else if s[0] == 't' then Some(Read('\t', s[1..]))
    else if s[0] == 'u' && |s| >= 5 then
      match (HexOf(s[1]), HexOf(s[2]), HexOf(s[3]), HexOf(s[4]))
      case (Some(a), Some(b), Some(c), Some(d)) => ReadUnit(a, b, c, d, s[5..])
      case _ => None
    else None
  }

  /** One UTF-16 unit that is a character by itself. */
  function ReadUnit(a: nat, b: nat, c: nat, d: nat, rest: string): (r: Option<Read<char>>)
    ensures r.Some? ==> r.value.rest == rest
  {
    var unit := 4096 * a + 256 * b + 16 * c + d;
    if unit < 0xD800 || 0xE000 <= unit < 0x10000 then Some(Read(unit as char, rest)) else None
  }

  /** The text up to the closing quote; `s` follows the opening one. */
  function ReadString(s: string): (r: Option<Read<string>>)
    ensures r.Some? ==> |r.value.rest| < |s|
    decreases |s|
  {
    if s == "" || s[0] < ' ' then None
    else if s[0] == '\"' then Some(Read("", s[1..]))
    else
      var c := if s[0] == '\\' then ReadEscape(s[1..]) else Some(Read(s[0], s[1..]));
      if c.None? then None
      else
        match ReadString(c.value.rest)
        case None => None
        case Some(more) => Some(Read([c.value.value] + more.value, more.rest))
  }

  function ReadNumber(s: string): (r: Option<Read<Json>>)
    ensures r.Some? ==> |r.value.rest| < |s|
  {
    if s != "" && s[0] == '-' then
      match ReadMagnitude(s[1..])
      case None => None
      case Some(n) => Some(Read(Num(-(n.value as int)), n.rest))
    else
      match ReadMagnitude(s)
      case None => None
      case Some(n) => Some(Read(Num(n.value), n.rest))
  }

  function ReadJson(s: string): (r: Option<Read<Json>>)
    ensures r.Some? ==> |r.value.rest| < |s|
    decreases |s|, 0
  {
    if s == "" then None
    else if s[0] == '\"' then
      match ReadString(s[1..])
      case None => None
      case Some(t) => Some(Read(Str(t.value), t.rest))
    else if s[0] == '[' then
      match ReadElements(s[1..], true)
      case None => None
      case Some(es) => Some(Read(Arr(es.value), es.rest))
    else if s[0] == '{' then
      match ReadMembers(s[1..], true)
      case None => None
      case Some(ms) => Some(Read(Obj(ms.value), ms.rest))
    else ReadNumber(s)
  }

  /** The elements up to the closing bracket, each but the first after a comma. */
  function ReadElements(s: string, first: bool): (r: Option<Read<seq<Json>>>)
    ensures r.Some? ==> |r.value.rest| < |s|
    decreases |s|, 1
  {
    if s == "" then None
    else if s[0] == ']' then Some(Read([], s[1..]))
    else if !first && s[0] != ',' then None
    else
      match ReadJson(if first then s else s[1..])
      case None => None
      case Some(e) =>
        match ReadElements(e.rest, false)
        case None => None
        case Some(more) => Some(Read([e.value] + more.value, more.rest))
  }

  function ReadMembers(s: string, first: bool): (r: Option<Read<seq<(string, Json)>>>)
    ensures r.Some? ==> |r.value.rest| < |s|
    decreases |s|, 1
  {
    if s == "" then None
    else if s[0] == '}' then Some(Read([], s[1..]))
    else
      match ReadMember(s, first)
      case None => None
      case Some(m) =>
        match ReadMembers(m.rest, false)
        case None => None
        case Some(more) => Some(Read([m.value] + more.value, more.rest))
  }

  function ReadMember(s: string, first: bool): (r: Option<Read<(string, Json)>>)
    ensures r.Some? ==> |r.value.rest| < |s|
    decreases |s|, 0
  {
    var t := if first then s else if s != "" && s[0] == ',' then s[1..] else "";
    if t == "" || t[0] != '\"' then None
    else
      match ReadString(t[1..])
      case None => None
      case Some(key) =>
        if key.rest == "" || key.rest[0] != ':' then None
        else
          match ReadJson(key.rest[1..])
          case None => None
          case Some(v) => Some(Read((key.value, v.value), v.rest))
  }

  /** `JSON.parse`: the whole text is one value. */
  function Parse(s: string): Option<Json> {
    match ReadJson(s)
    case None => None
    case Some(r) => if r.rest == "" then Some(r.value) else None
  }

  // ------------------------------------------------------------------------- round trips

  /** Every character, escaped or not, is read back. */
  lemma EscapedChar(c: char, rest: string)
    ensures var s := EscapeChar(c) + rest;
            && s != "" && s[0] >= ' ' && s[0] != '\"'
            && (if s[0] == '\\' then ReadEscape(s[1..]) else Some(Read(s[0], s[1..]))) == Some(Read(c, rest))
  {
    var s := EscapeChar(c) + rest;
    if c < ' ' && s[1] == 'u' {
      assert s[1..][5..] == rest;
    } else if s[0] == '\\' {
      assert s[1..][1..] == rest;
    } else {
      assert s[1..] == rest;
    }
  }

  /** Every string, quoted, is read back up to its closing quote. */
  lemma {:induction false} QuotedString(t: string, rest: string)
    ensures ReadString(Escape(t) + "\"" + rest) == Some(Read(t, rest))
  {
    var s := Escape(t) + "\"" + rest;
    if t == "" {
      assert s[1..] == rest;
    } else {
      var after := Escape(t[1..]) + "\"" + rest;
      assert s == EscapeChar(t[0]) + after;
      EscapedChar(t[0], after);
      QuotedString(t[1..], rest);
      assert [t[0]] + t[1..] == t;
    }
  }

  /** Nothing in it is escaped. */
  predicate Plain(s: string) {
    forall i | 0 <= i < |s| :: s[i] >= ' ' && s[i] != '\"' && s[i] != '\\'
  }

  lemma {:induction false} PlainText(s: string)
    requires Plain(s)
    ensures Escape(s) == s
  {
    if s != "" {
      PlainText(s[1..]);
      assert [s[0]] + s[1..] == s;
    }
  }

  lemma PricesAreWritten()
    ensures Number(1250) == "12.5" && Number(1205) == "12.05" && Number(300) == "3" && Number(-7) == "-0.07"
  {
    assert Digits(12) == Digits(1) + Digits(2);
  }

  lemma DigitBack(d: nat)
    requires d < 10
    ensures IsDigit(Digit(d)) && DigitOf(Digit(d)) == d
  {
  }

  predicate AllDigits(s: string) {
    forall i | 0 <= i < |s| :: IsDigit(s[i])
  }

  /** Decimal digits are read back as the number, with no leading zero. */
  lemma {:induction false} DigitsBack(n: nat)
    ensures Digits(n) != "" && AllDigits(Digits(n)) && Value(Digits(n)) == n
    ensures |Digits(n)| > 1 ==> Digits(n)[0] != '0'
  {
    if n < 10 {
      DigitBack(n);
      assert Digits(n)[..0] == "";
    } else {
      DigitsBack(n / 10);
      DigitBack(n % 10);
      assert Digits(n)[..|Digits(n)| - 1] == Digits(n / 10);
      if |Digits(n / 10)| == 1 { LeadingDigit(n / 10); }
    }
  }

  lemma LeadingDigit(n: nat)
    requires n >= 1
    ensures |Digits(n)| == 1 ==> Digits(n)[0] != '0'
  {
    if n >= 10 { DigitsNotEmpty(n / 10); }
  }

  lemma DigitsNotEmpty(n: nat)
    ensures |Digits(n)| >= 1
  {
  }

  predicate StartsWithDigit(s: string) {
    s != "" && IsDigit(s[0])
  }

  lemma {:induction false} SpanOf(ds: string, rest: string)
    requires AllDigits(ds) && !StartsWithDigit(rest)
    ensures Span(ds + rest) == |ds|
  {
    if ds == "" {
      assert ds + rest == rest;
    } else {
      assert (ds + rest)[1..] == ds[1..] + rest;
      SpanOf(ds[1..], rest);
    }
  }

  lemma NatBack(n: nat, rest: string)
    requires !StartsWithDigit(rest)
    ensures ReadNat(Digits(n) + rest) == Some(Read(n, rest))
  {
    var ds := Digits(n);
    DigitsBack(n);
    SpanOf(ds, rest);
    assert (ds + rest)[..|ds|] == ds && (ds + rest)[|ds|..] == rest;
  }

  /** What may follow a number: nothing that could be read as more of it. */
  predicate Delimited(rest: string) {
    rest == "" || rest[0] == ',' || rest[0] == ']' || rest[0] == '}'
  }

  lemma FractionBack(h: nat, rest: string)
    requires h < 100 && Delimited(rest)
    ensures ReadFraction(Fraction(h) + rest) == Some(Read(h, rest))
    ensures !StartsWithDigit(Fraction(h) + rest)
  {
    var s := Fraction(h) + rest;
    DigitBack(h / 10);
    DigitBack(h % 10);
    if h == 0 {
      assert s == rest;
    } else if h % 10 == 0 {
      assert s[1..] == [Digit(h / 10)] + rest;
      SpanOf([Digit(h / 10)], rest);
      assert s[2..] == rest;
    } else {
      assert s[1..] == [Digit(h / 10), Digit(h % 10)] + rest;
      SpanOf([Digit(h / 10), Digit(h % 10)], rest);
      assert s[3..] == rest;
    }
  }

  lemma Assoc(a: string, b: string, c: string)
    ensures (a + b) + c == a + (b + c)
  {
  }

  /** Dropping the first character. */
  lemma Tail(c: char, s: string)
    ensures ([c] + s)[0] == c && ([c] + s)[1..] == s
  {
  }

  lemma MagnitudeBack(whole: nat, part: nat, rest: string)
    requires part < 100 && Delimited(rest)
    ensures ReadMagnitude(Digits(whole) + (Fraction(part) + rest)) == Some(Read(100 * whole + part, rest))
    ensures Digits(whole) != "" && IsDigit((Digits(whole) + (Fraction(part) + rest))[0])
  {
    FractionBack(part, rest);
    NatBack(whole, Fraction(part) + rest);
    MagnitudeParts(Digits(whole) + (Fraction(part) + rest), whole, Fraction(part) + rest, part, rest);
    DigitsBack(whole);
  }

  lemma MagnitudeParts(text: string, whole: nat, middle: string, part: nat, rest: string)
    requires ReadNat(text) == Some(Read(whole, middle)) && ReadFraction(middle) == Some(Read(part, rest))
    ensures ReadMagnitude(text) == Some(Read(100 * whole + part, rest))
  {
  }

  /** A text that starts like a number is read as one. */
  lemma ReadAsNumber(text: string)
    requires text != "" && (IsDigit(text[0]) || text[0] == '-')
    ensures ReadJson(text) == ReadNumber(text)
  {
  }

  lemma DigitRead(text: string, m: nat, rest: string)
    requires text != "" && IsDigit(text[0]) && ReadMagnitude(text) == Some(Read(m, rest))
    ensures ReadNumber(text) == Some(Read(Num(m), rest))
  {
  }

  lemma MinusRead(text: string, m: nat, rest: string)
    requires ReadMagnitude(text) == Some(Read(m, rest))
    ensures ReadNumber(['-'] + text) == Some(Read(Num(-(m as int)), rest))
  {
    Tail('-', text);
  }

  lemma PositiveBack(whole: nat, part: nat, rest: string)
    requires part < 100 && Delimited(rest)
    ensures ReadJson(Digits(whole) + Fraction(part) + rest) == Some(Read(Num(100 * whole + part), rest))
  {
    var text := Digits(whole) + (Fraction(part) + rest);
    Assoc(Digits(whole), Fraction(part), rest);
    MagnitudeBack(whole, part, rest);
    DigitRead(text, 100 * whole + part, rest);
    ReadAsNumber(text);
  }

  lemma NegativeBack(whole: nat, part: nat, rest: string)
    requires part < 100 && Delimited(rest)
    ensures ReadJson("-" + Digits(whole) + Fraction(part) + rest) == Some(Read(Num(-(100 * whole + part)), rest))
  {
    var text := Digits(whole) + (Fraction(part) + rest);
    NegativeText(Digits(whole), Fraction(part), rest);
    MagnitudeBack(whole, part, rest);
    MinusRead(text, 100 * whole + part, rest);
    ReadAsNumber(['-'] + text);
  }

  lemma NumberBack(h: int, rest: string)
    requires Delimited(rest)
    ensures ReadJson(Number(h) + rest) == Some(Read(Num(h), rest))
  {
    if h < 0 { BelowZeroBack(h, rest); } else { FromZeroBack(h, rest); }
  }

  lemma FromZeroBack(h: int, rest: string)
    requires h >= 0 && Delimited(rest)
    ensures ReadJson(Number(h) + rest) == Some(Read(Num(h), rest))
  {
    var (whole, part) := (h / 100, h % 100);
    PositiveBack(whole, part, rest);
    assert Number(h) == Digits(whole) + Fraction(part);
    assert 100 * whole + part == h;
  }

  lemma BelowZeroBack(h: int, rest: string)
    requires h < 0 && Delimited(rest)
    ensures ReadJson(Number(h) + rest) == Some(Read(Num(h), rest))
  {
    var (whole, part) := (-h / 100, -h % 100);
    NegativeBack(whole, part, rest);
    assert Number(h) == "-" + Digits(whole) + Fraction(part);
    assert -(100 * whole + part) == h;
  }

  lemma NegativeText(digits: string, part: string, rest: string)
    ensures "-" + digits + part + rest == ['-'] + (digits + (part + rest))
  {
  }

  /** Every value is read back, whatever follows it in an array or an object. */
  lemma {:induction false} JsonBack(j: Json, rest: string)
    requires Delimited(rest)
    ensures ReadJson(Stringify(j) + rest) == Some(Read(j, rest))
    decreases j, 1, 0
  {
    match j
    case Num(h) => NumberBack(h, rest);
    case Str(t) => StringBack(t, rest);
    case Arr(es) =>
      ElementsBack(j, 0, rest);
      ArrayBack(j, rest);
    case Obj(ms) =>
      MembersBack(j, 0, rest);
      ObjectBack(j, rest);
  }

  lemma QuoteText(t: string, rest: string)
    ensures Quote(t) + rest == ['\"'] + (Escape(t) + "\"" + rest)
  {
  }

  lemma StringBack(t: string, rest: string)
    ensures ReadJson(Quote(t) + rest) == Some(Read(Str(t), rest))
  {
    QuoteText(t, rest);
    Tail('\"', Escape(t) + "\"" + rest);
    QuotedString(t, rest);
  }

  lemma ArrayBack(j: Json, rest: string)
    requires j.Arr? && ReadElements(Elements(j, 0) + rest, true) == Some(Read(j.elements[0..], rest))
    ensures ReadJson(Stringify(j) + rest) == Some(Read(j, rest))
  {
    Assoc("[", Elements(j, 0), rest);
    Tail('[', Elements(j, 0) + rest);
    assert j.elements[0..] == j.elements;
  }

  lemma ObjectBack(j: Json, rest: string)
    requires j.Obj? && ReadMembers(Members(j, 0) + rest, true) == Some(Read(j.members[0..], rest))
    ensures ReadJson(Stringify(j) + rest) == Some(Read(j, rest))
  {
    Assoc("{", Members(j, 0), rest);
    Tail('{', Members(j, 0) + rest);
    assert j.members[0..] == j.members;
  }

  lemma {:induction false} ElementsBack(j: Json, i: nat, rest: string)
    requires j.Arr? && i <= |j.elements| && Delimited(rest)
    ensures ReadElements(Elements(j, i) + rest, i == 0) == Some(Read(j.elements[i..], rest))
    decreases j, 0, |j.elements| - i
  {
    if i == |j.elements| {
      Tail(']', rest);
      assert j.elements[i..] == [];
    } else {
      ElementsBack(j, i + 1, rest);
      ElementsDelimit(j, i + 1, rest);
      JsonBack(j.elements[i], Elements(j, i + 1) + rest);
      ElementsStep(j, i, rest);
    }
  }

  lemma ElementsText(j: Json, i: nat)
    requires j.Arr? && i < |j.elements|
    ensures Elements(j, i) == (if i == 0 then "" else ",") + Stringify(j.elements[i]) + Elements(j, i + 1)
  {
  }

  lemma ElementsStep(j: Json, i: nat, rest: string)
    requires j.Arr? && i < |j.elements|
    requires ReadJson(Stringify(j.elements[i]) + (Elements(j, i + 1) + rest))
             == Some(Read(j.elements[i], Elements(j, i + 1) + rest))
    requires ReadElements(Elements(j, i + 1) + rest, false) == Some(Read(j.elements[i + 1..], rest))
    ensures ReadElements(Elements(j, i) + rest, i == 0) == Some(Read(j.elements[i..], rest))
  {
    var e, more := j.elements[i], j.elements[i + 1..];
    assert [e] + more == j.elements[i..];
    ElementsText(j, i);
    ElementBack(e, i == 0, Elements(j, i + 1), rest, more);
  }

  lemma ElementsDelimit(j: Json, i: nat, rest: string)
    requires j.Arr? && 1 <= i <= |j.elements|
    ensures Delimited(Elements(j, i) + rest)
  {
    if i < |j.elements| { Comma(Stringify(j.elements[i]), Elements(j, i + 1), rest); }
  }

  lemma Comma(a: string, b: string, rest: string)
    ensures "," + a + b + rest == [','] + (a + (b + rest))
  {
  }

  lemma ElementBack(e: Json, first: bool, after: string, rest: string, more: seq<Json>)
    requires ReadJson(Stringify(e) + (after + rest)) == Some(Read(e, after + rest))
    requires ReadElements(after + rest, false) == Some(Read(more, rest))
    ensures ReadElements((if first then "" else ",") + Stringify(e) + after + rest, first)
            == Some(Read([e] + more, rest))
  {
    var text := Stringify(e) + (after + rest);
    FirstChar(e);
    assert text != "" && text[0] == Stringify(e)[0];
    if first {
      Assoc(Stringify(e), after, rest);
      assert "" + Stringify(e) == Stringify(e);
    } else {
      Comma(Stringify(e), after, rest);
      Tail(',', text);
    }
  }

  /** No value starts like a closing bracket. */
  lemma FirstChar(j: Json)
    ensures Stringify(j) != "" && Stringify(j)[0] != ']' && Stringify(j)[0] != '}'
  {
    if j.Num? { DigitsBack((if j.hundredths < 0 then -j.hundredths else j.hundredths) / 100); }
  }

  lemma {:induction false} MembersBack(j: Json, i: nat, rest: string)
    requires j.Obj? && i <= |j.members| && Delimited(rest)
    ensures ReadMembers(Members(j, i) + rest, i == 0) == Some(Read(j.members[i..], rest))
    decreases j, 0, |j.members| - i
  {
    if i == |j.members| {
      MembersEnd(j, rest);
      assert j.members[i..] == [];
    } else {
      MembersBack(j, i + 1, rest);
      MemberValueBack(j, i, rest);
      MembersStep(j, i, rest);
    }
  }

  lemma {:induction false} MemberValueBack(j: Json, i: nat, rest: string)
    requires j.Obj? && i < |j.members| && Delimited(rest)
    ensures ReadJson(Stringify(j.members[i].1) + (Members(j, i + 1) + rest))
            == Some(Read(j.members[i].1, Members(j, i + 1) + rest))
    decreases j, 0, |j.members| - i - 1
  {
    MembersDelimit(j, i + 1, rest);
    JsonBack(j.members[i].1, Members(j, i + 1) + rest);
  }

  lemma MembersEnd(j: Json, rest: string)
    requires j.Obj?
    ensures ReadMembers(Members(j, |j.members|) + rest, |j.members| == 0) == Some(Read([], rest))
  {
    Tail('}', rest);
  }

  lemma MembersText(j: Json, i: nat)
    requires j.Obj? && i < |j.members|
    ensures Members(j, i) == (if i == 0 then "" else ",") + Quote(j.members[i].0) + ":"
                             + Stringify(j.members[i].1) + Members(j, i + 1)
  {
  }

  lemma MembersStep(j: Json, i: nat, rest: string)
    requires j.Obj? && i < |j.members|
    requires ReadJson(Stringify(j.members[i].1) + (Members(j, i + 1) + rest))
             == Some(Read(j.members[i].1, Members(j, i + 1) + rest))
    requires ReadMembers(Members(j, i + 1) + rest, false) == Some(Read(j.members[i + 1..], rest))
    ensures ReadMembers(Members(j, i) + rest, i == 0) == Some(Read(j.members[i..], rest))
  {
    var m, more := j.members[i], j.members[i + 1..];
    assert [m] + more == j.members[i..];
    MembersText(j, i);
    MembersMore(m, i == 0, Members(j, i + 1), rest, more);
  }

  lemma MembersMore(m: (string, Json), first: bool, after: string, rest: string, more: seq<(string, Json)>)
    requires ReadJson(Stringify(m.1) + (after + rest)) == Some(Read(m.1, after + rest))
    requires ReadMembers(after + rest, false) == Some(Read(more, rest))
    ensures ReadMembers((if first then "" else ",") + Quote(m.0) + ":" + Stringify(m.1) + after + rest, first)
            == Some(Read([m] + more, rest))
  {
    MemberBack(m, first, after + rest);
    MemberText(m, first, after, rest);
    MemberFirst(first, Escape(m.0) + "\"" + ([':'] + (Stringify(m.1) + (after + rest))));
  }

  lemma MemberFirst(first: bool, text: string)
    ensures var s := (if first then "" else ",") + (['\"'] + text);
            s != "" && s[0] != '}'
  {
  }

  lemma MembersDelimit(j: Json, i: nat, rest: string)
    requires j.Obj? && 1 <= i <= |j.members|
    ensures Delimited(Members(j, i) + rest)
  {
  }

  /** Both ways of bracketing the text of a member and what follows. */
  lemma MemberText(m: (string, Json), first: bool, after: string, rest: string)
    ensures (if first then "" else ",") + Quote(m.0) + ":" + Stringify(m.1) + after + rest
            == (if first then "" else ",")
               + (['\"'] + (Escape(m.0) + "\"" + ([':'] + (Stringify(m.1) + (after + rest)))))
  {
    SixParts(if first then "" else ",", Escape(m.0), ":", Stringify(m.1), after, rest);
  }

  lemma SixParts(a: string, b: string, c: string, d: string, e: string, f: string)
    ensures a + ("\"" + b + "\"") + c + d + e + f == a + (['\"'] + (b + "\"" + (c + (d + (e + f)))))
  {
    Assoc(a + ("\"" + b + "\"") + c + d, e, f);
    Assoc(a + ("\"" + b + "\"") + c, d, e + f);
    Assoc(a + ("\"" + b + "\""), c, d + (e + f));
    Assoc(a, "\"" + b + "\"", c + (d + (e + f)));
    assert "\"" + b + "\"" + (c + (d + (e + f))) == ['\"'] + (b + "\"" + (c + (d + (e + f))));
  }

  lemma MemberBack(m: (string, Json), first: bool, rest: string)
    requires ReadJson(Stringify(m.1) + rest) == Some(Read(m.1, rest))
    ensures ReadMember((if first then "" else ",")
                       + (['\"'] + (Escape(m.0) + "\"" + ([':'] + (Stringify(m.1) + rest)))), first)
            == Some(Read(m, rest))
  {
    var value := [':'] + (Stringify(m.1) + rest);
    var text := Escape(m.0) + "\"" + value;
    Tail(',', ['\"'] + text);
    assert "" + (['\"'] + text) == ['\"'] + text;
    Tail('\"', text);
    QuotedString(m.0, value);
    Tail(':', Stringify(m.1) + rest);
  }

  /** `JSON.parse(JSON.stringify(j))` is `j`, for every value. */
  lemma ParseStringify(j: Json)
    ensures Parse(Stringify(j)) == Some(j)
  {
    assert Stringify(j) + "" == Stringify(j);
    JsonBack(j, "");
  }
}

/** When a payload column that holds an array is read differently: a consumer that is handed its
    text turns the array it parses into text again and parses that, and never gets the array back.
    The letters of `[object Object]` aside, the text of an array is shorter than its JSON, and
    nothing that is read from a text is longer than it. */
module ArrayPayloads {
  import opened Json
  import opened Payload

  predicate Light(c: char) {
    c == 'o' || c == 'b' || c == 'j' || c == 'e' || c == 'c' || c == 't' || c == ' ' || c == 'O'
  }

  function W1(c: char): nat {
    if Light(c) then 0 else 1
  }

  /** The characters of a text without those of `object Object`. */
  function W(s: string): nat {
    if s == "" then 0 else W1(s[0]) + W(s[1..])
  }

  lemma {:induction false} WAppend(a: string, b: string)
    ensures W(a + b) == W(a) + W(b)
  {
    if a == "" {
      assert a + b == b;
    } else {
      assert (a + b)[1..] == a[1..] + b;
      WAppend(a[1..], b);
    }
  }

  lemma WOne(c: char)
    ensures W([c]) == W1(c)
  {
    assert [c][1..] == "";
  }

  lemma WHead(s: string)
    requires s != ""
    ensures W(s) == W1(s[0]) + W(s[1..])
  {
  }

  // ------------------------------------------------------------------------------- strings

  lemma EscapeWeight(c: char)
    ensures W1(c) <= W(EscapeChar(c))
    ensures c >= ' ' && c != '\"' && c != '\\' ==> W(EscapeChar(c)) == W1(c)
    ensures c >= ' ' ==> W(EscapeChar(c)) <= 2
  {
    if c < ' ' {
      WHead(EscapeChar(c));
    } else if c == '\"' || c == '\\' {
      TwoWeigh(EscapeChar(c)[0], EscapeChar(c)[1]);
    } else {
      WOne(c);
    }
  }

  lemma TwoWeigh(a: char, b: char)
    ensures W([a, b]) == W1(a) + W1(b)
  {
    assert [a, b][1..] == [b];
    WOne(b);
  }

  lemma HexWeight(c: char)
    requires HexOf(c).Some?
    ensures HexOf(c).value < 16 && W1(Digit(HexOf(c).value)) <= W1(c)
    ensures HexOf(c).value < 2 ==> W1(c) == 1
  {
  }

  lemma ControlWeight(c: char)
    requires c < ' '
    ensures W(EscapeChar(c)) <= 5 + W1(Digit(c as nat % 16))
  {
    var e := EscapeChar(c);
    if e[1] == 'u' {
      var x, y := Digit(c as nat / 16), Digit(c as nat % 16);
      assert e == "\\u00" + [x, y];
      WAppend("\\u00", [x, y]);
      TwoWeigh(x, y);
      FourWeigh("\\u00");
    } else {
      TwoWeigh(e[0], e[1]);
    }
  }

  lemma FourWeigh(s: string)
    requires |s| == 4
    ensures W(s) == W1(s[0]) + W1(s[1]) + W1(s[2]) + W1(s[3])
  {
    assert s[1..][1..] == s[2..] && s[2..][1..] == s[3..] && s[3..][1..] == "";
    WHead(s);
    WHead(s[1..]);
    WHead(s[2..]);
    WHead(s[3..]);
  }

  lemma FiveWeigh(s: string)
    requires |s| >= 5
    ensures W(s) == W1(s[0]) + W1(s[1]) + W1(s[2]) + W1(s[3]) + W1(s[4]) + W(s[5..])
  {
    assert s == s[..1] + (s[1..5] + s[5..]);
    WAppend(s[..1], s[1..5] + s[5..]);
    WAppend(s[1..5], s[5..]);
    FourWeigh(s[1..5]);
    WOne(s[0]);
    assert s[..1] == [s[0]];
  }

  predicate IsUnit(s: string) {
    |s| >= 5 && HexOf(s[1]).Some? && HexOf(s[2]).Some? && HexOf(s[3]).Some? && HexOf(s[4]).Some?
  }

  lemma UnitOf(s: string)
    requires |s| >= 5 && s[0] == 'u' && ReadEscape(s).Some?
    ensures IsUnit(s) && ReadEscape(s).value.rest == s[5..]
    ensures ReadEscape(s).value.value as int
            == 4096 * HexOf(s[1]).value + 256 * HexOf(s[2]).value + 16 * HexOf(s[3]).value + HexOf(s[4]).value
  {
  }

  lemma ControlUnit(h1: nat, h2: nat, h3: nat, h4: nat)
    requires h4 < 16 && 4096 * h1 + 256 * h2 + 16 * h3 + h4 < 32
    ensures h1 == 0 && h2 == 0 && h3 < 2 && (4096 * h1 + 256 * h2 + 16 * h3 + h4) % 16 == h4
  {
  }

  lemma UnitWeight(s: string)
    requires |s| >= 5 && s[0] == 'u' && ReadEscape(s).Some?
    ensures W(EscapeChar(ReadEscape(s).value.value)) + W(ReadEscape(s).value.rest) <= 1 + W(s)
  {
    UnitOf(s);
    FiveWeigh(s);
    UnitCharWeight(s, ReadEscape(s).value.value);
  }

  lemma UnitCharWeight(s: string, c: char)
    requires IsUnit(s)
    requires c as int == 4096 * HexOf(s[1]).value + 256 * HexOf(s[2]).value + 16 * HexOf(s[3]).value + HexOf(s[4]).value
    ensures W(EscapeChar(c)) <= 2 + W1(s[1]) + W1(s[2]) + W1(s[3]) + W1(s[4])
  {
    if c < ' ' {
      HexWeight(s[1]);
      HexWeight(s[2]);
      HexWeight(s[3]);
      HexWeight(s[4]);
      ControlUnit(HexOf(s[1]).value, HexOf(s[2]).value, HexOf(s[3]).value, HexOf(s[4]).value);
      ControlWeight(c);
    } else {
      EscapeWeight(c);
    }
  }

  /** An escape weighs no less than the one it would be written with. */
  lemma ReadEscapeWeight(s: string)
    requires ReadEscape(s).Some?
    ensures W(EscapeChar(ReadEscape(s).value.value)) + W(ReadEscape(s).value.rest) <= 1 + W(s)
  {
    if s[0] == 'u' {
      UnitWeight(s);
    } else {
      WHead(s);
      var e := EscapeChar(ReadEscape(s).value.value);
      if |e| == 2 { TwoWeigh(e[0], e[1]); } else { WOne(e[0]); }
    }
  }

  lemma WEscape(c: char, t: string)
    ensures W(Escape([c] + t)) == W(EscapeChar(c)) + W(Escape(t))
  {
    assert ([c] + t)[1..] == t;
    WAppend(EscapeChar(c), Escape(t));
  }

  lemma {:induction false} ReadStringWeight(s: string)
    requires ReadString(s).Some?
    ensures W(Escape(ReadString(s).value.value)) + 1 + W(ReadString(s).value.rest) <= W(s)
    decreases |s|
  {
    WHead(s);
    if s[0] != '\"' {
      var c := if s[0] == '\\' then ReadEscape(s[1..]) else Some(Read(s[0], s[1..]));
      ReadStringWeight(c.value.rest);
      WEscape(c.value.value, ReadString(c.value.rest).value.value);
      if s[0] == '\\' { ReadEscapeWeight(s[1..]); } else { EscapeWeight(s[0]); }
    }
  }

  lemma {:induction false} EscapedIsHeavier(t: string)
    ensures W(t) <= W(Escape(t))
  {
    if t != "" {
      EscapedIsHeavier(t[1..]);
      EscapeWeight(t[0]);
      WAppend(EscapeChar(t[0]), Escape(t[1..]));
    }
  }

  lemma QuoteWeight(t: string)
    ensures W(Quote(t)) == W(Escape(t)) + 2
  {
    WAppend("\"" + Escape(t), "\"");
    WAppend("\"", Escape(t));
    WOne('\"');
  }

  // ------------------------------------------------------------------------------- numbers

  lemma {:induction false} DigitsWeigh(ds: string)
    requires AllDigits(ds)
    ensures W(ds) == |ds|
  {
    if ds != "" {
      assert AllDigits(ds[1..]);
      DigitsWeigh(ds[1..]);
    }
  }

  /** A number has no fewer digits than it is written with. */
  lemma {:induction false} FewDigits(ds: string)
    requires AllDigits(ds) && ds != ""
    ensures |Digits(Value(ds))| <= |ds|
  {
    var front := ds[..|ds| - 1];
    if |ds| > 1 {
      FewDigits(front);
      assert Value(ds) / 10 == Value(front);
    }
  }

  lemma ReadNatWeight(s: string)
    requires ReadNat(s).Some?
    ensures W(Digits(ReadNat(s).value.value)) + W(ReadNat(s).value.rest) <= W(s)
  {
    var n := Span(s);
    SpanDigits(s);
    assert s == s[..n] + s[n..];
    WAppend(s[..n], s[n..]);
    DigitsWeigh(s[..n]);
    FewDigits(s[..n]);
    DigitsBack(Value(s[..n]));
    DigitsWeigh(Digits(Value(s[..n])));
  }

  lemma FractionWeight(h: nat)
    requires h < 100
    ensures W(Fraction(h)) == |Fraction(h)|
  {
    DigitBack(h / 10);
    DigitBack(h % 10);
    if h != 0 {
      WHead(Fraction(h));
      assert AllDigits(Fraction(h)[1..]);
      DigitsWeigh(Fraction(h)[1..]);
    }
  }

  lemma ReadFractionWeight(s: string)
    requires ReadFraction(s).Some?
    ensures ReadFraction(s).value.value < 100
    ensures W(Fraction(ReadFraction(s).value.value)) + W(ReadFraction(s).value.rest) <= W(s)
  {
    var r := ReadFraction(s).value;
    if s != "" && s[0] == '.' {
      var n := Span(s[1..]);
      SpanDigits(s[1..]);
      assert s == s[..1 + n] + s[1 + n..];
      WAppend(s[..1 + n], s[1 + n..]);
      WHead(s[..1 + n]);
      assert s[..1 + n][1..] == s[1..][..n];
      DigitsWeigh(s[1..][..n]);
      FractionWeight(r.value);
    }
  }

  lemma NumberWeight(whole: nat, part: nat)
    requires part < 100
    ensures W(Number(100 * whole + part)) == W(Digits(whole)) + W(Fraction(part))
  {
    var h := 100 * whole + part;
    assert h / 100 == whole && h % 100 == part;
    assert Number(h) == Digits(whole) + Fraction(part);
    WAppend(Digits(whole), Fraction(part));
  }

  lemma MagnitudeIs(s: string)
    requires ReadMagnitude(s).Some?
    ensures ReadNat(s).Some? && ReadFraction(ReadNat(s).value.rest).Some?
    ensures var (whole, part) := (ReadNat(s).value, ReadFraction(ReadNat(s).value.rest).value);
            ReadMagnitude(s).value == Read(100 * whole.value + part.value, part.rest)
  {
  }

  lemma ReadMagnitudeWeight(s: string)
    requires ReadMagnitude(s).Some?
    ensures W(Number(ReadMagnitude(s).value.value)) + W(ReadMagnitude(s).value.rest) <= W(s)
  {
    MagnitudeIs(s);
    ReadNatWeight(s);
    ReadFractionWeight(ReadNat(s).value.rest);
    NumberWeight(ReadNat(s).value.value, ReadFraction(ReadNat(s).value.rest).value.value);
  }

  lemma NegativeWeight(m: nat)
    ensures W(Number(-(m as int))) <= 1 + W(Number(m))
  {
    if m > 0 {
      assert Number(-(m as int)) == "-" + Digits(m / 100) + Fraction(m % 100);
      WAppend("-" + Digits(m / 100), Fraction(m % 100));
      WAppend("-", Digits(m / 100));
      WAppend(Digits(m / 100), Fraction(m % 100));
      WOne('-');
    }
  }

  // --------------------------------------------------------------------- arrays and objects

  /** What the elements of an array and its closing bracket weigh. */
  function ElementsWeight(es: seq<Json>, first: bool): nat {
    if es == [] then 1
    else (if first then 0 else 1) + W(Stringify(es[0])) + ElementsWeight(es[1..], false)
  }

  function MembersWeight(ms: seq<(string, Json)>, first: bool): nat {
    if ms == [] then 1
    else
      (if first then 0 else 1) + W(Quote(ms[0].0)) + 1 + W(Stringify(ms[0].1)) + MembersWeight(ms[1..], false)
  }

  lemma {:induction false} ElementsWeigh(j: Json, i: nat)
    requires j.Arr? && i <= |j.elements|
    ensures W(Elements(j, i)) == ElementsWeight(j.elements[i..], i == 0)
    decreases |j.elements| - i
  {
    if i == |j.elements| {
      WOne(']');
    } else {
      ElementsWeigh(j, i + 1);
      var comma := if i == 0 then "" else ",";
      WAppend(comma + Stringify(j.elements[i]), Elements(j, i + 1));
      WAppend(comma, Stringify(j.elements[i]));
      WOne(',');
      assert j.elements[i..][1..] == j.elements[i + 1..];
    }
  }

  lemma {:induction false} MembersWeigh(j: Json, i: nat)
    requires j.Obj? && i <= |j.members|
    ensures W(Members(j, i)) == MembersWeight(j.members[i..], i == 0)
    decreases |j.members| - i
  {
    if i == |j.members| {
      WOne('}');
    } else {
      MembersWeigh(j, i + 1);
      MembersText(j, i);
      FiveParts(if i == 0 then "" else ",", Quote(j.members[i].0), Stringify(j.members[i].1), Members(j, i + 1));
      WOne(',');
      assert j.members[i..][1..] == j.members[i + 1..];
    }
  }

  lemma FiveParts(a: string, b: string, c: string, d: string)
    ensures W(a + b + ":" + c + d) == W(a) + W(b) + 1 + W(c) + W(d)
  {
    WAppend(a + b + ":" + c, d);
    WAppend(a + b + ":", c);
    WAppend(a + b, ":");
    WAppend(a, b);
    WOne(':');
  }

  lemma ArrWeight(es: seq<Json>)
    ensures W(Stringify(Arr(es))) == 1 + ElementsWeight(es, true)
  {
    WAppend("[", Elements(Arr(es), 0));
    WOne('[');
    ElementsWeigh(Arr(es), 0);
    assert es[0..] == es;
  }

  lemma ObjWeight(ms: seq<(string, Json)>)
    ensures W(Stringify(Obj(ms))) == 1 + MembersWeight(ms, true)
  {
    WAppend("{", Members(Obj(ms), 0));
    WOne('{');
    MembersWeigh(Obj(ms), 0);
    assert ms[0..] == ms;
  }

  // ---------------------------------------------------------------------------- what is read

  /** A value weighs no more than the text it is read from. */
  lemma {:induction false} ReadJsonWeight(s: string)
    requires ReadJson(s).Some?
    ensures W(Stringify(ReadJson(s).value.value)) + W(ReadJson(s).value.rest) <= W(s)
    decreases |s|, 0
  {
    WHead(s);
    if s[0] == '\"' {
      ReadStringWeight(s[1..]);
      QuoteWeight(ReadString(s[1..]).value.value);
    } else if s[0] == '[' {
      ReadElementsWeight(s[1..], true);
      ArrWeight(ReadElements(s[1..], true).value.value);
    } else if s[0] == '{' {
      ReadMembersWeight(s[1..], true);
      ObjWeight(ReadMembers(s[1..], true).value.value);
    } else if s[0] == '-' {
      ReadMagnitudeWeight(s[1..]);
      NegativeWeight(ReadMagnitude(s[1..]).value.value);
    } else {
      ReadMagnitudeWeight(s);
    }
  }

  lemma {:induction false} ReadElementsWeight(s: string, first: bool)
    requires ReadElements(s, first).Some?
    ensures ElementsWeight(ReadElements(s, first).value.value, first) + W(ReadElements(s, first).value.rest) <= W(s)
    decreases |s|, 1
  {
    WHead(s);
    if s[0] != ']' {
      var t := if first then s else s[1..];
      ReadJsonWeight(t);
      var e := ReadJson(t).value;
      ReadElementsWeight(e.rest, false);
      var more := ReadElements(e.rest, false).value.value;
      assert ([e.value] + more)[1..] == more;
    }
  }

  lemma {:induction false} ReadMembersWeight(s: string, first: bool)
    requires ReadMembers(s, first).Some?
    ensures MembersWeight(ReadMembers(s, first).value.value, first) + W(ReadMembers(s, first).value.rest) <= W(s)
    decreases |s|, 1
  {
    WHead(s);
    if s[0] != '}' {
      ReadMemberWeight(s, first);
      var m := ReadMember(s, first).value;
      ReadMembersWeight(m.rest, false);
      var more := ReadMembers(m.rest, false).value.value;
      assert ([m.value] + more)[1..] == more;
    }
  }

  lemma {:induction false} ReadMemberWeight(s: string, first: bool)
    requires ReadMember(s, first).Some?
    ensures var m := ReadMember(s, first).value;
            (if first then 0 else 1) + W(Quote(m.value.0)) + 1 + W(Stringify(m.value.1)) + W(m.rest) <= W(s)
    decreases |s|, 0
  {
    WHead(s);
    var t := if first then s else s[1..];
    WHead(t);
    ReadStringWeight(t[1..]);
    var key := ReadString(t[1..]).value;
    QuoteWeight(key.value);
    WHead(key.rest);
    ReadJsonWeight(key.rest[1..]);
  }

  // ------------------------------------------------------------------------ what is converted

  /** `String(j)` weighs no more than the JSON, and of an array at least its brackets less. */
  lemma {:induction false} ToTextWeight(j: Json)
    ensures W(ToText(j)) + (if j.Arr? then 2 else 0) <= W(Stringify(j))
    decreases j, 1, 0
  {
    match j
    case Num(h) =>
    case Str(t) =>
      EscapedIsHeavier(t);
      QuoteWeight(t);
    case Arr(es) =>
      JoinedWeight(j, 0);
      ArrWeight(es);
      assert es[0..] == es;
    case Obj(ms) =>
      ObjWeight(ms);
      ObjectTextWeight();
  }

  /** Of the text of an object only the brackets weigh. */
  lemma ObjectTextWeight()
    ensures W("[" + ("object " + "Object") + "]") == 2
  {
    WAppend("[" + ("object " + "Object"), "]");
    WAppend("[", "object " + "Object");
    WAppend("object ", "Object");
    SevenLight("object ");
    SixLight("Object");
    WOne('[');
    WOne(']');
  }

  lemma SixLight(s: string)
    requires |s| == 6 && Light(s[0]) && Light(s[1]) && Light(s[2]) && Light(s[3]) && Light(s[4]) && Light(s[5])
    ensures W(s) == 0
  {
    assert s[5..] == [s[5]];
    FiveWeigh(s);
    WOne(s[5]);
  }

  lemma SevenLight(s: string)
    requires |s| == 7 && Light(s[0]) && Light(s[1]) && Light(s[2]) && Light(s[3]) && Light(s[4]) && Light(s[5])
    requires Light(s[6])
    ensures W(s) == 0
  {
    assert s[5..] == [s[5], s[6]];
    FiveWeigh(s);
    TwoWeigh(s[5], s[6]);
  }

  lemma {:induction false} JoinedWeight(j: Json, i: nat)
    requires j.Arr? && i <= |j.elements|
    ensures W(Joined(j, i)) + 1 <= ElementsWeight(j.elements[i..], i == 0)
    decreases j, 0, |j.elements| - i
  {
    if i < |j.elements| {
      ToTextWeight(j.elements[i]);
      JoinedWeight(j, i + 1);
      var comma := if i == 0 then "" else ",";
      WAppend(comma + ToText(j.elements[i]), Joined(j, i + 1));
      WAppend(comma, ToText(j.elements[i]));
      WOne(',');
      assert j.elements[i..][1..] == j.elements[i + 1..];
    }
  }

  /** No array is what its own text parses to. */
  lemma NoArrayComesBack(a: Json)
    requires a.Arr?
    ensures Parse(ToText(a)) != Some(a)
  {
    if Parse(ToText(a)) == Some(a) {
      ReadJsonWeight(ToText(a));
      ToTextWeight(a);
    }
  }

  /** Poller and compensation read every column alike, and a consumer as they do except exactly if
      the column is an array and arrives as text. */
  lemma DecodersAgreeExactly(column: Json, wire: Wire)
    requires Arrives(ModelPayload(column), wire)
    ensures PollerDecode(ModelPayload(column)) == CompensationDecode(ModelPayload(column)) == Meaning(column)
    ensures ConsumerDecode(wire) == Meaning(column) <==> !(column.Arr? && wire.Text?)
  {
    ParseStringify(column);
    FirstOf(column);
    if column.Arr? {
      NoArrayComesBack(column);
    } else {
      DecodersAgree(column, wire);
    }
  }
}

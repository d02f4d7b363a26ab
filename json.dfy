/**
 * JSON text (RFC 8259) for the values the export record holds: strings,
 * integer numbers, booleans and objects. `Serialize` is `JSON.stringify` with
 * no indentation; `Parse` reads that compact text back, and the two are proved
 * inverse.
 */
module Json {
  import opened Wrappers
  import Decimal

  datatype Json = JString(str: string) | JNumber(num: int) | JBool(b: bool) | JObject(members: seq<Member>)

  /** One `"key":value` member of an object, in the object's key order. */
  datatype Member = Member(key: string, value: Json)

  // ---------------------------------------------------------------- writing

  function HexDigit(d: int): (c: char)
    requires 0 <= d < 16
  {
    "0123456789abcdef"[d]
  }

  /**
   * How `JSON.stringify` writes one character of a string (section 7 of
   * RFC 8259): quotation mark and reverse solidus are escaped, the five
   * control characters with short escapes use them, every other control
   * character becomes `\u00xx` in lower-case hex, and the rest is literal.
   */
  function EscapeChar(c: char): (r: string)
    ensures |r| >= 1 && r[0] != '"'
    ensures (r[0] == '\\') <==> (c == '"' || c == '\\' || c < ' ')
  {
    if c == '"' then "\\\""
    else if c == '\\' then "\\\\"
    else if c as int == 0x08 then "\\b"
    else if c as int == 0x0C then "\\f"
    else if c == '\n' then "\\n"
    else if c == '\r' then "\\r"
    else if c == '\t' then "\\t"
    else if c < ' ' then "\\u00" + [HexDigit(c as int / 16), HexDigit(c as int % 16)]
    else [c]
  }

  function EscapeString(s: string): (r: string)
    ensures |r| >= |s|
    ensures r == [] <==> s == []
    decreases |s|
  {
    if s == [] then "" else EscapeChar(s[0]) + EscapeString(s[1..])
  }

  function Quote(s: string): (r: string)
    ensures |r| >= 2 && r[0] == '"' && r[|r| - 1] == '"'
  {
    "\"" + EscapeString(s) + "\""
  }

  function Serialize(j: Json): (r: string)
    ensures |r| >= 1
    decreases j, 1
  {
    match j
    case JString(s) => Quote(s)
    case JNumber(n) => Decimal.IntToString(n)
    case JBool(b) => if b then "true" else "false"
    case JObject(ms) => "{" + SerializeMembers(ms) + "}"
  }

  function SerializeMembers(ms: seq<Member>): (r: string)
    ensures r == [] <==> ms == []
    ensures ms != [] ==> r[0] == '"'
    decreases ms, 0
  {
    if ms == [] then ""
    else
      var first := Quote(ms[0].key) + ":" + Serialize(ms[0].value);
      if |ms| == 1 then first else first + "," + SerializeMembers(ms[1..])
  }

  // ---------------------------------------------------------------- reading

  function HexValue(c: char): Option<int> {
    if '0' <= c <= '9' then Some(c as int - '0' as int)
    else if 'a' <= c <= 'f' then Some(c as int - 'a' as int + 10)
    else if 'A' <= c <= 'F' then Some(c as int - 'A' as int + 10)
    else None
  }

  /** A code point written as four hex digits, if it is a character (not a surrogate). */
  function CodePoint(s: string): Option<char>
    requires |s| == 4
  {
    match (HexValue(s[0]), HexValue(s[1]), HexValue(s[2]), HexValue(s[3]))
    case (Some(a), Some(b), Some(c), Some(d)) =>
      var v := ((a * 16 + b) * 16 + c) * 16 + d;
      if 0 <= v < 0xD800 || 0xE000 <= v < 0x10000 then Some(v as char) else None
    case _ => None
  }

  /** One character of string content, escaped or literal, and what follows it. */
  function ParseChar(s: string): (r: Option<(char, string)>)
    ensures r.Some? ==> |r.value.1| < |s|
  {
    if |s| == 0 || s[0] == '"' then None
    else if s[0] == '\\' then
      if |s| < 2 then None
      else if s[1] == '"' then Some(('"', s[2..]))
      else if s[1] == '\\' then Some(('\\', s[2..]))
      else if s[1] == '/' then Some(('/', s[2..]))
      else if s[1] == 'b' then Some((0x08 as char, s[2..]))
      else if s[1] == 'f' then Some((0x0C as char, s[2..]))
      else if s[1] == 'n' then Some(('\n', s[2..]))
      else if s[1] == 'r' then Some(('\r', s[2..]))
      else if s[1] == 't' then Some(('\t', s[2..]))
      else if s[1] == 'u' && |s| >= 6 then
        match CodePoint(s[2..6])
        case Some(c) => Some((c, s[6..]))
        case None => None
      else None
    else if s[0] < ' ' then None
    else Some((s[0], s[1..]))
  }

  /** String content up to and including the closing quotation mark. */
  function ParseChars(s: string): (r: Option<(string, string)>)
    ensures r.Some? ==> |r.value.1| < |s|
    decreases |s|
  {
    if |s| == 0 then None
    else if s[0] == '"' then Some(("", s[1..]))
    else
      match ParseChar(s)
      case None => None
      case Some((c, rest)) =>
        match ParseChars(rest)
        case None => None
        case Some((t, rest')) => Some(([c] + t, rest'))
  }

  function ParseString(s: string): (r: Option<(string, string)>)
    ensures r.Some? ==> |r.value.1| < |s|
  {
    if |s| == 0 || s[0] != '"' then None else ParseChars(s[1..])
  }

  /** How many decimal digits `s` starts with. */
  function DigitRun(s: string): (k: nat)
    ensures k <= |s| && Decimal.AllDigits(s[..k])
    ensures k < |s| ==> !Decimal.IsDigit(s[k])
    decreases |s|
  {
    if |s| > 0 && Decimal.IsDigit(s[0]) then 1 + DigitRun(s[1..]) else 0
  }

  /** `0`, or decimal digits without a leading zero. */
  function ParseNatural(s: string): (r: Option<(nat, string)>)
    ensures r.Some? ==> |r.value.1| < |s|
  {
    var k := DigitRun(s);
    if k == 0 || (k > 1 && s[0] == '0') then None
    else Some((Decimal.DigitsValue(s[..k]), s[k..]))
  }

  /** An integer: an optional minus, then a natural number. */
  function ParseNumber(s: string): (r: Option<(int, string)>)
    ensures r.Some? ==> |r.value.1| < |s|
  {
    if |s| > 0 && s[0] == '-' then
      match ParseNatural(s[1..])
      case Some((n, rest)) => Some((-(n as int), rest))
      case None => None
    else
      match ParseNatural(s)
      case Some((n, rest)) => Some((n, rest))
      case None => None
  }

  function ParseValue(s: string): (r: Option<(Json, string)>)
    ensures r.Some? ==> |r.value.1| < |s|
    decreases |s|, 1
  {
    if |s| == 0 then None
    else if s[0] == '"' then
      match ParseString(s)
      case Some((str, rest)) => Some((JString(str), rest))
      case None => None
    else if s[0] == '{' then
      if |s| >= 2 && s[1] == '}' then Some((JObject([]), s[2..]))
      else
        match ParseMembers(s[1..])
        case Some((ms, rest)) => Some((JObject(ms), rest))
        case None => None
    else if s[0] == 't' then
      if |s| >= 4 && s[..4] == "true" then Some((JBool(true), s[4..])) else None
    else if s[0] == 'f' then
      if |s| >= 5 && s[..5] == "false" then Some((JBool(false), s[5..])) else None
    else
      match ParseNumber(s)
      case Some((n, rest)) => Some((JNumber(n), rest))
      case None => None
  }

  /** One or more members after `{`, up to and including the closing `}`. */
  function ParseMembers(s: string): (r: Option<(seq<Member>, string)>)
    ensures r.Some? ==> |r.value.1| < |s|
    decreases |s|, 0
  {
    match ParseString(s)
    case None => None
    case Some((key, r1)) =>
      if |r1| == 0 || r1[0] != ':' then None
      else
        match ParseValue(r1[1..])
        case None => None
        case Some((v, r2)) =>
          if |r2| > 0 && r2[0] == ',' then
            match ParseMembers(r2[1..])
            case None => None
            case Some((ms, r3)) => Some(([Member(key, v)] + ms, r3))
          else if |r2| > 0 && r2[0] == '}' then Some(([Member(key, v)], r2[1..]))
          else None
  }

  /** A whole text holding exactly one value. */
  function Parse(s: string): Option<Json> {
    match ParseValue(s)
    case Some((j, rest)) => if rest == [] then Some(j) else None
    case None => None
  }

  // ---------------------------------------------------------------- round trip

  lemma HexDigitValue(d: int)
    requires 0 <= d < 16
    ensures HexValue(HexDigit(d)) == Some(d)
  {
  }

  /** Reading one written character gives it back and leaves what follows it. */
  lemma EscapeCharRoundTrip(c: char, tail: string)
    ensures ParseChar(EscapeChar(c) + tail) == Some((c, tail))
  {
    var s := EscapeChar(c) + tail;
    if c != '"' && c != '\\' && c as int != 0x08 && c as int != 0x0C && c != '\n' && c != '\r' && c != '\t' && c < ' ' {
      var v := c as int;
      HexDigitValue(v / 16);
      HexDigitValue(v % 16);
      assert s[2..6] == ['0', '0', HexDigit(v / 16), HexDigit(v % 16)];
      assert s[6..] == tail;
    } else {
      assert s[1..] == EscapeChar(c)[1..] + tail;
    }
  }

  lemma {:induction false} EscapeStringRoundTrip(str: string, tail: string)
    ensures ParseChars(EscapeString(str) + "\"" + tail) == Some((str, tail))
    decreases |str|
  {
    if str == [] {
      assert EscapeString(str) + "\"" + tail == "\"" + tail;
    } else {
      var e, r := EscapeChar(str[0]), EscapeString(str[1..]);
      var after := r + "\"" + tail;
      assert EscapeString(str) == e + r;
      Assoc(e + r, "\"", tail);
      Assoc(e, r, "\"" + tail);
      Assoc(r, "\"", tail);
      EscapeCharRoundTrip(str[0], after);
      EscapeStringRoundTrip(str[1..], tail);
      CharsStep(e + after, str[0], after, str[1..], tail);
      assert [str[0]] + str[1..] == str;
    }
  }

  /** A character that is not the closing quotation mark, then the rest of the content. */
  lemma CharsStep(s: string, c: char, after: string, t: string, rest: string)
    requires |s| > 0 && s[0] != '"'
    requires ParseChar(s) == Some((c, after)) && ParseChars(after) == Some((t, rest))
    ensures ParseChars(s) == Some(([c] + t, rest))
  {
  }

  /** A quoted string reads back as itself, whatever follows it. */
  lemma QuoteRoundTrip(str: string, tail: string)
    ensures ParseString(Quote(str) + tail) == Some((str, tail))
  {
    assert (Quote(str) + tail)[1..] == EscapeString(str) + "\"" + tail;
    EscapeStringRoundTrip(str, tail);
  }

  lemma {:induction false} DigitRunPrefix(p: string, rest: string)
    requires Decimal.AllDigits(p)
    requires rest == [] || !Decimal.IsDigit(rest[0])
    ensures DigitRun(p + rest) == |p|
    decreases |p|
  {
    if p != [] {
      assert (p + rest)[1..] == p[1..] + rest;
      DigitRunPrefix(p[1..], rest);
    }
  }

  /** A natural number reads back as itself when no digit follows it. */
  lemma NaturalRoundTrip(m: nat, rest: string)
    requires rest == [] || !Decimal.IsDigit(rest[0])
    ensures ParseNatural(Decimal.NatToString(m) + rest) == Some((m, rest))
  {
    var p := Decimal.NatToString(m);
    DigitRunPrefix(p, rest);
    assert (p + rest)[..|p|] == p;
    assert (p + rest)[|p|..] == rest;
    Decimal.NatToStringValue(m);
  }

  /** An integer reads back as itself when no digit follows it. */
  lemma NumberRoundTrip(n: int, rest: string)
    requires rest == [] || !Decimal.IsDigit(rest[0])
    ensures ParseNumber(Decimal.IntToString(n) + rest) == Some((n, rest))
  {
    if n < 0 {
      NegativeRoundTrip(n, rest);
    } else {
      NaturalRoundTrip(n, rest);
      assert (Decimal.NatToString(n) + rest)[0] != '-';
    }
  }

  lemma NegativeRoundTrip(n: int, rest: string)
    requires n < 0
    requires rest == [] || !Decimal.IsDigit(rest[0])
    ensures ParseNumber(Decimal.IntToString(n) + rest) == Some((n, rest))
  {
    var t := Decimal.NatToString(-n) + rest;
    assert Decimal.IntToString(n) + rest == "-" + t;
    NaturalRoundTrip(-n, rest);
    MinusRoundTrip(t, -n, rest);
  }

  lemma MinusRoundTrip(t: string, m: nat, rest: string)
    requires ParseNatural(t) == Some((m, rest))
    ensures ParseNumber("-" + t) == Some((-(m as int), rest))
  {
    assert ("-" + t)[1..] == t;
  }

  /** What may follow a value inside the export text: nothing, a comma or a closing brace. */
  predicate Delimits(rest: string) {
    rest == [] || rest[0] == ',' || rest[0] == '}'
  }

  /** Every value reads back as itself. */
  lemma {:induction false} ValueRoundTrip(j: Json, rest: string)
    requires Delimits(rest)
    ensures ParseValue(Serialize(j) + rest) == Some((j, rest))
    decreases j, 1
  {
    match j
    case JString(str) =>
      QuoteRoundTrip(str, rest);
    case JNumber(n) =>
      NumberValueRoundTrip(n, rest);
    case JBool(b) =>
      BoolRoundTrip(b, rest);
    case JObject(ms) =>
      ObjectRoundTrip(ms, rest);
  }

  lemma {:induction false} ObjectRoundTrip(ms: seq<Member>, rest: string)
    ensures ParseValue(Serialize(JObject(ms)) + rest) == Some((JObject(ms), rest))
    decreases ms, 2
  {
    var s := Serialize(JObject(ms)) + rest;
    if ms == [] {
      assert s == "{}" + rest;
    } else {
      var text := SerializeMembers(ms);
      var body := text + "}" + rest;
      calc {
        s;
        "{" + text + "}" + rest;
        { Assoc("{", text, "}"); }
        "{" + (text + "}") + rest;
        { Assoc("{", text + "}", rest); }
        "{" + body;
      }
      assert s[0] == '{' && s[1..] == body;
      MembersRoundTrip(ms, rest);
      assert body[0] == '"';
    }
  }

  lemma NumberValueRoundTrip(n: int, rest: string)
    requires Delimits(rest)
    ensures ParseValue(Serialize(JNumber(n)) + rest) == Some((JNumber(n), rest))
  {
    var s := Decimal.IntToString(n) + rest;
    NumberRoundTrip(n, rest);
    assert s[0] == '-' || Decimal.IsDigit(s[0]);
  }

  lemma BoolRoundTrip(b: bool, rest: string)
    ensures ParseValue(Serialize(JBool(b)) + rest) == Some((JBool(b), rest))
  {
    var s := Serialize(JBool(b)) + rest;
    if b {
      assert s[..4] == "true" && s[4..] == rest;
    } else {
      assert s[..5] == "false" && s[5..] == rest;
    }
  }

  lemma {:induction false} MembersRoundTrip(ms: seq<Member>, rest: string)
    requires ms != []
    ensures ParseMembers(SerializeMembers(ms) + "}" + rest) == Some((ms, rest))
    decreases ms, 1
  {
    if |ms| == 1 {
      LastMemberRoundTrip(ms, rest);
    } else {
      NextMemberRoundTrip(ms, rest);
    }
  }

  lemma {:induction false} LastMemberRoundTrip(ms: seq<Member>, rest: string)
    requires |ms| == 1
    ensures ParseMembers(SerializeMembers(ms) + "}" + rest) == Some((ms, rest))
    decreases ms, 0
  {
    var m := ms[0];
    var more := "}" + rest;
    var r1 := ":" + (Serialize(m.value) + more);
    var s := SerializeMembers(ms) + "}" + rest;
    LastMemberText(ms, rest);
    QuoteRoundTrip(m.key, r1);
    assert r1[1..] == Serialize(m.value) + more;
    ValueRoundTrip(m.value, more);
    MemberLast(s, m.key, r1, m.value, more);
    assert more[1..] == rest;
    assert ms == [m];
  }

  lemma {:induction false} NextMemberRoundTrip(ms: seq<Member>, rest: string)
    requires |ms| > 1
    ensures ParseMembers(SerializeMembers(ms) + "}" + rest) == Some((ms, rest))
    decreases ms, 0
  {
    var m := ms[0];
    var tail := SerializeMembers(ms[1..]) + "}" + rest;
    var more := "," + tail;
    var r1 := ":" + (Serialize(m.value) + more);
    var s := SerializeMembers(ms) + "}" + rest;
    NextMemberText(ms, rest);
    QuoteRoundTrip(m.key, r1);
    assert r1[1..] == Serialize(m.value) + more;
    ValueRoundTrip(m.value, more);
    assert more[1..] == tail;
    MembersRoundTrip(ms[1..], rest);
    MemberNext(s, m.key, r1, m.value, more, ms[1..], rest);
    assert [m] + ms[1..] == ms;
  }

  lemma LastMemberText(ms: seq<Member>, rest: string)
    requires |ms| == 1
    ensures SerializeMembers(ms) + "}" + rest
         == Quote(ms[0].key) + (":" + (Serialize(ms[0].value) + ("}" + rest)))
  {
    var q, v := Quote(ms[0].key), Serialize(ms[0].value);
    assert SerializeMembers(ms) == q + ":" + v;
    calc {
      q + ":" + v + "}" + rest;
      == { Assoc(q + ":" + v, "}", rest); }
      q + ":" + v + ("}" + rest);
      == { Assoc(q + ":", v, "}" + rest); }
      q + ":" + (v + ("}" + rest));
      == { Assoc(q, ":", v + ("}" + rest)); }
      q + (":" + (v + ("}" + rest)));
    }
  }

  lemma NextMemberText(ms: seq<Member>, rest: string)
    requires |ms| > 1
    ensures SerializeMembers(ms) + "}" + rest
         == Quote(ms[0].key) + (":" + (Serialize(ms[0].value) + ("," + (SerializeMembers(ms[1..]) + "}" + rest))))
  {
    var q, v, t := Quote(ms[0].key), Serialize(ms[0].value), SerializeMembers(ms[1..]);
    var tail := t + "}" + rest;
    assert SerializeMembers(ms) == q + ":" + v + "," + t;
    calc {
      q + ":" + v + "," + t + "}" + rest;
      == { Assoc(q + ":" + v + "," + t, "}", rest); }
      q + ":" + v + "," + t + ("}" + rest);
      == { Assoc(q + ":" + v + ",", t, "}" + rest); Assoc(t, "}", rest); }
      q + ":" + v + "," + tail;
      == { Assoc(q + ":" + v, ",", tail); }
      q + ":" + v + ("," + tail);
      == { Assoc(q + ":", v, "," + tail); }
      q + ":" + (v + ("," + tail));
      == { Assoc(q, ":", v + ("," + tail)); }
      q + (":" + (v + ("," + tail)));
    }
  }

  lemma Assoc(a: string, b: string, c: string)
    ensures a + b + c == a + (b + c)
  {
  }

  /** The last member of an object: key, colon, value, closing brace. */
  lemma MemberLast(s: string, key: string, r1: string, v: Json, r2: string)
    requires ParseString(s) == Some((key, r1)) && |r1| > 0 && r1[0] == ':'
    requires ParseValue(r1[1..]) == Some((v, r2)) && |r2| > 0 && r2[0] == '}'
    ensures ParseMembers(s) == Some(([Member(key, v)], r2[1..]))
  {
  }

  /** A member followed by a comma and the members after it. */
  lemma MemberNext(s: string, key: string, r1: string, v: Json, r2: string, ms: seq<Member>, rest: string)
    requires ParseString(s) == Some((key, r1)) && |r1| > 0 && r1[0] == ':'
    requires ParseValue(r1[1..]) == Some((v, r2)) && |r2| > 0 && r2[0] == ','
    requires ParseMembers(r2[1..]) == Some((ms, rest))
    ensures ParseMembers(s) == Some(([Member(key, v)] + ms, rest))
  {
  }

  /** Reading the text `JSON.stringify` writes gives back the value written. */
  lemma RoundTrip(j: Json)
    ensures Parse(Serialize(j)) == Some(j)
  {
    ValueRoundTrip(j, []);
    assert Serialize(j) + [] == Serialize(j);
  }
}

/** Base64 as section 4 of RFC 4648 writes it, with the lenient decoder of Python's base64.b64decode. */
module Base64 {
  import opened Text

  type Byte = x: int | 0 <= x < 256

  /** The 64-letter alphabet. */
  function Letter(v: nat): (c: char)
    requires v < 64
    ensures Value(c) == Some(v)
  {
    if v < 26 then ('A' as int + v) as char
    else if v < 52 then ('a' as int + v - 26) as char
    else if v < 62 then ('0' as int + v - 52) as char
    else if v == 62 then '+'
    else '/'
  }

  function Value(c: char): (v: Option<nat>)
    ensures v.Some? ==> v.value < 64
  {
    if 'A' <= c <= 'Z' then Some(c as int - 'A' as int)
    else if 'a' <= c <= 'z' then Some(c as int - 'a' as int + 26)
    else if '0' <= c <= '9' then Some(c as int - '0' as int + 52)
    else if c == '+' then Some(62)
    else if c == '/' then Some(63)
    else None
  }

  /** The four letters of three bytes. */
  function Quad(a: Byte, b: Byte, c: Byte): string {
    [Letter(a / 4), Letter(a % 4 * 16 + b / 16), Letter(b % 16 * 4 + c / 64), Letter(c % 64)]
  }

  function Encode(bytes: seq<Byte>): string {
    if bytes == [] then ""
    else if |bytes| == 1 then Quad(bytes[0], 0, 0)[..2] + "=="
    else if |bytes| == 2 then Quad(bytes[0], bytes[1], 0)[..3] + "="
    else Quad(bytes[0], bytes[1], bytes[2]) + Encode(bytes[3..])
  }

  /** Where the decoder is inside a group of four letters: the bits left over and the pads seen. */
  datatype Position = Position(quad: nat, left: nat, pads: nat)

  predicate Sound(p: Position) {
    p.quad < 4 && p.left < (match p.quad case 0 => 1 case 1 => 64 case 2 => 16 case _ => 4)
  }

  function Prepend(b: Byte, rest: Option<seq<Byte>>): Option<seq<Byte>> {
    if rest.None? then None else Some([b] + rest.value)
  }

  /** Characters outside the alphabet are skipped; a pad that completes a group ends the text. */
  function DecodeFrom(s: string, p: Position): Option<seq<Byte>>
    requires Sound(p)
    decreases |s|, 0
  {
    if s == [] then if p.quad == 0 then Some([]) else None
    else if s[0] == '=' then
      if p.quad >= 2 && p.quad + p.pads + 1 >= 4 then Some([])
      else DecodeFrom(s[1..], p.(pads := if p.quad >= 2 then p.pads + 1 else p.pads))
    else
      match Value(s[0])
      case None => DecodeFrom(s[1..], p)
      case Some(v) => DecodeLetter(v, s[1..], p)
  }

  function DecodeLetter(v: nat, rest: string, p: Position): Option<seq<Byte>>
    requires Sound(p) && v < 64
    decreases |rest|, 1
  {
    match p.quad
    case 0 => DecodeFrom(rest, Position(1, v, 0))
    case 1 => Prepend(p.left * 4 + v / 16, DecodeFrom(rest, Position(2, v % 16, 0)))
    case 2 => Prepend(p.left * 16 + v / 4, DecodeFrom(rest, Position(3, v % 4, 0)))
    case _ => Prepend(p.left * 64 + v, DecodeFrom(rest, Position(0, 0, 0)))
  }

  function Decode(s: string): Option<seq<Byte>> {
    DecodeFrom(s, Position(0, 0, 0))
  }

  lemma DecodeNext(v: nat, rest: string, p: Position)
    requires Sound(p) && v < 64
    ensures DecodeFrom([Letter(v)] + rest, p) == DecodeLetter(v, rest, p)
  {
    assert ([Letter(v)] + rest)[1..] == rest;
    assert Value('=').None?;
  }

  lemma DecodeTwo(a: Byte, v: nat, rest: string)
    requires v < 64 && v / 16 == a % 4
    ensures DecodeFrom([Letter(a / 4), Letter(v)] + rest, Position(0, 0, 0))
         == Prepend(a, DecodeFrom(rest, Position(2, v % 16, 0)))
  {
    assert [Letter(a / 4), Letter(v)] + rest == [Letter(a / 4)] + ([Letter(v)] + rest);
    DecodeNext(a / 4, [Letter(v)] + rest, Position(0, 0, 0));
    DecodeNext(v, rest, Position(1, a / 4, 0));
  }

  lemma DecodeThird(b: Byte, v: nat, rest: string)
    requires v < 64 && v / 4 == b % 16
    ensures DecodeFrom([Letter(v)] + rest, Position(2, b / 16, 0))
         == Prepend(b, DecodeFrom(rest, Position(3, v % 4, 0)))
  {
    DecodeNext(v, rest, Position(2, b / 16, 0));
  }

  lemma DecodeFourth(c: Byte, rest: string)
    ensures DecodeFrom([Letter(c % 64)] + rest, Position(3, c / 64, 0)) == Prepend(c, Decode(rest))
  {
    DecodeNext(c % 64, rest, Position(3, c / 64, 0));
  }

  lemma DecodePads(rest: string, left: nat)
    ensures left < 16 ==> DecodeFrom("==" + rest, Position(2, left, 0)) == Some([])
    ensures left < 4 ==> DecodeFrom("=" + rest, Position(3, left, 0)) == Some([])
  {
    assert ("==" + rest)[1..] == "=" + rest;
  }

  lemma DecodeOneByte(a: Byte)
    ensures Decode(Encode([a])) == Some([a])
  {
    DecodeTwo(a, a % 4 * 16, "==");
    DecodePads("", 0);
    assert Encode([a]) == [Letter(a / 4), Letter(a % 4 * 16)] + "==";
    assert "==" + "" == "==";
    assert [a] + [] == [a];
  }

  lemma DecodeTwoBytes(a: Byte, b: Byte)
    ensures Decode(Encode([a, b])) == Some([a, b])
  {
    var v, w := a % 4 * 16 + b / 16, b % 16 * 4;
    assert Encode([a, b]) == [Letter(a / 4), Letter(v)] + ([Letter(w)] + "=");
    DecodeTwo(a, v, [Letter(w)] + "=");
    DecodeThird(b, w, "=");
    DecodePads("", 0);
    assert "=" + "" == "=";
    assert [a] + ([b] + []) == [a, b];
  }

  lemma DecodeQuad(a: Byte, b: Byte, c: Byte, rest: string)
    ensures Decode(Quad(a, b, c) + rest) == Prepend(a, Prepend(b, Prepend(c, Decode(rest))))
  {
    var v, w := a % 4 * 16 + b / 16, b % 16 * 4 + c / 64;
    assert Quad(a, b, c) + rest == [Letter(a / 4), Letter(v)] + ([Letter(w)] + ([Letter(c % 64)] + rest));
    DecodeTwo(a, v, [Letter(w)] + ([Letter(c % 64)] + rest));
    DecodeThird(b, w, [Letter(c % 64)] + rest);
    DecodeFourth(c, rest);
  }

  /** Decoding gives back the encoded bytes. */
  lemma {:induction false} RoundTrip(bytes: seq<Byte>)
    ensures Decode(Encode(bytes)) == Some(bytes)
  {
    if bytes == [] {
    } else if |bytes| == 1 {
      DecodeOneByte(bytes[0]);
      assert bytes == [bytes[0]];
    } else if |bytes| == 2 {
      DecodeTwoBytes(bytes[0], bytes[1]);
      assert bytes == [bytes[0], bytes[1]];
    } else {
      DecodeQuad(bytes[0], bytes[1], bytes[2], Encode(bytes[3..]));
      RoundTrip(bytes[3..]);
      assert [bytes[0]] + ([bytes[1]] + ([bytes[2]] + bytes[3..])) == bytes;
    }
  }

  /** Encoded text is made of letters and pads, four characters for every three bytes begun. */
  lemma {:induction false} EncodeShape(bytes: seq<Byte>)
    ensures |Encode(bytes)| == 4 * ((|bytes| + 2) / 3)
    ensures forall c :: c in Encode(bytes) ==> c == '=' || Value(c).Some?
  {
    if |bytes| >= 3 {
      EncodeShape(bytes[3..]);
      assert |bytes[3..]| == |bytes| - 3;
    }
  }

  /** The alphabet: A to Z, a to z, 0 to 9, plus and slash, in this order; no other character has a value. */
  lemma AlphabetInOrder(v: nat, c: char)
    ensures Letter(0) == 'A' && Letter(25) == 'Z' && Letter(26) == 'a' && Letter(51) == 'z'
    ensures Letter(52) == '0' && Letter(61) == '9' && Letter(62) == '+' && Letter(63) == '/'
    ensures v < 63 && v !in {25, 51, 61, 62} ==> Letter(v + 1) as int == Letter(v) as int + 1
    ensures Value(c).Some? <==> 'A' <= c <= 'Z' || 'a' <= c <= 'z' || '0' <= c <= '9' || c == '+' || c == '/'
  {}

  /** Four letters spell the 24 bits of three bytes, six bits a letter, the high ones first. */
  lemma QuadSpells(a: Byte, b: Byte, c: Byte)
    ensures var q := Quad(a, b, c);
            && |q| == 4 && Value(q[0]).Some? && Value(q[1]).Some? && Value(q[2]).Some? && Value(q[3]).Some?
            && Value(q[0]).value * 262144 + Value(q[1]).value * 4096 + Value(q[2]).value * 64 + Value(q[3]).value
               == a * 65536 + b * 256 + c
  {
    assert a == a / 4 * 4 + a % 4 && b == b / 16 * 16 + b % 16 && c == c / 64 * 64 + c % 64;
  }
}

/** Flat JSON objects (section 4 of RFC 8259) whose values are integers and strings without escapes. */
module Json {
  import opened Text

  datatype Value = Num(n: int) | Str(s: string)

  datatype Member = Member(name: string, value: Value)

  // ---------- writing, with json.dumps' separators ----------

  /** A character that a JSON string holds as it is, and that Python's dumps does not escape. */
  predicate PlainChar(c: char) {
    ' ' <= c <= '~' && c != '"' && c != '\\'
  }

  predicate Plain(s: string) {
    forall i :: 0 <= i < |s| ==> PlainChar(s[i])
  }

  /** Python converts integers of up to 4300 digits to text and back, and raises beyond. */
  const MAX_DIGITS := 4300

  predicate Convertible(i: int) {
    |NatText(if i < 0 then -i else i)| <= MAX_DIGITS
  }

  predicate PlainValue(v: Value) {
    match v
    case Num(n) => Convertible(n)
    case Str(s) => Plain(s)
  }

  predicate PlainMember(m: Member) {
    Plain(m.name) && PlainValue(m.value)
  }

  function ValueText(v: Value): string {
    match v
    case Num(n) => IntText(n)
    case Str(s) => "\"" + s + "\""
  }

  function MemberText(m: Member): string {
    "\"" + m.name + "\": " + ValueText(m.value)
  }

  function MembersText(ms: seq<Member>): string {
    if ms == [] then ""
    else if |ms| == 1 then MemberText(ms[0])
    else MemberText(ms[0]) + ", " + MembersText(ms[1..])
  }

  function ObjectText(ms: seq<Member>): string {
    "{" + MembersText(ms) + "}"
  }

  /** The dictionary of some members; a repeated name keeps its last value. */
  function Dictionary(known: map<string, Value>, ms: seq<Member>): map<string, Value>
    decreases |ms|
  {
    if ms == [] then known else Dictionary(known[ms[0].name := ms[0].value], ms[1..])
  }

  // ---------- reading ----------

  datatype Parsed<T> = Failed | Read(value: T, rest: string)

  predicate IsSpace(c: char) {
    c == ' ' || c == '\t' || c == '\n' || c == '\r'
  }

  function SkipSpace(s: string): (r: string)
    ensures |r| <= |s|
  {
    if s != [] && IsSpace(s[0]) then SkipSpace(s[1..]) else s
  }

  /** The characters up to the closing quote. */
  function ReadChars(s: string): (p: Parsed<string>)
    ensures p.Read? ==> |p.rest| < |s|
  {
    if s == [] || s[0] == '\\' || s[0] < ' ' then Failed
    else if s[0] == '"' then Read("", s[1..])
    else
      var more := ReadChars(s[1..]);
      if more.Failed? then Failed else Read([s[0]] + more.value, more.rest)
  }

  function DigitSpan(s: string): (n: nat)
    ensures n <= |s|
  {
    if s != [] && IsDigit(s[0]) then DigitSpan(s[1..]) + 1 else 0
  }

  /** A numeral takes no leading zeros: after a zero the number is over. */
  function NumeralLength(s: string): (n: nat)
    ensures n <= |s|
  {
    if s != [] && s[0] == '0' then 1 else DigitSpan(s)
  }

  function ReadNat(s: string): (p: Parsed<int>)
    ensures p.Read? ==> |p.rest| < |s|
  {
    var n := NumeralLength(s);
    if n == 0 || n > MAX_DIGITS then Failed else Read(ParseNat(s[..n]), s[n..])
  }

  function ReadInt(s: string): (p: Parsed<int>)
    ensures p.Read? ==> |p.rest| < |s|
  {
    if s != [] && s[0] == '-' then
      var p := ReadNat(s[1..]);
      if p.Failed? then Failed else Read(-p.value, p.rest)
    else ReadNat(s)
  }

  function ReadValue(s: string): (p: Parsed<Value>)
    ensures p.Read? ==> |p.rest| < |s|
  {
    if s != [] && s[0] == '"' then
      var p := ReadChars(s[1..]);
      if p.Failed? then Failed else Read(Str(p.value), p.rest)
    else
      var p := ReadInt(s);
      if p.Failed? then Failed else Read(Num(p.value), p.rest)
  }

  function ReadMember(s: string): (p: Parsed<Member>)
    ensures p.Read? ==> |p.rest| < |s|
  {
    if s == [] || s[0] != '"' then Failed
    else
      var name := ReadChars(s[1..]);
      if name.Failed? then Failed else ReadAfterName(name.value, name.rest)
  }

  function ReadAfterName(name: string, s: string): (p: Parsed<Member>)
    ensures p.Read? ==> |p.rest| < |s|
  {
    var colon := SkipSpace(s);
    if colon == [] || colon[0] != ':' then Failed
    else
      var value := ReadValue(SkipSpace(colon[1..]));
      if value.Failed? then Failed else Read(Member(name, value.value), value.rest)
  }

  function ReadMembers(s: string, known: map<string, Value>): Parsed<map<string, Value>>
    decreases |s|
  {
    var m := ReadMember(s);
    if m.Failed? then Failed
    else
      var longer := known[m.value.name := m.value.value];
      var next := SkipSpace(m.rest);
      if next == [] then Failed
      else if next[0] == '}' then Read(longer, next[1..])
      else if next[0] == ',' then ReadMembers(SkipSpace(next[1..]), longer)
      else Failed
  }

  /** json.loads on the text of an object. */
  function ReadObject(s: string): Option<map<string, Value>> {
    var t := SkipSpace(s);
    if t == [] || t[0] != '{' then None
    else
      var inside := SkipSpace(t[1..]);
      var p := if inside != [] && inside[0] == '}' then Read(map[], inside[1..]) else ReadMembers(inside, map[]);
      if p.Failed? || SkipSpace(p.rest) != [] then None else Some(p.value)
  }

  // ---------- reading gives back what was written ----------

  lemma {:induction false} ReadCharsBack(s: string, rest: string)
    requires Plain(s)
    ensures ReadChars(s + "\"" + rest) == Read(s, rest)
  {
    if s == [] {
      assert s + "\"" + rest == "\"" + rest;
      assert ("\"" + rest)[1..] == rest;
    } else {
      ReadCharsBack(s[1..], rest);
      assert (s + "\"" + rest)[1..] == s[1..] + "\"" + rest;
      assert [s[0]] + s[1..] == s;
    }
  }

  lemma {:induction false} DigitSpanBack(s: string, rest: string)
    requires forall i :: 0 <= i < |s| ==> IsDigit(s[i])
    requires rest == [] || !IsDigit(rest[0])
    ensures DigitSpan(s + rest) == |s|
  {
    if s == [] {
      assert s + rest == rest;
    } else {
      DigitSpanBack(s[1..], rest);
      assert (s + rest)[1..] == s[1..] + rest;
    }
  }

  lemma {:induction false} NoLeadingZero(n: nat)
    ensures NatText(n)[0] == '0' <==> n == 0
    ensures n == 0 ==> NatText(n) == "0"
  {
    if n >= 10 {
      NoLeadingZero(n / 10);
    }
  }

  lemma ReadNatBack(n: nat, rest: string)
    requires rest == [] || !IsDigit(rest[0])
    ensures NumeralLength(NatText(n) + rest) == |NatText(n)|
  {
    NoLeadingZero(n);
    DigitSpanBack(NatText(n), rest);
  }

  lemma ReadDigitsBack(n: nat, rest: string)
    requires |NatText(n)| <= MAX_DIGITS && (rest == [] || !IsDigit(rest[0]))
    ensures ReadNat(NatText(n) + rest) == Read(n, rest)
  {
    var digits := NatText(n) + rest;
    ReadNatBack(n, rest);
    ParseNatText(n);
    assert digits[..|NatText(n)|] == NatText(n) && digits[|NatText(n)|..] == rest;
  }

  lemma ReadSigned(digits: string, n: int, rest: string)
    requires digits != [] && digits[0] != '-' && ReadNat(digits) == Read(n, rest)
    ensures ReadInt(digits) == Read(n, rest) && ReadInt("-" + digits) == Read(-n, rest)
  {
    assert ("-" + digits)[1..] == digits;
  }

  lemma ReadIntBack(i: int, rest: string)
    requires Convertible(i) && (rest == [] || !IsDigit(rest[0]))
    ensures ReadInt(IntText(i) + rest) == Read(i, rest)
  {
    var n := if i < 0 then -i else i;
    var digits := NatText(n) + rest;
    assert IsDigit(digits[0]);
    ReadDigitsBack(n, rest);
    ReadSigned(digits, n, rest);
    assert i < 0 ==> IntText(i) + rest == "-" + digits;
  }

  predicate EndsValue(rest: string) {
    rest != [] && (rest[0] == ',' || rest[0] == '}')
  }

  lemma ReadValueBack(v: Value, rest: string)
    requires EndsValue(rest) && PlainValue(v)
    ensures ReadValue(ValueText(v) + rest) == Read(v, rest)
    ensures SkipSpace(ValueText(v) + rest) == ValueText(v) + rest
  {
    match v
    case Num(n) =>
      ReadIntBack(n, rest);
      assert (ValueText(v) + rest)[0] == IntText(n)[0];
      assert n >= 0 ==> IsDigit(IntText(n)[0]);
    case Str(s) =>
      ReadCharsBack(s, rest);
      assert (ValueText(v) + rest)[1..] == s + "\"" + rest;
  }

  lemma ReadColon(name: string, value: string)
    requires value != [] && SkipSpace(value) == value
    ensures ReadAfterName(name, ": " + value)
         == if ReadValue(value).Failed? then Failed
           else Read(Member(name, ReadValue(value).value), ReadValue(value).rest)
  {
    assert (": " + value)[1..] == " " + value;
    assert (" " + value)[1..] == value;
  }

  lemma ReadAfterNameBack(m: Member, rest: string)
    requires EndsValue(rest) && PlainMember(m)
    ensures ReadAfterName(m.name, ": " + (ValueText(m.value) + rest)) == Read(m, rest)
  {
    ReadValueBack(m.value, rest);
    ReadColon(m.name, ValueText(m.value) + rest);
  }

  lemma ReadMemberBack(m: Member, rest: string)
    requires EndsValue(rest) && PlainMember(m)
    ensures ReadMember(MemberText(m) + rest) == Read(m, rest)
  {
    var after := ": " + (ValueText(m.value) + rest);
    ReadCharsBack(m.name, after);
    assert (MemberText(m) + rest)[1..] == m.name + "\"" + after;
    ReadAfterNameBack(m, rest);
  }

  lemma SkipOneSpace(tail: string)
    requires tail != [] && tail[0] == '"'
    ensures SkipSpace((", " + tail)[1..]) == tail
  {
    assert (", " + tail)[1..] == " " + tail;
    assert (" " + tail)[1..] == tail;
  }

  lemma ReadMembersStep(text: string, m: Member, after: string, known: map<string, Value>)
    requires ReadMember(text) == Read(m, after) && EndsValue(after)
    ensures ReadMembers(text, known)
         == if after[0] == '}' then Read(known[m.name := m.value], after[1..])
            else ReadMembers(SkipSpace(after[1..]), known[m.name := m.value])
  {
    assert SkipSpace(after) == after;
  }

  lemma ReadMembersNext(m: Member, tail: string, known: map<string, Value>)
    requires PlainMember(m) && tail != [] && tail[0] == '"'
    ensures ReadMembers(MemberText(m) + (", " + tail), known) == ReadMembers(tail, known[m.name := m.value])
  {
    ReadMemberBack(m, ", " + tail);
    SkipOneSpace(tail);
    ReadMembersStep(MemberText(m) + (", " + tail), m, ", " + tail, known);
  }

  lemma ReadMembersLast(m: Member, known: map<string, Value>)
    requires PlainMember(m)
    ensures ReadMembers(MemberText(m) + "}", known) == Read(known[m.name := m.value], "")
  {
    ReadMemberBack(m, "}");
    ReadMembersStep(MemberText(m) + "}", m, "}", known);
    assert "}"[1..] == "";
  }

  lemma Regroup(a: string, b: string, c: string, d: string)
    ensures a + b + c + d == a + (b + (c + d))
  {}

  lemma MembersTextPush(ms: seq<Member>)
    requires |ms| > 1
    ensures MembersText(ms) + "}" == MemberText(ms[0]) + (", " + (MembersText(ms[1..]) + "}"))
  {
    Regroup(MemberText(ms[0]), ", ", MembersText(ms[1..]), "}");
  }

  lemma StartsQuoted(ms: seq<Member>)
    requires ms != []
    ensures (MembersText(ms) + "}")[0] == '"'
  {
    assert MemberText(ms[0])[0] == '"';
  }

  lemma {:induction false} ReadMembersBack(ms: seq<Member>, known: map<string, Value>)
    requires ms != [] && forall i :: 0 <= i < |ms| ==> PlainMember(ms[i])
    ensures ReadMembers(MembersText(ms) + "}", known) == Read(Dictionary(known, ms), "")
    decreases |ms|
  {
    var longer := known[ms[0].name := ms[0].value];
    if |ms| == 1 {
      ReadMembersLast(ms[0], known);
      assert Dictionary(longer, ms[1..]) == longer;
    } else {
      ReadMembersBack(ms[1..], longer);
      MembersTextPush(ms);
      StartsQuoted(ms[1..]);
      ReadMembersNext(ms[0], MembersText(ms[1..]) + "}", known);
    }
  }

  lemma ReadObjectOf(inside: string, known: map<string, Value>)
    requires inside != [] && inside[0] == '"' && ReadMembers(inside, map[]) == Read(known, "")
    ensures ReadObject("{" + inside) == Some(known)
  {
    assert ("{" + inside)[1..] == inside;
  }

  lemma ReadEmptyObject()
    ensures ReadObject("{}") == Some(map[])
  {
    assert "{}"[1..] == "}" && "}"[1..] == "";
  }

  lemma ObjectTextInside(ms: seq<Member>)
    ensures ObjectText(ms) == "{" + (MembersText(ms) + "}")
  {
  }

  /** Reading a written object gives its dictionary. */
  lemma {:induction false} ReadObjectBack(ms: seq<Member>)
    requires forall i :: 0 <= i < |ms| ==> PlainMember(ms[i])
    ensures ReadObject(ObjectText(ms)) == Some(Dictionary(map[], ms))
  {
    ObjectTextInside(ms);
    if ms == [] {
      ReadEmptyObject();
      assert "{" + ("" + "}") == "{}";
    } else {
      ReadMembersBack(ms, map[]);
      StartsQuoted(ms);
      ReadObjectOf(MembersText(ms) + "}", Dictionary(map[], ms));
    }
  }
}

/** EnvelopeBlob of runtime/account/session_crypto.py. */
module Envelope {
  import opened Text
  import opened Base64
  import Json

  datatype Blob = Blob(keyVersion: int, dekNonce: seq<Byte>, wrappedDek: seq<Byte>, dataNonce: seq<Byte>,
                       ciphertext: seq<Byte>)

  datatype Unpacked = NotAnEnvelope | BadHeader | Ok(blob: Blob)

  const MAGIC: seq<Byte> := [84, 71, 83, 69, 49]

  /** str.encode on ASCII text. */
  function Bytes(s: string): (b: seq<Byte>)
    requires forall i :: 0 <= i < |s| ==> s[i] as int < 128
    ensures |b| == |s| && forall i :: 0 <= i < |s| ==> b[i] == s[i] as int
  {
    if s == [] then [] else Bytes(s[..|s| - 1]) + [s[|s| - 1] as int]
  }

  function Chars(b: seq<Byte>): (s: Option<string>)
    ensures s.Some? <==> forall i :: 0 <= i < |b| ==> b[i] < 128
    ensures s.Some? ==> |s.value| == |b| && forall i :: 0 <= i < |b| ==> s.value[i] as int == b[i]
  {
    if b == [] then Some("")
    else
      var front, last := Chars(b[..|b| - 1]), b[|b| - 1];
      if front.None? || last >= 128 then None else Some(front.value + [last as char])
  }

  function HeaderMembers(b: Blob): seq<Json.Member> {
    [Json.Member("v", Json.Num(b.keyVersion)),
     Json.Member("wn", Json.Str(Encode(b.dekNonce))),
     Json.Member("wd", Json.Str(Encode(b.wrappedDek))),
     Json.Member("dn", Json.Str(Encode(b.dataNonce)))]
  }

  function HeaderText(b: Blob): string {
    Json.ObjectText(HeaderMembers(b))
  }

  /** Two bytes, the high one first; larger lengths do not fit. */
  function Length16(n: nat): Option<seq<Byte>> {
    if n < 65536 then Some([n / 256, n % 256]) else None
  }

  /** None where the key version cannot be printed, or the length of the header does not fit its two bytes. */
  function Pack(b: Blob): Option<seq<Byte>> {
    if !Json.Convertible(b.keyVersion) then None
    else
      HeaderIsAscii(b);
      var header := Bytes(HeaderText(b));
      var length := Length16(|header|);
      if length.None? then None else Some(MAGIC + length.value + header + b.ciphertext)
  }

  /** A Python slice: bounds past the end are cut back. */
  function Slice(data: seq<Byte>, lo: nat, hi: nat): seq<Byte>
    requires lo <= hi
  {
    var n := |data|;
    data[if lo <= n then lo else n..if hi <= n then hi else n]
  }

  function BigEndian(bytes: seq<Byte>): nat {
    if bytes == [] then 0 else BigEndian(bytes[..|bytes| - 1]) * 256 + bytes[|bytes| - 1]
  }

  function TextField(header: map<string, Json.Value>, name: string): Option<seq<Byte>> {
    if name in header && header[name].Str? then Decode(header[name].s) else None
  }

  function Unpack(data: seq<Byte>): Unpacked {
    if !(MAGIC <= data) then NotAnEnvelope
    else
      var length := BigEndian(Slice(data, 5, 7));
      var text := Chars(Slice(data, 7, 7 + length));
      if text.None? then BadHeader
      else
        var header := Json.ReadObject(text.value);
        if header.None? || "v" !in header.value || !header.value["v"].Num? then BadHeader
        else
          var wn, wd, dn := TextField(header.value, "wn"), TextField(header.value, "wd"), TextField(header.value, "dn");
          if wn.None? || wd.None? || dn.None? then BadHeader
          else Ok(Blob(header.value["v"].n, wn.value, wd.value, dn.value, Slice(data, 7 + length, |data| + 7 + length)))
  }

  // ---------- the round trip ----------

  lemma EncodedIsPlain(bytes: seq<Byte>)
    ensures Json.Plain(Encode(bytes))
  {
    EncodeShape(bytes);
    var s := Encode(bytes);
    forall i | 0 <= i < |s|
      ensures Json.PlainChar(s[i])
    {
      assert s[i] in s;
    }
  }

  lemma MembersArePlain(b: Blob)
    requires Json.Convertible(b.keyVersion)
    ensures forall i :: 0 <= i < |HeaderMembers(b)| ==> Json.PlainMember(HeaderMembers(b)[i])
  {
    EncodedIsPlain(b.dekNonce);
    EncodedIsPlain(b.wrappedDek);
    EncodedIsPlain(b.dataNonce);
  }

  predicate Ascii(s: string) {
    forall i :: 0 <= i < |s| ==> s[i] as int < 128
  }

  lemma MemberIsAscii(m: Json.Member)
    requires Json.PlainMember(m)
    ensures Ascii(Json.MemberText(m))
  {
    if m.value.Num? {
      var digits := NatText(if m.value.n < 0 then -m.value.n else m.value.n);
      assert forall i :: 0 <= i < |digits| ==> IsDigit(digits[i]);
      assert Ascii(digits);
      assert Ascii("-" + digits);
    }
    assert Ascii(Json.ValueText(m.value));
  }

  lemma {:induction false} MembersAreAscii(ms: seq<Json.Member>)
    requires forall i :: 0 <= i < |ms| ==> Json.PlainMember(ms[i])
    ensures Ascii(Json.MembersText(ms))
  {
    if ms != [] {
      MemberIsAscii(ms[0]);
      MembersAreAscii(ms[1..]);
    }
  }

  lemma HeaderIsAscii(b: Blob)
    requires Json.Convertible(b.keyVersion)
    ensures Ascii(HeaderText(b))
  {
    MembersArePlain(b);
    MembersAreAscii(HeaderMembers(b));
  }

  function EncodedLength(n: nat): nat {
    4 * ((n + 2) / 3)
  }

  /** What a caller can check before packing: the version has at most 4300 digits, the header at most 65535 bytes. */
  predicate Fits(b: Blob) {
    && Json.Convertible(b.keyVersion)
    && 37 + |IntText(b.keyVersion)| + EncodedLength(|b.dekNonce|) + EncodedLength(|b.wrappedDek|)
         + EncodedLength(|b.dataNonce|) < 65536
  }

  lemma FourMembers(k: Json.Member, l: Json.Member, m: Json.Member, n: Json.Member)
    ensures Json.MembersText([k, l, m, n])
         == Json.MemberText(k) + ", " + (Json.MemberText(l) + ", " + (Json.MemberText(m) + ", " + Json.MemberText(n)))
    ensures Json.Dictionary(map[], [k, l, m, n])
         == map[k.name := k.value][l.name := l.value][m.name := m.value][n.name := n.value]
  {
    assert [k, l, m, n][1..] == [l, m, n] && [l, m, n][1..] == [m, n] && [m, n][1..] == [n] && [n][1..] == [];
    assert Json.MembersText([n]) == Json.MemberText(n);
    assert Json.MembersText([m, n]) == Json.MemberText(m) + ", " + Json.MemberText(n);
    assert Json.MembersText([l, m, n]) == Json.MemberText(l) + ", " + Json.MembersText([m, n]);
    var none: map<string, Json.Value> := map[];
    var one := none[k.name := k.value];
    var two := one[l.name := l.value];
    var three := two[m.name := m.value];
    assert Json.Dictionary(three, [n]) == three[n.name := n.value];
    assert Json.Dictionary(two, [m, n]) == Json.Dictionary(three, [n]);
    assert Json.Dictionary(one, [l, m, n]) == Json.Dictionary(two, [m, n]);
  }

  lemma HeaderLength(b: Blob)
    ensures |HeaderText(b)| == 37 + |IntText(b.keyVersion)| + EncodedLength(|b.dekNonce|)
              + EncodedLength(|b.wrappedDek|) + EncodedLength(|b.dataNonce|)
  {
    EncodeShape(b.dekNonce);
    EncodeShape(b.wrappedDek);
    EncodeShape(b.dataNonce);
    var ms := HeaderMembers(b);
    FourMembers(ms[0], ms[1], ms[2], ms[3]);
    assert |Json.MemberText(ms[0])| == 5 + |IntText(b.keyVersion)|;
    assert |Json.MemberText(ms[1])| == 8 + |Encode(b.dekNonce)|;
    assert |Json.MemberText(ms[2])| == 8 + |Encode(b.wrappedDek)|;
    assert |Json.MemberText(ms[3])| == 8 + |Encode(b.dataNonce)|;
  }

  lemma PackExactlyWhenItFits(b: Blob)
    ensures Pack(b).Some? <==> Fits(b)
  {
    HeaderLength(b);
  }

  lemma HeaderReadsBack(b: Blob)
    requires Json.Convertible(b.keyVersion)
    ensures Json.ReadObject(HeaderText(b)) == Some(HeaderDictionary(b))
  {
    MembersArePlain(b);
    Json.ReadObjectBack(HeaderMembers(b));
    var ms := HeaderMembers(b);
    FourMembers(ms[0], ms[1], ms[2], ms[3]);
  }

  function HeaderDictionary(b: Blob): map<string, Json.Value> {
    map["v" := Json.Num(b.keyVersion), "wn" := Json.Str(Encode(b.dekNonce)),
        "wd" := Json.Str(Encode(b.wrappedDek)), "dn" := Json.Str(Encode(b.dataNonce))]
  }

  lemma {:induction false} CharsOfBytes(s: string)
    requires Ascii(s)
    ensures Chars(Bytes(s)) == Some(s)
  {
    var c := Chars(Bytes(s));
    assert forall i :: 0 <= i < |s| ==> c.value[i] as int == s[i] as int;
    assert c.value == s;
  }

  lemma LengthReadsBack(n: nat)
    requires n < 65536
    ensures BigEndian(Length16(n).value) == n
  {
    var bytes := Length16(n).value;
    assert bytes[..1] == [n / 256] && [n / 256][..0] == [];
    assert BigEndian([n / 256]) == n / 256;
  }

  lemma SlicesOfPacked(length: seq<Byte>, header: seq<Byte>, ciphertext: seq<Byte>)
    requires |length| == 2
    ensures var data := MAGIC + length + header + ciphertext;
            && MAGIC <= data && Slice(data, 5, 7) == length && Slice(data, 7, 7 + |header|) == header
            && Slice(data, 7 + |header|, |data| + 7 + |header|) == ciphertext
  {
  }

  lemma HeaderFields(b: Blob)
    ensures TextField(HeaderDictionary(b), "wn") == Some(b.dekNonce)
    ensures TextField(HeaderDictionary(b), "wd") == Some(b.wrappedDek)
    ensures TextField(HeaderDictionary(b), "dn") == Some(b.dataNonce)
  {
    RoundTrip(b.dekNonce);
    RoundTrip(b.wrappedDek);
    RoundTrip(b.dataNonce);
  }

  lemma {:induction false} UnpackParts(length: seq<Byte>, header: seq<Byte>, b: Blob)
    requires Json.Convertible(b.keyVersion)
    requires |length| == 2 && BigEndian(length) == |header| && Chars(header) == Some(HeaderText(b))
    ensures Unpack(MAGIC + length + header + b.ciphertext) == Ok(b)
  {
    SlicesOfPacked(length, header, b.ciphertext);
    HeaderReadsBack(b);
    HeaderFields(b);
  }

  /** Unpacking a packed envelope gives back the blob, for every blob whose key version can be printed and whose header
      fits its two bytes - and only those can be packed. */
  lemma {:induction false} UnpackPacked(b: Blob)
    ensures Pack(b).Some? <==> Fits(b)
    ensures Fits(b) ==> Unpack(Pack(b).value) == Ok(b)
  {
    PackExactlyWhenItFits(b);
    if Fits(b) {
      HeaderIsAscii(b);
      var header := Bytes(HeaderText(b));
      LengthReadsBack(|header|);
      CharsOfBytes(HeaderText(b));
      UnpackParts(Length16(|header|).value, header, b);
    }
  }

  /** So no two blobs pack to the same bytes. */
  lemma PackInjective(b: Blob, c: Blob)
    requires Pack(b).Some? && Pack(b) == Pack(c)
    ensures b == c
  {
    UnpackPacked(b);
    UnpackPacked(c);
  }

  // ---------- byte by byte ----------

  lemma FieldSpelled(name: string, text: string, i: int)
    ensures Json.MemberText(Json.Member(name, Json.Str(text))) == "\"" + name + "\": \"" + text + "\""
    ensures Json.MemberText(Json.Member(name, Json.Num(i))) == "\"" + name + "\": " + IntText(i)
  {
    assert "\": " + "\"" == "\": \"";
  }

  lemma FourJoined(l: string, a: string, b: string, c: string, d: string, r: string, comma: string)
    ensures l + (a + comma + (b + comma + (c + comma + d))) + r == l + a + comma + b + comma + c + comma + d + r
  {}

  /** The header as it is written. */
  lemma {:induction false} HeaderSpelled(b: Blob)
    ensures var v := "\"" + "v" + "\": " + IntText(b.keyVersion);
            var wn := "\"" + "wn" + "\": \"" + Encode(b.dekNonce) + "\"";
            var wd := "\"" + "wd" + "\": \"" + Encode(b.wrappedDek) + "\"";
            var dn := "\"" + "dn" + "\": \"" + Encode(b.dataNonce) + "\"";
            HeaderText(b) == "{" + v + ", " + wn + ", " + wd + ", " + dn + "}"
  {
    var ms := HeaderMembers(b);
    FourMembers(ms[0], ms[1], ms[2], ms[3]);
    FieldSpelled("v", "", b.keyVersion);
    FieldSpelled("wn", Encode(b.dekNonce), 0);
    FieldSpelled("wd", Encode(b.wrappedDek), 0);
    FieldSpelled("dn", Encode(b.dataNonce), 0);
    FourJoined("{", Json.MemberText(ms[0]), Json.MemberText(ms[1]), Json.MemberText(ms[2]), Json.MemberText(ms[3]), "}",
               ", ");
  }

  lemma FourParts(magic: seq<Byte>, length: seq<Byte>, header: seq<Byte>, rest: seq<Byte>)
    requires |magic| == 5 && |length| == 2
    ensures var data := magic + length + header + rest;
            && |data| == 7 + |header| + |rest| && data[..5] == magic && data[5] == length[0] && data[6] == length[1]
            && data[7..7 + |header|] == header && data[7 + |header|..] == rest
  {}

  /** A packed blob: five fixed bytes, the length of the header in two, the header in ASCII, and the ciphertext. */
  lemma PackedBytes(b: Blob)
    requires Pack(b).Some?
    ensures var data, header := Pack(b).value, HeaderText(b);
            var n := |header|;
            && |data| == 7 + n + |b.ciphertext|
            && data[..5] == [84, 71, 83, 69, 49] && data[5] as int * 256 + data[6] as int == n
            && (forall i :: 0 <= i < n ==> data[7..7 + n][i] == header[i] as int)
            && data[7 + n..] == b.ciphertext
  {
    PackExactlyWhenItFits(b);
    HeaderIsAscii(b);
    var header := Bytes(HeaderText(b));
    FourParts(MAGIC, Length16(|header|).value, header, b.ciphertext);
  }

  /** Only the first five bytes say that something is no envelope. */
  lemma NotAnEnvelopeIff(data: seq<Byte>)
    ensures Unpack(data) == NotAnEnvelope <==> !(|data| >= 5 && data[..5] == [84, 71, 83, 69, 49])
  {}
}

/**
  base64url text of a byte string (src/shared/encoding/base64url.js). `btoa` and `atob` are the platform's:
  base64 of section 4 of RFC 4648, and its forgiving decoder, which ignores white space, accepts missing
  padding and drops the spare bits of the last digit.
*/
module Base64Url {
  import opened Options

  type Byte = x: int | 0 <= x < 256
  type Sextet = x: int | 0 <= x < 64

  // ---- The platform functions ----

  function Digit(v: Sextet): char {
    if v < 26 then 'A' + v as char
    else if v < 52 then 'a' + (v - 26) as char
    else if v < 62 then '0' + (v - 52) as char
    else if v == 62 then '+'
    else '/'
  }

  function Value(c: char): Option<Sextet> {
    if 'A' <= c <= 'Z' then Some(c as int - 'A' as int)
    else if 'a' <= c <= 'z' then Some(c as int - 'a' as int + 26)
    else if '0' <= c <= '9' then Some(c as int - '0' as int + 52)
    else if c == '+' then Some(62)
    else if c == '/' then Some(63)
    else None
  }

  /** Three bytes give four digits; one or two left over give two or three, the spare bits zero. */
  function ToSextets(b: seq<Byte>): seq<Sextet> {
    if |b| == 0 then []
    else if |b| == 1 then [Sextet0(b[0]), Sextet1(b[0], 0)]
    else if |b| == 2 then [Sextet0(b[0]), Sextet1(b[0], b[1]), Sextet2(b[1], 0)]
    else [Sextet0(b[0]), Sextet1(b[0], b[1]), Sextet2(b[1], b[2]), Sextet3(b[2])] + ToSextets(b[3..])
  }

  function Sextet0(x: Byte): Sextet {
    x / 4
  }

  function Sextet1(x: Byte, y: Byte): Sextet {
    x % 4 * 16 + y / 16
  }

  function Sextet2(y: Byte, z: Byte): Sextet {
    y % 16 * 4 + z / 64
  }

  function Sextet3(z: Byte): Sextet {
    z % 64
  }

  function FromSextets(v: seq<Sextet>): seq<Byte>
    requires |v| % 4 != 1
  {
    if |v| == 0 then []
    else if |v| == 2 then [Byte0(v[0], v[1])]
    else if |v| == 3 then [Byte0(v[0], v[1]), Byte1(v[1], v[2])]
    else [Byte0(v[0], v[1]), Byte1(v[1], v[2]), Byte2(v[2], v[3])] + FromSextets(v[4..])
  }

  function Byte0(p: Sextet, q: Sextet): Byte {
    p as int * 4 + q / 16
  }

  function Byte1(q: Sextet, r: Sextet): Byte {
    q as int % 16 * 16 + r / 4
  }

  function Byte2(r: Sextet, s: Sextet): Byte {
    r as int % 4 * 64 + s
  }

  function Digits(v: seq<Sextet>): string {
    seq(|v|, i requires 0 <= i < |v| => Digit(v[i]))
  }

  function Repeat(c: char, n: nat): string {
    seq(n, _ => c)
  }

  /** A string of byte-valued characters, as String.fromCharCode makes it. */
  predicate Binary(s: string) {
    forall i :: 0 <= i < |s| ==> s[i] as int < 256
  }

  function CharCodes(s: string): seq<Byte>
    requires Binary(s)
  {
    seq<Byte>(|s|, i requires 0 <= i < |s| => s[i] as int)
  }

  function FromCharCodes(b: seq<Byte>): (s: string)
    ensures Binary(s)
  {
    seq(|b|, i requires 0 <= i < |b| => b[i] as char)
  }

  function Btoa(binary: string): string
    requires Binary(binary)
  {
    Digits(ToSextets(CharCodes(binary))) + Repeat('=', (3 - |binary| % 3) % 3)
  }

  predicate WhiteSpace(c: char) {
    c == ' ' || c == '\t' || c == '\n' || c == '\r' || c as int == 12
  }

  function DropWhiteSpace(s: string): string {
    if s == "" then ""
    else (if WhiteSpace(s[0]) then "" else [s[0]]) + DropWhiteSpace(s[1..])
  }

  /** One or two padding signs are allowed at the end of a whole number of quads. */
  function DropPadding(s: string): string {
    if |s| % 4 != 0 then s
    else if |s| >= 2 && s[|s| - 1] == '=' && s[|s| - 2] == '=' then s[..|s| - 2]
    else if |s| >= 1 && s[|s| - 1] == '=' then s[..|s| - 1]
    else s
  }

  predicate AllDigits(s: string) {
    forall i :: 0 <= i < |s| ==> Value(s[i]).Some?
  }

  function Values(s: string): seq<Sextet>
    requires AllDigits(s)
  {
    seq(|s|, i requires 0 <= i < |s| => Value(s[i]).value)
  }

  /** None where atob throws. */
  function Atob(s: string): (r: Option<string>)
    ensures r.Some? ==> Binary(r.value)
  {
    var t := DropPadding(DropWhiteSpace(s));
    if |t| % 4 == 1 || !AllDigits(t) then None else Some(FromCharCodes(FromSextets(Values(t))))
  }

  // ---- The module under study ----

  function Replace(s: string, target: char, with: char): string {
    seq(|s|, i requires 0 <= i < |s| => if s[i] == target then with else s[i])
  }

  /** .replace(/=+$/, '') */
  function StripPadding(s: string): string {
    if |s| > 0 && s[|s| - 1] == '=' then StripPadding(s[..|s| - 1]) else s
  }

  function Encode(b: seq<Byte>): string {
    StripPadding(Replace(Replace(Btoa(FromCharCodes(b)), '+', '-'), '/', '_'))
  }

  function Padded(s: string): string {
    var base64 := Replace(Replace(s, '-', '+'), '_', '/');
    base64 + Repeat('=', PadLength(|base64|))
  }

  function PadLength(n: nat): nat {
    (4 - n % 4) % 4
  }

  /** None where decode throws. */
  function Decode(s: string): Option<seq<Byte>> {
    match Atob(Padded(s))
    case None => None
    case Some(binary) => Some(CharCodes(binary))
  }

  method EncodeBytes(data: array<Byte>) returns (s: string)
    ensures s == Encode(data[..])
    ensures Decode(s) == Some(data[..])
  {
    var binary := "";
    for i := 0 to data.Length
      invariant binary == FromCharCodes(data[..i])
    {
      binary := binary + [data[i] as char];
    }
    assert data[..data.Length] == data[..];
    s := StripPadding(Replace(Replace(Btoa(binary), '+', '-'), '/', '_'));
    DecodeEncode(data[..]);
  }

  method DecodeText(s: string) returns (bytes: Option<array<Byte>>)
    ensures bytes.None? <==> Decode(s).None?
    ensures bytes.Some? ==> fresh(bytes.value) && Some(bytes.value[..]) == Decode(s)
  {
    var base64 := Replace(Replace(s, '-', '+'), '_', '/');
    var padded := base64 + Repeat('=', PadLength(|base64|));
    var decoded := Atob(padded);
    assert padded == Padded(s);
    if decoded.None? {
      return None;
    }
    var binary := decoded.value;
    var data := new Byte[|binary|];
    for i := 0 to |binary|
      invariant forall k :: 0 <= k < i ==> data[k] == binary[k] as int
    {
      data[i] := binary[i] as int;
    }
    assert data[..] == CharCodes(binary);
    bytes := Some(data);
  }

  // ---- Digits and bytes ----

  /** Tables 1 and 2 of RFC 4648: three runs of consecutive characters and two signs, other ones in a url. */
  lemma Alphabet(v: Sextet)
    ensures Digit(0) == 'A' && Digit(25) == 'Z' && Digit(26) == 'a' && Digit(51) == 'z'
    ensures Digit(52) == '0' && Digit(61) == '9' && Digit(62) == '+' && Digit(63) == '/'
    ensures v as int !in [25, 51, 61, 62, 63] ==> Digit(v + 1) as int == Digit(v) as int + 1
    ensures Value(Digit(v)) == Some(v)
    ensures Replace(Replace(Digits([v]), '+', '-'), '/', '_') ==
            [if v == 62 then '-' else if v == 63 then '_' else Digit(v)]
  {
    assert Digits([v]) == [Digit(v)];
  }

  /** Big-endian: three bytes and their four digits are the same 24-bit number; spare bits are at the low end. */
  lemma SameNumber(x: Byte, y: Byte, z: Byte)
    ensures |ToSextets([x, y, z])| == 4 && |ToSextets([x, y])| == 3 && |ToSextets([x])| == 2
    ensures var v := ToSextets([x, y, z]);
      262144 * v[0] as int + 4096 * v[1] as int + 64 * v[2] as int + v[3] as int ==
      65536 * x as int + 256 * y as int + z as int
    ensures var v := ToSextets([x, y]);
      4096 * v[0] as int + 64 * v[1] as int + v[2] as int == 4 * (256 * x as int + y as int)
    ensures var v := ToSextets([x]);
      64 * v[0] as int + v[1] as int == 16 * x as int
  {
    ToTriple(x, y, z, []);
    assert [x, y, z] + [] == [x, y, z];
    ToShort(x, y);
  }

  /** Three bytes in four digits and back. */
  lemma TripleRoundTrip(x: Byte, y: Byte, z: Byte)
    ensures Byte0(Sextet0(x), Sextet1(x, y)) == x
    ensures Byte1(Sextet1(x, y), Sextet2(y, z)) == y
    ensures Byte2(Sextet2(y, z), Sextet3(z)) == z
  {
  }

  lemma {:induction false} SextetsLength(b: seq<Byte>)
    ensures 3 * |ToSextets(b)| == 4 * |b| + (if |b| % 3 == 0 then 0 else 3 - |b| % 3)
    ensures |ToSextets(b)| % 4 != 1
  {
    if |b| >= 3 {
      SextetsLength(b[3..]);
    }
  }

  lemma ToTriple(x: Byte, y: Byte, z: Byte, rest: seq<Byte>)
    ensures ToSextets([x, y, z] + rest) == [Sextet0(x), Sextet1(x, y), Sextet2(y, z), Sextet3(z)] + ToSextets(rest)
  {
  }

  lemma FromQuad(p: Sextet, q: Sextet, r: Sextet, s: Sextet, rest: seq<Sextet>)
    requires |rest| % 4 != 1
    ensures FromSextets([p, q, r, s] + rest) == [Byte0(p, q), Byte1(q, r), Byte2(r, s)] + FromSextets(rest)
  {
  }

  lemma FromShort(p: Sextet, q: Sextet, r: Sextet)
    ensures FromSextets([p, q]) == [Byte0(p, q)]
    ensures FromSextets([p, q, r]) == [Byte0(p, q), Byte1(q, r)]
  {
  }

  lemma ToShort(x: Byte, y: Byte)
    ensures ToSextets([x]) == [Sextet0(x), Sextet1(x, 0)]
    ensures ToSextets([x, y]) == [Sextet0(x), Sextet1(x, y), Sextet2(y, 0)]
  {
  }

  lemma OneByteRoundTrip(x: Byte)
    ensures FromSextets(ToSextets([x])) == [x]
  {
  }

  lemma TwoByteRoundTrip(x: Byte, y: Byte)
    ensures FromSextets(ToSextets([x, y])) == [x, y]
  {
    ToShort(x, y);
    FromShort(Sextet0(x), Sextet1(x, y), Sextet2(y, 0));
    TripleRoundTrip(x, y, 0);
  }

  lemma {:induction false} SextetsRoundTrip(b: seq<Byte>)
    ensures |ToSextets(b)| % 4 != 1
    ensures FromSextets(ToSextets(b)) == b
  {
    SextetsLength(b);
    if |b| == 0 {
    } else if |b| == 1 {
      assert b == [b[0]];
      OneByteRoundTrip(b[0]);
    } else if |b| == 2 {
      assert b == [b[0], b[1]];
      TwoByteRoundTrip(b[0], b[1]);
    } else {
      var x, y, z, rest := b[0], b[1], b[2], b[3..];
      assert b == [x, y, z] + rest;
      SextetsRoundTrip(rest);
      ToTriple(x, y, z, rest);
      FromQuad(Sextet0(x), Sextet1(x, y), Sextet2(y, z), Sextet3(z), ToSextets(rest));
      TripleRoundTrip(x, y, z);
    }
  }

  /** The spare bits of the last digit are zero. */
  predicate SpareBitsZero(v: seq<Sextet>)
    requires |v| % 4 != 1
  {
    (|v| % 4 == 2 ==> v[|v| - 1] % 16 == 0) && (|v| % 4 == 3 ==> v[|v| - 1] % 4 == 0)
  }

  lemma QuadRoundTrip(p: Sextet, q: Sextet, r: Sextet, s: Sextet)
    ensures var x, y, z := Byte0(p, q), Byte1(q, r), Byte2(r, s);
      Sextet0(x) == p && Sextet1(x, y) == q && Sextet2(y, z) == r && Sextet3(z) == s
    ensures Sextet0(Byte0(p, q)) == p
    ensures Sextet1(Byte0(p, q), 0) == q as int - q % 16
    ensures Sextet1(Byte0(p, q), Byte1(q, r)) == q
    ensures Sextet2(Byte1(q, r), 0) == r as int - r % 4
  {
  }

  lemma TwoDigitRoundTrip(p: Sextet, q: Sextet)
    ensures ToSextets(FromSextets([p, q])) == [p, q] <==> q % 16 == 0
  {
    FromShort(p, q, 0);
    ToShort(Byte0(p, q), 0);
    QuadRoundTrip(p, q, 0, 0);
  }

  lemma ThreeDigitRoundTrip(p: Sextet, q: Sextet, r: Sextet)
    ensures ToSextets(FromSextets([p, q, r])) == [p, q, r] <==> r % 4 == 0
  {
    FromShort(p, q, r);
    ToShort(Byte0(p, q), Byte1(q, r));
    QuadRoundTrip(p, q, r, 0);
  }

  lemma QuadStep(p: Sextet, q: Sextet, r: Sextet, s: Sextet, rest: seq<Sextet>)
    requires |rest| % 4 != 1
    ensures ToSextets(FromSextets([p, q, r, s] + rest)) == [p, q, r, s] + ToSextets(FromSextets(rest))
  {
    FromQuad(p, q, r, s, rest);
    ToTriple(Byte0(p, q), Byte1(q, r), Byte2(r, s), FromSextets(rest));
    QuadRoundTrip(p, q, r, s);
  }

  lemma {:induction false} BytesRoundTrip(v: seq<Sextet>)
    requires |v| % 4 != 1
    ensures ToSextets(FromSextets(v)) == v <==> SpareBitsZero(v)
  {
    if |v| == 0 {
    } else if |v| == 2 {
      assert v == [v[0], v[1]];
      TwoDigitRoundTrip(v[0], v[1]);
    } else if |v| == 3 {
      assert v == [v[0], v[1], v[2]];
      ThreeDigitRoundTrip(v[0], v[1], v[2]);
    } else {
      BytesRoundTrip(v[4..]);
      assert v == [v[0], v[1], v[2], v[3]] + v[4..];
      SplitQuad(v[0], v[1], v[2], v[3], v[4..]);
      SpareBitsLast(v);
    }
  }

  lemma SplitQuad(p: Sextet, q: Sextet, r: Sextet, s: Sextet, rest: seq<Sextet>)
    requires |rest| % 4 != 1
    ensures ToSextets(FromSextets([p, q, r, s] + rest)) == [p, q, r, s] + rest <==> ToSextets(FromSextets(rest)) == rest
  {
    QuadStep(p, q, r, s, rest);
    SamePrefix([p, q, r, s], ToSextets(FromSextets(rest)), rest);
  }

  lemma SpareBitsLast(v: seq<Sextet>)
    requires |v| >= 4 && |v| % 4 != 1
    ensures SpareBitsZero(v) <==> SpareBitsZero(v[4..])
  {
  }

  lemma SamePrefix(head: seq<Sextet>, a: seq<Sextet>, b: seq<Sextet>)
    ensures head + a == head + b <==> a == b
  {
    assert (head + a)[|head|..] == a && (head + b)[|head|..] == b;
  }

  // ---- Text ----

  /** The base64url alphabet: '-' and '_' for '+' and '/'. */
  function UrlDigit(v: Sextet): char {
    if v == 62 then '-' else if v == 63 then '_' else Digit(v)
  }

  function UrlText(v: seq<Sextet>): string {
    seq(|v|, i requires 0 <= i < |v| => UrlDigit(v[i]))
  }

  predicate IsUrlText(s: string) {
    forall i :: 0 <= i < |s| ==> UrlValue(s[i]).Some?
  }

  function UrlValue(c: char): Option<Sextet> {
    if c == '-' then Some(62) else if c == '_' then Some(63) else if c == '+' || c == '/' then None else Value(c)
  }

  function UrlValues(s: string): seq<Sextet>
    requires IsUrlText(s)
  {
    seq(|s|, i requires 0 <= i < |s| => UrlValue(s[i]).value)
  }

  lemma DigitFacts(v: Sextet)
    ensures Value(Digit(v)) == Some(v) && UrlValue(UrlDigit(v)) == Some(v)
    ensures Digit(v) != '=' && Digit(v) != '-' && Digit(v) != '_' && !WhiteSpace(Digit(v))
    ensures Digit(v) == '+' <==> v == 62
    ensures Digit(v) == '/' <==> v == 63
  {
  }

  lemma UrlValueFacts(c: char)
    requires UrlValue(c).Some?
    ensures UrlDigit(UrlValue(c).value) == c
    ensures var d := if c == '-' then '+' else if c == '_' then '/' else c;
      d == Digit(UrlValue(c).value)
  {
  }

  lemma {:induction false} StripPaddingEnds(s: string, n: nat)
    requires forall i :: 0 <= i < |s| ==> s[i] != '='
    ensures StripPadding(s + Repeat('=', n)) == s
  {
    var t := s + Repeat('=', n);
    if n == 0 {
      assert t == s;
    } else {
      assert t[..|t| - 1] == s + Repeat('=', n - 1);
      StripPaddingEnds(s, n - 1);
    }
  }

  /** What encode produces: the digits in the url alphabet, without padding. */
  lemma EncodeIsUrlText(b: seq<Byte>)
    ensures Encode(b) == UrlText(ToSextets(b))
  {
    var v := ToSextets(b);
    var pad := (3 - |b| % 3) % 3;
    assert CharCodes(FromCharCodes(b)) == b;
    var text := Replace(Replace(Btoa(FromCharCodes(b)), '+', '-'), '/', '_');
    forall i | 0 <= i < |v|
      ensures text[i] == UrlDigit(v[i]) && UrlDigit(v[i]) != '='
    {
      DigitFacts(v[i]);
    }
    assert text == UrlText(v) + Repeat('=', pad);
    StripPaddingEnds(UrlText(v), pad);
  }

  lemma {:induction false} NoWhiteSpaceToDrop(s: string)
    requires forall i :: 0 <= i < |s| ==> !WhiteSpace(s[i])
    ensures DropWhiteSpace(s) == s
  {
    if s != "" {
      NoWhiteSpaceToDrop(s[1..]);
    }
  }

  lemma UrlTextPadded(s: string)
    requires IsUrlText(s)
    ensures var v := UrlValues(s);
      && Padded(s) == Digits(v) + Repeat('=', PadLength(|s|))
      && DropWhiteSpace(Padded(s)) == Padded(s)
  {
    var v := UrlValues(s);
    forall i | 0 <= i < |s|
      ensures Replace(Replace(s, '-', '+'), '_', '/')[i] == Digits(v)[i] && !WhiteSpace(Digits(v)[i])
    {
      UrlValueFacts(s[i]);
      DigitFacts(v[i]);
    }
    assert Replace(Replace(s, '-', '+'), '_', '/') == Digits(v);
    NoWhiteSpaceToDrop(Padded(s));
  }

  lemma DigitsDecode(v: seq<Sextet>)
    ensures AllDigits(Digits(v)) && Values(Digits(v)) == v
    ensures forall i :: 0 <= i < |v| ==> Digits(v)[i] != '='
  {
  }

  /**
    Text in the url alphabet decodes unless its length is 1 modulo 4: the padding expression adds back just
    what a complete encoding would carry.
  */
  lemma DecodeUrlText(s: string)
    requires IsUrlText(s)
    ensures Decode(s) == if |s| % 4 == 1 then None else Some(FromSextets(UrlValues(s)))
  {
    var v := UrlValues(s);
    UrlTextPadded(s);
    DigitsDecode(v);
    if |s| % 4 == 1 {
      AtobRejectsOddDigit(v);
    } else {
      AtobOfDigits(v);
      assert CharCodes(FromCharCodes(FromSextets(v))) == FromSextets(v);
    }
  }

  lemma AtobInStages(s: string, t: string)
    requires DropWhiteSpace(s) == s && DropPadding(s) == t
    ensures |t| % 4 == 1 || !AllDigits(t) ==> Atob(s) == None
    ensures |t| % 4 != 1 && AllDigits(t) ==> Atob(s) == Some(FromCharCodes(FromSextets(Values(t))))
  {
  }

  lemma AtobOfDigits(v: seq<Sextet>)
    requires |v| % 4 != 1
    requires var padded := Digits(v) + Repeat('=', PadLength(|v|)); DropWhiteSpace(padded) == padded
    ensures Atob(Digits(v) + Repeat('=', PadLength(|v|))) == Some(FromCharCodes(FromSextets(v)))
  {
    DigitsDecode(v);
    PaddingDropped(Digits(v));
    AtobInStages(Digits(v) + Repeat('=', PadLength(|v|)), Digits(v));
  }

  lemma AtobRejectsOddDigit(v: seq<Sextet>)
    requires |v| % 4 == 1
    requires var padded := Digits(v) + Repeat('=', PadLength(|v|)); DropWhiteSpace(padded) == padded
    ensures Atob(Digits(v) + Repeat('=', PadLength(|v|))) == None
  {
    DigitsDecode(v);
    PaddingDropped(Digits(v));
    assert (Digits(v) + "=")[|v|] == '=' && Value('=').None?;
    AtobInStages(Digits(v) + Repeat('=', PadLength(|v|)), Digits(v) + "=");
  }

  /** Of the padding that was added, all is dropped again, except after a length that no encoding has. */
  lemma PaddingDropped(s: string)
    requires forall i :: 0 <= i < |s| ==> s[i] != '='
    ensures DropPadding(s + Repeat('=', PadLength(|s|))) == if |s| % 4 == 1 then s + "=" else s
  {
  }

  lemma UrlTextRoundTrip(v: seq<Sextet>)
    ensures IsUrlText(UrlText(v)) && UrlValues(UrlText(v)) == v
  {
  }

  /** Decoding an encoding gives the bytes back, for every byte string. */
  lemma DecodeEncode(b: seq<Byte>)
    ensures Decode(Encode(b)) == Some(b)
  {
    EncodeIsUrlText(b);
    SextetsRoundTrip(b);
    UrlTextRoundTrip(ToSextets(b));
    DecodeUrlText(Encode(b));
  }

  /** The length of an encoding is ceil(4n/3), never 1 modulo 4. */
  lemma EncodedLength(b: seq<Byte>)
    ensures |Encode(b)| == (4 * |b| + 2) / 3 && |Encode(b)| % 4 != 1
    ensures IsUrlText(Encode(b))
  {
    EncodeIsUrlText(b);
    SextetsLength(b);
    UrlTextRoundTrip(ToSextets(b));
  }

  /** So a nonce key identifies its nonce. */
  lemma EncodeInjective(a: seq<Byte>, b: seq<Byte>)
    requires Encode(a) == Encode(b)
    ensures a == b
  {
    DecodeEncode(a);
    DecodeEncode(b);
  }

  /**
    Decoding is not injective: it is undone by encoding exactly when the spare bits of the last digit are
    zero. This is why the nonce key is taken from the decoded bytes and not from the text.
  */
  lemma EncodeDecode(s: string)
    requires IsUrlText(s) && |s| % 4 != 1
    ensures Decode(s).Some?
    ensures Encode(Decode(s).value) == s <==> SpareBitsZero(UrlValues(s))
  {
    var v := UrlValues(s);
    DecodeUrlText(s);
    EncodeIsUrlText(FromSextets(v));
    BytesRoundTrip(v);
    var w := ToSextets(FromSextets(v));
    UrlTextRoundTrip(w);
    forall i | 0 <= i < |s|
      ensures UrlText(v)[i] == s[i]
    {
      UrlValueFacts(s[i]);
    }
    assert UrlText(v) == s;
  }
}

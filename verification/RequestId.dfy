/** Compact identifiers of chat commands: UUID, base64url and base-36 fields joined by bars. */
module RequestId {
  import opened Basics
  import opened Text

  type byte = b: int | 0 <= b < 256
  /** A UUID is its 16 bytes. */
  type Uuid = b: seq<byte> | |b| == 16 witness seq(16, i => 0)

  // --------------------------------------------------- base64url, no padding

  /** Section 5 of RFC 4648. */
  function Digit64(i: int): char
    requires 0 <= i < 64
  {
    if i < 26 then 'A' + i as char
    else if i < 52 then 'a' + (i - 26) as char
    else if i < 62 then '0' + (i - 52) as char
    else if i == 62 then '-' else '_'
  }

  function Value64(c: char): Option<int> {
    if 'A' <= c <= 'Z' then Some(c as int - 'A' as int)
    else if 'a' <= c <= 'z' then Some(c as int - 'a' as int + 26)
    else if '0' <= c <= '9' then Some(c as int - '0' as int + 52)
    else if c == '-' then Some(62)
    else if c == '_' then Some(63)
    else None
  }

  function Encode64(bs: seq<byte>): string {
    if |bs| == 0 then ""
    else if |bs| == 1 then [Digit64(bs[0] / 4), Digit64(bs[0] % 4 * 16)]
    else if |bs| == 2 then
      [Digit64(bs[0] / 4), Digit64(bs[0] % 4 * 16 + bs[1] / 16), Digit64(bs[1] % 16 * 4)]
    else
      [Digit64(bs[0] / 4), Digit64(bs[0] % 4 * 16 + bs[1] / 16),
       Digit64(bs[1] % 16 * 4 + bs[2] / 64), Digit64(bs[2] % 64)] + Encode64(bs[3..])
  }

  /** RawURLEncoding.DecodeString on text from which line breaks have been removed. */
  function DecodeDigits(s: string): Option<seq<byte>> {
    if |s| == 0 then Some([])
    else if |s| == 1 then None
    else
      var a, b := Value64(s[0]), Value64(s[1]);
      if a.None? || b.None? then None
      else
        var first := [ToByte(a.value * 4 + b.value / 16)];
        if |s| == 2 then Some(first)
        else
          var c := Value64(s[2]);
          if c.None? then None
          else
            var second := [ToByte(b.value % 16 * 16 + c.value / 4)];
            if |s| == 3 then Some(first + second)
            else
              var d := Value64(s[3]);
              if d.None? then None
              else
                match DecodeDigits(s[4..])
                case None => None
                case Some(rest) => Some(first + second + [ToByte(c.value % 4 * 64 + d.value)] + rest)
  }

  function ToByte(n: int): byte { n % 256 }

  /** The decoder skips carriage returns and line feeds anywhere in its input. */
  function WithoutLineBreaks(s: string): string {
    if s == "" then ""
    else if s[0] == '\r' || s[0] == '\n' then WithoutLineBreaks(s[1..])
    else [s[0]] + WithoutLineBreaks(s[1..])
  }

  function Decode64(s: string): Option<seq<byte>> {
    DecodeDigits(WithoutLineBreaks(s))
  }

  /** Line breaks may stand anywhere. */
  lemma {:induction false} LineBreaksAreSkipped(a: string, c: char, b: string)
    requires c == '\r' || c == '\n'
    ensures WithoutLineBreaks(a + [c] + b) == WithoutLineBreaks(a + b) && Decode64(a + [c] + b) == Decode64(a + b)
    decreases |a|
  {
    hide DecodeDigits;
    if a == "" {
      assert a + [c] + b == [c] + b && a + b == b;
      assert ([c] + b)[1..] == b;
    } else {
      assert (a + [c] + b)[1..] == a[1..] + [c] + b && (a + b)[1..] == a[1..] + b;
      LineBreaksAreSkipped(a[1..], c, b);
    }
  }

  predicate Plain(c: char) {
    'a' <= c <= 'z' || 'A' <= c <= 'Z' || '0' <= c <= '9' || c == '-' || c == '_'
  }

  /** No white space, no line break, no field separator. */
  predicate PlainText(s: string) {
    forall c :: c in s ==> Plain(c)
  }

  lemma DigitsInvert(i: int)
    requires 0 <= i < 64
    ensures Value64(Digit64(i)) == Some(i) && Plain(Digit64(i))
  {
  }

  /** The four sextets of three bytes determine the bytes. */
  lemma Sextets(x: byte, y: byte, z: byte)
    ensures 0 <= x / 4 < 64 && 0 <= x % 4 * 16 + y / 16 < 64 && 0 <= y % 16 * 4 + z / 64 < 64 && 0 <= z % 64 < 64
    ensures ToByte(x / 4 * 4 + (x % 4 * 16 + y / 16) / 16) == x
    ensures ToByte((x % 4 * 16 + y / 16) % 16 * 16 + (y % 16 * 4 + z / 64) / 4) == y
    ensures ToByte((y % 16 * 4 + z / 64) % 4 * 64 + z % 64) == z
  {
  }

  /** Four digits decode to three bytes, in front of whatever the rest decodes to. */
  lemma DecodeFour(a: int, b: int, c: int, d: int, rest: string)
    requires 0 <= a < 64 && 0 <= b < 64 && 0 <= c < 64 && 0 <= d < 64
    requires DecodeDigits(rest).Some?
    ensures DecodeDigits([Digit64(a), Digit64(b), Digit64(c), Digit64(d)] + rest)
         == Some([ToByte(a * 4 + b / 16), ToByte(b % 16 * 16 + c / 4), ToByte(c % 4 * 64 + d)] + DecodeDigits(rest).value)
  {
    hide Digit64, Value64, ToByte;
    DigitsInvert(a); DigitsInvert(b); DigitsInvert(c); DigitsInvert(d);
    var s := [Digit64(a), Digit64(b), Digit64(c), Digit64(d)] + rest;
    assert s[4..] == rest;
    ThreeBytes(ToByte(a * 4 + b / 16), ToByte(b % 16 * 16 + c / 4), ToByte(c % 4 * 64 + d), DecodeDigits(rest).value);
  }

  lemma ThreeBytes(x: byte, y: byte, z: byte, rest: seq<byte>)
    ensures [x] + [y] + [z] + rest == [x, y, z] + rest
  {
  }

  lemma FourPlain(a: int, b: int, c: int, d: int, rest: string)
    requires 0 <= a < 64 && 0 <= b < 64 && 0 <= c < 64 && 0 <= d < 64
    requires PlainText(rest)
    ensures PlainText([Digit64(a), Digit64(b), Digit64(c), Digit64(d)] + rest)
  {
  }

  lemma {:induction false} Decode64Inverts(bs: seq<byte>)
    ensures DecodeDigits(Encode64(bs)) == Some(bs)
    ensures PlainText(Encode64(bs)) && (bs == [] <==> Encode64(bs) == "")
  {
    hide Digit64, Value64, ToByte, PlainText, DecodeDigits;
    if |bs| <= 2 {
      ShortInverts(bs);
    } else {
      var x, y, z := bs[0], bs[1], bs[2];
      Decode64Inverts(bs[3..]);
      Sextets(x, y, z);
      DecodeFour(x / 4, x % 4 * 16 + y / 16, y % 16 * 4 + z / 64, z % 64, Encode64(bs[3..]));
      FourPlain(x / 4, x % 4 * 16 + y / 16, y % 16 * 4 + z / 64, z % 64, Encode64(bs[3..]));
      assert bs == [x, y, z] + bs[3..];
    }
  }

  lemma DecodeTwo(a: int, b: int)
    requires 0 <= a < 64 && 0 <= b < 64
    ensures DecodeDigits([Digit64(a), Digit64(b)]) == Some([ToByte(a * 4 + b / 16)])
  {
    hide Digit64, Value64, ToByte;
    DigitsInvert(a); DigitsInvert(b);
  }

  lemma DecodeThree(a: int, b: int, c: int)
    requires 0 <= a < 64 && 0 <= b < 64 && 0 <= c < 64
    ensures DecodeDigits([Digit64(a), Digit64(b), Digit64(c)])
         == Some([ToByte(a * 4 + b / 16), ToByte(b % 16 * 16 + c / 4)])
  {
    hide Digit64, Value64, ToByte;
    DigitsInvert(a); DigitsInvert(b); DigitsInvert(c);
    assert [ToByte(a * 4 + b / 16)] + [ToByte(b % 16 * 16 + c / 4)] == [ToByte(a * 4 + b / 16), ToByte(b % 16 * 16 + c / 4)];
  }

  lemma SextetsOfOne(x: byte)
    ensures 0 <= x / 4 < 64 && 0 <= x % 4 * 16 < 64
    ensures ToByte(x / 4 * 4 + x % 4 * 16 / 16) == x
  {
  }

  lemma SextetsOfTwo(x: byte, y: byte)
    ensures 0 <= x / 4 < 64 && 0 <= x % 4 * 16 + y / 16 < 64 && 0 <= y % 16 * 4 < 64
    ensures ToByte(x / 4 * 4 + (x % 4 * 16 + y / 16) / 16) == x
    ensures ToByte((x % 4 * 16 + y / 16) % 16 * 16 + y % 16 * 4 / 4) == y
  {
  }

  lemma OneByteInverts(x: byte)
    ensures DecodeDigits(Encode64([x])) == Some([x]) && PlainText(Encode64([x])) && Encode64([x]) != ""
  {
    hide Digit64, Value64, ToByte, DecodeDigits, Plain;
    SextetsOfOne(x);
    DigitsInvert(x / 4); DigitsInvert(x % 4 * 16);
    DecodeTwo(x / 4, x % 4 * 16);
  }

  lemma TwoBytesInvert(x: byte, y: byte)
    ensures DecodeDigits(Encode64([x, y])) == Some([x, y]) && PlainText(Encode64([x, y])) && Encode64([x, y]) != ""
  {
    hide Digit64, Value64, ToByte, DecodeDigits, Plain;
    SextetsOfTwo(x, y);
    DigitsInvert(x / 4); DigitsInvert(x % 4 * 16 + y / 16); DigitsInvert(y % 16 * 4);
    DecodeThree(x / 4, x % 4 * 16 + y / 16, y % 16 * 4);
  }

  lemma {:induction false} ShortInverts(bs: seq<byte>)
    requires |bs| <= 2
    ensures DecodeDigits(Encode64(bs)) == Some(bs)
    ensures PlainText(Encode64(bs)) && (bs == [] <==> Encode64(bs) == "")
  {
    hide Encode64, DecodeDigits;
    if |bs| == 0 {
      NoDigits();
    } else if |bs| == 1 {
      OneByteInverts(bs[0]);
      assert bs == [bs[0]];
    } else {
      TwoBytesInvert(bs[0], bs[1]);
      assert bs == [bs[0], bs[1]];
    }
  }

  lemma NoDigits()
    ensures Encode64([]) == "" && DecodeDigits("") == Some([])
  {
  }

  lemma {:induction false} PlainHasNoLineBreaks(s: string)
    requires PlainText(s)
    ensures WithoutLineBreaks(s) == s
  {
    if s != "" {
      assert s[0] in s;
      assert forall c :: c in s[1..] ==> c in s;
      PlainHasNoLineBreaks(s[1..]);
    }
  }

  lemma PlainIsBare(s: string)
    requires PlainText(s)
    ensures GoTrim(s) == s
  {
    if s != "" {
      assert s[0] in s && s[|s| - 1] in s;
    }
    TrimFacts(GoSpace, s);
  }

  predicate Letter64(c: char) { 'A' <= c <= 'Z' || 'a' <= c <= 'z' || '0' <= c <= '9' || c == '-' || c == '_' }

  lemma ValueIff(c: char)
    ensures Value64(c).Some? <==> Letter64(c)
  {
  }

  predicate AllLetters(s: string) { forall i :: 0 <= i < |s| ==> Letter64(s[i]) }

  lemma DecodesFourIff(s: string)
    requires |s| >= 4
    ensures DecodeDigits(s).Some? <==> Letter64(s[0]) && Letter64(s[1]) && Letter64(s[2]) && Letter64(s[3]) && DecodeDigits(s[4..]).Some?
  {
    hide Letter64, Value64;
    ValueIff(s[0]); ValueIff(s[1]); ValueIff(s[2]); ValueIff(s[3]);
  }

  lemma DecodesShortIff(s: string)
    requires |s| < 4
    ensures DecodeDigits(s).Some? <==> |s| != 1 && AllLetters(s)
  {
    hide Letter64, Value64;
    forall i | 0 <= i < |s| ensures Value64(s[i]).Some? <==> Letter64(s[i]) { ValueIff(s[i]); }
  }

  /** Decoding takes any letters of the alphabet, in any number that leaves no lone letter. */
  lemma {:induction false} DecodesIff(s: string)
    ensures DecodeDigits(s).Some? <==> |s| % 4 != 1 && AllLetters(s)
    decreases |s|
  {
    hide DecodeDigits, Letter64;
    if |s| < 4 {
      DecodesShortIff(s);
    } else {
      DecodesFourIff(s);
      DecodesIff(s[4..]);
      assert forall i :: 4 <= i < |s| ==> s[i] == s[4..][i - 4];
    }
  }

  // -------------------------------------------------------------------- UUID

  function HexDigit(n: int): char
    requires 0 <= n < 16
  {
    if n < 10 then '0' + n as char else 'a' + (n - 10) as char
  }

  function HexValue(c: char): Option<int> {
    if '0' <= c <= '9' then Some(c as int - '0' as int)
    else if 'a' <= c <= 'f' then Some(c as int - 'a' as int + 10)
    else if 'A' <= c <= 'F' then Some(c as int - 'A' as int + 10)
    else None
  }

  function Hex(bs: seq<byte>): string {
    if bs == [] then "" else [HexDigit(bs[0] / 16), HexDigit(bs[0] % 16)] + Hex(bs[1..])
  }

  function UnHex(s: string): Option<seq<byte>> {
    if s == "" then Some([])
    else if |s| == 1 then None
    else
      var hi, lo := HexValue(s[0]), HexValue(s[1]);
      if hi.None? || lo.None? then None
      else
        match UnHex(s[2..])
        case None => None
        case Some(rest) => Some([ToByte(hi.value * 16 + lo.value)] + rest)
  }

  /** Section 4 of RFC 9562: 8-4-4-4-12 lower-case hexadecimal digits. */
  function UuidString(u: Uuid): string {
    Hex(u[..4]) + "-" + Hex(u[4..6]) + "-" + Hex(u[6..8]) + "-" + Hex(u[8..10]) + "-" + Hex(u[10..])
  }

  function SixteenBytes(digits: string): Option<Uuid> {
    match UnHex(digits)
    case None => None
    case Some(bs) => if |bs| == 16 then Some(bs) else None
  }

  /** The 36-character form, in either case of letters. */
  function ParseDashed(s: string): Option<Uuid> {
    if |s| != 36 || s[8] != '-' || s[13] != '-' || s[18] != '-' || s[23] != '-' then None
    else SixteenBytes(s[..8] + s[9..13] + s[14..18] + s[19..23] + s[24..])
  }

  predicate Ascii(c: char) { c < '\U{0080}' }

  function Lower(c: char): char {
    if 'A' <= c <= 'Z' then (c as int + 32) as char else c
  }

  /** strings.EqualFold with "urn:uuid:", whose letters have no equivalents outside ASCII. */
  predicate IsUrnPrefix(s: string) {
    |s| == 9 && forall i :: 0 <= i < 9 ==> Lower(s[i]) == "urn:uuid:"[i]
  }

  /**
   * uuid.Parse of github.com/google/uuid 1.6: the 36-character form, that form after "urn:uuid:" or between any
   * two characters, meant to be braces, and the 32 digits alone.
   */
  function ParseUuid(s: string): Option<Uuid> {
    if |s| == 45 then (if IsUrnPrefix(s[..9]) then ParseDashed(s[9..]) else None)
    else if |s| == 38 then (if Ascii(s[0]) && Ascii(s[37]) then ParseDashed(s[1..37]) else None)
    else if |s| == 32 then SixteenBytes(s)
    else ParseDashed(s)
  }

  lemma HexDigitsInvert(n: int)
    requires 0 <= n < 16
    ensures HexValue(HexDigit(n)) == Some(n) && Plain(HexDigit(n))
  {
  }

  lemma {:induction false} UnHexInverts(bs: seq<byte>)
    ensures UnHex(Hex(bs)) == Some(bs) && |Hex(bs)| == 2 * |bs| && PlainText(Hex(bs))
  {
    hide HexDigit, HexValue, Plain;
    if bs != [] {
      var hi, lo := bs[0] / 16, bs[0] % 16;
      UnHexInverts(bs[1..]);
      HexDigitsInvert(hi); HexDigitsInvert(lo);
      assert Hex(bs) == [HexDigit(hi), HexDigit(lo)] + Hex(bs[1..]);
      assert Hex(bs)[2..] == Hex(bs[1..]);
      assert bs == [ToByte(hi * 16 + lo)] + bs[1..];
    }
  }

  lemma {:induction false} HexAppend(a: seq<byte>, b: seq<byte>)
    ensures Hex(a + b) == Hex(a) + Hex(b)
  {
    if a == [] {
      assert a + b == b;
    } else {
      assert (a + b)[1..] == a[1..] + b;
      HexAppend(a[1..], b);
    }
  }

  /** Cutting the dashes out of five joined groups gives the groups back. */
  lemma Groups(a: string, b: string, c: string, d: string, e: string)
    requires |a| == 8 && |b| == 4 && |c| == 4 && |d| == 4 && |e| == 12
    ensures var s := a + "-" + b + "-" + c + "-" + d + "-" + e;
            |s| == 36 && s[8] == '-' && s[13] == '-' && s[18] == '-' && s[23] == '-'
            && s[..8] + s[9..13] + s[14..18] + s[19..23] + s[24..] == a + b + c + d + e
  {
  }

  lemma UuidRoundTrip(u: Uuid)
    ensures ParseUuid(UuidString(u)) == Some(u) && ParseDashed(UuidString(u)) == Some(u)
    ensures |UuidString(u)| == 36 && PlainText(UuidString(u))
  {
    hide Hex, UnHex;
    var a, b, c, d, e := u[..4], u[4..6], u[6..8], u[8..10], u[10..];
    UnHexInverts(a); UnHexInverts(b); UnHexInverts(c); UnHexInverts(d); UnHexInverts(e);
    Groups(Hex(a), Hex(b), Hex(c), Hex(d), Hex(e));
    HexAppend(a, b);
    HexAppend(a + b, c);
    HexAppend(a + b + c, d);
    HexAppend(a + b + c + d, e);
    assert u == a + b + c + d + e;
    UnHexInverts(u);
    DashedIsPlain(Hex(a), Hex(b), Hex(c), Hex(d), Hex(e));
  }

  /** The other spellings of a UUID parse to the same bytes. */
  lemma {:induction false} SpellingsAgree(u: Uuid, open: char, close: char)
    requires Ascii(open) && Ascii(close)
    ensures ParseUuid("urn:uuid:" + UuidString(u)) == Some(u)
    ensures ParseUuid([open] + UuidString(u) + [close]) == Some(u)
    ensures ParseUuid(Hex(u)) == Some(u)
  {
    hide ParseDashed, UuidString, Hex, UnHex, PlainText, IsUrnPrefix;
    UuidRoundTrip(u);
    UnHexInverts(u);
    UrnPrefix();
    var s := UuidString(u);
    assert ("urn:uuid:" + s)[9..] == s && ("urn:uuid:" + s)[..9] == "urn:uuid:";
    assert ([open] + s + [close])[1..37] == s;
  }

  lemma UrnPrefix()
    ensures IsUrnPrefix("urn:uuid:")
  {
  }

  lemma DashedIsPlain(a: string, b: string, c: string, d: string, e: string)
    requires PlainText(a) && PlainText(b) && PlainText(c) && PlainText(d) && PlainText(e)
    ensures PlainText(a + "-" + b + "-" + c + "-" + d + "-" + e)
  {
  }

  predicate LowerHex(c: char) { '0' <= c <= '9' || 'a' <= c <= 'f' }

  lemma {:induction false} HexIsLower(bs: seq<byte>)
    ensures |Hex(bs)| == 2 * |bs| && forall i :: 0 <= i < |Hex(bs)| ==> LowerHex(Hex(bs)[i])
    decreases |bs|
  {
    if bs != [] { HexIsLower(bs[1..]); }
  }

  /** A printed UUID has dashes at four places and lower-case digits at all others. */
  lemma UuidLetters(u: Uuid, i: nat)
    requires i < 36
    ensures |UuidString(u)| == 36
    ensures if i in {8, 13, 18, 23} then UuidString(u)[i] == '-' else LowerHex(UuidString(u)[i])
  {
    hide Hex, LowerHex;
    HexIsLower(u[..4]); HexIsLower(u[4..6]); HexIsLower(u[6..8]); HexIsLower(u[8..10]); HexIsLower(u[10..]);
  }

  /** Every text of two digits a byte, in either case, is read, and nothing else. */
  lemma {:induction false} UnHexIff(s: string)
    ensures UnHex(s).Some? <==> |s| % 2 == 0 && forall i :: 0 <= i < |s| ==> LowerHex(Lower(s[i]))
    decreases |s|
  {
    if |s| >= 2 {
      UnHexIff(s[2..]);
      assert forall i :: 2 <= i < |s| ==> s[i] == s[2..][i - 2];
    }
  }

  /** The case of the letters does not matter. */
  lemma {:induction false} UnHexIgnoresCase(s: string, t: string)
    requires |s| == |t| && forall i :: 0 <= i < |s| ==> Lower(s[i]) == Lower(t[i])
    ensures UnHex(s) == UnHex(t)
    decreases |s|
  {
    if |s| >= 2 { UnHexIgnoresCase(s[2..], t[2..]); }
  }

  predicate HexText(s: string) { forall i :: 0 <= i < |s| ==> LowerHex(Lower(s[i])) }

  lemma HexTextJoin(a: string, b: string)
    ensures HexText(a + b) <==> HexText(a) && HexText(b)
  {
    hide LowerHex, Lower;
    assert forall i :: 0 <= i < |a| ==> (a + b)[i] == a[i];
    assert forall i :: 0 <= i < |b| ==> (a + b)[|a| + i] == b[i];
  }

  /** Four dashes, and digits in either case at all other places. */
  predicate Dashed(s: string) {
    && |s| == 36 && s[8] == '-' && s[13] == '-' && s[18] == '-' && s[23] == '-'
    && HexText(s[..8]) && HexText(s[9..13]) && HexText(s[14..18]) && HexText(s[19..23]) && HexText(s[24..])
  }

  lemma {:induction false} UnHexSize(s: string)
    ensures UnHex(s).Some? ==> 2 * |UnHex(s).value| == |s|
    decreases |s|
  {
    if |s| >= 2 { UnHexSize(s[2..]); }
  }

  lemma DashedIff(s: string)
    ensures ParseDashed(s).Some? <==> Dashed(s)
  {
    hide UnHex, HexText;
    if |s| == 36 {
      var a, b, c, d, e := s[..8], s[9..13], s[14..18], s[19..23], s[24..];
      HexTextJoin(a, b); HexTextJoin(a + b, c); HexTextJoin(a + b + c, d); HexTextJoin(a + b + c + d, e);
      DigitsIff(a + b + c + d + e);
    }
  }

  lemma DigitsIff(s: string)
    ensures SixteenBytes(s).Some? <==> |s| == 32 && HexText(s)
  {
    hide UnHex;
    UnHexIff(s);
    UnHexSize(s);
  }

  /** "urn:uuid:" in letters of either case. */
  predicate Urn(s: string) {
    && |s| == 9 && s[0] in {'u', 'U'} && s[1] in {'r', 'R'} && s[2] in {'n', 'N'} && s[3] == ':'
    && s[4] in {'u', 'U'} && s[5] in {'u', 'U'} && s[6] in {'i', 'I'} && s[7] in {'d', 'D'} && s[8] == ':'
  }

  lemma UrnIff(s: string)
    ensures IsUrnPrefix(s) <==> Urn(s)
  {
    var urn := "urn:uuid:";
    if |s| == 9 {
      assert urn[0] == 'u' && urn[1] == 'r' && urn[2] == 'n' && urn[3] == ':' && urn[4] == 'u';
      assert urn[5] == 'u' && urn[6] == 'i' && urn[7] == 'd' && urn[8] == ':';
    }
  }

  /** Exactly the texts that are read as a UUID: the dashed form, alone, after the URN prefix or between two ASCII characters, and 32 digits. */
  lemma UuidTexts(s: string)
    ensures ParseUuid(s).Some?
       <==> || Dashed(s)
            || (|s| == 45 && Urn(s[..9]) && Dashed(s[9..]))
            || (|s| == 38 && s[0] as int < 128 && s[37] as int < 128 && Dashed(s[1..37]))
            || (|s| == 32 && HexText(s))
  {
    hide HexText, UnHex, ParseDashed, SixteenBytes, IsUrnPrefix, Urn;
    DashedIff(s);
    DigitsIff(s);
    if |s| == 45 { UrnIff(s[..9]); DashedIff(s[9..]); }
    if |s| == 38 { DashedIff(s[1..37]); }
  }

  // ----------------------------------------------------------------- base 36

  function Digit36(n: int): char
    requires 0 <= n < 36
  {
    if n < 10 then '0' + n as char else 'a' + (n - 10) as char
  }

  function Value36(c: char): Option<int> {
    if '0' <= c <= '9' then Some(c as int - '0' as int)
    else if 'a' <= c <= 'z' then Some(c as int - 'a' as int + 10)
    else if 'A' <= c <= 'Z' then Some(c as int - 'A' as int + 10)
    else None
  }

  /** strconv.FormatInt(n, 36) for non-negative n. */
  function Format36(n: nat): string {
    if n < 36 then [Digit36(n)] else Format36(n / 36) + [Digit36(n % 36)]
  }

  function Digits36(s: string): (r: Option<int>)
    ensures r.Some? ==> r.value >= 0
  {
    if s == "" then Some(0)
    else
      var high, low := Digits36(s[..|s| - 1]), Value36(s[|s| - 1]);
      if high.None? || low.None? then None else Some(high.value * 36 + low.value)
  }

  /** strconv.ParseInt(s, 36, 64): an optional sign, digits, and a range check. */
  function Parse36(s: string): Option<int64> {
    if s == "" then None
    else
      var negative := s[0] == '-';
      var digits := if s[0] == '-' || s[0] == '+' then s[1..] else s;
      if digits == "" then None
      else
        match Digits36(digits)
        case None => None
        case Some(n) =>
          if negative then (if n <= 0x8000_0000_0000_0000 then Some(-n) else None)
          else (if n < 0x8000_0000_0000_0000 then Some(n) else None)
  }

  lemma {:induction false} Digits36Invert(n: nat)
    ensures Digits36(Format36(n)) == Some(n)
    ensures Format36(n) != "" && Format36(n)[0] != '-' && Format36(n)[0] != '+' && PlainText(Format36(n))
  {
    var s := Format36(n);
    if n < 36 {
      assert s[..|s| - 1] == "" && Digits36("") == Some(0);
    } else {
      Digits36Invert(n / 36);
      assert s[..|s| - 1] == Format36(n / 36);
      assert s[0] == Format36(n / 36)[0];
    }
  }

  lemma {:induction false} Parse36Inverts(n: int64)
    requires n >= 0
    ensures Parse36(Format36(n)) == Some(n)
  {
    Digits36Invert(n);
  }

  // -------------------------------------------------------------- request id

  const PREFIX := "ws2"

  lemma {:induction false} FormatShape(n: nat)
    ensures Format36(n) != "" && Format36(n)[0] != '-' && Format36(n)[0] != '+' && (n > 0 ==> Format36(n)[0] != '0')
    ensures forall i :: 0 <= i < |Format36(n)| ==> '0' <= Format36(n)[i] <= '9' || 'a' <= Format36(n)[i] <= 'z'
    decreases n
  {
    if n >= 36 { FormatShape(n / 36); }
  }

  /** Digits may carry a sign, and must stay in the range of 64 bits. */
  lemma SignsAndRange(n: nat, s: string)
    requires s != "" && s[0] != '-' && s[0] != '+' && Digits36(s) == Some(n)
    ensures var r := Parse36(s); r == Parse36("+" + s) && (r.Some? <==> n < 0x8000_0000_0000_0000) && (r.Some? ==> r.value == n)
    ensures var r := Parse36("-" + s); (r.Some? <==> n <= 0x8000_0000_0000_0000) && (r.Some? ==> r.value == 0 - n as int)
  {
    hide Digits36;
    assert ("+" + s)[1..] == s && ("-" + s)[1..] == s;
  }

  datatype Parsed = Parsed(user: string, room: string, parent: string, sequence: int64) | Rejected

  /** A UUID as 22 base64url characters; anything else as a dash. */
  function EncodeCompactUuid(raw: string): string {
    match ParseUuid(GoTrim(raw))
    case None => "-"
    case Some(u) => Encode64(u)
  }

  /** The text of a compact field: empty for a dash, None when it is no 16-byte value. */
  function DecodeCompactUuid(raw: string): Option<string> {
    var trimmed := GoTrim(raw);
    if trimmed == "" || trimmed == "-" then Some("")
    else
      match Decode64(trimmed)
      case None => None
      case Some(bs) => if |bs| == 16 then Some(UuidString(bs)) else None
  }

  /** The first eight hexadecimal digits of a fresh random UUID. */
  function Nonce(random: Uuid): string { Hex(random[..4]) }

  function ClampedSequence(sequence: int64): int64 { if sequence < 0 then 0 else sequence }

  function Build(user: string, room: string, parent: string, sequence: int64, random: Uuid): string {
    PREFIX + "|" + (EncodeCompactUuid(user) + "|" + (EncodeCompactUuid(room) + "|" + (EncodeCompactUuid(parent) + "|"
    + (Format36(ClampedSequence(sequence)) + "|" + Nonce(random)))))
  }

  function ParseSequence(field: string): int64 {
    match Parse36(GoTrim(field))
    case Some(n) => if n > 0 then n else 0
    case None => 0
  }

  /** ParseWSCommandRequestID on ids of the second form. */
  function Parse(requestId: string): Parsed {
    var parts := Split(GoTrim(requestId), "|");
    if |parts| < 6 || parts[0] != PREFIX then Rejected
    else
      var user, room, parent := DecodeCompactUuid(parts[1]), DecodeCompactUuid(parts[2]), DecodeCompactUuid(parts[3]);
      if user.None? || GoTrim(user.value) == "" then Rejected
      else if room.None? || GoTrim(room.value) == "" then Rejected
      else if parent.None? then Rejected
      else Parsed(user.value, room.value, parent.value, ParseSequence(parts[4]))
  }

  predicate ValidUuid(raw: string) { ParseUuid(GoTrim(raw)).Some? }

  /** The lower-case spelling of a valid UUID, or the empty text. */
  function Canonical(raw: string): string {
    match ParseUuid(GoTrim(raw))
    case None => ""
    case Some(u) => UuidString(u)
  }

  lemma CompactFieldIsPlain(raw: string)
    ensures PlainText(EncodeCompactUuid(raw)) && EncodeCompactUuid(raw) != ""
  {
    hide ParseUuid, Encode64, DecodeDigits;
    match ParseUuid(GoTrim(raw))
    case None =>
    case Some(u) => Decode64Inverts(u);
  }

  /** A compact field decodes to the canonical spelling of what was put in. */
  lemma CompactFieldInverts(raw: string)
    ensures DecodeCompactUuid(EncodeCompactUuid(raw)) == Some(Canonical(raw))
  {
    hide ParseUuid, Encode64, DecodeDigits, UuidString, PlainText;
    CompactFieldIsPlain(raw);
    PlainIsBare(EncodeCompactUuid(raw));
    match ParseUuid(GoTrim(raw))
    case None =>
    case Some(u) =>
      Decode64Inverts(u);
      PlainHasNoLineBreaks(Encode64(u));
      assert Encode64(u) != "-" by { OneDigitIsNoByte(); }
  }

  lemma OneDigitIsNoByte()
    ensures DecodeDigits("-") == None
  {
  }

  lemma CanonicalIsText(raw: string)
    ensures GoTrim(Canonical(raw)) == "" <==> !ValidUuid(raw)
    ensures PlainText(Canonical(raw))
  {
    hide ParseUuid, UuidString;
    match ParseUuid(GoTrim(raw))
    case None => PlainIsBare("");
    case Some(u) =>
      UuidRoundTrip(u);
      PlainIsBare(UuidString(u));
  }

  lemma BarFree(s: string)
    requires PlainText(s)
    ensures '|' !in s
  {
  }

  /** Six plain fields joined by bars split back into the six fields. */
  lemma {:induction false} SixFields(a: string, b: string, c: string, d: string, e: string, f: string)
    requires PlainText(a) && PlainText(b) && PlainText(c) && PlainText(d) && PlainText(e) && PlainText(f)
    ensures Split(a + "|" + (b + "|" + (c + "|" + (d + "|" + (e + "|" + f)))), "|") == [a, b, c, d, e, f]
  {
    hide Split, PlainText;
    BarFree(a); BarFree(b); BarFree(c); BarFree(d); BarFree(e); BarFree(f);
    SplitField(a, '|', b + "|" + (c + "|" + (d + "|" + (e + "|" + f))));
    SplitField(b, '|', c + "|" + (d + "|" + (e + "|" + f)));
    SplitField(c, '|', d + "|" + (e + "|" + f));
    SplitField(d, '|', e + "|" + f);
    SplitField(e, '|', f);
    SplitWhole(f, '|');
    SixInARow(a, b, c, d, e, f);
  }

  lemma SixInARow(a: string, b: string, c: string, d: string, e: string, f: string)
    ensures [a] + ([b] + ([c] + ([d] + ([e] + [f])))) == [a, b, c, d, e, f]
  {
  }

  /** The printed id starts and ends with plain characters. */
  lemma JoinedIsBare(a: string, middle: string, f: string)
    requires a != "" && PlainText(a) && f != "" && PlainText(f)
    ensures GoTrim(a + middle + f) == a + middle + f
  {
    hide TrimLeft, TrimRight;
    var s := a + middle + f;
    assert s[0] == a[0] && s[|s| - 1] == f[|f| - 1];
    assert a[0] in a && f[|f| - 1] in f;
    TrimFacts(GoSpace, s);
  }

  lemma BuiltFields(user: string, room: string, parent: string, sequence: int64, random: Uuid)
    ensures Split(GoTrim(Build(user, room, parent, sequence, random)), "|")
         == [PREFIX, EncodeCompactUuid(user), EncodeCompactUuid(room), EncodeCompactUuid(parent),
             Format36(ClampedSequence(sequence)), Nonce(random)]
  {
    hide Split, PlainText, EncodeCompactUuid, Format36, Hex, TrimLeft, TrimRight;
    var b, c, d := EncodeCompactUuid(user), EncodeCompactUuid(room), EncodeCompactUuid(parent);
    var e, f := Format36(ClampedSequence(sequence)), Nonce(random);
    CompactFieldIsPlain(user); CompactFieldIsPlain(room); CompactFieldIsPlain(parent);
    Digits36Invert(ClampedSequence(sequence));
    UnHexInverts(random[..4]);
    PrefixIsPlain();
    SixFields(PREFIX, b, c, d, e, f);
    var middle := "|" + (b + "|" + (c + "|" + (d + "|" + (e + "|"))));
    JoinedIsBare(PREFIX, middle, f);
    Regroup(PREFIX, b, c, d, e, f);
  }

  lemma PrefixIsPlain()
    ensures PlainText(PREFIX) && PREFIX != ""
  {
  }

  lemma Regroup(a: string, b: string, c: string, d: string, e: string, f: string)
    ensures a + "|" + (b + "|" + (c + "|" + (d + "|" + (e + "|" + f))))
         == a + ("|" + (b + "|" + (c + "|" + (d + "|" + (e + "|"))))) + f
  {
  }

  /**
   * Parsing what was built: it is accepted exactly when user and room are UUIDs, and then gives their
   * canonical spelling, that of the parent or the empty text, and the sequence with negatives clamped.
   */
  lemma BuildThenParse(user: string, room: string, parent: string, sequence: int64, random: Uuid)
    ensures Parse(Build(user, room, parent, sequence, random))
         == if ValidUuid(user) && ValidUuid(room)
            then Parsed(Canonical(user), Canonical(room), Canonical(parent), if sequence < 0 then 0 else sequence)
            else Rejected
  {
    hide Split, Build, Canonical, ValidUuid, EncodeCompactUuid, DecodeCompactUuid, Format36, Nonce, TrimLeft, TrimRight, Parse36;
    BuiltFields(user, room, parent, sequence, random);
    CompactFieldInverts(user); CompactFieldInverts(room); CompactFieldInverts(parent);
    CanonicalIsText(user); CanonicalIsText(room);
    SequenceInverts(ClampedSequence(sequence));
  }

  lemma SequenceInverts(n: int64)
    requires n >= 0
    ensures ParseSequence(Format36(n)) == n
  {
    hide TrimLeft, TrimRight, Parse36, Format36;
    Digits36Invert(n);
    PlainIsBare(Format36(n));
    Parse36Inverts(n);
  }

  lemma CanonicalIsStable(u: Uuid)
    ensures Canonical(UuidString(u)) == UuidString(u) && ValidUuid(UuidString(u))
  {
    hide ParseUuid, UuidString, TrimLeft, TrimRight;
    UuidRoundTrip(u);
    PlainIsBare(UuidString(u));
  }

  lemma DecodedIsCanonical(raw: string)
    requires DecodeCompactUuid(raw).Some?
    ensures var text := DecodeCompactUuid(raw).value;
            Canonical(text) == text && (GoTrim(text) != "" ==> ValidUuid(text))
  {
    hide ParseUuid, UuidString, Canonical, ValidUuid, TrimLeft, TrimRight, DecodeDigits, WithoutLineBreaks;
    var text := DecodeCompactUuid(raw).value;
    if text == "" {
      EmptyIsCanonical();
    } else {
      var bs: Uuid := Decode64(GoTrim(raw)).value;
      CanonicalIsStable(bs);
    }
  }

  lemma EmptyIsCanonical()
    ensures GoTrim("") == "" && Canonical("") == ""
  {
  }

  /** Whatever id is accepted, however it was spelt, building from its fields parses to the same fields. */
  lemma Rebuild(requestId: string, random: Uuid)
    ensures Parse(requestId).Parsed? ==>
              var p := Parse(requestId);
              p.sequence >= 0 && Parse(Build(p.user, p.room, p.parent, p.sequence, random)) == p
  {
    hide Split, Build, Canonical, ValidUuid, DecodeCompactUuid, TrimLeft, TrimRight, Parse36;
    var p := Parse(requestId);
    if p.Parsed? {
      var parts := Split(GoTrim(requestId), "|");
      DecodedIsCanonical(parts[1]); DecodedIsCanonical(parts[2]); DecodedIsCanonical(parts[3]);
      BuildThenParse(p.user, p.room, p.parent, p.sequence, random);
    }
  }
}

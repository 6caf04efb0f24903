/**
 The base64url decoder of the push-notification key.

 `Atob` follows the browser's forgiving decoder over the alphabet of section 4
 of RFC 4648; `EncodeUrl` is the unpadded form of section 5.
 */
module Base64Url {
  import opened Basics

  type Byte = b: int | 0 <= b < 256
  type Sextet = v: int | 0 <= v < 64

  // ------------------------------------------------------------ the alphabet

  function Char64(v: Sextet): char {
    if v < 26 then (v + 'A' as int) as char
    else if v < 52 then (v - 26 + 'a' as int) as char
    else if v < 62 then (v - 52 + '0' as int) as char
    else if v == 62 then '+' else '/'
  }

  function CharUrl(v: Sextet): char {
    if v == 62 then '-' else if v == 63 then '_' else Char64(v)
  }

  function SextetOf(c: char): Option<Sextet> {
    if 'A' <= c <= 'Z' then Some(c as int - 'A' as int)
    else if 'a' <= c <= 'z' then Some(c as int - 'a' as int + 26)
    else if '0' <= c <= '9' then Some(c as int - '0' as int + 52)
    else if c == '+' then Some(62)
    else if c == '/' then Some(63)
    else None
  }

  // ---------------------------------------------------------------- encoding

  function Pack(bytes: seq<Byte>): seq<Sextet> {
    if bytes == [] then []
    else if |bytes| == 1 then [High6(bytes[0]), Low2High4(bytes[0], 0)]
    else if |bytes| == 2 then [High6(bytes[0]), Low2High4(bytes[0], bytes[1]), Low4High2(bytes[1], 0)]
    else Group(bytes[0], bytes[1], bytes[2]) + Pack(bytes[3..])
  }

  function Group(a: Byte, b: Byte, c: Byte): seq<Sextet> {
    [High6(a), Low2High4(a, b), Low4High2(b, c), Low6(c)]
  }

  function High6(a: Byte): Sextet { a / 4 }

  function Low2High4(a: Byte, b: Byte): Sextet { a % 4 * 16 + b / 16 }

  function Low4High2(b: Byte, c: Byte): Sextet { b % 16 * 4 + c / 64 }

  function Low6(c: Byte): Sextet { c % 64 }

  function EncodeUrl(bytes: seq<Byte>): string {
    var v := Pack(bytes);
    seq(|v|, i requires 0 <= i < |v| => CharUrl(v[i]))
  }

  // ------------------------------------------------------------------- atob

  /** Bits that do not fill a byte are dropped. */
  function Unpack(v: seq<Sextet>): seq<Byte> {
    if |v| < 2 then []
    else if |v| == 2 then [First(v[0], v[1])]
    else if |v| == 3 then [First(v[0], v[1]), Second(v[1], v[2])]
    else [First(v[0], v[1]), Second(v[1], v[2]), Third(v[2], v[3])] + Unpack(v[4..])
  }

  function First(w: int, x: int): Byte
    requires 0 <= w < 64 && 0 <= x < 64
  {
    w * 4 + x / 16
  }

  function Second(x: int, y: int): Byte
    requires 0 <= x < 64 && 0 <= y < 64
  {
    x % 16 * 16 + y / 4
  }

  function Third(y: int, z: int): Byte
    requires 0 <= y < 64 && 0 <= z < 64
  {
    y % 4 * 64 + z
  }

  predicate IsBlank(c: char) {
    c in " \t\n\r" || c == '\U{c}'
  }

  function WithoutBlanks(s: string): string {
    if s == "" then "" else (if IsBlank(s[0]) then [] else [s[0]]) + WithoutBlanks(s[1..])
  }

  /** If the length is a multiple of four, one or two trailing `=` are dropped. */
  function WithoutPadding(s: string): string {
    if |s| % 4 == 0 && |s| >= 2 && s[|s| - 1] == '=' then
      (if s[|s| - 2] == '=' then s[..|s| - 2] else s[..|s| - 1])
    else s
  }

  predicate AllSextets(s: string) {
    forall i :: 0 <= i < |s| ==> SextetOf(s[i]).Some?
  }

  function Sextets(s: string): seq<Sextet>
    requires AllSextets(s)
  {
    seq(|s|, i requires 0 <= i < |s| => SextetOf(s[i]).value)
  }

  function Chars(bytes: seq<Byte>): string {
    seq(|bytes|, i requires 0 <= i < |bytes| => bytes[i] as char)
  }

  /** The decoded binary string, one character per byte, or the exception. */
  function Atob(s: string): Option<string> {
    var t := WithoutPadding(WithoutBlanks(s));
    if |t| % 4 == 1 || !AllSextets(t) then None
    else
      Some(Chars(Unpack(Sextets(t))))
  }

  // ------------------------------------------------------------ the function

  function Substituted(c: char): char {
    if c == '-' then '+' else if c == '_' then '/' else c
  }

  function Prepared(base64: string): string {
    var padded := base64 + Repeat('=', (4 - |base64| % 4) % 4);
    seq(|padded|, i requires 0 <= i < |padded| => Substituted(padded[i]))
  }

  /** The assignments to a Uint8Array keep a code's last eight bits. */
  function Codes(raw: string): seq<Byte> {
    seq(|raw|, i requires 0 <= i < |raw| => raw[i] as int % 256)
  }

  function DecodeUrl(base64: string): Option<seq<Byte>> {
    match Atob(Prepared(base64))
    case None => None
    case Some(raw) => Some(Codes(raw))
  }

  /** `None` stands for the exception thrown by atob. */
  method UrlBase64ToUint8Array(base64: string) returns (output: Option<array<Byte>>)
    ensures output.Some? <==> DecodeUrl(base64).Some?
    ensures output.Some? ==> fresh(output.value) && output.value[..] == DecodeUrl(base64).value
  {
    var rawData := Atob(Prepared(base64));
    if rawData.None? {
      return None;
    }
    var raw := rawData.value;
    var bytes := new Byte[|raw|];
    for i := 0 to |raw|
      invariant forall k :: 0 <= k < i ==> bytes[k] == raw[k] as int % 256
    {
      bytes[i] := raw[i] as int % 256;
    }
    output := Some(bytes);
  }

  // ------------------------------------------------------------- round trip

  lemma CharsReadBack(v: Sextet)
    ensures Substituted(CharUrl(v)) == Char64(v) && SextetOf(Char64(v)) == Some(v) && !IsBlank(Char64(v))
  {
  }

  lemma GroupReadsBack(a: Byte, b: Byte, c: Byte)
    ensures First(High6(a), Low2High4(a, b)) == a
    ensures Second(Low2High4(a, b), Low4High2(b, c)) == b
    ensures Third(Low4High2(b, c), Low6(c)) == c
  {
  }

  lemma {:induction false} PackReadsBack(bytes: seq<Byte>)
    ensures Unpack(Pack(bytes)) == bytes
  {
    if |bytes| == 0 {
    } else if |bytes| == 1 {
      OneReadsBack(bytes[0]);
    } else if |bytes| == 2 {
      TwoReadBack(bytes[0], bytes[1]);
    } else {
      PackReadsBack(bytes[3..]);
      UnpackGroup(bytes[0], bytes[1], bytes[2], Pack(bytes[3..]));
      Regroup(bytes);
    }
  }

  lemma OneReadsBack(a: Byte)
    ensures Unpack([High6(a), Low2High4(a, 0)]) == [a]
  {
    GroupReadsBack(a, 0, 0);
  }

  lemma TwoReadBack(a: Byte, b: Byte)
    ensures Unpack([High6(a), Low2High4(a, b), Low4High2(b, 0)]) == [a, b]
  {
    GroupReadsBack(a, b, 0);
  }

  lemma UnpackGroup(a: Byte, b: Byte, c: Byte, rest: seq<Sextet>)
    ensures Unpack(Group(a, b, c) + rest) == [a, b, c] + Unpack(rest)
  {
    GroupReadsBack(a, b, c);
    assert (Group(a, b, c) + rest)[4..] == rest;
  }

  lemma Regroup(bytes: seq<Byte>)
    requires |bytes| >= 3
    ensures bytes == [bytes[0], bytes[1], bytes[2]] + bytes[3..]
  {
  }

  lemma {:induction false} PackLength(bytes: seq<Byte>)
    ensures |Pack(bytes)| % 4 != 1
  {
    if |bytes| >= 3 {
      PackLength(bytes[3..]);
    }
  }

  lemma {:induction false} NoBlanks(s: string)
    requires forall i :: 0 <= i < |s| ==> !IsBlank(s[i])
    ensures WithoutBlanks(s) == s
  {
    if s != "" {
      NoBlanks(s[1..]);
    }
  }

  function Substitute(s: string): string {
    seq(|s|, i requires 0 <= i < |s| => Substituted(s[i]))
  }

  lemma PreparedIsPadded(s: string)
    ensures Prepared(s) == Substitute(s) + Repeat('=', (4 - |s| % 4) % 4)
  {
  }

  /** Padding signs come off again. */
  lemma PaddingComesOff(t: string, k: nat)
    requires AllSextets(t) && k <= 2 && (|t| + k) % 4 == 0
    ensures WithoutPadding(t + Repeat('=', k)) == t
  {
    var p := t + Repeat('=', k);
    if |p| >= 2 {
      assert k == 0 ==> p[|p| - 1] == t[|t| - 1] != '=';
      assert k == 1 ==> p[|p| - 2] == t[|t| - 1] != '=';
    }
  }

  /** The padding is added, and taken off again. */
  lemma DecodesToSextets(s: string)
    requires |s| % 4 != 1 && UrlAlphabet(s)
    ensures AllSextets(Substitute(s))
    ensures Atob(Prepared(s)) == Some(Chars(Unpack(Sextets(Substitute(s)))))
  {
    var t := Substitute(s);
    var k := (4 - |s| % 4) % 4;
    PreparedIsPadded(s);
    NoBlanks(t + Repeat('=', k));
    PaddingComesOff(t, k);
  }

  lemma DecodesToBytes(s: string)
    requires |s| % 4 != 1 && UrlAlphabet(s)
    ensures AllSextets(Substitute(s))
    ensures DecodeUrl(s) == Some(Unpack(Sextets(Substitute(s))))
  {
    DecodesToSextets(s);
    CodesOfChars(Unpack(Sextets(Substitute(s))));
  }

  lemma CodesOfChars(bytes: seq<Byte>)
    ensures Codes(Chars(bytes)) == bytes
  {
  }

  /** Decoding inverts encoding, for byte sequences of every length. */
  lemma DecodeInvertsEncode(bytes: seq<Byte>)
    ensures DecodeUrl(EncodeUrl(bytes)) == Some(bytes)
  {
    var v, s := Pack(bytes), EncodeUrl(bytes);
    PackReadsBack(bytes);
    PackLength(bytes);
    forall i | 0 <= i < |s| ensures SextetOf(Substituted(s[i])) == Some(v[i]) {
      CharsReadBack(v[i]);
    }
    DecodesToBytes(s);
    assert Sextets(Substitute(s)) == v;
  }

  predicate UrlAlphabet(s: string) {
    forall i :: 0 <= i < |s| ==> SextetOf(Substituted(s[i])).Some?
  }

  lemma {:induction false} UnpackLength(v: seq<Sextet>)
    requires |v| % 4 != 1
    ensures |Unpack(v)| == |v| * 3 / 4
  {
    if |v| >= 4 {
      UnpackLength(v[4..]);
    }
  }

  /** Unpadded text over the alphabet fails to decode exactly when one character is left over. */
  lemma DecodesUnlessOneLeftOver(s: string)
    requires UrlAlphabet(s)
    ensures DecodeUrl(s).None? <==> |s| % 4 == 1
    ensures DecodeUrl(s).Some? ==> |DecodeUrl(s).value| == |s| * 3 / 4
  {
    if |s| % 4 == 1 {
      ThreeSignsFail(s);
    } else {
      DecodesToBytes(s);
      UnpackLength(Sextets(Substitute(s)));
    }
  }

  lemma ThreeSignsFail(s: string)
    requires UrlAlphabet(s) && |s| % 4 == 1
    ensures DecodeUrl(s).None?
  {
    var p := Prepared(s);
    assert forall i :: 0 <= i < |p| ==> !IsBlank(p[i]);
    NoBlanks(p);
    assert |p| == |s| + 3;
    var t := WithoutPadding(p);
    assert t[|s|] == '=' && SextetOf('=').None?;
    assert !AllSextets(t);
  }
}

/** The base64 of RFC 4648, section 4, as the browser's btoa and atob do it, and section 5's
    URL-safe alphabet without padding. */
module Base64Url {
  import opened Wrappers

  type Byte = b: int | 0 <= b < 256

  type Sextet = n: int | 0 <= n < 64

  /** Table 1: the alphabet. */
  function Letter(n: Sextet): char {
    if n < 26 then 'A' + n as char
    else if n < 52 then 'a' + (n - 26) as char
    else if n < 62 then '0' + (n - 52) as char
    else if n == 62 then '+' else '/'
  }

  function ValueOf(c: char): Option<Sextet> {
    if 'A' <= c <= 'Z' then Some((c - 'A') as int)
    else if 'a' <= c <= 'z' then Some((c - 'a') as int + 26)
    else if '0' <= c <= '9' then Some((c - '0') as int + 52)
    else if c == '+' then Some(62)
    else if c == '/' then Some(63)
    else None
  }

  function Quad(a: Byte, b: Byte, c: Byte): string {
    [Letter(a / 4), Letter(a % 4 * 16 + b / 16), Letter(b % 16 * 4 + c / 64), Letter(c % 64)]
  }

  /** Three bytes to four letters; one or two left over to two or three. */
  function Body(bytes: seq<Byte>): string {
    if bytes == [] then ""
    else if |bytes| == 1 then [Letter(bytes[0] / 4), Letter(bytes[0] % 4 * 16)]
    else if |bytes| == 2 then
      [Letter(bytes[0] / 4), Letter(bytes[0] % 4 * 16 + bytes[1] / 16), Letter(bytes[1] % 16 * 4)]
    else Quad(bytes[0], bytes[1], bytes[2]) + Body(bytes[3..])
  }

  /** Letters for the bytes, padded to whole quads. */
  function Btoa(bytes: seq<Byte>): string {
    Body(bytes) + if |bytes| % 3 == 0 then "" else if |bytes| % 3 == 1 then "==" else "="
  }

  function First(p: Sextet, q: Sextet): Byte {
    p * 4 + q / 16
  }

  function Second(q: Sextet, r: Sextet): Byte {
    q % 16 * 16 + r / 4
  }

  function Third(r: Sextet, t: Sextet): Byte {
    r % 4 * 64 + t
  }

  /** Four letters to three bytes; bits left over at the end are dropped. */
  function Quads(s: string): Option<seq<Byte>> {
    if s == "" then Some([])
    else if |s| == 1 then None
    else
      var p, q := ValueOf(s[0]), ValueOf(s[1]);
      if p.None? || q.None? then None
      else
        var first := First(p.value, q.value);
        if |s| == 2 then Some([first])
        else
          var r := ValueOf(s[2]);
          if r.None? then None
          else
            var second := Second(q.value, r.value);
            if |s| == 3 then Some([first, second])
            else
              var t := ValueOf(s[3]);
              var rest := Quads(s[4..]);
              if t.None? || rest.None? then None
              else Some([first, second, Third(r.value, t.value)] + rest.value)
  }

  predicate IsAsciiSpace(c: char) {
    c == ' ' || c == '\t' || c == '\n' || c == '\r' || c as int == 12
  }

  function DropSpaces(s: string): string {
    if s == "" then "" else (if IsAsciiSpace(s[0]) then "" else [s[0]]) + DropSpaces(s[1..])
  }

  function DropPad(s: string): string {
    if |s| > 0 && s[|s| - 1] == '=' then s[..|s| - 1] else s
  }

  /** The forgiving decode: white space is ignored, and up to two pad letters of a whole
      number of quads. */
  function Atob(s: string): Option<seq<Byte>> {
    var t := DropSpaces(s);
    Quads(if |t| % 4 == 0 then DropPad(DropPad(t)) else t)
  }

  /** replaceAll of one letter. */
  function Replace(s: string, a: char, b: char): string {
    seq(|s|, i requires 0 <= i < |s| => if s[i] == a then b else s[i])
  }

  /** The URL-safe spelling of letters. */
  function Safe(s: string): string {
    Replace(Replace(s, '+', '-'), '/', '_')
  }

  /** The standard letters of a part. */
  function Standard(part: string): string {
    Replace(Replace(part, '-', '+'), '_', '/')
  }

  function StripPads(s: string): string {
    if |s| > 0 && s[|s| - 1] == '=' then StripPads(s[..|s| - 1]) else s
  }

  function Pads(n: nat): string {
    if n == 0 then "" else "=" + Pads(n - 1)
  }

  /** Pad letters that bring a length to whole quads. */
  function PadLength(m: nat): nat {
    (4 - m % 4) % 4
  }

  function Encode(bytes: seq<Byte>): string {
    StripPads(Safe(Btoa(bytes)))
  }

  function Decode(part: string): Option<seq<Byte>> {
    var b64 := Standard(part);
    Atob(b64 + Pads(PadLength(|b64|)))
  }

  // What the two do to each other

  lemma LetterRoundTrip(n: Sextet)
    ensures ValueOf(Letter(n)) == Some(n) && Letter(n) != '=' && !IsAsciiSpace(Letter(n))
  {
  }

  predicate InAlphabet(s: string) {
    forall i :: 0 <= i < |s| ==> ValueOf(s[i]).Some?
  }

  lemma QuadLetters(a: Byte, b: Byte, c: Byte)
    ensures InAlphabet(Quad(a, b, c))
  {
    LetterRoundTrip(a / 4);
    LetterRoundTrip(a % 4 * 16 + b / 16);
    LetterRoundTrip(b % 16 * 4 + c / 64);
    LetterRoundTrip(c % 64);
  }

  lemma {:induction false} BodyShape(bytes: seq<Byte>)
    ensures InAlphabet(Body(bytes)) && |Body(bytes)| == (4 * |bytes| + 2) / 3
    ensures |Body(bytes)| % 4 != 1
  {
    if |bytes| >= 3 {
      QuadLetters(bytes[0], bytes[1], bytes[2]);
      BodyShape(bytes[3..]);
      assert Body(bytes)[4..] == Body(bytes[3..]);
    } else if |bytes| == 2 {
      QuadLetters(bytes[0], bytes[1], 0);
      assert Body(bytes) == Quad(bytes[0], bytes[1], 0)[..3];
    } else if |bytes| == 1 {
      QuadLetters(bytes[0], 0, 0);
      assert Body(bytes) == Quad(bytes[0], 0, 0)[..2];
    }
  }

  lemma QuadCount(n: nat)
    ensures (4 * n + 2) / 3 + (if n % 3 == 0 then 0 else 3 - n % 3) == 4 * ((n + 2) / 3)
  {
  }

  lemma PadTexts()
    ensures Pads(0) == "" && Pads(1) == "=" && Pads(2) == "=="
  {
    assert Pads(1) == "=" + Pads(0);
    assert Pads(2) == "=" + Pads(1);
  }

  /** Padded, the encoding is whole quads: the letters, and as few pad letters as that takes. */
  lemma BtoaPadsToQuads(bytes: seq<Byte>)
    ensures |Btoa(bytes)| == 4 * ((|bytes| + 2) / 3)
    ensures exists pads: nat :: pads < 3 && Btoa(bytes) == Body(bytes) + Pads(pads)
  {
    PadTexts();
    BodyShape(bytes);
    QuadCount(|bytes|);
    var r := |bytes| % 3;
    assert Btoa(bytes) == Body(bytes) + Pads(if r == 0 then 0 else 3 - r);
  }

  /** The bits of three bytes, regrouped and put back. */
  lemma Regroup(a: Byte, b: Byte, c: Byte)
    ensures First(a / 4, a % 4 * 16 + b / 16) == a
    ensures Second(a % 4 * 16 + b / 16, b % 16 * 4 + c / 64) == b
    ensures Third(b % 16 * 4 + c / 64, c % 64) == c
  {
  }

  lemma QuadsOfQuad(a: Byte, b: Byte, c: Byte, rest: string)
    requires Quads(rest).Some?
    ensures Quads(Quad(a, b, c) + rest) == Some([a, b, c] + Quads(rest).value)
  {
    QuadsOfLetters(a / 4, a % 4 * 16 + b / 16, b % 16 * 4 + c / 64, c % 64, rest);
    Regroup(a, b, c);
  }

  lemma QuadsOfLetters(p: Sextet, q: Sextet, r: Sextet, t: Sextet, rest: string)
    requires Quads(rest).Some?
    ensures Quads([Letter(p), Letter(q), Letter(r), Letter(t)] + rest) ==
      Some([First(p, q), Second(q, r), Third(r, t)] + Quads(rest).value)
  {
    assert ([Letter(p), Letter(q), Letter(r), Letter(t)] + rest)[4..] == rest;
    LetterRoundTrip(p);
    LetterRoundTrip(q);
    LetterRoundTrip(r);
    LetterRoundTrip(t);
  }

  lemma QuadsOfOne(a: Byte)
    ensures Quads([Letter(a / 4), Letter(a % 4 * 16)]) == Some([a])
  {
    LetterRoundTrip(a / 4);
    LetterRoundTrip(a % 4 * 16);
    assert First(a / 4, a % 4 * 16) == a;
  }

  lemma QuadsOfTwo(a: Byte, b: Byte)
    ensures Quads([Letter(a / 4), Letter(a % 4 * 16 + b / 16), Letter(b % 16 * 4)]) == Some([a, b])
  {
    LetterRoundTrip(a / 4);
    LetterRoundTrip(a % 4 * 16 + b / 16);
    LetterRoundTrip(b % 16 * 4);
    Regroup(a, b, 0);
  }

  lemma {:induction false} QuadsBody(bytes: seq<Byte>)
    ensures Quads(Body(bytes)) == Some(bytes)
  {
    if |bytes| >= 3 {
      QuadsBody(bytes[3..]);
      QuadsOfQuad(bytes[0], bytes[1], bytes[2], Body(bytes[3..]));
      assert bytes == [bytes[0], bytes[1], bytes[2]] + bytes[3..];
    } else if |bytes| == 2 {
      QuadsOfTwo(bytes[0], bytes[1]);
      assert bytes == [bytes[0], bytes[1]];
    } else if |bytes| == 1 {
      QuadsOfOne(bytes[0]);
      assert bytes == [bytes[0]];
    }
  }

  lemma SafeRoundTrip(s: string)
    requires InAlphabet(s)
    ensures Standard(Safe(s)) == s
    ensures forall i :: 0 <= i < |s| ==> Safe(s)[i] != '+' && Safe(s)[i] != '/' && Safe(s)[i] != '='
  {
  }

  lemma StripTwo(body: string)
    requires body == "" || body[|body| - 1] != '='
    ensures StripPads(body) == body && StripPads(body + "=") == body && StripPads(body + "==") == body
  {
    assert (body + "=")[..|body|] == body;
    assert StripPads(body + "=") == StripPads(body);
    assert (body + "==")[..|body| + 1] == body + "=";
    assert StripPads(body + "==") == StripPads(body + "=");
  }

  lemma SafePads(body: string)
    ensures Safe(body + "") == Safe(body) && Safe(body + "=") == Safe(body) + "="
      && Safe(body + "==") == Safe(body) + "=="
  {
  }

  lemma EncodeIsSafeBody(bytes: seq<Byte>)
    ensures Encode(bytes) == Safe(Body(bytes))
  {
    BodyShape(bytes);
    var body := Body(bytes);
    SafeRoundTrip(body);
    SafePads(body);
    StripTwo(Safe(body));
  }

  lemma {:induction false} NoSpaces(s: string)
    requires forall i :: 0 <= i < |s| ==> !IsAsciiSpace(s[i])
    ensures DropSpaces(s) == s
  {
    if s == "" {
    } else {
      NoSpaces(s[1..]);
    }
  }

  lemma PadsAre(n: nat)
    requires n <= 2
    ensures Pads(n) == if n == 0 then "" else if n == 1 then "=" else "=="
  {
    assert n == 2 ==> Pads(2) == "=" + Pads(1) && Pads(1) == "=" + Pads(0);
  }

  lemma DropPads(body: string)
    requires body == "" || body[|body| - 1] != '='
    ensures DropPad(DropPad(body)) == body && DropPad(DropPad(body + "=")) == body
      && DropPad(DropPad(body + "==")) == body
  {
    assert (body + "=")[..|body|] == body;
    assert (body + "==")[..|body| + 1] == body + "=";
  }

  lemma PaddedHasNoSpaces(body: string, n: nat)
    requires InAlphabet(body) && n <= 2
    ensures DropSpaces(body + Pads(n)) == body + Pads(n)
  {
    PadsAre(n);
    forall i | 0 <= i < |body| ensures !IsAsciiSpace(body[i]) {
      assert ValueOf(body[i]).Some?;
    }
    NoSpaces(body + Pads(n));
  }

  lemma WholeQuads(length: nat, quads: nat)
    requires length == 4 * quads
    ensures length % 4 == 0
  {
  }

  lemma AtobWhole(s: string, quads: nat)
    requires DropSpaces(s) == s && |s| == 4 * quads
    ensures Atob(s) == Quads(DropPad(DropPad(s)))
  {
    WholeQuads(|s|, quads);
  }

  lemma AtobPadded(body: string, n: nat, quads: nat)
    requires InAlphabet(body) && n <= 2 && |body| + n == 4 * quads
    ensures Atob(body + Pads(n)) == Quads(body)
  {
    PaddedHasNoSpaces(body, n);
    PadsAre(n);
    assert |body + Pads(n)| == |body| + n;
    AtobWhole(body + Pads(n), quads);
    assert body != "" ==> ValueOf(body[|body| - 1]).Some?;
    DropPads(body);
    assert body + "" == body;
  }

  /** The pad letters bring any length but one to whole quads. */
  lemma PadCount(m: nat) returns (quads: nat)
    ensures m % 4 != 1 ==> PadLength(m) <= 2
    ensures m % 4 == 1 ==> PadLength(m) == 3
    ensures m + PadLength(m) == 4 * quads
  {
    quads := (m + 3) / 4;
  }

  lemma DecodeStandard(part: string, body: string)
    requires Standard(part) == body
    ensures Decode(part) == Atob(body + Pads(PadLength(|body|)))
  {
  }

  lemma DecodeSafe(body: string, n: nat)
    requires InAlphabet(body) && n == PadLength(|body|)
    ensures Decode(Safe(body)) == Atob(body + Pads(n))
  {
    SafeRoundTrip(body);
    DecodeStandard(Safe(body), body);
  }

  /** Decoding undoes encoding, of any bytes, the padding worked out again from the length. */
  lemma DecodeEncode(bytes: seq<Byte>)
    ensures Decode(Encode(bytes)) == Some(bytes)
  {
    var body: string, n: nat := Body(bytes), PadLength(|Body(bytes)|);
    BodyShape(bytes);
    EncodeIsSafeBody(bytes);
    DecodeSafe(body, n);
    var quads := PadCount(|body|);
    AtobPadded(body, n, quads);
    QuadsBody(bytes);
  }

  /** An encoding is fit for a URL, and as short as unpadded base64 can be. */
  lemma EncodeIsUrlSafe(bytes: seq<Byte>)
    ensures |Encode(bytes)| == (4 * |bytes| + 2) / 3
    ensures forall i :: 0 <= i < |Encode(bytes)| ==>
      var c := Encode(bytes)[i]; 'A' <= c <= 'Z' || 'a' <= c <= 'z' || '0' <= c <= '9' || c == '-' || c == '_'
  {
    EncodeIsSafeBody(bytes);
    BodyShape(bytes);
    forall i | 0 <= i < |Body(bytes)| ensures ValueOf(Body(bytes)[i]).Some? {
    }
  }

  lemma DropTwoOfThree(s: string)
    ensures DropPad(DropPad(s + "===")) == s + "="
  {
    assert (s + "===")[..|s| + 2] == s + "==" && (s + "==")[..|s| + 1] == s + "=";
  }

  /** A part whose length leaves one letter over is refused, whatever its letters. */
  lemma LoneLetterRefused(part: string)
    requires |part| % 4 == 1 && forall i :: 0 <= i < |part| ==> !IsAsciiSpace(part[i])
    ensures Decode(part).None?
  {
    var b64 := Standard(part);
    var quads := PadCount(|b64|);
    PadsAre(2);
    assert Pads(3) == "=" + Pads(2) == "===";
    DecodeStandard(part, b64);
    ThreePadsRefused(b64, quads);
  }

  lemma ThreePadsRefused(b64: string, quads: nat)
    requires |b64| + 3 == 4 * quads && forall i :: 0 <= i < |b64| ==> !IsAsciiSpace(b64[i])
    ensures Atob(b64 + "===").None?
  {
    var s := b64 + "===";
    NoSpaces(s);
    AtobWhole(s, quads);
    DropTwoOfThree(b64);
    QuadsRefuse(b64 + "=", |b64|);
  }

  lemma {:induction false} QuadsRefuse(s: string, i: nat)
    requires i < |s| && ValueOf(s[i]).None?
    ensures Quads(s).None?
  {
    if i < 4 {
    } else {
      assert s[4..][i - 4] == s[i];
      QuadsRefuse(s[4..], i - 4);
    }
  }
}

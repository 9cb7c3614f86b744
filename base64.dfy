/** The byte/text conversions on the audio path.

    Outbound, a captured chunk becomes `btoa(String.fromCharCode(...bytes))`;
    inbound, a `tts_chunk` payload goes through `atob` and a loop that copies
    each character code into a `Uint8Array`. `btoa` and `atob` are the
    browser's: `btoa` is the base64 encoding of section 4 of RFC 4648 (with
    `=` padding) over a "binary string" whose characters are all below 256,
    and `atob` is the HTML standard's forgiving-base64 decode, which skips
    ASCII whitespace, accepts missing padding and ignores leftover bits. */
module Base64 {
  import opened Wrappers

  type byte = x: int | 0 <= x < 256

  /** A 6-bit group, the value one base64 character stands for. */
  type sextet = x: int | 0 <= x < 64

  // ---------------------------------------------------------------------
  // Binary strings: one character per byte

  /** `String.fromCharCode(...bytes)`: the character with code `bytes[i]`
      at each position `i`. */
  function FromCharCodes(bytes: seq<byte>): (s: string)
    ensures |s| == |bytes|
    ensures forall i :: 0 <= i < |s| ==> s[i] as int == bytes[i]
  {
    seq(|bytes|, i requires 0 <= i < |bytes| => bytes[i] as char)
  }

  /** What storing `s.charCodeAt(i)` into a `Uint8Array` keeps: the low
      eight bits of each character code. */
  function CharCodes(s: string): (bytes: seq<byte>)
  {
    seq(|s|, i requires 0 <= i < |s| => (s[i] as int) % 256)
  }

  /** True when every character code fits in a byte. */
  predicate IsBinaryString(s: string)
  {
    forall i :: 0 <= i < |s| ==> s[i] as int < 256
  }

  /** The copy loop of `playAudio`: a fresh buffer as long as the decoded
      string, byte `i` taken from character `i`. */
  method BinaryStringToBytes(audioData: string) returns (view: array<byte>)
    ensures fresh(view)
    ensures view[..] == CharCodes(audioData)
  {
    view := new byte[|audioData|];
    for i := 0 to |audioData|
      invariant forall k :: 0 <= k < i ==> view[k] == (audioData[k] as int) % 256
    {
      view[i] := (audioData[i] as int) % 256;
    }
  }

  // ---------------------------------------------------------------------
  // The base64 alphabet (Table 1 of RFC 4648)

  predicate IsBase64Char(c: char)
  {
    ('A' <= c <= 'Z') || ('a' <= c <= 'z') || ('0' <= c <= '9') || c == '+' || c == '/'
  }

  function SextetChar(v: sextet): (c: char)
    ensures IsBase64Char(c)
  {
    if v < 26 then ('A' as int + v) as char
    else if v < 52 then ('a' as int + (v - 26)) as char
    else if v < 62 then ('0' as int + (v - 52)) as char
    else if v == 62 then '+'
    else '/'
  }

  function Sextet(c: char): (v: sextet)
    requires IsBase64Char(c)
    ensures SextetChar(v) == c
  {
    if 'A' <= c <= 'Z' then c as int - 'A' as int
    else if 'a' <= c <= 'z' then c as int - 'a' as int + 26
    else if '0' <= c <= '9' then c as int - '0' as int + 52
    else if c == '+' then 62
    else 63
  }

  lemma SextetOfSextetChar(v: sextet)
    ensures Sextet(SextetChar(v)) == v
  {
  }

  predicate AllBase64(t: string)
  {
    forall i :: 0 <= i < |t| ==> IsBase64Char(t[i])
  }

  // ---------------------------------------------------------------------
  // Encoding (section 4 of RFC 4648)

  /** Three bytes, 24 bits, as four characters of six bits each. */
  function EncodeGroup(b0: byte, b1: byte, b2: byte): (s: string)
  {
    [SextetChar(b0 / 4), SextetChar((b0 % 4) * 16 + b1 / 16),
     SextetChar((b1 % 16) * 4 + b2 / 64), SextetChar(b2 % 64)]
  }

  /** The characters of the encoding without padding: a final group of one
      or two bytes is filled with zero bits and cut to two or three
      characters. */
  function EncodeBody(bytes: seq<byte>): (s: string)
    ensures AllBase64(s)
    decreases |bytes|
  {
    if |bytes| == 0 then ""
    else if |bytes| == 1 then EncodeGroup(bytes[0], 0, 0)[..2]
    else if |bytes| == 2 then EncodeGroup(bytes[0], bytes[1], 0)[..3]
    else EncodeGroup(bytes[0], bytes[1], bytes[2]) + EncodeBody(bytes[3..])
  }

  /** The number of characters of the unpadded text for `n` bytes. */
  function BodyLength(n: nat): nat
  {
    if n == 0 then 0 else if n < 3 then n + 1 else 4 + BodyLength(n - 3)
  }

  lemma {:induction false} EncodeBodyHasBodyLength(bytes: seq<byte>)
    ensures |EncodeBody(bytes)| == BodyLength(|bytes|)
    decreases |bytes|
  {
    if |bytes| >= 3 {
      EncodeBodyHasBodyLength(bytes[3..]);
    }
  }

  lemma {:induction false} BodyLengthModFour(n: nat)
    ensures BodyLength(n) % 4 == (if n % 3 == 0 then 0 else n % 3 + 1)
  {
    if n >= 3 {
      BodyLengthModFour(n - 3);
      assert (n - 3) % 3 == n % 3;
      assert BodyLength(n) == 4 + BodyLength(n - 3);
      assert (4 + BodyLength(n - 3)) % 4 == BodyLength(n - 3) % 4;
    }
  }

  /** The unpadded text has four characters per full group and two or
      three for a final partial group. */
  lemma EncodeBodyLength(bytes: seq<byte>)
    ensures |EncodeBody(bytes)| % 4 == (if |bytes| % 3 == 0 then 0 else |bytes| % 3 + 1)
  {
    EncodeBodyHasBodyLength(bytes);
    BodyLengthModFour(|bytes|);
  }

  /** The `=` characters that complete the last quantum. */
  function Padding(n: nat): string
  {
    if n % 3 == 1 then "==" else if n % 3 == 2 then "=" else ""
  }

  function Encode(bytes: seq<byte>): (s: string)
  {
    EncodeBody(bytes) + Padding(|bytes|)
  }

  /** The groups of the test vectors of section 10 of RFC 4648, sextet by
      sextet. */
  lemma TestVectorGroups()
    ensures EncodeGroup(102, 0, 0) == "ZgAA"
    ensures EncodeGroup(102, 111, 0) == "Zm8A"
    ensures EncodeGroup(102, 111, 111) == "Zm9v"
    ensures EncodeGroup(98, 0, 0) == "YgAA"
    ensures EncodeGroup(98, 97, 0) == "YmEA"
    ensures EncodeGroup(98, 97, 114) == "YmFy"
  {
    assert 102 / 4 == 25 && 98 / 4 == 24 && 102 % 4 == 2 && 98 % 4 == 2;
    assert 111 / 16 == 6 && 97 / 16 == 6 && 111 % 16 == 15 && 97 % 16 == 1;
    assert 111 / 64 == 1 && 114 / 64 == 1 && 111 % 64 == 47 && 114 % 64 == 50;
    assert SextetChar(25) == 'Z' && SextetChar(24) == 'Y' && SextetChar(32) == 'g';
    assert SextetChar(38) == 'm' && SextetChar(60) == '8' && SextetChar(61) == '9';
    assert SextetChar(47) == 'v' && SextetChar(4) == 'E' && SextetChar(5) == 'F';
    assert SextetChar(50) == 'y' && SextetChar(0) == 'A';
  }

  /** The test vectors of section 10 of RFC 4648 up to one group ("", "f",
      "fo", "foo"); they fix the alphabet and the padding, which the round
      trip alone does not. */
  lemma EncodeTestVectorsOneGroup()
    ensures Encode([]) == ""
    ensures Encode([102]) == "Zg=="
    ensures Encode([102, 111]) == "Zm8="
    ensures Encode([102, 111, 111]) == "Zm9v"
  {
    TestVectorGroups();
    assert [102, 111, 111][3..] == [];
  }

  /** The full first group followed by the rest, for the longer vectors. */
  lemma EncodeBodyOfFoo(rest: seq<byte>)
    ensures EncodeBody([102, 111, 111] + rest) == "Zm9v" + EncodeBody(rest)
  {
    var bytes: seq<byte> := [102, 111, 111] + rest;
    assert bytes[0] == 102 && bytes[1] == 111 && bytes[2] == 111 && bytes[3..] == rest;
    TestVectorGroups();
  }

  /** The vector "foob" of section 10 of RFC 4648. */
  lemma EncodeFoob()
    ensures Encode([102, 111, 111, 98]) == "Zm9vYg=="
  {
    TestVectorGroups();
    EncodeBodyOfFoo([98]);
    assert [102, 111, 111] + [98] == [102, 111, 111, 98];
    assert EncodeBody([98]) == "Yg";
    assert "Zm9v" + "Yg" + "==" == "Zm9vYg==";
  }

  /** The vector "fooba" of section 10 of RFC 4648. */
  lemma EncodeFooba()
    ensures Encode([102, 111, 111, 98, 97]) == "Zm9vYmE="
  {
    TestVectorGroups();
    EncodeBodyOfFoo([98, 97]);
    assert [102, 111, 111] + [98, 97] == [102, 111, 111, 98, 97];
    assert EncodeBody([98, 97]) == "YmE";
    assert "Zm9v" + "YmE" + "=" == "Zm9vYmE=";
  }

  /** The vector "foobar" of section 10 of RFC 4648. */
  lemma EncodeFoobar()
    ensures Encode([102, 111, 111, 98, 97, 114]) == "Zm9vYmFy"
  {
    TestVectorGroups();
    EncodeBodyOfFoo([98, 97, 114]);
    assert [102, 111, 111] + [98, 97, 114] == [102, 111, 111, 98, 97, 114];
    assert EncodeBody([98, 97, 114]) == "YmFy" by {
      assert [98, 97, 114][3..] == [];
    }
    assert "Zm9v" + "YmFy" + "" == "Zm9vYmFy";
  }

  /** `btoa`: throws (here `None`) when a character code exceeds 255,
      otherwise encodes the string's bytes. */
  function Btoa(s: string): (r: Option<string>)
    ensures r.Some? <==> IsBinaryString(s)
  {
    if IsBinaryString(s) then Some(Encode(CharCodes(s))) else None
  }

  // ---------------------------------------------------------------------
  // Decoding (forgiving-base64 decode of the HTML standard)

  predicate IsAsciiWhitespace(c: char)
  {
    c == ' ' || c == '\t' || c == '\n' || c == '\r' || c == 12 as char
  }

  function StripWhitespace(s: string): (t: string)
    ensures |t| <= |s|
    ensures forall i :: 0 <= i < |t| ==> !IsAsciiWhitespace(t[i])
    ensures forall c :: !IsAsciiWhitespace(c) ==> multiset(t)[c] == multiset(s)[c]
  {
    if s == [] then []
    else
      assert s == [s[0]] + s[1..];
      if IsAsciiWhitespace(s[0]) then StripWhitespace(s[1..])
      else [s[0]] + StripWhitespace(s[1..])
  }

  /** When the length is a multiple of four, one or two trailing `=` go. */
  function StripPadding(t: string): string
  {
    if |t| % 4 == 0 && |t| >= 2 && t[|t| - 2..] == "==" then t[..|t| - 2]
    else if |t| % 4 == 0 && |t| >= 1 && t[|t| - 1] == '=' then t[..|t| - 1]
    else t
  }

  /** Four sextets, 24 bits, as three bytes. */
  function DecodeGroup(c0: sextet, c1: sextet, c2: sextet, c3: sextet): (b: seq<byte>)
  {
    [c0 * 4 + c1 / 16, (c1 % 16) * 16 + c2 / 4, (c2 % 4) * 64 + c3]
  }

  /** Unpadded base64 text to bytes; a final two or three characters give
      one or two bytes and their extra low bits are dropped. */
  function DecodeBody(t: string): (bytes: seq<byte>)
    requires |t| % 4 != 1 && AllBase64(t)
    decreases |t|
  {
    if |t| == 0 then []
    else if |t| == 2 then DecodeGroup(Sextet(t[0]), Sextet(t[1]), 0, 0)[..1]
    else if |t| == 3 then DecodeGroup(Sextet(t[0]), Sextet(t[1]), Sextet(t[2]), 0)[..2]
    else DecodeGroup(Sextet(t[0]), Sextet(t[1]), Sextet(t[2]), Sextet(t[3])) + DecodeBody(t[4..])
  }

  /** `atob`: throws (here `None`) when, after whitespace and padding are
      removed, the length leaves remainder 1 modulo 4 or a character is
      outside the alphabet; otherwise yields a binary string. */
  function Atob(data: string): (r: Option<string>)
    ensures r.Some? ==> IsBinaryString(r.value)
  {
    var t := StripPadding(StripWhitespace(data));
    if |t| % 4 == 1 || !AllBase64(t) then None
    else Some(FromCharCodes(DecodeBody(t)))
  }

  // ---------------------------------------------------------------------
  // Round trip

  lemma GroupRoundTrip(b0: byte, b1: byte, b2: byte)
    ensures DecodeGroup(b0 / 4, (b0 % 4) * 16 + b1 / 16, (b1 % 16) * 4 + b2 / 64, b2 % 64) == [b0, b1, b2]
  {
  }

  /** The characters of one group decode to the group's bytes. */
  lemma DecodeEncodeGroup(b0: byte, b1: byte, b2: byte)
    ensures DecodeGroup(Sextet(EncodeGroup(b0, b1, b2)[0]), Sextet(EncodeGroup(b0, b1, b2)[1]),
                        Sextet(EncodeGroup(b0, b1, b2)[2]), Sextet(EncodeGroup(b0, b1, b2)[3])) == [b0, b1, b2]
  {
    SextetOfSextetChar(b0 / 4);
    SextetOfSextetChar((b0 % 4) * 16 + b1 / 16);
    SextetOfSextetChar((b1 % 16) * 4 + b2 / 64);
    SextetOfSextetChar(b2 % 64);
    GroupRoundTrip(b0, b1, b2);
  }

  lemma DecodeEncodeTail(bytes: seq<byte>)
    requires 0 < |bytes| < 3
    ensures |EncodeBody(bytes)| == |bytes| + 1
    ensures DecodeBody(EncodeBody(bytes)) == bytes
  {
    var b1: byte := if |bytes| == 2 then bytes[1] else 0;
    var g := EncodeGroup(bytes[0], b1, 0);
    DecodeEncodeGroup(bytes[0], b1, 0);
    var d := DecodeGroup(Sextet(g[0]), Sextet(g[1]), Sextet(g[2]), Sextet(g[3]));
    if |bytes| == 1 {
      assert DecodeGroup(Sextet(g[0]), Sextet(g[1]), 0, 0)[..1] == d[..1];
    } else {
      assert DecodeGroup(Sextet(g[0]), Sextet(g[1]), Sextet(g[2]), 0)[..2] == d[..2];
    }
  }

  /** Decoding works group by group from the front. */
  lemma DecodeBodyFirstGroup(g: string, rest: string)
    requires |g| == 4 && AllBase64(g) && AllBase64(rest) && |rest| % 4 != 1
    ensures |g + rest| % 4 != 1 && AllBase64(g + rest)
    ensures DecodeBody(g + rest)
         == DecodeGroup(Sextet(g[0]), Sextet(g[1]), Sextet(g[2]), Sextet(g[3])) + DecodeBody(rest)
  {
    var t := g + rest;
    assert |t| % 4 == |rest| % 4;
    assert t[4..] == rest;
  }

  /** A full first group followed by text that already decodes back. */
  lemma DecodeEncodeStep(bytes: seq<byte>)
    requires |bytes| >= 3 && |EncodeBody(bytes[3..])| % 4 != 1
    requires DecodeBody(EncodeBody(bytes[3..])) == bytes[3..]
    ensures |EncodeBody(bytes)| % 4 != 1
    ensures DecodeBody(EncodeBody(bytes)) == bytes
  {
    var g := EncodeGroup(bytes[0], bytes[1], bytes[2]);
    var rest := EncodeBody(bytes[3..]);
    assert EncodeBody(bytes) == g + rest;
    DecodeBodyFirstGroup(g, rest);
    DecodeEncodeGroup(bytes[0], bytes[1], bytes[2]);
    assert bytes == [bytes[0], bytes[1], bytes[2]] + bytes[3..];
  }

  /** Decoding the unpadded characters gives the bytes back. */
  lemma {:induction false} DecodeEncodeBody(bytes: seq<byte>)
    ensures |EncodeBody(bytes)| % 4 != 1
    ensures DecodeBody(EncodeBody(bytes)) == bytes
    decreases |bytes|
  {
    if |bytes| == 0 {
    } else if |bytes| < 3 {
      DecodeEncodeTail(bytes);
    } else {
      DecodeEncodeBody(bytes[3..]);
      DecodeEncodeStep(bytes);
    }
  }

  /** The whitespace strip of one character. */
  function StripChar(c: char): string
  {
    if IsAsciiWhitespace(c) then [] else [c]
  }

  lemma StripWhitespaceCons(c: char, x: string)
    ensures StripWhitespace([c] + x) == StripChar(c) + StripWhitespace(x)
  {
    assert ([c] + x)[0] == c && ([c] + x)[1..] == x;
  }

  lemma CharsAssociate(x: string, y: string, z: string)
    ensures x + (y + z) == x + y + z
  {
  }

  /** Stripping works piecewise: the characters that survive keep their
      order, so with the multiset clause of `StripWhitespace` the result is
      the input with its whitespace removed. */
  lemma {:induction false} StripWhitespaceAppend(a: string, b: string)
    ensures StripWhitespace(a + b) == StripWhitespace(a) + StripWhitespace(b)
    decreases |a|
  {
    if a == [] {
      assert a + b == b;
    } else {
      var c, rest := a[0], a[1..];
      assert a == [c] + rest;
      assert a + b == [c] + (rest + b);
      StripWhitespaceCons(c, rest + b);
      StripWhitespaceCons(c, rest);
      StripWhitespaceAppend(rest, b);
      CharsAssociate(StripChar(c), StripWhitespace(rest), StripWhitespace(b));
    }
  }

  lemma {:induction false} StripWhitespaceKeeps(s: string)
    requires forall i :: 0 <= i < |s| ==> !IsAsciiWhitespace(s[i])
    ensures StripWhitespace(s) == s
  {
    if s != [] {
      StripWhitespaceKeeps(s[1..]);
    }
  }

  /** Two `=` go when the unpadded length leaves remainder 2. */
  lemma StripTwoPads(u: string)
    requires |u| % 4 == 2
    ensures StripPadding(u + "==") == u
  {
    var t := u + "==";
    assert t[|t| - 2..] == "==";
    assert t[..|t| - 2] == u;
  }

  /** One `=` goes when the unpadded length leaves remainder 3 and the
      character before it is not `=`. */
  lemma StripOnePad(u: string)
    requires |u| % 4 == 3 && u[|u| - 1] != '='
    ensures StripPadding(u + "=") == u
  {
    var t := u + "=";
    assert t[|t| - 2..][0] == u[|u| - 1];
    assert t[..|t| - 1] == u;
  }

  /** Nothing goes when the text does not end with `=`. */
  lemma StripNoPad(u: string)
    requires |u| % 4 == 0 && (|u| > 0 ==> u[|u| - 1] != '=')
    ensures StripPadding(u) == u
  {
    if |u| >= 2 {
      assert u[|u| - 2..][1] == u[|u| - 1];
    }
  }

  lemma StripPaddingOfEncode(bytes: seq<byte>)
    ensures StripPadding(Encode(bytes)) == EncodeBody(bytes)
  {
    var u := EncodeBody(bytes);
    EncodeBodyLength(bytes);
    assert |u| > 0 ==> IsBase64Char(u[|u| - 1]);
    if |bytes| % 3 == 1 {
      StripTwoPads(u);
    } else if |bytes| % 3 == 2 {
      StripOnePad(u);
    } else {
      assert Encode(bytes) == u;
      StripNoPad(u);
    }
  }

  lemma CharCodesOfFromCharCodes(bytes: seq<byte>)
    ensures CharCodes(FromCharCodes(bytes)) == bytes
  {
  }

  lemma EncodeHasNoWhitespace(bytes: seq<byte>)
    ensures forall i :: 0 <= i < |Encode(bytes)| ==> !IsAsciiWhitespace(Encode(bytes)[i])
  {
    var u := EncodeBody(bytes);
    var e := Encode(bytes);
    forall i | 0 <= i < |e|
      ensures !IsAsciiWhitespace(e[i])
    {
      if i < |u| {
        assert e[i] == u[i];
      }
    }
  }

  /** `atob` undoes the padded encoding: the result is the binary string of
      the encoded bytes. */
  lemma AtobOfEncode(bytes: seq<byte>)
    ensures Atob(Encode(bytes)) == Some(FromCharCodes(bytes))
  {
    var e := Encode(bytes);
    EncodeHasNoWhitespace(bytes);
    StripWhitespaceKeeps(e);
    StripPaddingOfEncode(bytes);
    DecodeEncodeBody(bytes);
  }

  /** `btoa(String.fromCharCode(...bytes))` never throws: it is the
      encoding of `bytes`. */
  lemma BtoaOfBytes(bytes: seq<byte>)
    ensures Btoa(FromCharCodes(bytes)) == Some(Encode(bytes))
  {
    CharCodesOfFromCharCodes(bytes);
  }

  /** `atob(btoa(String.fromCharCode(...bytes)))` is the binary string of
      `bytes`, and copying its codes gives `bytes` back: encoding then
      decoding is the identity, for every length. */
  lemma RoundTrip(bytes: seq<byte>)
    ensures Btoa(FromCharCodes(bytes)) == Some(Encode(bytes))
    ensures Atob(Encode(bytes)) == Some(FromCharCodes(bytes))
    ensures CharCodes(FromCharCodes(bytes)) == bytes
  {
    CharCodesOfFromCharCodes(bytes);
    AtobOfEncode(bytes);
  }
}

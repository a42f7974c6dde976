/** What the strings of `CursorCodec` look like, told by the tables of RFC 4648 and by decimal
    notation, and when `DecodeCursor` gives which error. */
module CursorFormat {
  import opened Common
  import opened CursorCodec

  // ---- Decimal ----

  const DIGITS := "0123456789"

  predicate AllDigits(s: string) {
    forall i :: 0 <= i < |s| ==> '0' <= s[i] <= '9'
  }

  /** Decimal notation: a digit, one more digit, the sign. */
  lemma DecimalNotation(n: nat, d: nat)
    requires d < 10
    ensures PrintInt(d) == [DIGITS[d]]
    ensures n > 0 ==> PrintInt(10 * n + d) == PrintInt(n) + [DIGITS[d]]
    ensures n > 0 ==> PrintInt(0 - n) == "-" + PrintInt(n)
  {
    assert Digit(d) == DIGITS[d];
    assert (10 * n + d) / 10 == n && (10 * n + d) % 10 == d;
  }

  /** A run of digits has the value that decimal notation gives it; anything else has none. */
  lemma {:induction false} ValueOfDigits(s: string)
    ensures DigitsValue("") == Some(0)
    ensures DigitsValue(s).Some? <==> AllDigits(s)
    ensures s != "" && AllDigits(s) ==>
      var n := |s| - 1;
      DigitsValue(s[..n]).Some? && DigitsValue(s) == Some(10 * DigitsValue(s[..n]).value + (s[n] as int - 48))
    decreases |s|
  {
    if s != "" {
      var n := |s| - 1;
      ValueOfDigits(s[..n]);
      assert AllDigits(s) ==> AllDigits(s[..n]);
      assert AllDigits(s[..n]) && '0' <= s[n] <= '9' ==> AllDigits(s);
    }
  }

  /** A number is a run of digits, with or without a sign, that fits into 64 bits. */
  lemma ParsesNumber(body: string)
    requires body != "" && AllDigits(body)
    ensures DigitsValue(body).Some?
    ensures var v := DigitsValue(body).value;
      && ParseInt64(body) == (if v <= 9223372036854775807 then Some(v) else None)
      && ParseInt64("+" + body) == (if v <= 9223372036854775807 then Some(v) else None)
      && ParseInt64("-" + body) == (if v <= 9223372036854775808 then Some(0 - v) else None)
  {
    ValueOfDigits(body);
    assert body[0] != '-' && body[0] != '+';
    assert ("+" + body)[1..] == body && ("-" + body)[1..] == body;
  }

  predicate LooksLikeNumber(s: string) {
    || (s != "" && AllDigits(s))
    || (|s| > 1 && (s[0] == '+' || s[0] == '-') && AllDigits(s[1..]))
  }

  lemma ParsesNothingElse(s: string)
    requires ParseInt64(s).Some?
    ensures LooksLikeNumber(s)
  {
    ValueOfDigits(s);
    ValueOfDigits(s[1..]);
  }

  // ---- Base64 ----

  /** The table of section 5 of RFC 4648. */
  lemma LetterIs(v: Sextet)
    ensures v < 26 ==> Letter(v) == "ABCDEFGHIJKLMNOPQRSTUVWXYZ"[v]
    ensures 26 <= v < 52 ==> Letter(v) == "abcdefghijklmnopqrstuvwxyz"[v - 26]
    ensures 52 <= v ==> Letter(v) == "0123456789-_"[v - 52]
  {
  }

  /** The byte at `i`, or zero beyond the end. */
  function At(bs: seq<Byte>, i: nat): Byte {
    if i < |bs| then bs[i] else 0
  }

  /** The 24 bits of the three bytes from `i` on. */
  function Bits24(bs: seq<Byte>, i: nat): nat {
    At(bs, i) * 65536 + At(bs, i + 1) * 256 + At(bs, i + 2)
  }

  /** Six of 24 bits, from the left. */
  function Six(bits: nat, k: nat): Sextet
    requires k < 4
  {
    if k == 0 then bits / 262144 % 64
    else if k == 1 then bits / 4096 % 64
    else if k == 2 then bits / 64 % 64
    else bits % 64
  }

  /** Eight of 24 bits, from the left. */
  function Eight(bits: nat, k: nat): Byte
    requires k < 3
  {
    if k == 0 then bits / 65536 % 256
    else if k == 1 then bits / 256 % 256
    else bits % 256
  }

  lemma LettersAre(b0: Byte, b1: Byte, b2: Byte, k: nat)
    requires k < 4
    ensures Letters(b0, b1, b2)[k] == Letter(Six(b0 * 65536 + b1 * 256 + b2, k))
  {
    SameBits(b0, b1, b2);
    FourSixes(b0 / 4, b0 % 4 * 16 + b1 / 16, b1 % 16 * 4 + b2 / 64, b2 % 64, b0 * 65536 + b1 * 256 + b2, k);
  }

  lemma SameBits(b0: Byte, b1: Byte, b2: Byte)
    ensures b0 * 65536 + b1 * 256 + b2
         == b0 / 4 * 262144 + (b0 % 4 * 16 + b1 / 16) * 4096 + (b1 % 16 * 4 + b2 / 64) * 64 + b2 % 64
  {
  }

  lemma FourSixes(v0: Sextet, v1: Sextet, v2: Sextet, v3: Sextet, bits: nat, k: nat)
    requires bits == v0 * 262144 + v1 * 4096 + v2 * 64 + v3 && k < 4
    ensures Six(bits, k) == [v0, v1, v2, v3][k]
  {
    assert bits / 262144 == v0;
    assert bits / 4096 == v0 * 64 + v1;
    assert bits / 64 == (v0 * 64 + v1) * 64 + v2;
    assert bits % 64 == v3;
  }

  /** Section 4 of RFC 4648: groups of three bytes are written as four letters of six bits each;
      where the last group has no byte to show, there is padding. */
  function LetterAt(bs: seq<Byte>, j: nat): char {
    if j / 4 * 3 + j % 4 <= |bs| then Letter(Six(Bits24(bs, j / 4 * 3), j % 4)) else '='
  }

  lemma {:induction false} EncodingIs(bs: seq<Byte>, j: nat)
    requires j < |EncodeBase64(bs)|
    ensures |EncodeBase64(bs)| == (|bs| + 2) / 3 * 4
    ensures EncodeBase64(bs)[j] == LetterAt(bs, j)
    decreases |bs|
  {
    EncodingLength(bs);
    if |bs| <= 2 {
      ShortEncodingIs(bs, j);
    } else if j < 4 {
      LettersAre(bs[0], bs[1], bs[2], j);
    } else {
      LaterLetter(bs, j);
      EncodingIs(bs[3..], j - 4);
      LetterAtShifts(bs, j);
    }
  }

  lemma LaterLetter(bs: seq<Byte>, j: nat)
    requires |bs| > 2 && 4 <= j < |EncodeBase64(bs)|
    ensures j - 4 < |EncodeBase64(bs[3..])| && EncodeBase64(bs)[j] == EncodeBase64(bs[3..])[j - 4]
  {
  }

  lemma LetterAtShifts(bs: seq<Byte>, j: nat)
    requires |bs| > 2 && j >= 4
    ensures LetterAt(bs, j) == LetterAt(bs[3..], j - 4)
  {
    var i := (j - 4) / 4 * 3;
    assert j / 4 * 3 == i + 3 && j % 4 == (j - 4) % 4;
    assert Bits24(bs, i + 3) == Bits24(bs[3..], i);
  }

  lemma {:induction false} EncodingLength(bs: seq<Byte>)
    ensures |EncodeBase64(bs)| == (|bs| + 2) / 3 * 4
    decreases |bs|
  {
    if |bs| > 2 {
      EncodingLength(bs[3..]);
      assert |EncodeBase64(bs)| == 4 + |EncodeBase64(bs[3..])|;
      assert (|bs| + 2) / 3 == (|bs[3..]| + 2) / 3 + 1;
    }
  }

  lemma ShortEncodingIs(bs: seq<Byte>, j: nat)
    requires |bs| <= 2 && j < |EncodeBase64(bs)|
    ensures |EncodeBase64(bs)| == 4 && bs != []
    ensures EncodeBase64(bs)[j] == LetterAt(bs, j)
  {
    EncodeShort(bs);
    LettersAre(bs[0], At(bs, 1), 0, j);
  }

  predicate IsLetter(c: char) {
    'A' <= c <= 'Z' || 'a' <= c <= 'z' || '0' <= c <= '9' || c == '-' || c == '_'
  }

  /** `n` letters, then nothing but padding. */
  predicate LettersThenPadding(s: string, n: int) {
    0 <= n <= |s| && (forall i :: 0 <= i < n ==> IsLetter(s[i])) && (forall i :: n <= i < |s| ==> s[i] == '=')
  }

  /** Full groups of four, with at most two signs of padding at the end. */
  ghost predicate WellFormed(s: string) {
    |s| % 4 == 0 && exists n :: LettersThenPadding(s, n) && n > |s| - 3
  }

  /** A text is decoded exactly if, line breaks apart, it consists of full groups of letters of the
      table with at most two signs of padding at the end. */
  lemma DecodedExactlyWhen(s: string)
    ensures DecodeBase64(s).Some? <==> WellFormed(WithoutLineBreaks(s))
  {
    GroupsDecoded(WithoutLineBreaks(s));
  }

  lemma {:induction false} GroupsDecoded(s: string)
    ensures DecodeGroups(s).Some? <==> WellFormed(s)
    decreases |s|
  {
    if s == "" {
      assert LettersThenPadding(s, 0);
    } else if |s| <= 4 {
      OneGroupDecoded(s);
    } else {
      GroupsDecoded(s[4..]);
      FirstGroupDecoded(s);
    }
  }

  lemma OneGroupDecoded(s: string)
    requires 0 < |s| <= 4
    ensures DecodeGroups(s).Some? <==> WellFormed(s)
  {
    if |s| == 4 {
      GroupOfFour(s);
      assert LettersThenPadding(s, 4) || LettersThenPadding(s, 3) || LettersThenPadding(s, 2) <==> WellFormed(s);
    }
  }

  lemma GroupOfFour(s: string)
    requires |s| == 4
    ensures DecodeGroups(s).Some? <==>
      LettersThenPadding(s, 4) || LettersThenPadding(s, 3) || LettersThenPadding(s, 2)
  {
    assert s[4..] == "" && DecodeGroups("") == Some([]);
  }

  lemma FirstGroupDecoded(s: string)
    requires |s| > 4
    requires DecodeGroups(s[4..]).Some? <==> WellFormed(s[4..])
    ensures DecodeGroups(s).Some? <==> WellFormed(s)
  {
    LongGroup(s);
    GroupByGroup(s);
  }

  lemma GroupByGroup(s: string)
    requires |s| > 4
    ensures WellFormed(s) <==> LettersThenPadding(s[..4], 4) && WellFormed(s[4..])
  {
    if WellFormed(s) {
      var n :| LettersThenPadding(s, n) && n > |s| - 3;
      GroupPrecedes(s, n);
    }
    if WellFormed(s[4..]) && LettersThenPadding(s[..4], 4) {
      var n :| LettersThenPadding(s[4..], n) && n > |s[4..]| - 3;
      GroupPrecedes(s, n + 4);
    }
  }

  lemma GroupPrecedes(s: string, n: int)
    requires |s| > 4 && n >= 4
    ensures LettersThenPadding(s, n) <==> LettersThenPadding(s[..4], 4) && LettersThenPadding(s[4..], n - 4)
  {
    if LettersThenPadding(s[..4], 4) && LettersThenPadding(s[4..], n - 4) {
      forall i | 0 <= i < n ensures IsLetter(s[i]) {
        assert if i < 4 then s[i] == s[..4][i] else s[i] == s[4..][i - 4];
      }
      forall i | n <= i < |s| ensures s[i] == '=' {
        assert s[i] == s[4..][i - 4];
      }
    }
  }

  lemma LongGroup(s: string)
    requires |s| > 4
    ensures DecodeGroups(s).Some? <==> DecodeGroups(s[4..]).Some? && LettersThenPadding(s[..4], 4)
  {
    assert LettersThenPadding(s[..4], 4) <==> IsLetter(s[0]) && IsLetter(s[1]) && IsLetter(s[2]) && IsLetter(s[3]);
  }

  /** What a sign of the text stands for; padding stands for zero bits. */
  function SextetAt(s: string, j: nat): Sextet {
    if j < |s| && SextetOf(s[j]).Some? then SextetOf(s[j]).value else 0
  }

  /** The byte at `i` of what a text stands for: eight of the 24 bits of its group. */
  function ByteAt(s: string, i: nat): Byte {
    var j := i / 3 * 4;
    var bits := SextetAt(s, j) * 262144 + SextetAt(s, j + 1) * 4096 + SextetAt(s, j + 2) * 64 + SextetAt(s, j + 3);
    Eight(bits, i % 3)
  }

  lemma BytesAre(v0: Sextet, v1: Sextet, v2: Sextet, v3: Sextet, k: nat)
    requires k < 3
    ensures Bytes(v0, v1, v2, v3)[k] == Eight(v0 * 262144 + v1 * 4096 + v2 * 64 + v3, k)
  {
    var bits := v0 * 262144 + v1 * 4096 + v2 * 64 + v3;
    var bs := Bytes(v0, v1, v2, v3);
    assert v1 == v1 / 16 * 16 + v1 % 16 && v2 == v2 / 4 * 4 + v2 % 4;
    var b0: int, b1: int, b2: int := bs[0], bs[1], bs[2];
    assert bits == b0 * 65536 + b1 * 256 + b2;
    ThreeEights(bs[0], bs[1], bs[2]);
  }

  lemma ThreeEights(b0: Byte, b1: Byte, b2: Byte)
    ensures forall k :: 0 <= k < 3 ==> Eight(b0 * 65536 + b1 * 256 + b2, k) == [b0, b1, b2][k]
  {
  }

  /** What is decoded are those bytes, canonical text or not. */
  lemma {:induction false} DecodingIs(s: string, i: nat)
    requires DecodeGroups(s).Some? && i < |DecodeGroups(s).value|
    ensures DecodeGroups(s).value[i] == ByteAt(s, i)
    decreases |s|
  {
    if i < 3 {
      EarlyByte(s, i);
    } else {
      LaterByte(s, i);
      DecodingIs(s[4..], i - 3);
      ByteAtShifts(s, i);
    }
  }

  lemma EarlyByte(s: string, i: nat)
    requires DecodeGroups(s).Some? && i < |DecodeGroups(s).value| && i < 3
    ensures DecodeGroups(s).value[i] == ByteAt(s, i)
  {
    FirstGroup(s, i);
    BytesAre(SextetAt(s, 0), SextetAt(s, 1), SextetAt(s, 2), SextetAt(s, 3), i);
  }

  lemma FirstGroup(s: string, i: nat)
    requires DecodeGroups(s).Some? && i < |DecodeGroups(s).value| && i < 3
    ensures DecodeGroups(s).value[i] == Bytes(SextetAt(s, 0), SextetAt(s, 1), SextetAt(s, 2), SextetAt(s, 3))[i]
  {
  }

  lemma LaterByte(s: string, i: nat)
    requires DecodeGroups(s).Some? && 3 <= i < |DecodeGroups(s).value|
    ensures |s| > 4 && DecodeGroups(s[4..]).Some? && i - 3 < |DecodeGroups(s[4..]).value|
    ensures DecodeGroups(s).value[i] == DecodeGroups(s[4..]).value[i - 3]
  {
  }

  lemma ByteAtShifts(s: string, i: nat)
    requires |s| > 4 && i >= 3
    ensures ByteAt(s, i) == ByteAt(s[4..], i - 3)
  {
    var j := (i - 3) / 3 * 4;
    assert i / 3 * 4 == j + 4 && i % 3 == (i - 3) % 3;
    assert SextetAt(s, j + 4) == SextetAt(s[4..], j) && SextetAt(s, j + 5) == SextetAt(s[4..], j + 1);
    assert SextetAt(s, j + 6) == SextetAt(s[4..], j + 2) && SextetAt(s, j + 7) == SextetAt(s[4..], j + 3);
  }

  /** A line break may stand anywhere. */
  lemma {:induction false} LineBreaksAreSkipped(a: string, c: char, b: string)
    requires c == '\r' || c == '\n'
    ensures DecodeBase64(a + [c] + b) == DecodeBase64(a + b)
  {
    SkipsLineBreak(a, c, b);
  }

  lemma {:induction false} SkipsLineBreak(a: string, c: char, b: string)
    requires c == '\r' || c == '\n'
    ensures WithoutLineBreaks(a + [c] + b) == WithoutLineBreaks(a + b)
    decreases |a|
  {
    if a == "" {
      assert (a + [c] + b)[1..] == a + b;
    } else {
      assert (a + [c] + b)[1..] == a[1..] + [c] + b && (a + b)[1..] == a[1..] + b;
      SkipsLineBreak(a[1..], c, b);
    }
  }

  // ---- Cursors ----

  /** The text that is encoded: timestamp, colon, id. */
  lemma CursorText(c: Cursor, bs: seq<Byte>)
    requires FromBytes(bs) == PrintInt(c.lastTimestamp) + ":" + PrintInt(c.lastID)
    ensures EncodeCursor(c) == EncodeBase64(bs)
  {
    IntRoundTrip(c.lastTimestamp);
    IntRoundTrip(c.lastID);
    var text := FromBytes(bs);
    assert forall i :: 0 <= i < |bs| ==> text[i] == bs[i] as char;
    assert ToBytes(text) == bs;
  }

  /** How many colons there are. */
  function Colons(s: string): nat {
    multiset(s)[':']
  }

  lemma {:induction false} PartsOf(s: string)
    ensures |SplitColon(s)| == Colons(s) + 1
    ensures Colons(s) == 0 ==> SplitColon(s) == [s]
    decreases |s|
  {
    if s == "" {
      return;
    }
    PartsOf(s[1..]);
    assert s == [s[0]] + s[1..];
  }

  /** Which error is given when: nothing but the empty string means "from the beginning", a string
      that is not base64 is told apart from a text without exactly one colon, and that from one whose
      two parts are not both numbers. */
  lemma DecodesExactly(encoded: string)
    ensures DecodeCursor(encoded) == Ok(None) <==> encoded == ""
    ensures DecodeCursor(encoded) == Err(InvalidEncoding) <==>
      encoded != "" && !WellFormed(WithoutLineBreaks(encoded))
    ensures encoded != "" && DecodeBase64(encoded).Some? ==>
      (DecodeCursor(encoded) == Err(InvalidFormat) <==> Colons(FromBytes(DecodeBase64(encoded).value)) != 1)
  {
    DecodedExactlyWhen(encoded);
    if DecodeBase64(encoded).Some? {
      PartsOf(FromBytes(DecodeBase64(encoded).value));
    }
  }

  /** The two parts: the timestamp first, then the id. */
  lemma DecodesParts(encoded: string, ts: string, id: string)
    requires encoded != "" && DecodeBase64(encoded).Some?
    requires FromBytes(DecodeBase64(encoded).value) == ts + ":" + id && ':' !in ts && ':' !in id
    ensures ParseInt64(ts).Some? && ParseInt64(id).Some? ==>
      DecodeCursor(encoded) == Ok(Some(Cursor(ParseInt64(id).value, ParseInt64(ts).value)))
    ensures ParseInt64(ts).None? || ParseInt64(id).None? ==> DecodeCursor(encoded) == Err(InvalidNumber)
  {
    SplitPair(ts, id);
  }

  /** Timestamp 5 and id 7 are the text `5:7`. */
  lemma SampleCursor()
    ensures EncodeCursor(Cursor(7, 5)) == "NTo3"
  {
    var bs: seq<Byte> := [53, 58, 55];
    assert FromBytes(bs) == "5" + ":" + "7";
    CursorText(Cursor(7, 5), bs);
    OneGroup(53, 58, 55);
    SampleLetters();
  }

  lemma SampleLetters()
    ensures Letters(53, 58, 55) == "NTo3"
  {
  }

  lemma OneGroup(b0: Byte, b1: Byte, b2: Byte)
    ensures EncodeBase64([b0, b1, b2]) == Letters(b0, b1, b2)
  {
    assert [b0, b1, b2][3..] == [];
  }
}

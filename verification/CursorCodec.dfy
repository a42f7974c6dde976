/** `Cursor.Encode` and `DecodeCursor` of `patterns/04_persistence/keyset_pagination.go`.

    A Go string is a sequence of bytes; here it is a `string` whose characters are below 256.  The
    printer and parser of integers follow `%d` and `strconv.ParseInt(s, 10, 64)`; the encoding is
    base64 with the URL-safe alphabet and padding (sections 4 and 5 of RFC 4648), decoded as Go's
    non-strict decoder does: line breaks are skipped and the unused bits of the last group ignored. */
module CursorCodec {
  import opened Common

  const MIN_INT64: int := -0x8000_0000_0000_0000
  const MAX_INT64: int := 0x7fff_ffff_ffff_ffff

  type Int64 = x: int | MIN_INT64 <= x <= MAX_INT64
  type Byte = b: int | 0 <= b < 256

  datatype Cursor = Cursor(lastID: Int64, lastTimestamp: Int64)

  datatype CursorError = InvalidEncoding | InvalidFormat | InvalidNumber

  // ---- Decimal ----

  function Digit(d: int): char
    requires 0 <= d < 10
  {
    ('0' as int + d) as char
  }

  predicate IsDigit(c: char) { '0' <= c <= '9' }

  function Digits(n: nat): string {
    if n < 10 then [Digit(n)] else Digits(n / 10) + [Digit(n % 10)]
  }

  function PrintInt(x: int): string {
    if x < 0 then "-" + Digits(0 - x) else Digits(x)
  }

  /** The value of a run of digits; None if there is anything else. */
  function DigitsValue(s: string): Option<nat> {
    if s == "" then Some(0)
    else
      var n := |s| - 1;
      match DigitsValue(s[..n])
      case None => None
      case Some(v) => if IsDigit(s[n]) then Some(10 * v + (s[n] as int - '0' as int)) else None
  }

  function ParseInt64(s: string): Option<Int64> {
    if s == "" then None
    else
      var negative := s[0] == '-';
      var body := if s[0] == '-' || s[0] == '+' then s[1..] else s;
      if body == "" then None
      else
        match DigitsValue(body)
        case None => None
        case Some(v) =>
          var value: int := if negative then 0 - v else v;
          if MIN_INT64 <= value <= MAX_INT64 then Some(value) else None
  }

  lemma {:induction false} DigitsRoundTrip(n: nat)
    ensures Digits(n) != "" && DigitsValue(Digits(n)) == Some(n)
    ensures forall i :: 0 <= i < |Digits(n)| ==> IsDigit(Digits(n)[i])
    decreases n
  {
    var d := Digit(n % 10);
    if n < 10 {
      assert Digits(n)[..0] == "";
      assert DigitsValue("") == Some(0);
    } else {
      DigitsRoundTrip(n / 10);
      assert Digits(n)[..|Digits(n)| - 1] == Digits(n / 10);
    }
  }

  /** Printing and parsing an int64 are inverse, and no colon is printed. */
  lemma IntRoundTrip(x: Int64)
    ensures ParseInt64(PrintInt(x)) == Some(x)
    ensures ':' !in PrintInt(x)
    ensures forall i :: 0 <= i < |PrintInt(x)| ==> PrintInt(x)[i] < 256 as char
  {
    var value: int := x;
    var n: nat := if value < 0 then 0 - value else value;
    DigitsRoundTrip(n);
    if x < 0 {
      assert PrintInt(x)[1..] == Digits(n);
    } else {
      assert IsDigit(Digits(n)[0]);
    }
  }

  // ---- Base64 ----

  type Sextet = v: int | 0 <= v < 64

  function SextetOf(c: char): Option<Sextet> {
    if 'A' <= c <= 'Z' then Some(c as int - 'A' as int)
    else if 'a' <= c <= 'z' then Some(c as int - 'a' as int + 26)
    else if '0' <= c <= '9' then Some(c as int - '0' as int + 52)
    else if c == '-' then Some(62)
    else if c == '_' then Some(63)
    else None
  }

  function Letter(v: Sextet): char {
    if v < 26 then ('A' as int + v) as char
    else if v < 52 then ('a' as int + v - 26) as char
    else if v < 62 then ('0' as int + v - 52) as char
    else if v == 62 then '-'
    else '_'
  }

  /** The first byte of a group fills the first letter and two bits of the second, and so on. */
  function Letters(b0: Byte, b1: Byte, b2: Byte): string {
    [Letter(b0 / 4), Letter(b0 % 4 * 16 + b1 / 16), Letter(b1 % 16 * 4 + b2 / 64), Letter(b2 % 64)]
  }

  function EncodeBase64(bs: seq<Byte>): string {
    if bs == [] then ""
    else if |bs| == 1 then Letters(bs[0], 0, 0)[..2] + "=="
    else if |bs| == 2 then Letters(bs[0], bs[1], 0)[..3] + "="
    else Letters(bs[0], bs[1], bs[2]) + EncodeBase64(bs[3..])
  }

  function WithoutLineBreaks(s: string): string {
    if s == "" then ""
    else (if s[0] == '\r' || s[0] == '\n' then "" else [s[0]]) + WithoutLineBreaks(s[1..])
  }

  function Bytes(v0: Sextet, v1: Sextet, v2: Sextet, v3: Sextet): (bs: seq<Byte>)
    ensures |bs| == 3
  {
    [v0 * 4 + v1 / 16, v1 % 16 * 16 + v2 / 4, v2 % 4 * 64 + v3]
  }

  function DecodeGroups(s: string): Option<seq<Byte>> {
    if s == "" then Some([])
    else if |s| < 4 then None
    else
      match (SextetOf(s[0]), SextetOf(s[1]), SextetOf(s[2]), SextetOf(s[3]))
      case (Some(v0), Some(v1), Some(v2), Some(v3)) =>
        (match DecodeGroups(s[4..])
         case Some(rest) => Some(Bytes(v0, v1, v2, v3) + rest)
         case None => None)
      case (Some(v0), Some(v1), Some(v2), None) =>
        if s[3] == '=' && |s| == 4 then Some(Bytes(v0, v1, v2, 0)[..2]) else None
      case (Some(v0), Some(v1), None, _) =>
        if s[2] == '=' && s[3] == '=' && |s| == 4 then Some(Bytes(v0, v1, 0, 0)[..1]) else None
      case _ => None
  }

  function DecodeBase64(s: string): Option<seq<Byte>> {
    DecodeGroups(WithoutLineBreaks(s))
  }

  lemma LetterSextet(v: Sextet)
    ensures SextetOf(Letter(v)) == Some(v)
    ensures Letter(v) != '=' && Letter(v) != '\r' && Letter(v) != '\n'
  {
  }

  lemma GroupSextets(b0: Byte, b1: Byte, b2: Byte)
    ensures var l := Letters(b0, b1, b2);
      && SextetOf(l[0]) == Some(b0 / 4) && SextetOf(l[1]) == Some(b0 % 4 * 16 + b1 / 16)
      && SextetOf(l[2]) == Some(b1 % 16 * 4 + b2 / 64) && SextetOf(l[3]) == Some(b2 % 64)
    ensures forall i :: 0 <= i < 4 ==> Letters(b0, b1, b2)[i] != '\r' && Letters(b0, b1, b2)[i] != '\n'
  {
    LetterSextet(b0 / 4);
    LetterSextet(b0 % 4 * 16 + b1 / 16);
    LetterSextet(b1 % 16 * 4 + b2 / 64);
    LetterSextet(b2 % 64);
  }

  lemma BytesOfLetters(b0: Byte, b1: Byte, b2: Byte)
    ensures Bytes(b0 / 4, b0 % 4 * 16 + b1 / 16, b1 % 16 * 4 + b2 / 64, b2 % 64) == [b0, b1, b2]
  {
    assert (b0 % 4 * 16 + b1 / 16) / 16 == b0 % 4 && (b0 % 4 * 16 + b1 / 16) % 16 == b1 / 16;
    assert (b1 % 16 * 4 + b2 / 64) / 4 == b1 % 16 && (b1 % 16 * 4 + b2 / 64) % 4 == b2 / 64;
  }

  lemma OneByte(b0: Byte)
    ensures DecodeGroups(Letters(b0, 0, 0)[..2] + "==") == Some([b0])
  {
    GroupSextets(b0, 0, 0);
    BytesOfLetters(b0, 0, 0);
    var s := Letters(b0, 0, 0)[..2] + "==";
    assert s[2] == '=' && s[3] == '=';
    assert Bytes(b0 / 4, b0 % 4 * 16, 0, 0)[..1] == [b0];
  }

  lemma TwoBytes(b0: Byte, b1: Byte)
    ensures DecodeGroups(Letters(b0, b1, 0)[..3] + "=") == Some([b0, b1])
  {
    GroupSextets(b0, b1, 0);
    BytesOfLetters(b0, b1, 0);
    var s := Letters(b0, b1, 0)[..3] + "=";
    assert s[3] == '=';
    assert Bytes(b0 / 4, b0 % 4 * 16 + b1 / 16, b1 % 16 * 4, 0)[..2] == [b0, b1];
  }

  lemma ThreeBytes(b0: Byte, b1: Byte, b2: Byte, rest: string)
    ensures DecodeGroups(Letters(b0, b1, b2) + rest) ==
      match DecodeGroups(rest) case Some(bs) => Some([b0, b1, b2] + bs) case None => None
  {
    GroupSextets(b0, b1, b2);
    BytesOfLetters(b0, b1, b2);
    var s := Letters(b0, b1, b2) + rest;
    assert s[4..] == rest;
    forall i | 0 <= i < 4 ensures s[i] == Letters(b0, b1, b2)[i] {}
  }

  lemma {:induction false} GroupsRoundTrip(bs: seq<Byte>)
    ensures DecodeGroups(EncodeBase64(bs)) == Some(bs)
    decreases |bs|
  {
    if |bs| <= 2 {
      LastGroup(bs);
    } else {
      GroupsRoundTrip(bs[3..]);
      FullGroup(bs[0], bs[1], bs[2], bs[3..]);
      assert bs == [bs[0], bs[1], bs[2]] + bs[3..];
    }
  }

  lemma LastGroup(bs: seq<Byte>)
    requires |bs| <= 2
    ensures DecodeGroups(EncodeBase64(bs)) == Some(bs)
  {
    if |bs| == 1 {
      EncodeShort(bs);
      OneByte(bs[0]);
      assert bs == [bs[0]];
    } else if |bs| == 2 {
      EncodeShort(bs);
      TwoBytes(bs[0], bs[1]);
      assert bs == [bs[0], bs[1]];
    }
  }

  lemma EncodeShort(bs: seq<Byte>)
    ensures |bs| == 1 ==> EncodeBase64(bs) == Letters(bs[0], 0, 0)[..2] + "=="
    ensures |bs| == 2 ==> EncodeBase64(bs) == Letters(bs[0], bs[1], 0)[..3] + "="
  {
  }

  lemma FullGroup(b0: Byte, b1: Byte, b2: Byte, rest: seq<Byte>)
    requires DecodeGroups(EncodeBase64(rest)) == Some(rest)
    ensures DecodeGroups(EncodeBase64([b0, b1, b2] + rest)) == Some([b0, b1, b2] + rest)
  {
    assert ([b0, b1, b2] + rest)[3..] == rest;
    assert EncodeBase64([b0, b1, b2] + rest) == Letters(b0, b1, b2) + EncodeBase64(rest);
    ThreeBytes(b0, b1, b2, EncodeBase64(rest));
  }

  lemma {:induction false} NoLineBreaks(bs: seq<Byte>)
    ensures forall i :: 0 <= i < |EncodeBase64(bs)| ==>
      EncodeBase64(bs)[i] != '\r' && EncodeBase64(bs)[i] != '\n'
    decreases |bs|
  {
    if |bs| == 1 {
      GroupSextets(bs[0], 0, 0);
    } else if |bs| == 2 {
      GroupSextets(bs[0], bs[1], 0);
    } else if |bs| > 2 {
      GroupSextets(bs[0], bs[1], bs[2]);
      NoLineBreaks(bs[3..]);
    }
  }

  lemma {:induction false} NothingToStrip(s: string)
    requires forall i :: 0 <= i < |s| ==> s[i] != '\r' && s[i] != '\n'
    ensures WithoutLineBreaks(s) == s
    decreases |s|
  {
    if s != "" { NothingToStrip(s[1..]); }
  }

  lemma Base64RoundTrip(bs: seq<Byte>)
    ensures DecodeBase64(EncodeBase64(bs)) == Some(bs)
  {
    NoLineBreaks(bs);
    NothingToStrip(EncodeBase64(bs));
    GroupsRoundTrip(bs);
  }

  // ---- Cursors ----

  function ToBytes(s: string): seq<Byte>
    requires forall i :: 0 <= i < |s| ==> s[i] < 256 as char
  {
    seq(|s|, i requires 0 <= i < |s| => s[i] as int)
  }

  function FromBytes(bs: seq<Byte>): string {
    seq(|bs|, i requires 0 <= i < |bs| => bs[i] as char)
  }

  /** `strings.Split(s, ":")`. */
  function SplitColon(s: string): (parts: seq<string>)
    ensures parts != []
  {
    if s == "" then [""]
    else
      var rest := SplitColon(s[1..]);
      if s[0] == ':' then [""] + rest else [[s[0]] + rest[0]] + rest[1..]
  }

  lemma {:induction false} SplitPlain(s: string)
    requires ':' !in s
    ensures SplitColon(s) == [s]
    decreases |s|
  {
    if s != "" {
      SplitPlain(s[1..]);
      assert [s[0]] + s[1..] == s;
    }
  }

  lemma {:induction false} SplitPair(a: string, b: string)
    requires ':' !in a && ':' !in b
    ensures SplitColon(a + ":" + b) == [a, b]
    decreases |a|
  {
    if a == "" {
      assert (a + ":" + b)[1..] == b;
      SplitPlain(b);
    } else {
      assert (a + ":" + b)[1..] == a[1..] + ":" + b;
      SplitPair(a[1..], b);
      assert [a[0]] + a[1..] == a;
    }
  }

  function EncodeCursor(c: Cursor): string {
    IntRoundTrip(c.lastTimestamp);
    IntRoundTrip(c.lastID);
    EncodeBase64(ToBytes(PrintInt(c.lastTimestamp) + ":" + PrintInt(c.lastID)))
  }

  function DecodeCursor(encoded: string): Result<Option<Cursor>, CursorError> {
    if encoded == "" then Ok(None)
    else
      match DecodeBase64(encoded)
      case None => Err(InvalidEncoding)
      case Some(bs) =>
        var parts := SplitColon(FromBytes(bs));
        if |parts| != 2 then Err(InvalidFormat)
        else
          match (ParseInt64(parts[0]), ParseInt64(parts[1]))
          case (Some(ts), Some(id)) => Ok(Some(Cursor(id, ts)))
          case _ => Err(InvalidNumber)
  }

  /** Every cursor survives the round trip through its string, which is never the empty string that
      stands for "from the beginning"; so different cursors have different strings. */
  lemma CursorRoundTrip(c: Cursor)
    ensures EncodeCursor(c) != "" && DecodeCursor(EncodeCursor(c)) == Ok(Some(c))
  {
    IntRoundTrip(c.lastTimestamp);
    IntRoundTrip(c.lastID);
    var ts, id := PrintInt(c.lastTimestamp), PrintInt(c.lastID);
    var raw := ts + ":" + id;
    Base64RoundTrip(ToBytes(raw));
    assert FromBytes(ToBytes(raw)) == raw;
    SplitPair(ts, id);
  }

  lemma EncodeIsInjective(c: Cursor, d: Cursor)
    requires EncodeCursor(c) == EncodeCursor(d)
    ensures c == d
  {
    CursorRoundTrip(c);
    CursorRoundTrip(d);
  }
}

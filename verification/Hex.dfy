/** Hexadecimal text as HexConverter reads and writes it (src/sdk/main/src/impl/HexConverter.cc). */
module Hex {
  import opened Wrappers

  type byte = x: int | 0 <= x < 256

  function DigitChar(d: nat): char
    requires d < 16
  {
    if d < 10 then ('0' as int + d) as char else ('A' as int + d - 10) as char
  }

  /** Either case is read. */
  function DigitValue(c: char): Option<nat> {
    if '0' <= c <= '9' then Some(c as nat - '0' as nat)
    else if 'A' <= c <= 'F' then Some(c as nat - 'A' as nat + 10)
    else if 'a' <= c <= 'f' then Some(c as nat - 'a' as nat + 10)
    else None
  }

  function ByteToHex(b: byte): (text: string)
    ensures |text| == 2
  {
    [DigitChar(b / 16), DigitChar(b % 16)]
  }

  function HexToByte(high: char, low: char): Option<byte> {
    var h, l := DigitValue(high), DigitValue(low);
    if h.None? || l.None? then None
    else
      assert h.value < 16 && l.value < 16;
      Some(16 * h.value + l.value)
  }

  function BytesToHex(bytes: seq<byte>): string {
    if bytes == [] then "" else ByteToHex(bytes[0]) + BytesToHex(bytes[1..])
  }

  /** An odd number of digits or any character that is not a digit is an error. */
  function HexToBytes(text: string): Option<seq<byte>> {
    if text == "" then Some([])
    else if |text| == 1 then None
    else
      var first, rest := HexToByte(text[0], text[1]), HexToBytes(text[2..]);
      if first.None? || rest.None? then None else Some([first.value] + rest.value)
  }

  lemma ByteRoundTrip(b: byte)
    ensures HexToByte(ByteToHex(b)[0], ByteToHex(b)[1]) == Some(b)
  {
    assert DigitValue(DigitChar(b / 16)) == Some(b / 16);
    assert DigitValue(DigitChar(b % 16)) == Some(b % 16);
  }

  lemma {:induction false} HexRoundTrip(bytes: seq<byte>)
    ensures HexToBytes(BytesToHex(bytes)) == Some(bytes)
  {
    if bytes != [] {
      var text := BytesToHex(bytes);
      ByteRoundTrip(bytes[0]);
      HexRoundTrip(bytes[1..]);
      assert text[0] == ByteToHex(bytes[0])[0] && text[1] == ByteToHex(bytes[0])[1];
      assert text[2..] == BytesToHex(bytes[1..]);
      assert [bytes[0]] + bytes[1..] == bytes;
    }
  }

  lemma {:induction false} HexConcat(a: seq<byte>, b: seq<byte>)
    ensures BytesToHex(a + b) == BytesToHex(a) + BytesToHex(b)
  {
    if a == [] {
      assert a + b == b;
    } else {
      assert (a + b)[1..] == a[1..] + b;
      HexConcat(a[1..], b);
    }
  }

  lemma {:induction false} HexLength(bytes: seq<byte>)
    ensures |BytesToHex(bytes)| == 2 * |bytes|
  {
    if bytes != [] {
      HexLength(bytes[1..]);
    }
  }

  /** The text of four bytes, spelled out. */
  lemma HexOfFour(b0: byte, b1: byte, b2: byte, b3: byte)
    ensures BytesToHex([b0, b1, b2, b3]) == ByteToHex(b0) + ByteToHex(b1) + (ByteToHex(b2) + ByteToHex(b3))
  {
    HexOfTwo(b0, b1);
    HexOfTwo(b2, b3);
    HexConcat([b0, b1], [b2, b3]);
    assert [b0, b1] + [b2, b3] == [b0, b1, b2, b3];
  }

  lemma HexOfTwo(b0: byte, b1: byte)
    ensures BytesToHex([b0, b1]) == ByteToHex(b0) + ByteToHex(b1)
  {
    assert [b0, b1][1..] == [b1] && [b1][1..] == [];
    assert BytesToHex([b1]) == ByteToHex(b1) + BytesToHex([]);
  }

  lemma ByteToHexInjective(a: byte, b: byte)
    requires ByteToHex(a) == ByteToHex(b)
    ensures a == b
  {
    ByteRoundTrip(a);
    ByteRoundTrip(b);
  }

  // Which texts are read.

  predicate IsDigit(c: char) {
    '0' <= c <= '9' || 'A' <= c <= 'F' || 'a' <= c <= 'f'
  }

  predicate IsHexText(text: string) {
    |text| % 2 == 0 && forall c | c in text :: IsDigit(c)
  }

  function UpperDigit(c: char): char {
    if 'a' <= c <= 'f' then (c as int - 'a' as int + 'A' as int) as char else c
  }

  function Upper(text: string): (upper: string)
    ensures |upper| == |text|
    ensures forall i | 0 <= i < |text| :: upper[i] == UpperDigit(text[i])
  {
    seq(|text|, i requires 0 <= i < |text| => UpperDigit(text[i]))
  }

  lemma PairExactly(high: char, low: char)
    ensures HexToByte(high, low).Some? <==> IsDigit(high) && IsDigit(low)
    ensures HexToByte(high, low).Some? ==> ByteToHex(HexToByte(high, low).value) == [UpperDigit(high), UpperDigit(low)]
  {
  }

  lemma HexTextTail(text: string)
    requires |text| >= 2
    ensures IsHexText(text) <==> IsDigit(text[0]) && IsDigit(text[1]) && IsHexText(text[2..])
    ensures Upper(text) == [UpperDigit(text[0]), UpperDigit(text[1])] + Upper(text[2..])
  {
    assert text == [text[0], text[1]] + text[2..];
    assert forall c :: c in text <==> c == text[0] || c == text[1] || c in text[2..];
  }

  /** A text is read exactly if it is an even number of digits of either case; the bytes are those of its upper case. */
  lemma {:induction false} HexExactly(text: string)
    ensures HexToBytes(text).Some? <==> IsHexText(text)
    ensures HexToBytes(text).Some? ==> BytesToHex(HexToBytes(text).value) == Upper(text)
  {
    if |text| >= 2 {
      HexExactly(text[2..]);
      HexTextTail(text);
      PairExactly(text[0], text[1]);
      if HexToBytes(text).Some? {
        var first, rest := HexToByte(text[0], text[1]).value, HexToBytes(text[2..]).value;
        assert HexToBytes(text).value == [first] + rest && ([first] + rest)[1..] == rest;
        assert BytesToHex([first] + rest) == ByteToHex(first) + BytesToHex(rest);
      }
    } else if |text| == 1 {
      assert !IsHexText(text);
    }
  }

  /** Texts that differ in the case of their digits are read alike. */
  lemma SameInUpper(text: string, bytes: seq<byte>)
    requires Upper(text) == BytesToHex(bytes)
    ensures HexToBytes(text) == Some(bytes)
  {
    HexLength(bytes);
    HexDigits(bytes);
    forall i | 0 <= i < |text|
      ensures IsDigit(text[i])
    {
      assert IsUpperDigit(Upper(text)[i]);
    }
    HexExactly(text);
    HexRoundTrip(HexToBytes(text).value);
    HexRoundTrip(bytes);
  }

  predicate IsUpperDigit(c: char) {
    '0' <= c <= '9' || 'A' <= c <= 'F'
  }

  lemma {:induction false} HexDigits(bytes: seq<byte>)
    ensures forall i | 0 <= i < |BytesToHex(bytes)| :: IsUpperDigit(BytesToHex(bytes)[i])
  {
    if bytes != [] {
      HexDigits(bytes[1..]);
      assert BytesToHex(bytes) == ByteToHex(bytes[0]) + BytesToHex(bytes[1..]);
      assert IsUpperDigit(DigitChar(bytes[0] / 16)) && IsUpperDigit(DigitChar(bytes[0] % 16));
    }
  }
}

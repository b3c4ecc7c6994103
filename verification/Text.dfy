/** UTF-8 text, its safe truncation, and its size once escaped into JSON. */
module Texts {
  import opened Wrappers

  type Byte = n: nat | n < 256

  /** One Unicode scalar value in UTF-8 (section 3 of RFC 3629). */
  function EncodeChar(c: char): seq<Byte> {
    var n := c as int;
    if n < 0x80 then [n]
    else if n < 0x800 then [0xC0 + n / 64, 0x80 + n % 64]
    else if n < 0x1_0000 then [0xE0 + n / 4096, 0x80 + n / 64 % 64, 0x80 + n % 64]
    else [0xF0 + n / 26_2144, 0x80 + n / 4096 % 64, 0x80 + n / 64 % 64, 0x80 + n % 64]
  }

  function Utf8(text: string): seq<Byte> {
    if text == [] then [] else Utf8(text[..|text| - 1]) + EncodeChar(text[|text| - 1])
  }

  /** The scalar value the bytes of one character carry, by how many they are. */
  function DecodeChar(bytes: seq<Byte>): int
    requires 1 <= |bytes| <= 4
  {
    var b: seq<int> := bytes;
    if |b| == 1 then b[0]
    else if |b| == 2 then (b[0] - 0xC0) * 64 + (b[1] - 0x80)
    else if |b| == 3 then (b[0] - 0xE0) * 4096 + (b[1] - 0x80) * 64 + (b[2] - 0x80)
    else (b[0] - 0xF0) * 26_2144 + (b[1] - 0x80) * 4096 + (b[2] - 0x80) * 64 + (b[3] - 0x80)
  }

  lemma SixBits(n: nat)
    ensures n == n / 64 * 64 + n % 64
    ensures n / 64 == n / 4096 * 64 + n / 64 % 64
    ensures n / 4096 == n / 26_2144 * 64 + n / 4096 % 64
  {
  }

  /** A character's bytes carry its scalar value, so no other character has them. */
  lemma CharRoundTrip(c: char)
    ensures DecodeChar(EncodeChar(c)) == c as int
  {
    SixBits(c as int);
  }

  predicate Continuation(b: Byte) {
    0x80 <= b < 0xC0
  }

  /** str::is_char_boundary. */
  predicate IsBoundary(bytes: seq<Byte>, index: nat) {
    index == 0 || index == |bytes| || (index < |bytes| && !Continuation(bytes[index]))
  }

  const MAX_ECHOED_BYTES: nat := 120

  /** The last boundary at or below an index, searched downwards. */
  function FindCut(bytes: seq<Byte>, index: nat): (cut: nat)
    ensures cut <= index && IsBoundary(bytes, cut)
    ensures forall k :: cut < k <= index ==> !IsBoundary(bytes, k)
  {
    if IsBoundary(bytes, index) then index else FindCut(bytes, index - 1)
  }

  const ELLIPSIS: string := "..."

  /** Client-supplied text as it is quoted back. */
  function Echoed(text: string): seq<Byte> {
    var bytes := Utf8(text);
    if |bytes| <= MAX_ECHOED_BYTES then bytes
    else bytes[..FindCut(bytes, MAX_ECHOED_BYTES)] + Utf8(ELLIPSIS)
  }

  // ----- truncation keeps characters whole -------------------------------------

  /** The first byte of a character starts it, the others continue it, and there are at most four. */
  lemma CharShape(c: char)
    ensures 1 <= |EncodeChar(c)| <= 4
    ensures !Continuation(EncodeChar(c)[0])
    ensures forall k :: 1 <= k < |EncodeChar(c)| ==> Continuation(EncodeChar(c)[k])
  {
  }

  /** The character a byte belongs to. */
  lemma {:induction false} CharAt(text: string, index: nat) returns (k: nat)
    requires index < |Utf8(text)|
    ensures k < |text|
    ensures |Utf8(text[..k])| <= index < |Utf8(text[..k])| + |EncodeChar(text[k])|
    ensures Utf8(text[..k]) + EncodeChar(text[k]) <= Utf8(text)
  {
    var init := text[..|text| - 1];
    if index < |Utf8(init)| {
      k := CharAt(init, index);
      assert init[..k] == text[..k];
    } else {
      k := |text| - 1;
    }
  }

  /** Searching down from inside a character stops at its first byte. */
  lemma {:induction false} CutLandsOnChar(text: string, index: nat, k: nat)
    requires k < |text| && index < |Utf8(text)|
    requires Utf8(text[..k]) + EncodeChar(text[k]) <= Utf8(text)
    requires |Utf8(text[..k])| <= index < |Utf8(text[..k])| + |EncodeChar(text[k])|
    ensures FindCut(Utf8(text), index) == |Utf8(text[..k])|
    decreases index
  {
    var start, bytes := |Utf8(text[..k])|, Utf8(text);
    CharShape(text[k]);
    assert bytes[index] == (Utf8(text[..k]) + EncodeChar(text[k]))[index];
    if index > start {
      assert Continuation(bytes[index]);
      CutLandsOnChar(text, index - 1, k);
    }
  }

  /**
    Text over the limit is cut to a whole number of characters: the longest
    prefix that fits, 117 to 120 bytes of valid UTF-8, followed by an ellipsis.
   */
  lemma EchoedKeepsCharacters(text: string) returns (k: nat)
    requires |Utf8(text)| > MAX_ECHOED_BYTES
    ensures k < |text|
    ensures Echoed(text) == Utf8(text[..k]) + Utf8(ELLIPSIS)
    ensures MAX_ECHOED_BYTES - 3 <= |Utf8(text[..k])| <= MAX_ECHOED_BYTES < |Utf8(text[..k + 1])|
  {
    k := CharAt(text, MAX_ECHOED_BYTES);
    CutLandsOnChar(text, MAX_ECHOED_BYTES, k);
    OneMoreChar(text, k);
    var bytes := Utf8(text);
    assert bytes[..|Utf8(text[..k])|] == Utf8(text[..k]);
  }

  lemma OneMoreChar(text: string, k: nat)
    requires k < |text|
    ensures Utf8(text[..k + 1]) == Utf8(text[..k]) + EncodeChar(text[k])
    ensures 1 <= |EncodeChar(text[k])| <= 4
  {
    CharShape(text[k]);
    assert text[..k + 1][..k] == text[..k];
  }

  /** A character takes one to four bytes. */
  lemma {:induction false} Utf8Size(text: string)
    ensures |text| <= |Utf8(text)| <= 4 * |text|
  {
    if text != [] {
      Utf8Size(text[..|text| - 1]);
      CharShape(text[|text| - 1]);
    }
  }

  lemma EllipsisSize()
    ensures |Utf8(ELLIPSIS)| == 3
  {
    var one, two := ELLIPSIS[..1], ELLIPSIS[..2];
    assert ELLIPSIS[..0] == [] && one[..0] == [] && two[..1] == one;
    assert Utf8(one) == Utf8([]) + EncodeChar('.');
    assert Utf8(two) == Utf8(one) + EncodeChar('.');
  }

  lemma EchoedSize(text: string)
    ensures |Echoed(text)| <= MAX_ECHOED_BYTES + 3
  {
    if |Utf8(text)| > MAX_ECHOED_BYTES {
      EllipsisSize();
      var k := EchoedKeepsCharacters(text);
    }
  }

  // ----- JSON escaping ----------------------------------------------------------

  function HexDigit(n: nat): Byte
    requires n < 16
  {
    if n < 10 then 48 + n else 87 + n
  }

  /** A byte of a JSON string (section 7 of RFC 8259). */
  function EscapeByte(b: Byte): seq<Byte> {
    if b == 34 then [92, 34]
    else if b == 92 then [92, 92]
    else if b == 8 then [92, 98]
    else if b == 9 then [92, 116]
    else if b == 10 then [92, 110]
    else if b == 12 then [92, 102]
    else if b == 13 then [92, 114]
    else if b < 32 then [92, 117, 48, 48, HexDigit(b / 16), HexDigit(b % 16)]
    else [b]
  }

  function Escape(bytes: seq<Byte>): seq<Byte> {
    if bytes == [] then [] else Escape(bytes[..|bytes| - 1]) + EscapeByte(bytes[|bytes| - 1])
  }

  lemma {:induction false} EscapeSize(bytes: seq<Byte>)
    ensures |bytes| <= |Escape(bytes)| <= 6 * |bytes|
  {
    if bytes != [] {
      EscapeSize(bytes[..|bytes| - 1]);
    }
  }

  /** The value of a hexadecimal digit. */
  function HexValue(b: Byte): Option<nat> {
    if 48 <= b < 58 then Some(b - 48) else if 97 <= b < 103 then Some(b - 87) else None
  }

  /** What a two-byte escape stands for. */
  function Unescaped(b: Byte): Option<Byte> {
    if b == 34 || b == 92 || b == 47 then Some(b)
    else if b == 98 then Some(8)
    else if b == 116 then Some(9)
    else if b == 110 then Some(10)
    else if b == 102 then Some(12)
    else if b == 114 then Some(13)
    else None
  }

  /** The first byte a JSON string stands for and what is left of it; none if it is not one. */
  function ReadByte(bytes: seq<Byte>): Option<(Byte, seq<Byte>)> {
    if bytes == [] || bytes[0] == 34 || bytes[0] < 32 then None
    else if bytes[0] != 92 then Some((bytes[0], bytes[1..]))
    else if |bytes| < 2 then None
    else if bytes[1] == 117 then
      if |bytes| >= 6 && bytes[2] == 48 && bytes[3] == 48 && HexValue(bytes[4]).Some? && HexValue(bytes[5]).Some?
      then Some((HexValue(bytes[4]).value * 16 + HexValue(bytes[5]).value, bytes[6..]))
      else None
    else if Unescaped(bytes[1]).Some? then Some((Unescaped(bytes[1]).value, bytes[2..]))
    else None
  }

  /** A JSON string up to its closing quote, and what follows; a bare control byte is an error. */
  function ReadString(bytes: seq<Byte>): Option<(seq<Byte>, seq<Byte>)>
    decreases |bytes|
  {
    if bytes != [] && bytes[0] == 34 then Some(([], bytes[1..]))
    else
      match ReadByte(bytes)
      case None => None
      case Some((b, rest)) =>
        if |rest| >= |bytes| then None
        else
          match ReadString(rest)
          case None => None
          case Some((text, after)) => Some(([b] + text, after))
  }

  lemma ReadsOn(bytes: seq<Byte>, b: Byte, rest: seq<Byte>, text: seq<Byte>, after: seq<Byte>)
    requires bytes != [] && bytes[0] != 34 && ReadByte(bytes) == Some((b, rest)) && |rest| < |bytes|
    requires ReadString(rest) == Some((text, after))
    ensures ReadString(bytes) == Some(([b] + text, after))
  {
  }

  lemma EscapedByteReads(b: Byte, rest: seq<Byte>)
    ensures ReadByte(EscapeByte(b) + rest) == Some((b, rest))
    ensures EscapeByte(b)[0] != 34 && |EscapeByte(b)| > 0
  {
    assert (EscapeByte(b) + rest)[|EscapeByte(b)|..] == rest;
    assert forall k :: 0 <= k < |EscapeByte(b)| ==> (EscapeByte(b) + rest)[k] == EscapeByte(b)[k];
  }

  lemma {:induction false} EscapeFront(bytes: seq<Byte>)
    requires bytes != []
    ensures Escape(bytes) == EscapeByte(bytes[0]) + Escape(bytes[1..])
  {
    var n := |bytes| - 1;
    if n > 0 {
      EscapeFront(bytes[..n]);
      assert bytes[..n][1..] == bytes[1..][..n - 1];
      assert Escape(bytes[1..]) == Escape(bytes[1..][..n - 1]) + EscapeByte(bytes[n]);
    } else {
      assert bytes == [bytes[0]] && bytes[..0] == [] && bytes[1..] == [];
    }
  }

  lemma EscapedByteReadsOn(b: Byte, rest: seq<Byte>, text: seq<Byte>, after: seq<Byte>)
    requires ReadString(rest) == Some((text, after))
    ensures ReadString(EscapeByte(b) + rest) == Some(([b] + text, after))
  {
    EscapedByteReads(b, rest);
    assert (EscapeByte(b) + rest)[0] == EscapeByte(b)[0];
    ReadsOn(EscapeByte(b) + rest, b, rest, text, after);
  }

  /** A string as it stands in a body: escaped, its closing quote, and what follows. */
  function Quoted(bytes: seq<Byte>, after: seq<Byte>): seq<Byte> {
    Escape(bytes) + [34] + after
  }

  lemma QuotedFront(bytes: seq<Byte>, after: seq<Byte>)
    ensures bytes == [] ==> Quoted(bytes, after) == [34] + after
    ensures bytes != [] ==> Quoted(bytes, after) == EscapeByte(bytes[0]) + Quoted(bytes[1..], after)
    ensures bytes != [] ==> [bytes[0]] + bytes[1..] == bytes
  {
    if bytes != [] {
      EscapeFront(bytes);
    }
  }

  /**
    Escaped text is read back whole, up to the very quote that closes it: no quote,
    backslash or control byte is left bare.
   */
  lemma {:induction false} EscapeRoundTrip(bytes: seq<Byte>, after: seq<Byte>)
    ensures ReadString(Quoted(bytes, after)) == Some((bytes, after))
    decreases |bytes|
  {
    QuotedFront(bytes, after);
    if bytes == [] {
      ClosingQuote(after);
    } else {
      EscapeRoundTrip(bytes[1..], after);
      EscapedByteReadsOn(bytes[0], Quoted(bytes[1..], after), bytes[1..], after);
    }
  }

  lemma ClosingQuote(after: seq<Byte>)
    ensures ReadString([34] + after) == Some(([], after))
  {
  }

  /** A decimal numeral. */
  function Decimal(n: nat): string {
    var digit := ['0', '1', '2', '3', '4', '5', '6', '7', '8', '9'][n % 10];
    if n < 10 then [digit] else Decimal(n / 10) + [digit]
  }

  /** What a decimal numeral stands for. */
  function Numeral(text: string): nat {
    if text == [] then 0
    else
      var last := text[|text| - 1];
      10 * Numeral(text[..|text| - 1]) + (if '0' <= last <= '9' then last as int - '0' as int else 0)
  }

  /** The numeral of a number stands for it, in digits and without a leading zero. */
  lemma {:induction false} DecimalRoundTrip(n: nat)
    ensures Numeral(Decimal(n)) == n && Decimal(n) != []
    ensures forall k :: 0 <= k < |Decimal(n)| ==> '0' <= Decimal(n)[k] <= '9'
    ensures n > 0 ==> Decimal(n)[0] != '0'
  {
    if n >= 10 {
      DecimalRoundTrip(n / 10);
      var init := Decimal(n / 10);
      assert Decimal(n)[..|Decimal(n)| - 1] == init;
      assert n == 10 * (n / 10) + n % 10;
    } else {
      assert Decimal(n)[..0] == [];
    }
  }

  lemma {:induction false} DecimalSize(n: nat, digits: nat)
    requires 0 < digits && n < Tens(digits)
    ensures |Decimal(n)| <= digits
  {
    if n >= 10 {
      DecimalSize(n / 10, digits - 1);
    }
  }

  function Tens(digits: nat): nat {
    if digits == 0 then 1 else 10 * Tens(digits - 1)
  }
}

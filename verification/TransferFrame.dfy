/** The ZTF1 binary frame: a 4-byte magic, the 16 raw bytes of the transfer id, a big-endian 64-bit
    sequence number and the payload. `Encode` fills a buffer; `Parse` takes a received frame apart. */
module TransferFrame {
  import opened Common

  const MAGIC: Bytes := [0x5A, 0x54, 0x46, 0x31]  // "ZTF1"
  const ID_BYTES: nat := 16
  const HEADER: nat := 28

  // ----- Hexadecimal text

  function HexValue(c: char): (v: nat)
    requires HexChar(c)
    ensures v < 16
  {
    if c <= '9' then c as int - '0' as int
    else if c <= 'F' then c as int - 'A' as int + 10
    else c as int - 'a' as int + 10
  }

  function HexDigit(v: nat): (c: char)
    requires v < 16
    ensures HexChar(c) && HexValue(c) == v
  {
    if v < 10 then ('0' as int + v) as char else ('a' as int + (v - 10)) as char
  }

  lemma DigitsInOrder(v: nat)
    requires v < 16
    ensures HexDigit(v) == "0123456789abcdef"[v]
  {
  }

  /** Hexadecimal text of whole bytes, in either case. */
  predicate HexText(s: string) {
    |s| % 2 == 0 && forall i :: 0 <= i < |s| ==> HexChar(s[i])
  }

  function LowerHex(c: char): char {
    if 'A' <= c <= 'F' then (c as int - 'A' as int + 'a' as int) as char else c
  }

  function LowerText(s: string): (r: string)
    ensures |r| == |s|
  {
    seq(|s|, i requires 0 <= i < |s| => LowerHex(s[i]))
  }

  function DecodeHex(s: string): (r: Option<Bytes>)
    ensures r.Some? <==> HexText(s)
    ensures r.Some? ==> |r.value| * 2 == |s|
  {
    if HexText(s) then
      Some(seq(|s| / 2, i requires 0 <= i < |s| / 2 => HexValue(s[2 * i]) * 16 + HexValue(s[2 * i + 1])))
    else None
  }

  function EncodeHex(raw: Bytes): (s: string)
    ensures |s| == 2 * |raw| && HexText(s)
  {
    seq(2 * |raw|, i requires 0 <= i < 2 * |raw| =>
      if i % 2 == 0 then HexDigit(raw[i / 2] / 16) else HexDigit(raw[i / 2] % 16))
  }

  lemma HexOfByte(hi: nat, lo: nat)
    requires hi < 16 && lo < 16
    ensures (hi * 16 + lo) / 16 == hi && (hi * 16 + lo) % 16 == lo && hi * 16 + lo < 256
  {
  }

  lemma DigitOfValue(c: char)
    requires HexChar(c)
    ensures HexDigit(HexValue(c)) == LowerHex(c)
  {
  }

  /** Encoding decoded text lower-cases it. */
  lemma HexTextRoundTrip(s: string)
    requires HexText(s)
    ensures EncodeHex(DecodeHex(s).value) == LowerText(s)
  {
    var raw := DecodeHex(s).value;
    var t := EncodeHex(raw);
    forall i | 0 <= i < |s| ensures t[i] == LowerText(s)[i] {
      var k := i / 2;
      HexOfByte(HexValue(s[2 * k]), HexValue(s[2 * k + 1]));
      DigitOfValue(s[2 * k]);
      DigitOfValue(s[2 * k + 1]);
      assert i == 2 * k || i == 2 * k + 1;
    }
    assert t == LowerText(s);
  }

  /** Decoding encoded bytes gives them back. */
  lemma HexBytesRoundTrip(raw: Bytes)
    ensures DecodeHex(EncodeHex(raw)) == Some(raw)
  {
    var s := EncodeHex(raw);
    var back := DecodeHex(s).value;
    forall k | 0 <= k < |raw| ensures back[k] == raw[k] {
      assert s[2 * k] == HexDigit(raw[k] / 16);
      assert s[2 * k + 1] == HexDigit(raw[k] % 16);
    }
    assert back == raw;
  }

  // ----- Big-endian words

  /** The number whose big-endian bytes are `b`. */
  function BigEndian(b: Bytes): nat {
    if b == [] then 0 else BigEndian(b[..|b| - 1]) * 0x100 + b[|b| - 1]
  }

  /** The `n` big-endian bytes of `v`. */
  function BytesOf(v: nat, n: nat): (b: Bytes)
    ensures |b| == n
  {
    if n == 0 then [] else BytesOf(v / 0x100, n - 1) + [v % 0x100]
  }

  function Pow256(n: nat): (p: nat)
    ensures p > 0
  {
    if n == 0 then 1 else 0x100 * Pow256(n - 1)
  }

  lemma {:induction false} BigEndianOfBytes(v: nat, n: nat)
    requires v < Pow256(n)
    ensures BigEndian(BytesOf(v, n)) == v
  {
    if n > 0 {
      BigEndianOfBytes(v / 0x100, n - 1);
      assert BytesOf(v, n)[..n - 1] == BytesOf(v / 0x100, n - 1);
    }
  }

  lemma {:induction false} BytesOfBigEndian(b: Bytes)
    ensures BytesOf(BigEndian(b), |b|) == b && BigEndian(b) < Pow256(|b|)
  {
    if b != [] {
      BytesOfBigEndian(b[..|b| - 1]);
      assert b == b[..|b| - 1] + [b[|b| - 1]];
    }
  }

  lemma Quotient(v: nat, d: nat, a: nat, c: nat)
    requires v == d * a + c && c < d
    ensures v / d == a && v % d == c
  {
    assert d * (a - v / d) == v % d - c;
    NoMultiple(d, a - v / d);
  }

  lemma NoMultiple(d: int, x: int)
    requires -d < d * x < d
    ensures x == 0
  {
    assert x >= 1 ==> d * x >= d;
    assert x <= -1 ==> d * x <= -d;
  }

  lemma DigitApart(v: nat, m: nat)
    requires m > 0
    ensures v / (0x100 * m) == v / 0x100 / m && v % (0x100 * m) == 0x100 * (v / 0x100 % m) + v % 0x100
  {
    var q := v / 0x100;
    assert 0x100 * q == 0x100 * m * (q / m) + 0x100 * (q % m);
    Quotient(v, 0x100 * m, q / m, 0x100 * (q % m) + v % 0x100);
  }

  /** The most significant byte comes first. */
  lemma {:induction false} MostSignificantFirst(v: nat, n: nat)
    requires v < 0x100 * Pow256(n)
    ensures v / Pow256(n) < 0x100 && BytesOf(v, n + 1) == [v / Pow256(n)] + BytesOf(v % Pow256(n), n)
  {
    if n == 0 {
      assert v / 1 == v && v % 1 == 0;
    } else {
      var m, low := Pow256(n - 1), v % Pow256(n);
      DigitApart(v, m);
      assert low / 0x100 == v / 0x100 % m && low % 0x100 == v % 0x100;
      MostSignificantFirst(v / 0x100, n - 1);
      assert BytesOf(low, n) == BytesOf(low / 0x100, n - 1) + [low % 0x100];
    }
  }

  lemma WordIsEightBytes()
    ensures Pow256(8) == WORD
  {
  }

  // ----- Frames

  datatype Frame = Frame(id: string, sequence: nat, payload: Bytes)

  /** The wire form of a chunk. */
  function Wire(rawId: Bytes, sequence: nat, payload: Bytes): Bytes {
    MAGIC + rawId + BytesOf(sequence, 8) + payload
  }

  /** encodeTransferFrame; None when the id is not the hexadecimal text of 16 bytes. */
  method Encode(id: string, sequence: nat, payload: Bytes) returns (frame: Option<array<Byte>>)
    requires sequence < WORD
    ensures frame.Some? <==> HexText(id) && |id| == 2 * ID_BYTES
    ensures frame.Some? ==> fresh(frame.value) && frame.value[..] == Wire(DecodeHex(id).value, sequence, payload)
  {
    var rawId := DecodeHex(id);
    if rawId.None? || |rawId.value| != ID_BYTES { return None; }
    var buffer := new Byte[HEADER + |payload|](_ => 0);
    Copy(buffer, 0, MAGIC);
    assert buffer[..4] == MAGIC;
    Copy(buffer, |MAGIC|, rawId.value);
    assert buffer[..20] == buffer[..4] + buffer[4..20];
    PutUint64(buffer, |MAGIC| + ID_BYTES, sequence);
    assert buffer[..28] == buffer[..20] + buffer[20..28];
    Copy(buffer, HEADER, payload);
    assert buffer[..] == buffer[..28] + buffer[28..28 + |payload|];
    return Some(buffer);
  }

  /** Go's copy into a buffer at an offset. */
  method Copy(buffer: array<Byte>, offset: nat, data: Bytes)
    requires offset + |data| <= buffer.Length
    modifies buffer
    ensures buffer[offset..offset + |data|] == data
    ensures buffer[..offset] == old(buffer[..offset])
    ensures buffer[offset + |data|..] == old(buffer[offset + |data|..])
  {
    for i := 0 to |data|
      invariant buffer[offset..offset + i] == data[..i]
      invariant buffer[..offset] == old(buffer[..offset])
      invariant buffer[offset + |data|..] == old(buffer[offset + |data|..])
    {
      buffer[offset + i] := data[i];
      assert buffer[offset..offset + i + 1] == buffer[offset..offset + i] + [data[i]];
    }
  }

  /** binary.BigEndian.PutUint64: the most significant byte first. */
  method PutUint64(buffer: array<Byte>, offset: nat, value: nat)
    requires offset + 8 <= buffer.Length && value < WORD
    modifies buffer
    ensures buffer[offset..offset + 8] == BytesOf(value, 8)
    ensures buffer[..offset] == old(buffer[..offset])
    ensures buffer[offset + 8..] == old(buffer[offset + 8..])
  {
    var rest := value;
    var k := 8;
    while k > 0
      invariant 0 <= k <= 8
      invariant BytesOf(value, 8) == BytesOf(rest, k) + buffer[offset + k..offset + 8]
      invariant buffer[..offset] == old(buffer[..offset])
      invariant buffer[offset + 8..] == old(buffer[offset + 8..])
    {
      ghost var tail := buffer[offset + k..offset + 8];
      k := k - 1;
      buffer[offset + k] := rest % 0x100;
      assert buffer[offset + k..offset + 8] == [rest % 0x100] + tail;
      assert BytesOf(rest, k + 1) + tail == BytesOf(rest / 0x100, k) + ([rest % 0x100] + tail);
      rest := rest / 0x100;
    }
  }

  /** The parsing half of handleTransferBinary; None for a frame that is too short or has another magic. */
  function Parse(frame: Bytes): (r: Option<Frame>)
    ensures r.Some? <==> |frame| >= HEADER && frame[..4] == MAGIC
  {
    if |frame| < HEADER || frame[..4] != MAGIC then None
    else Some(Frame(EncodeHex(frame[4..20]), BigEndian(frame[20..28]), frame[28..]))
  }

  /** Parsing an encoded frame gives back the id in lower case, the sequence and the payload. */
  lemma ParseOfEncoded(id: string, sequence: nat, payload: Bytes)
    requires HexText(id) && |id| == 2 * ID_BYTES && sequence < WORD
    ensures Parse(Wire(DecodeHex(id).value, sequence, payload)) == Some(Frame(LowerText(id), sequence, payload))
  {
    var raw := DecodeHex(id).value;
    var frame := Wire(raw, sequence, payload);
    assert frame[..4] == MAGIC;
    assert frame[4..20] == raw;
    assert frame[20..28] == BytesOf(sequence, 8);
    assert frame[28..] == payload;
    HexTextRoundTrip(id);
    WordIsEightBytes();
    BigEndianOfBytes(sequence, 8);
  }

  /** Encoding a parsed frame gives back the same bytes, and the id and sequence are always encodable. */
  lemma EncodedOfParse(frame: Bytes)
    requires Parse(frame).Some?
    ensures var f := Parse(frame).value;
            && HexText(f.id) && |f.id| == 2 * ID_BYTES && f.sequence < WORD
            && Wire(DecodeHex(f.id).value, f.sequence, f.payload) == frame
  {
    var raw, word, payload := frame[4..20], frame[20..28], frame[28..];
    assert frame == MAGIC + raw + word + payload;
    HexBytesRoundTrip(raw);
    assert BytesOf(BigEndian(word), 8) == word && BigEndian(word) < WORD by {
      BytesOfBigEndian(word);
      WordIsEightBytes();
    }
  }
}

/** The WebSocket client of `smoke-live-local.py`: framing and reassembly as in sections 5.2 to 5.5 of
    RFC 6455. */
module WebSocketFrames {
  import opened Common
  import opened WireBits

  type Byte = b: int | 0 <= b < 256

  type Bytes = seq<Byte>

  const MAX_BYTES: nat := 8388608

  // ---- numbers and masks on the wire ----

  function Power256(k: nat): (p: nat)
    ensures p >= 1
  {
    if k == 0 then 1 else 256 * Power256(k - 1)
  }

  /** A number as `k` bytes, most significant first. */
  function BigEndian(n: nat, k: nat): (r: Bytes)
    ensures |r| == k
    decreases k
  {
    if k == 0 then [] else BigEndian(n / 256, k - 1) + [n % 256]
  }

  /** Each byte is the digit of its place. */
  lemma {:induction false} BigEndianDigits(n: nat, k: nat, i: nat)
    requires i < k
    ensures BigEndian(n, k)[i] == n / Power256(k - 1 - i) % 256
    decreases k
  {
    if i < k - 1 {
      BigEndianDigits(n / 256, k - 1, i);
      DivideTwice(n, Power256(k - 2 - i));
    }
  }

  function Number(bytes: Bytes): nat {
    if bytes == [] then 0 else 256 * Number(bytes[..|bytes| - 1]) + bytes[|bytes| - 1]
  }

  lemma {:induction false} NumberOfBigEndian(n: nat, k: nat)
    requires n < Power256(k)
    ensures Number(BigEndian(n, k)) == n
    decreases k
  {
    if k > 0 {
      NumberOfBigEndian(n / 256, k - 1);
      var high := BigEndian(n / 256, k - 1);
      assert BigEndian(n, k)[..k - 1] == high;
    }
  }

  lemma {:induction false} BigEndianOfNumber(bytes: Bytes)
    ensures Number(bytes) < Power256(|bytes|) && BigEndian(Number(bytes), |bytes|) == bytes
    decreases |bytes|
  {
    if bytes != [] {
      var high, low := bytes[..|bytes| - 1], bytes[|bytes| - 1];
      BigEndianOfNumber(high);
      Quotient(Number(high), low);
      assert bytes == high + [low];
    }
  }

  lemma Quotient(high: nat, low: Byte)
    ensures (256 * high + low) / 256 == high && (256 * high + low) % 256 == low
  {
  }

  /** Bitwise exclusive or of the lowest `k` bits. */
  function XorBits(a: nat, b: nat, k: nat): (r: nat)
    ensures r < Pow2(k)
    decreases k
  {
    if k == 0 then 0 else 2 * XorBits(a / 2, b / 2, k - 1) + (a % 2 + b % 2) % 2
  }

  lemma Halves(q: nat, r: nat)
    requires r < 2
    ensures (2 * q + r) / 2 == q && (2 * q + r) % 2 == r
  {
  }

  lemma {:induction false} XorBit(a: nat, b: nat, k: nat, j: nat)
    requires j < k
    ensures Bit(XorBits(a, b, k), j) <==> Bit(a, j) != Bit(b, j)
    decreases k
  {
    var high, low := XorBits(a / 2, b / 2, k - 1), (a % 2 + b % 2) % 2;
    Halves(high, low);
    if j > 0 { XorBit(a / 2, b / 2, k - 1, j - 1); }
  }

  lemma {:induction false} XorBitsTwice(a: nat, b: nat, k: nat)
    requires a < Pow2(k)
    ensures XorBits(XorBits(a, b, k), b, k) == a
    decreases k
  {
    if k > 0 {
      XorBitsTwice(a / 2, b / 2, k - 1);
      Halves(XorBits(a / 2, b / 2, k - 1), (a % 2 + b % 2) % 2);
    }
  }

  function Xor(a: Byte, b: Byte): Byte {
    assert Pow2(8) == 256;
    XorBits(a, b, 8)
  }

  lemma XorTwice(a: Byte, b: Byte)
    ensures Xor(Xor(a, b), b) == a
  {
    assert Pow2(8) == 256;
    XorBitsTwice(a, b, 8);
  }

  function Masked(payload: Bytes, mask: Bytes): (r: Bytes)
    requires |mask| == 4
    ensures |r| == |payload|
  {
    seq(|payload|, i requires 0 <= i < |payload| => Xor(payload[i], mask[i % 4]))
  }

  /** A bit of the masked payload differs from that of the payload exactly where the mask byte of its place, modulo
      four, has it set. */
  lemma MaskedBits(payload: Bytes, mask: Bytes, i: nat, j: nat)
    requires |mask| == 4 && i < |payload| && j < 8
    ensures Bit(Masked(payload, mask)[i], j) != Bit(payload[i], j) <==> Bit(mask[i % 4], j)
  {
    assert Pow2(8) == 256;
    XorBit(payload[i], mask[i % 4], 8, j);
  }

  lemma MaskTwice(payload: Bytes, mask: Bytes)
    requires |mask| == 4
    ensures Masked(Masked(payload, mask), mask) == payload
  {
    forall i | 0 <= i < |payload| ensures Masked(Masked(payload, mask), mask)[i] == payload[i] {
      XorTwice(payload[i], mask[i % 4]);
    }
  }

  // ---- frame lengths ----

  /** The three ways to write a payload length, by the extra bytes they use. */
  datatype Form = Short | Medium | Long

  function Extra(form: Form): nat {
    match form
    case Short => 0
    case Medium => 2
    case Long => 8
  }

  predicate CanHold(form: Form, size: nat) {
    match form
    case Short => size < 126
    case Medium => size < 65536
    case Long => size < Power256(8)
  }

  /** The seven-bit field and the extra bytes. */
  function LengthField(form: Form, size: nat): (r: Bytes)
    requires CanHold(form, size)
    ensures |r| == 1 + Extra(form) && r[0] < 128
  {
    match form
    case Short => [size]
    case Medium => [126] + BigEndian(size, 2)
    case Long => [127] + BigEndian(size, 8)
  }

  /** Reading a length field back: its extra bytes and the size, or nothing when bytes are missing. */
  function ReadLength(field: Byte, rest: Bytes): Option<(nat, Bytes)>
    requires field < 128
  {
    if field < 126 then Some((field, rest))
    else
      var k := if field == 126 then 2 else 8;
      if |rest| < k then None else Some((Number(rest[..k]), rest[k..]))
  }

  lemma LengthRoundTrip(form: Form, size: nat, tail: Bytes)
    requires CanHold(form, size)
    ensures var f := LengthField(form, size); ReadLength(f[0], f[1..] + tail) == Some((size, tail))
  {
    var f := LengthField(form, size);
    match form {
      case Short => assert f[1..] + tail == tail;
      case Medium =>
        assert f[1..] == BigEndian(size, 2);
        assert (f[1..] + tail)[..2] == BigEndian(size, 2) && (f[1..] + tail)[2..] == tail;
        assert Power256(2) == 65536;
        NumberOfBigEndian(size, 2);
      case Long =>
        assert f[1..] == BigEndian(size, 8);
        assert (f[1..] + tail)[..8] == BigEndian(size, 8) && (f[1..] + tail)[8..] == tail;
        NumberOfBigEndian(size, 8);
    }
  }

  function FormOf(field: Byte): Form
    requires field < 128
  {
    if field < 126 then Short else if field == 126 then Medium else Long
  }

  /** Whatever length field reads back is one of the three forms of that length. */
  lemma LengthIsEncoded(field: Byte, rest: Bytes)
    requires field < 128 && ReadLength(field, rest).Some?
    ensures var (size, tail) := ReadLength(field, rest).value;
            CanHold(FormOf(field), size) && [field] + rest == LengthField(FormOf(field), size) + tail
  {
    if field >= 126 {
      var k := if field == 126 then 2 else 8;
      BigEndianOfNumber(rest[..k]);
      assert Power256(2) == 65536;
      assert rest == rest[..k] + rest[k..];
    }
  }

  // ---- what the client sends ----

  function ChosenForm(size: nat): Form {
    if size < 126 then Short else if size <= 65535 then Medium else Long
  }

  /** The client always uses the shortest length form that can hold the payload. */
  lemma ChosenFormIsShortest(size: nat, other: Form)
    requires size <= MAX_BYTES && CanHold(other, size)
    ensures CanHold(ChosenForm(size), size) && Extra(ChosenForm(size)) <= Extra(other)
    ensures Extra(ChosenForm(size)) == Extra(other) ==> ChosenForm(size) == other
  {
  }

  /** `send_raw` as it writes the header. */
  function Encode(opcode: nat, mask: Bytes, payload: Bytes): Bytes
    requires opcode < 16 && |mask| == 4 && |payload| <= MAX_BYTES
  {
    var size := |payload|;
    var header: Bytes :=
      if size < 126 then [128 + opcode, 128 + size]
      else if size <= 65535 then [128 + opcode, 254] + BigEndian(size, 2)
      else [128 + opcode, 255] + BigEndian(size, 8);
    header + mask + Masked(payload, mask)
  }

  /** Unmasking as a server does it, bit by bit. */
  function Unmasked(hidden: Bytes, mask: Bytes): (r: Bytes)
    requires |mask| == 4
    ensures |r| == |hidden|
  {
    assert Pow2(8) == 256;
    seq(|hidden|, i requires 0 <= i < |hidden| => BitsApart(hidden[i], mask[i % 4], 8))
  }

  lemma UnmaskByte(a: Byte, b: Byte, c: Byte)
    requires forall j | 0 <= j < 8 :: Bit(c, j) != Bit(a, j) <==> Bit(b, j)
    ensures BitsApart(c, b, 8) == a
  {
    assert Pow2(8) == 256;
    ApartAgain(a, b, c, 8);
    LowIsAll(a, 8);
  }

  lemma UnmaskMasked(payload: Bytes, mask: Bytes)
    requires |mask| == 4
    ensures Unmasked(Masked(payload, mask), mask) == payload
  {
    var hidden := Masked(payload, mask);
    forall i | 0 <= i < |payload| ensures Unmasked(hidden, mask)[i] == payload[i] {
      forall j | 0 <= j < 8 ensures Bit(hidden[i], j) != Bit(payload[i], j) <==> Bit(mask[i % 4], j) {
        MaskedBits(payload, mask, i, j);
      }
      UnmaskByte(payload[i], mask[i % 4], hidden[i]);
    }
  }

  /** The extra bytes of a size: none below 126, two below 65536, and otherwise eight. */
  function SizeBytes(size: nat): nat {
    if size < 126 then 0 else if size < 65536 then 2 else 8
  }

  lemma EncodeSplits(opcode: nat, mask: Bytes, payload: Bytes)
    requires opcode < 16 && |mask| == 4 && |payload| <= MAX_BYTES
    ensures var size, k := |payload|, SizeBytes(|payload|);
            Encode(opcode, mask, payload) ==
            [128 + opcode, 128 + (if k == 0 then size else if k == 2 then 126 else 127)] + BigEndian(size, k) + mask + Masked(payload, mask)
  {
    assert BigEndian(|payload|, 0) == [];
  }

  /** The bytes of a frame as section 5.2 of RFC 6455 lays them out: the final bit and the opcode; the mask bit and the
      size, or 126 and two bytes of it, or 127 and eight, most significant first; the mask. */
  lemma EncodeHeader(opcode: nat, mask: Bytes, payload: Bytes, i: nat)
    requires opcode < 16 && |mask| == 4 && |payload| <= MAX_BYTES
    ensures var size, k, e := |payload|, SizeBytes(|payload|), Encode(opcode, mask, payload);
            && |e| == 6 + k + size && e[0] == 128 + opcode
            && e[1] == 128 + (if k == 0 then size else if k == 2 then 126 else 127)
            && (i < k ==> e[2 + i] == size / Power256(k - 1 - i) % 256)
            && (i < 4 ==> e[2 + k + i] == mask[i])
  {
    EncodeSplits(opcode, mask, payload);
    var size, k := |payload|, SizeBytes(|payload|);
    if i < k { BigEndianDigits(size, k, i); }
  }

  /** And then the payload, each of whose bits is inverted exactly where the mask byte of its place, modulo four, has it
      set. */
  lemma EncodePayload(opcode: nat, mask: Bytes, payload: Bytes, i: nat, j: nat)
    requires opcode < 16 && |mask| == 4 && i < |payload| <= MAX_BYTES && j < 8
    ensures var k, e := SizeBytes(|payload|), Encode(opcode, mask, payload);
            |e| == 6 + k + |payload| && (Bit(e[6 + k + i], j) != Bit(payload[i], j) <==> Bit(mask[i % 4], j))
  {
    EncodeSplits(opcode, mask, payload);
    MaskedBits(payload, mask, i, j);
  }

  /** A decoder for one final, masked client frame, written from the frame layout. */
  function DecodeMasked(bytes: Bytes): Option<(nat, Bytes, Bytes)> {
    if |bytes| < 2 || bytes[0] < 128 || bytes[0] / 16 % 8 != 0 || bytes[1] < 128 then None
    else
      match ReadLength(bytes[1] - 128, bytes[2..])
      case None => None
      case Some((size, body)) =>
        if |body| < 4 + size then None
        else Some((bytes[0] % 16, Unmasked(body[4..4 + size], body[..4]), body[4 + size..]))
  }

  lemma EncodeShape(opcode: nat, mask: Bytes, payload: Bytes)
    requires opcode < 16 && |mask| == 4 && |payload| <= MAX_BYTES
    ensures CanHold(ChosenForm(|payload|), |payload|)
    ensures var f := LengthField(ChosenForm(|payload|), |payload|);
            Encode(opcode, mask, payload) == [128 + opcode, 128 + f[0]] + f[1..] + (mask + Masked(payload, mask))
  {
  }

  lemma BodyParts(mask: Bytes, hidden: Bytes, rest: Bytes)
    requires |mask| == 4
    ensures var tail := mask + hidden + rest;
            tail[..4] == mask && tail[4..4 + |hidden|] == hidden && tail[4 + |hidden|..] == rest
  {
  }

  lemma HeaderParts(head: Bytes, extra: Bytes, mask: Bytes, hidden: Bytes, rest: Bytes)
    ensures (head + extra + (mask + hidden) + rest)[|head|..] == extra + (mask + hidden + rest)
  {
  }

  lemma DecodeSteps(bytes: Bytes, size: nat, body: Bytes)
    requires |bytes| >= 2 && 128 <= bytes[0] < 144 && bytes[1] >= 128
    requires ReadLength(bytes[1] - 128, bytes[2..]) == Some((size, body)) && |body| >= 4 + size
    ensures DecodeMasked(bytes) == Some((bytes[0] - 128, Unmasked(body[4..4 + size], body[..4]), body[4 + size..]))
  {
  }

  lemma DecodeParts(first: Byte, f: Bytes, mask: Bytes, payload: Bytes, rest: Bytes)
    requires 128 <= first < 144 && f != [] && f[0] < 128 && |mask| == 4
    requires ReadLength(f[0], f[1..] + (mask + Masked(payload, mask) + rest)) == Some((|payload|, mask + Masked(payload, mask) + rest))
    ensures DecodeMasked([first, 128 + f[0]] + f[1..] + (mask + Masked(payload, mask)) + rest) == Some((first - 128, payload, rest))
  {
    var hidden := Masked(payload, mask);
    var bytes := [first, 128 + f[0]] + f[1..] + (mask + hidden) + rest;
    assert bytes[2..] == f[1..] + (mask + hidden + rest) by { HeaderParts([first, 128 + f[0]], f[1..], mask, hidden, rest); }
    DecodeSteps(bytes, |payload|, mask + hidden + rest);
    BodyParts(mask, hidden, rest);
    UnmaskMasked(payload, mask);
  }

  /** Every frame the client encodes decodes to exactly its opcode and payload, and what follows it. */
  lemma EncodeRoundTrip(opcode: nat, mask: Bytes, payload: Bytes, rest: Bytes)
    requires opcode < 16 && |mask| == 4 && |payload| <= MAX_BYTES
    ensures DecodeMasked(Encode(opcode, mask, payload) + rest) == Some((opcode, payload, rest))
  {
    EncodeShape(opcode, mask, payload);
    var form := ChosenForm(|payload|);
    LengthRoundTrip(form, |payload|, mask + Masked(payload, mask) + rest);
    DecodeParts(128 + opcode, LengthField(form, |payload|), mask, payload, rest);
  }
}

/** Receiving: how the client turns a byte stream, however the socket splits it, into a message. */
module WebSocketClient {
  import opened Common
  import opened WebSocketFrames

  // ---- reading one server frame from a byte stream ----

  /** `Missing` when bytes are missing, `Bad` when the client rejects the frame, and otherwise its first byte
      and its payload. */
  datatype Parsed = Missing | Bad | Parsed(first: Byte, payload: Bytes)

  /** One unmasked frame, when `held` payload bytes of the message are already there, and what follows it. */
  function ReadFrame(input: Bytes, held: nat): (r: (Parsed, Bytes))
    ensures r.0.Parsed? ==> |r.1| + |r.0.payload| + 2 <= |input| && held + |r.0.payload| <= MAX_BYTES
  {
    if |input| < 2 then (Missing, [])
    else if input[0] / 16 % 8 != 0 || input[1] >= 128 then (Bad, [])
    else
      match ReadLength(input[1], input[2..])
      case None => (Missing, [])
      case Some((size, body)) =>
        if held + size > MAX_BYTES then (Bad, [])
        else if |body| < size then (Missing, [])
        else (Parsed(input[0], body[..size]), body[size..])
  }

  datatype Outcome = Message(kind: nat, data: Bytes) | Closed | Rejected

  /** What one frame makes of the message so far; `kind` is zero before its first data frame. */
  datatype Turn = Stop(outcome: Outcome) | Reply(ping: Bytes) | Go(kind: nat, data: Bytes)

  function Take(p: Parsed, kind: nat, data: Bytes): (t: Turn)
    ensures !t.Stop? || t.outcome.Message? ==> p.Parsed?
  {
    match p
    case Missing => Stop(Closed)
    case Bad => Stop(Rejected)
    case Parsed(first, payload) =>
      var opcode := first % 16;
      if opcode == 8 then Stop(Closed)
      else if opcode == 9 then Reply(payload)
      else if opcode == 10 then Go(kind, data)
      else if opcode > 2 || (opcode == 0 <==> kind == 0) then Stop(Rejected)
      else
        var kind' := if opcode == 0 then kind else opcode;
        if first >= 128 then Stop(Message(kind', data + payload)) else Go(kind', data + payload)
  }

  /** How `receive` ends, the pings it answered on the way, and the bytes it leaves after a message. */
  datatype Received = Received(outcome: Outcome, pings: seq<Bytes>, rest: Bytes)

  function Receive(input: Bytes, kind: nat, data: Bytes): Received
    decreases |input|
  {
    var (p, rest) := ReadFrame(input, |data|);
    match Take(p, kind, data)
    case Stop(outcome) => Received(outcome, [], rest)
    case Reply(ping) => var r := Receive(rest, kind, data); r.(pings := [ping] + r.pings)
    case Go(kind', data') => Receive(rest, kind', data')
  }

  // ---- fragmented messages ----

  /** A server frame, with the length form the server chose for it. */
  datatype Frame = Frame(final: bool, opcode: nat, payload: Bytes, form: Form)

  predicate Encodable(f: Frame) {
    f.opcode < 16 && CanHold(f.form, |f.payload|)
  }

  predicate AllEncodable(frames: seq<Frame>) {
    forall i :: 0 <= i < |frames| ==> Encodable(frames[i])
  }

  function EncodeFrames(frames: seq<Frame>): Bytes
    requires AllEncodable(frames)
  {
    if frames == [] then [] else EncodeFrame(frames[0]) + EncodeFrames(frames[1..])
  }

  function DataOf(frames: seq<Frame>): Bytes {
    if frames == [] then []
    else if frames[0].opcode <= 2 then frames[0].payload + DataOf(frames[1..])
    else DataOf(frames[1..])
  }

  function PingsOf(frames: seq<Frame>): seq<Bytes> {
    if frames == [] then []
    else if frames[0].opcode == 9 then [frames[0].payload] + PingsOf(frames[1..])
    else PingsOf(frames[1..])
  }

  predicate DataFrame(f: Frame, kind: nat) {
    if kind == 0 then f.opcode in {1, 2} else f.opcode == 0
  }

  function KindAfter(f: Frame, kind: nat): nat {
    if kind == 0 then f.opcode else kind
  }

  /** The rest of one message: continuations with pings and pongs between them, ending with its final data
      frame, and never more bytes held than the bound. */
  predicate Fragments(frames: seq<Frame>, kind: nat, held: nat) {
    && frames != [] && Encodable(frames[0]) && held + |frames[0].payload| <= MAX_BYTES
    && var f := frames[0];
       if f.opcode in {9, 10} then Fragments(frames[1..], kind, held)
       else
         && DataFrame(f, kind)
         && if f.final then |frames| == 1
            else Fragments(frames[1..], KindAfter(f, kind), held + |f.payload|)
  }

  /** The opcode of the first data frame. */
  function KindOf(frames: seq<Frame>, kind: nat): nat {
    if kind != 0 || frames == [] then kind
    else if frames[0].opcode in {1, 2} then frames[0].opcode
    else KindOf(frames[1..], kind)
  }

  function FirstByte(f: Frame): (first: Byte)
    requires f.opcode < 16
    ensures first / 16 % 8 == 0 && first % 16 == f.opcode && (first >= 128 <==> f.final)
  {
    (if f.final then 128 else 0) + f.opcode
  }

  function EncodeFrame(f: Frame): Bytes
    requires Encodable(f)
  {
    [FirstByte(f)] + LengthField(f.form, |f.payload|) + f.payload
  }

  /** The bytes of a server frame: the final bit and the opcode; the size, without a mask bit, in one of its three forms,
      most significant byte first; and the payload as it is. */
  lemma FrameLayout(f: Frame, i: nat)
    requires Encodable(f)
    ensures var size, k, e := |f.payload|, Extra(f.form), EncodeFrame(f);
            && |e| == 2 + k + size && e[0] == (if f.final then 128 else 0) + f.opcode
            && e[1] == (if k == 0 then size else if k == 2 then 126 else 127)
            && (i < k ==> e[2 + i] == size / Power256(k - 1 - i) % 256)
            && (i < size ==> e[2 + k + i] == f.payload[i])
  {
    if i < Extra(f.form) { BigEndianDigits(|f.payload|, Extra(f.form), i); }
  }

  lemma FrameParts(first: Byte, field: Bytes, payload: Bytes, rest: Bytes, held: nat)
    requires first / 16 % 8 == 0 && field != [] && field[0] < 128 && held + |payload| <= MAX_BYTES
    requires ReadLength(field[0], field[1..] + (payload + rest)) == Some((|payload|, payload + rest))
    ensures ReadFrame([first] + field + payload + rest, held) == (Parsed(first, payload), rest)
  {
    FrameHead(first, field, payload + rest);
    assert [first] + field + payload + rest == [first] + field + (payload + rest);
    FrameBody(payload, rest);
    FrameSteps([first] + field + (payload + rest), |payload|, payload + rest, held);
  }

  lemma FrameHead(first: Byte, field: Bytes, tail: Bytes)
    requires field != []
    ensures var input := [first] + field + tail;
            |input| >= 2 && input[0] == first && input[1] == field[0] && input[2..] == field[1..] + tail
  {
  }

  lemma FrameBody(payload: Bytes, rest: Bytes)
    ensures (payload + rest)[..|payload|] == payload && (payload + rest)[|payload|..] == rest
  {
  }

  lemma FrameSteps(input: Bytes, size: nat, body: Bytes, held: nat)
    requires |input| >= 2 && input[0] / 16 % 8 == 0 && input[1] < 128 && held + size <= MAX_BYTES
    requires ReadLength(input[1], input[2..]) == Some((size, body)) && |body| >= size
    ensures ReadFrame(input, held) == (Parsed(input[0], body[..size]), body[size..])
  {
  }

  lemma FrameRoundTrip(f: Frame, rest: Bytes, held: nat)
    requires Encodable(f) && held + |f.payload| <= MAX_BYTES
    ensures ReadFrame(EncodeFrame(f) + rest, held) == (Parsed(FirstByte(f), f.payload), rest)
  {
    LengthRoundTrip(f.form, |f.payload|, f.payload + rest);
    FrameParts(FirstByte(f), LengthField(f.form, |f.payload|), f.payload, rest, held);
  }

  lemma {:induction false} FragmentsEncodable(frames: seq<Frame>, kind: nat, held: nat)
    requires Fragments(frames, kind, held)
    ensures AllEncodable(frames)
    decreases |frames|
  {
    var f := frames[0];
    if f.opcode in {9, 10} {
      FragmentsEncodable(frames[1..], kind, held);
    } else if !f.final {
      FragmentsEncodable(frames[1..], KindAfter(f, kind), held + |f.payload|);
    }
    assert forall i :: 1 <= i < |frames| ==> frames[i] == frames[1..][i - 1];
  }

  /** One well-formed frame: a control frame leaves the message alone, a data frame extends or ends it. */
  lemma TakeFrame(f: Frame, kind: nat, data: Bytes)
    requires f.opcode in {9, 10} || DataFrame(f, kind)
    ensures Take(Parsed(FirstByte(f), f.payload), kind, data) ==
            if f.opcode == 9 then Reply(f.payload)
            else if f.opcode == 10 then Go(kind, data)
            else if f.final then Stop(Message(KindAfter(f, kind), data + f.payload))
            else Go(KindAfter(f, kind), data + f.payload)
  {
  }

  lemma FramesSplit(frames: seq<Frame>, rest: Bytes, held: nat)
    requires frames != [] && AllEncodable(frames) && held + |frames[0].payload| <= MAX_BYTES
    ensures AllEncodable(frames[1..])
    ensures ReadFrame(EncodeFrames(frames) + rest, held)
         == (Parsed(FirstByte(frames[0]), frames[0].payload), EncodeFrames(frames[1..]) + rest)
  {
    var tail := EncodeFrames(frames[1..]) + rest;
    assert EncodeFrames(frames) + rest == EncodeFrame(frames[0]) + tail;
    FrameRoundTrip(frames[0], tail, held);
  }

  /** Receiving these frames and then `rest` returns the concatenation of their data payloads, answers each
      ping in order with that ping's payload, and leaves exactly `rest`. */
  predicate Reassembles(frames: seq<Frame>, kind: nat, data: Bytes, rest: Bytes)
    requires AllEncodable(frames)
  {
    Receive(EncodeFrames(frames) + rest, kind, data)
      == Received(Message(KindOf(frames, kind), data + DataOf(frames)), PingsOf(frames), rest)
  }

  predicate Leads(frames: seq<Frame>, held: nat) {
    frames != [] && AllEncodable(frames) && AllEncodable(frames[1..]) && held + |frames[0].payload| <= MAX_BYTES
  }

  lemma ControlFirst(frames: seq<Frame>, kind: nat, data: Bytes, rest: Bytes)
    requires Leads(frames, |data|) && frames[0].opcode in {9, 10} && Reassembles(frames[1..], kind, data, rest)
    ensures Reassembles(frames, kind, data, rest)
  {
    FramesSplit(frames, rest, |data|);
    TakeFrame(frames[0], kind, data);
  }

  lemma FinalOnly(frames: seq<Frame>, kind: nat, data: Bytes, rest: Bytes)
    requires Leads(frames, |data|) && DataFrame(frames[0], kind) && frames[0].final && |frames| == 1
    ensures Reassembles(frames, kind, data, rest)
  {
    FramesSplit(frames, rest, |data|);
    TakeFrame(frames[0], kind, data);
    assert frames[1..] == [];
    assert EncodeFrames(frames[1..]) + rest == rest;
    assert DataOf(frames) == frames[0].payload;
  }

  lemma DataFollows(frames: seq<Frame>, data: Bytes)
    requires frames != [] && frames[0].opcode <= 2
    ensures data + frames[0].payload + DataOf(frames[1..]) == data + DataOf(frames)
    ensures PingsOf(frames) == PingsOf(frames[1..])
  {
  }

  lemma FragmentFirst(frames: seq<Frame>, kind: nat, data: Bytes, rest: Bytes)
    requires Leads(frames, |data|) && DataFrame(frames[0], kind) && !frames[0].final
    requires Reassembles(frames[1..], KindAfter(frames[0], kind), data + frames[0].payload, rest)
    ensures Reassembles(frames, kind, data, rest)
  {
    var input, more := EncodeFrames(frames) + rest, data + frames[0].payload;
    assert Receive(input, kind, data) == Receive(EncodeFrames(frames[1..]) + rest, KindAfter(frames[0], kind), more) by {
      FramesSplit(frames, rest, |data|);
      TakeFrame(frames[0], kind, data);
    }
    DataFollows(frames, data);
    assert KindOf(frames, kind) == KindOf(frames[1..], KindAfter(frames[0], kind));
  }

  /** Every well-formed fragmented message is reassembled, whatever length forms the server uses and whatever
      control frames it puts between the fragments. */
  lemma {:induction false} ReceiveReassembles(frames: seq<Frame>, kind: nat, data: Bytes, rest: Bytes)
    requires Fragments(frames, kind, |data|)
    ensures AllEncodable(frames) && Reassembles(frames, kind, data, rest)
    decreases |frames|
  {
    FragmentsEncodable(frames, kind, |data|);
    var f, later := frames[0], frames[1..];
    assert Leads(frames, |data|);
    if f.opcode in {9, 10} {
      ReceiveReassembles(later, kind, data, rest);
      ControlFirst(frames, kind, data, rest);
    } else if f.final {
      FinalOnly(frames, kind, data, rest);
    } else {
      ReceiveReassembles(later, KindAfter(f, kind), data + f.payload, rest);
      FragmentFirst(frames, kind, data, rest);
    }
  }

  // ---- and nothing else is a message ----

  function FrameOf(first: Byte, field: Byte, payload: Bytes): Frame
    requires field < 128
  {
    Frame(first >= 128, first % 16, payload, FormOf(field))
  }

  lemma FirstByteBack(first: Byte, field: Byte, payload: Bytes)
    requires first / 16 % 8 == 0 && field < 128
    ensures FirstByte(FrameOf(first, field, payload)) == first
  {
  }

  lemma Rejoined(first: Byte, second: Byte, more: Bytes, field: Bytes, payload: Bytes, rest: Bytes)
    requires [second] + more == field + (payload + rest)
    ensures [first, second] + more == [first] + field + payload + rest
  {
    assert [first, second] + more == [first] + ([second] + more);
  }

  lemma LengthOfRead(input: Bytes, held: nat)
    requires ReadFrame(input, held).0.Parsed?
    ensures |input| >= 2 && input[1] < 128 && input[0] / 16 % 8 == 0 && ReadFrame(input, held).0.first == input[0]
    ensures var (p, rest) := ReadFrame(input, held);
            ReadLength(input[1], input[2..]) == Some((|p.payload|, p.payload + rest))
  {
    var (size, body) := ReadLength(input[1], input[2..]).value;
    assert body == body[..size] + body[size..];
  }

  function FrameRead(input: Bytes, held: nat): Frame
    requires ReadFrame(input, held).0.Parsed?
  {
    LengthOfRead(input, held);
    FrameOf(input[0], input[1], ReadFrame(input, held).0.payload)
  }

  /** A frame that is read is the encoding of one. */
  lemma ReadIsEncoded(input: Bytes, held: nat)
    requires ReadFrame(input, held).0.Parsed?
    ensures var f := FrameRead(input, held);
            && Encodable(f) && input == EncodeFrame(f) + ReadFrame(input, held).1
            && FirstByte(f) == ReadFrame(input, held).0.first
  {
    var (p, rest) := ReadFrame(input, held);
    LengthOfRead(input, held);
    LengthIsEncoded(input[1], input[2..]);
    FirstByteBack(input[0], input[1], p.payload);
    Rejoined(input[0], input[1], input[2..], LengthField(FormOf(input[1]), |p.payload|), p.payload, rest);
    assert input == [input[0], input[1]] + input[2..];
  }

  /** What a frame must have been for the message to go on, or to end. */
  lemma TakenFrame(f: Frame, kind: nat, data: Bytes)
    requires f.opcode < 16
    ensures match Take(Parsed(FirstByte(f), f.payload), kind, data)
            case Reply(_) => f.opcode == 9
            case Go(kind', data') =>
              || (f.opcode == 10 && kind' == kind && data' == data)
              || (DataFrame(f, kind) && !f.final && kind' == KindAfter(f, kind) && data' == data + f.payload)
            case Stop(Message(_, _)) => DataFrame(f, kind) && f.final
            case _ => true
  {
  }

  lemma Prepended(f: Frame, later: seq<Frame>, kind: nat, held: nat)
    requires Encodable(f) && held + |f.payload| <= MAX_BYTES
    requires || (f.opcode in {9, 10} && Fragments(later, kind, held))
             || (DataFrame(f, kind) && f.final && later == [])
             || (DataFrame(f, kind) && !f.final && Fragments(later, KindAfter(f, kind), held + |f.payload|))
    ensures Fragments([f] + later, kind, held)
  {
    assert ([f] + later)[1..] == later;
  }

  /** These bytes are well-formed fragments and then `rest`. */
  predicate IsEncoding(input: Bytes, kind: nat, held: nat, rest: Bytes, frames: seq<Frame>) {
    Fragments(frames, kind, held) && AllEncodable(frames) && input == EncodeFrames(frames) + rest
  }

  lemma EncodingExtends(input: Bytes, f: Frame, mid: Bytes, later: seq<Frame>, rest: Bytes)
    requires Encodable(f) && AllEncodable(later) && input == EncodeFrame(f) + mid && mid == EncodeFrames(later) + rest
    ensures AllEncodable([f] + later) && input == EncodeFrames([f] + later) + rest
  {
    assert ([f] + later)[1..] == later;
  }

  /** These frames complete the message after this one. */
  predicate Continues(p: Parsed, kind: nat, data: Bytes, later: seq<Frame>) {
    match Take(p, kind, data)
    case Stop(outcome) => outcome.Message? && later == []
    case Reply(_) => Fragments(later, kind, |data|)
    case Go(kind', data') => Fragments(later, kind', |data'|)
  }

  lemma FragmentsFrom(f: Frame, later: seq<Frame>, kind: nat, data: Bytes)
    requires Encodable(f) && |data| + |f.payload| <= MAX_BYTES
    requires Continues(Parsed(FirstByte(f), f.payload), kind, data, later)
    ensures Fragments([f] + later, kind, |data|)
  {
    TakenFrame(f, kind, data);
    Prepended(f, later, kind, |data|);
  }

  lemma Assembled(input: Bytes, kind: nat, data: Bytes, later: seq<Frame>, rest: Bytes)
    requires ReadFrame(input, |data|).0.Parsed? && AllEncodable(later)
    requires ReadFrame(input, |data|).1 == EncodeFrames(later) + rest && Continues(ReadFrame(input, |data|).0, kind, data, later)
    ensures IsEncoding(input, kind, |data|, rest, [FrameRead(input, |data|)] + later)
  {
    var f := FrameRead(input, |data|);
    ReadIsEncoded(input, |data|);
    FragmentsFrom(f, later, kind, data);
    EncodingExtends(input, f, ReadFrame(input, |data|).1, later, rest);
  }

  /** The frames after the first, and how receiving goes on with them. */
  lemma {:induction false} LaterFrames(input: Bytes, kind: nat, data: Bytes) returns (later: seq<Frame>)
    requires Receive(input, kind, data).outcome.Message?
    ensures ReadFrame(input, |data|).0.Parsed? && AllEncodable(later)
    ensures ReadFrame(input, |data|).1 == EncodeFrames(later) + Receive(input, kind, data).rest
    ensures Continues(ReadFrame(input, |data|).0, kind, data, later)
    decreases |input|, 0
  {
    var (p, mid) := ReadFrame(input, |data|);
    match Take(p, kind, data) {
      case Stop(_) =>
        later := [];
        assert EncodeFrames([]) + mid == mid;
      case Reply(_) => later := OnlyMessagesAreReceived(mid, kind, data);
      case Go(kind', data') => later := OnlyMessagesAreReceived(mid, kind', data');
    }
  }

  /** Whatever is returned as a message was sent as one: the bytes consumed are the encoding of well-formed
      fragments, so reserved bits, masked frames, stray continuations, interrupted messages, unknown opcodes
      and oversized messages are never accepted. */
  lemma {:induction false} OnlyMessagesAreReceived(input: Bytes, kind: nat, data: Bytes) returns (frames: seq<Frame>)
    requires Receive(input, kind, data).outcome.Message?
    ensures IsEncoding(input, kind, |data|, Receive(input, kind, data).rest, frames)
    decreases |input|, 1
  {
    var later := LaterFrames(input, kind, data);
    Assembled(input, kind, data, later, Receive(input, kind, data).rest);
    frames := [FrameRead(input, |data|)] + later;
  }

  /** A stream yields a message if and only if it starts with the encoding of a well-formed one, and then it
      is that message. */
  lemma MessageIff(input: Bytes)
    ensures Receive(input, 0, []).outcome.Message? <==> exists rest, frames :: IsEncoding(input, 0, 0, rest, frames)
    ensures forall rest, frames | IsEncoding(input, 0, 0, rest, frames) ::
              Receive(input, 0, []) == Received(Message(KindOf(frames, 0), DataOf(frames)), PingsOf(frames), rest)
  {
    if Receive(input, 0, []).outcome.Message? {
      var frames := OnlyMessagesAreReceived(input, 0, []);
    }
    forall rest, frames | IsEncoding(input, 0, 0, rest, frames)
      ensures Receive(input, 0, []) == Received(Message(KindOf(frames, 0), DataOf(frames)), PingsOf(frames), rest)
    {
      ReceiveReassembles(frames, 0, [], rest);
      assert [] + DataOf(frames) == DataOf(frames);
    }
  }

  lemma TakeIsBounded(input: Bytes, kind: nat, data: Bytes)
    requires |data| <= MAX_BYTES
    ensures match Take(ReadFrame(input, |data|).0, kind, data)
            case Stop(Message(_, all)) => |all| <= MAX_BYTES
            case Go(_, all) => |all| <= MAX_BYTES
            case Reply(ping) => |ping| <= MAX_BYTES
            case _ => true
  {
  }

  /** Whatever the server sends, no more than the bound is returned, and every answered ping is within it. */
  lemma {:induction false} ReceiveIsBounded(input: Bytes, kind: nat, data: Bytes)
    requires |data| <= MAX_BYTES
    ensures var r := Receive(input, kind, data);
            && (r.outcome.Message? ==> |r.outcome.data| <= MAX_BYTES)
            && (forall ping <- r.pings :: |ping| <= MAX_BYTES)
    decreases |input|
  {
    TakeIsBounded(input, kind, data);
    var (p, rest) := ReadFrame(input, |data|);
    match Take(p, kind, data) {
      case Stop(_) =>
      case Reply(_) => ReceiveIsBounded(rest, kind, data);
      case Go(kind', data') => ReceiveIsBounded(rest, kind', data');
    }
  }

  // ---- the client ----

  /** One frame the client sent. */
  datatype Outgoing = Outgoing(opcode: nat, mask: Bytes, payload: Bytes)

  predicate Sendable(o: Outgoing) {
    o.opcode < 16 && |o.mask| == 4 && |o.payload| <= MAX_BYTES
  }

  predicate AllSendable(sent: seq<Outgoing>) {
    forall i :: 0 <= i < |sent| ==> Sendable(sent[i])
  }

  function EncodeAll(sent: seq<Outgoing>): Bytes
    requires AllSendable(sent)
  {
    if sent == [] then []
    else EncodeAll(sent[..|sent| - 1]) + Encode(sent[|sent| - 1].opcode, sent[|sent| - 1].mask, sent[|sent| - 1].payload)
  }

  predicate IsPong(o: Outgoing, ping: Bytes) {
    o.opcode == 10 && o.payload == ping
  }

  /** The frames sent since `before` answer `pings`, one pong each, in order. */
  predicate Answers(before: seq<Outgoing>, sent: seq<Outgoing>, pings: seq<Bytes>) {
    && |sent| == |before| + |pings| && before == sent[..|before|]
    && forall i :: 0 <= i < |pings| ==> IsPong(sent[|before| + i], pings[i])
  }

  /** Receiving the rest of the stream in this state ends as receiving all of `input` does. */
  predicate Ahead(input: Bytes, unread: Bytes, kind: nat, data: Bytes, pings: seq<Bytes>) {
    var r := Receive(unread, kind, data);
    Receive(input, 0, []) == r.(pings := pings + r.pings)
  }

  lemma AheadOne(input: Bytes, unread: Bytes, kind: nat, data: Bytes, pings: seq<Bytes>)
    requires Ahead(input, unread, kind, data, pings)
    ensures var (p, rest) := ReadFrame(unread, |data|);
            match Take(p, kind, data)
            case Stop(outcome) => Receive(input, 0, []) == Received(outcome, pings, rest)
            case Reply(ping) => Ahead(input, rest, kind, data, pings + [ping])
            case Go(kind', data') => Ahead(input, rest, kind', data', pings)
  {
  }

  /** The bytes not yet consumed are those read ahead and those still in the socket. */
  class WebSocket {
    var pending: Bytes
    var socket: Bytes
    var written: Bytes
    ghost var sent: seq<Outgoing>

    ghost predicate Valid()
      reads this
    {
      AllSendable(sent) && written == EncodeAll(sent)
    }

    function Unread(): Bytes
      reads this
    {
      pending + socket
    }

    constructor (incoming: Bytes)
      ensures Valid() && Unread() == incoming && sent == []
    {
      pending, socket, written, sent := [], incoming, [], [];
    }

    /** The socket hands over any non-empty part of what it holds, or nothing at its end. */
    method Recv(limit: nat) returns (data: Bytes)
      requires limit > 0
      modifies this`socket
      ensures data + socket == old(socket) && |data| <= limit && (data == [] ==> old(socket) == [])
    {
      if socket == [] { return []; }
      var most := if |socket| < limit then |socket| else limit;
      var n: nat :| 1 <= n <= most;
      data, socket := socket[..n], socket[n..];
    }

    method Read(size: nat) returns (r: Option<Bytes>)
      modifies this`pending, this`socket
      ensures r.Some? <==> size <= |old(Unread())|
      ensures r.Some? ==> r.value == old(Unread())[..size] && Unread() == old(Unread())[size..]
    {
      while |pending| < size
        invariant Unread() == old(Unread())
        decreases |socket|
      {
        var data := Recv(if size - |pending| < 65536 then size - |pending| else 65536);
        if data == [] { return None; }
        pending := pending + data;
      }
      r, pending := Some(pending[..size]), pending[size..];
    }

    method SendRaw(opcode: nat, payload: Bytes)
      requires Valid() && opcode < 16 && |payload| <= MAX_BYTES
      modifies this`written, this`sent
      ensures Valid() && |sent| == |old(sent)| + 1 && sent[..|old(sent)|] == old(sent)
      ensures sent[|old(sent)|].opcode == opcode && sent[|old(sent)|].payload == payload
    {
      var a: Byte, b: Byte, c: Byte, d: Byte := *, *, *, *;
      var mask: Bytes := [a, b, c, d];
      written := written + Encode(opcode, mask, payload);
      sent := sent + [Outgoing(opcode, mask, payload)];
      assert sent[..|sent| - 1] == old(sent);
    }

    /** One frame off the stream. */
    method NextFrame(held: nat) returns (p: Parsed)
      modifies this`pending, this`socket
      ensures p == ReadFrame(old(Unread()), held).0
      ensures p.Parsed? ==> Unread() == ReadFrame(old(Unread()), held).1
    {
      ghost var input := Unread();
      var head := Read(2);
      if head.None? { return Missing; }
      var first, second := head.value[0], head.value[1];
      if first / 16 % 8 != 0 || second >= 128 { return Bad; }
      var size: nat := second;
      if second >= 126 {
        var extra := Read(if second == 126 then 2 else 8);
        if extra.None? { return Missing; }
        size := Number(extra.value);
      }
      if held + size > MAX_BYTES { return Bad; }
      var payload := Read(size);
      if payload.None? { return Missing; }
      p := Parsed(first, payload.value);
    }

    /** However the socket splits the stream, the outcome, the pongs sent and the bytes left over are those of
        `Receive` on the whole stream. */
    method ReceiveMessage() returns (outcome: Outcome)
      requires Valid()
      modifies this
      ensures Valid()
      ensures var r := Receive(old(Unread()), 0, []);
              && outcome == r.outcome && Answers(old(sent), sent, r.pings)
              && (outcome.Message? ==> Unread() == r.rest)
    {
      var kind: nat, data: Bytes := 0, [];
      ghost var pings: seq<Bytes> := [];
      ghost var input := Unread();
      while true
        invariant Valid() && |data| <= MAX_BYTES
        invariant Answers(old(sent), sent, pings)
        invariant Ahead(input, Unread(), kind, data, pings)
        decreases |Unread()|
      {
        ghost var unread, answered := Unread(), sent;
        TakeIsBounded(unread, kind, data);
        AheadOne(input, unread, kind, data, pings);
        var p := NextFrame(|data|);
        match Take(p, kind, data) {
          case Stop(o) =>
            outcome := o;
            return;
          case Reply(ping) =>
            SendRaw(10, ping);
            AnsweredOnce(old(sent), answered, sent, pings, ping);
            pings := pings + [ping];
          case Go(kind', data') =>
            kind, data := kind', data';
        }
      }
    }
  }

  lemma AnsweredOnce(before: seq<Outgoing>, answered: seq<Outgoing>, sent: seq<Outgoing>, pings: seq<Bytes>, ping: Bytes)
    requires Answers(before, answered, pings)
    requires |sent| == |answered| + 1 && sent[..|answered|] == answered && IsPong(sent[|answered|], ping)
    ensures Answers(before, sent, pings + [ping])
  {
  }
}

/** WebSocket frames as bytes: sections 5.2 to 5.5 of RFC 6455, as the smoke client reads and writes them. */
module WebSocketFrames {
  import opened Bytes

  const MAX_FRAME: nat := 16 * 1024 * 1024

  const CONTINUATION: nat := 0
  const TEXT: nat := 1
  const BINARY: nat := 2
  const CLOSE: nat := 8
  const PING: nat := 9
  const PONG: nat := 10

  // ---- big-endian numbers ----------------------------------------------------------------------

  function Pow256(k: nat): nat {
    if k == 0 then 1 else 256 * Pow256(k - 1)
  }

  function BigEndian(bytes: seq<Byte>): nat {
    if bytes == [] then 0 else 256 * BigEndian(bytes[..|bytes| - 1]) + bytes[|bytes| - 1]
  }

  function ToBigEndian(n: nat, k: nat): (bytes: seq<Byte>)
    ensures |bytes| == k
  {
    if k == 0 then [] else ToBigEndian(n / 256, k - 1) + [n % 256]
  }

  lemma {:induction false} BigEndianRound(n: nat, k: nat)
    requires n < Pow256(k)
    ensures BigEndian(ToBigEndian(n, k)) == n
  {
    if k > 0 {
      var q, r := n / 256, n % 256;
      assert n == 256 * q + r;
      hide ToBigEndian, BigEndian, Pow256;
      PowerStep(k);
      QuotientFits(n, Pow256(k - 1));
      BigEndianRound(q, k - 1);
      ToBigEndianStep(n, k);
      BigEndianAppend(ToBigEndian(q, k - 1), r);
    }
  }

  lemma PowerStep(k: nat)
    requires k > 0
    ensures Pow256(k) == 256 * Pow256(k - 1)
  {
  }

  lemma ToBigEndianStep(n: nat, k: nat)
    requires k > 0
    ensures ToBigEndian(n, k) == ToBigEndian(n / 256, k - 1) + [n % 256]
  {
  }

  lemma QuotientFits(n: nat, p: nat)
    requires n < 256 * p
    ensures n / 256 < p
  {
  }

  lemma BigEndianAppend(head: seq<Byte>, last: Byte)
    ensures BigEndian(head + [last]) == 256 * BigEndian(head) + last
  {
    assert (head + [last])[..|head|] == head;
  }

  lemma {:induction false} BigEndianIsUnique(bytes: seq<Byte>)
    ensures ToBigEndian(BigEndian(bytes), |bytes|) == bytes && BigEndian(bytes) < Pow256(|bytes|)
  {
    if bytes != [] {
      var head, last := bytes[..|bytes| - 1], bytes[|bytes| - 1];
      BigEndianIsUnique(head);
      assert BigEndian(bytes) / 256 == BigEndian(head) && BigEndian(bytes) % 256 == last;
      assert bytes == head + [bytes[|bytes| - 1]];
    }
  }

  lemma Widths()
    ensures Pow256(0) == 1 && Pow256(2) == 65536 && Pow256(8) == 0x1_0000_0000_0000_0000
  {
    assert Pow256(2) == 256 * Pow256(1) && Pow256(1) == 256 * Pow256(0);
    assert Pow256(4) == 256 * Pow256(3) && Pow256(3) == 256 * Pow256(2);
    assert Pow256(8) == 256 * Pow256(7) && Pow256(7) == 256 * Pow256(6) && Pow256(6) == 256 * Pow256(5)
        && Pow256(5) == 256 * Pow256(4);
  }

  // ---- frames from the server ------------------------------------------------------------------

  /** A frame with its first byte (final bit, reserved bits, opcode) and the width of its extended
      length: none, two or eight bytes, not necessarily the shortest. */
  datatype Frame = Frame(first: Byte, width: nat, data: seq<Byte>)

  function Opcode(first: Byte): nat {
    LowFour(first)
  }

  predicate Final(first: Byte) {
    HighBit(first)
  }

  predicate FrameOk(f: Frame) {
    && |f.data| <= MAX_FRAME
    && (f.width == 2 || f.width == 8 || (f.width == 0 && |f.data| < 126))
    && (f.width == 2 ==> |f.data| < 65536)
  }

  function LengthCode(f: Frame): Byte
    requires FrameOk(f)
  {
    if f.width == 0 then |f.data| else if f.width == 2 then 126 else 127
  }

  function Encoded(f: Frame): seq<Byte>
    requires FrameOk(f)
  {
    [f.first, LengthCode(f)] + ToBigEndian(|f.data|, f.width) + f.data
  }

  /** What the front of a stream holds: too little, a frame the client refuses, or a frame. */
  datatype Parsed = Short | Refused | Got(first: Byte, data: seq<Byte>, rest: seq<Byte>)

  function Code(second: Byte): nat {
    LowSeven(second)
  }

  function Width(second: Byte): nat {
    if Code(second) == 126 then 2 else if Code(second) == 127 then 8 else 0
  }

  function Length(second: Byte, extended: seq<Byte>): nat {
    if Width(second) == 0 then Code(second) else BigEndian(extended)
  }

  predicate Refuses(second: Byte, length: nat) {
    HighBit(second) || length > MAX_FRAME
  }

  function ParseFrame(stream: seq<Byte>): (p: Parsed)
    ensures p.Got? ==> |p.rest| < |stream| && |p.data| <= MAX_FRAME
  {
    if |stream| < 2 || |stream| < 2 + Width(stream[1]) then Short
    else
      var body := 2 + Width(stream[1]);
      var length := Length(stream[1], stream[2..body]);
      if Refuses(stream[1], length) then Refused
      else if |stream| < body + length then Short
      else Got(stream[0], stream[body..body + length], stream[body + length..])
  }

  lemma CodeOfLength(f: Frame)
    requires FrameOk(f)
    ensures !HighBit(LengthCode(f)) && Width(LengthCode(f)) == f.width
            && (f.width == 0 ==> Code(LengthCode(f)) == |f.data|)
  {
  }

  lemma LengthOfFrame(f: Frame)
    requires FrameOk(f)
    ensures Length(LengthCode(f), ToBigEndian(|f.data|, f.width)) == |f.data|
  {
    CodeOfLength(f);
    Widths();
    if f.width != 0 {
      BigEndianRound(|f.data|, f.width);
    }
  }

  /** Reading undoes encoding and leaves the rest of the stream. */
  lemma ParseEncoded(f: Frame, rest: seq<Byte>)
    requires FrameOk(f)
    ensures ParseFrame(Encoded(f) + rest) == Got(f.first, f.data, rest)
  {
    CodeOfLength(f);
    LengthOfFrame(f);
    var stream := Encoded(f) + rest;
    var body := 2 + f.width;
    assert stream[2..body] == ToBigEndian(|f.data|, f.width);
    assert stream[body..body + |f.data|] == f.data;
    assert stream[body + |f.data|..] == rest;
  }

  lemma SecondByte(second: Byte)
    requires !HighBit(second)
    ensures (Width(second) == 2 ==> second == 126) && (Width(second) == 8 ==> second == 127)
    ensures Width(second) == 0 ==> Code(second) < 126 && Code(second) == second
  {
  }

  /** A length that was read is written back as it stood. */
  lemma LengthWasEncoded(first: Byte, second: Byte, extended: seq<Byte>, data: seq<Byte>)
    requires |extended| == Width(second) && |data| == Length(second, extended) && !Refuses(second, |data|)
    ensures var f := Frame(first, Width(second), data);
            FrameOk(f) && LengthCode(f) == second && ToBigEndian(|data|, f.width) == extended
  {
    SecondByte(second);
    Widths();
    BigEndianIsUnique(extended);
  }

  /** Whatever is read was the encoding of a frame. */
  lemma GotWasEncoded(stream: seq<Byte>) returns (f: Frame)
    requires ParseFrame(stream).Got?
    ensures FrameOk(f) && f.first == ParseFrame(stream).first && f.data == ParseFrame(stream).data
    ensures stream == Encoded(f) + ParseFrame(stream).rest
  {
    hide BigEndian, ToBigEndian, LengthCode, FrameOk, Code;
    var p := ParseFrame(stream);
    var body := 2 + Width(stream[1]);
    f := Frame(p.first, Width(stream[1]), p.data);
    LengthWasEncoded(p.first, stream[1], stream[2..body], p.data);
    assert stream == [stream[0], stream[1]] + stream[2..body] + p.data + p.rest;
  }

  // ---- messages --------------------------------------------------------------------------------

  datatype Ending = Message(data: seq<Byte>) | Closed | Truncated | BadFrame | BadOpcode | TooLong

  /** How receiving ends, the pings answered on the way, and what is left of the stream. */
  datatype Scanned = Scanned(ending: Ending, pings: seq<seq<Byte>>, rest: seq<Byte>)

  predicate Carries(first: Byte) {
    Opcode(first) == CONTINUATION || Opcode(first) == TEXT || Opcode(first) == BINARY
  }

  /** `receive` from this stream, with part of a message already read. */
  function Scan(stream: seq<Byte>, message: seq<Byte>): Scanned
    decreases |stream|
  {
    match ParseFrame(stream)
    case Short => Scanned(Truncated, [], [])
    case Refused => Scanned(BadFrame, [], [])
    case Got(first, data, rest) =>
      if Opcode(first) == CLOSE then Scanned(Closed, [], rest)
      else if Opcode(first) == PING then var s := Scan(rest, message); s.(pings := [data] + s.pings)
      else if Opcode(first) == PONG then Scan(rest, message)
      else if !Carries(first) then Scanned(BadOpcode, [], rest)
      else if |message + data| > MAX_FRAME then Scanned(TooLong, [], rest)
      else if Final(first) then Scanned(Message(message + data), [], rest)
      else Scan(rest, message + data)
  }

  predicate Interleaved(f: Frame) {
    Opcode(f.first) == PING || Opcode(f.first) == PONG
  }

  /** One fragmented message with control frames between its fragments. */
  predicate Fragments(frames: seq<Frame>) {
    && frames != [] && FrameOk(frames[0])
    && (if Interleaved(frames[0]) then Fragments(frames[1..])
        else Carries(frames[0].first) && if Final(frames[0].first) then |frames| == 1 else Fragments(frames[1..]))
  }

  function Stream(frames: seq<Frame>): seq<Byte>
    requires forall i | 0 <= i < |frames| :: FrameOk(frames[i])
  {
    if frames == [] then [] else Encoded(frames[0]) + Stream(frames[1..])
  }

  function Payload(frames: seq<Frame>): seq<Byte> {
    if frames == [] then [] else (if Interleaved(frames[0]) then [] else frames[0].data) + Payload(frames[1..])
  }

  function Pings(frames: seq<Frame>): seq<seq<Byte>> {
    if frames == [] then []
    else (if Opcode(frames[0].first) == PING then [frames[0].data] else []) + Pings(frames[1..])
  }

  lemma {:induction false} FragmentsAreOk(frames: seq<Frame>)
    requires Fragments(frames)
    ensures forall i | 0 <= i < |frames| :: FrameOk(frames[i])
  {
    if |frames| > 1 {
      FragmentsAreOk(frames[1..]);
      assert forall i | 1 <= i < |frames| :: frames[i] == frames[1..][i - 1];
    }
  }

  lemma ScanStep(stream: seq<Byte>, message: seq<Byte>)
    requires ParseFrame(stream).Got?
    ensures var p := ParseFrame(stream);
            && (Opcode(p.first) == PING ==>
                  var s := Scan(p.rest, message); Scan(stream, message) == s.(pings := [p.data] + s.pings))
            && (Opcode(p.first) == PONG ==> Scan(stream, message) == Scan(p.rest, message))
            && (Carries(p.first) && |message + p.data| <= MAX_FRAME ==>
                  Scan(stream, message) == if Final(p.first) then Scanned(Message(message + p.data), [], p.rest)
                      else Scan(p.rest, message + p.data))
  {
    hide ParseFrame, Opcode, Final;
  }

  /** Every message within the bound, in any fragments with any control frames between them, is read as
      the concatenation of its fragments, every ping is answered in order with its payload, and exactly
      the bytes that follow are left. */
  lemma {:induction false} ReceivesConcatenation(frames: seq<Frame>, rest: seq<Byte>, message: seq<Byte>)
    requires Fragments(frames) && |message + Payload(frames)| <= MAX_FRAME
    ensures forall i | 0 <= i < |frames| :: FrameOk(frames[i])
    ensures Scan(Stream(frames) + rest, message) == Scanned(Message(message + Payload(frames)), Pings(frames), rest)
    decreases |frames|
  {
    FragmentsAreOk(frames);
    FramesUnfold(frames);
    hide ParseFrame, Encoded, Opcode, Final, FrameOk, Scan, Stream, Payload, Pings, Fragments, Carries, Interleaved;
    var f, more := frames[0], frames[1..];
    StreamFront(Encoded(f), Stream(more), rest);
    ParseEncoded(f, Stream(more) + rest);
    ScanStep(Stream(frames) + rest, message);
    if Interleaved(f) {
      ReceivesConcatenation(more, rest, message);
    } else {
      StreamFront(message, f.data, Payload(more));
      if Final(f.first) {
        StreamFront([], [], rest);
      } else {
        ReceivesConcatenation(more, rest, message + f.data);
      }
    }
  }

  lemma StreamFront(a: seq<Byte>, b: seq<Byte>, c: seq<Byte>)
    ensures (a + b) + c == a + (b + c)
    ensures b == [] ==> b + c == c
  {
  }

  lemma FramesUnfold(frames: seq<Frame>)
    requires Fragments(frames) && forall i | 0 <= i < |frames| :: FrameOk(frames[i])
    ensures var f, more := frames[0], frames[1..];
            && Stream(frames) == Encoded(f) + Stream(more)
            && (Interleaved(f) ==>
                  && Fragments(more) && Payload(frames) == Payload(more)
                  && (Opcode(f.first) == PING || Opcode(f.first) == PONG)
                  && Pings(frames) == (if Opcode(f.first) == PING then [f.data] + Pings(more) else Pings(more)))
            && (!Interleaved(f) ==>
                  && Carries(f.first) && Payload(frames) == f.data + Payload(more) && Pings(frames) == Pings(more)
                  && Opcode(f.first) != PING && Opcode(f.first) != PONG
                  && (if Final(f.first) then more == [] && Payload(frames) == f.data && Pings(frames) == []
                      && Stream(more) == [] else Fragments(more)))
  {
    hide Encoded, Opcode, Final;
    var f, more := frames[0], frames[1..];
    assert [] + Payload(more) == Payload(more) && [] + Pings(more) == Pings(more) && f.data + [] == f.data;
  }

  /** And nothing else is read as a message. */
  lemma {:induction false} MessagesAreFragments(stream: seq<Byte>, message: seq<Byte>) returns (frames: seq<Frame>)
    requires Scan(stream, message).ending.Message?
    ensures Fragments(frames) && forall i | 0 <= i < |frames| :: FrameOk(frames[i])
    ensures stream == Stream(frames) + Scan(stream, message).rest
    ensures Scan(stream, message).ending.data == message + Payload(frames)
    ensures Scan(stream, message).pings == Pings(frames)
    decreases |stream|
  {
    hide ParseFrame, Encoded, FrameOk, Opcode, Final;
    var f := GotWasEncoded(stream);
    var rest := ParseFrame(stream).rest;
    var more: seq<Frame> := [];
    if Interleaved(f) {
      more := MessagesAreFragments(rest, message);
      assert [] + Payload(more) == Payload(more);
    } else if !Final(f.first) {
      more := MessagesAreFragments(rest, message + f.data);
      assert message + (f.data + Payload(more)) == (message + f.data) + Payload(more);
    } else {
      assert f.data + Payload(more) == f.data;
    }
    frames := [f] + more;
    assert frames[1..] == more;
    FragmentsAreOk(frames);
    assert Stream(frames) == Encoded(f) + Stream(more);
  }

  // ---- frames from the client ------------------------------------------------------------------

  function Masked(data: seq<Byte>, mask: seq<Byte>): (r: seq<Byte>)
    requires |mask| == 4
    ensures |r| == |data| && forall i | 0 <= i < |data| :: r[i] == Xor(data[i], mask[i % 4])
  {
    seq(|data|, i requires 0 <= i < |data| => Xor(data[i], mask[i % 4]))
  }

  /** Masking is its own inverse (section 5.3). */
  lemma MaskedTwice(data: seq<Byte>, mask: seq<Byte>)
    requires |mask| == 4
    ensures Masked(Masked(data, mask), mask) == data
  {
    var once := Masked(data, mask);
    forall i | 0 <= i < |data|
      ensures Masked(once, mask)[i] == data[i]
    {
      XorTwice(data[i], mask[i % 4]);
    }
  }

  /** What the client said: an opcode, its data, and the mask it drew. */
  datatype Spoken = Spoken(opcode: nat, data: seq<Byte>, mask: seq<Byte>)

  predicate SpokenOk(s: Spoken) {
    s.opcode < 16 && |s.mask| == 4 && |s.data| < 0x1_0000_0000_0000_0000
  }

  function SpokenWidth(length: nat): nat {
    if length < 126 then 0 else if length < 65536 then 2 else 8
  }

  function SpokenCode(length: nat): Byte {
    if length < 126 then length else if length < 65536 then 126 else 127
  }

  /** `frame` */
  function Wire(s: Spoken): seq<Byte>
    requires SpokenOk(s)
  {
    [WithHighBit(s.opcode), WithHighBit(SpokenCode(|s.data|))] + ToBigEndian(|s.data|, SpokenWidth(|s.data|)) + s.mask
        + Masked(s.data, s.mask)
  }

  /** A server reading one masked frame by the standard. */
  function Unframed(wire: seq<Byte>): Parsed {
    if |wire| < 2 then Short
    else if !HighBit(wire[1]) then Refused
    else
      var body := 2 + Width(wire[1]);
      if |wire| < body + 4 then Short
      else
        var length := Length(wire[1], wire[2..body]);
        if |wire| < body + 4 + length then Short
        else Got(wire[0], Masked(wire[body + 4..body + 4 + length], wire[body..body + 4]), wire[body + 4 + length..])
  }

  lemma SpokenSecond(n: nat)
    ensures var second := WithHighBit(SpokenCode(n));
            HighBit(second) && Width(second) == SpokenWidth(n) && (n < 126 ==> Code(second) == n)
  {
  }

  lemma SpokenLength(n: nat)
    requires n < 0x1_0000_0000_0000_0000
    ensures var second := WithHighBit(SpokenCode(n));
            HighBit(second) && Width(second) == SpokenWidth(n) && Length(second, ToBigEndian(n, SpokenWidth(n))) == n
  {
    SpokenSecond(n);
    hide Width, Code, SpokenCode;
    Widths();
    if n >= 126 {
      BigEndianRound(n, SpokenWidth(n));
    }
  }

  lemma UnframedParts(first: Byte, second: Byte, extended: seq<Byte>, mask: seq<Byte>, body: seq<Byte>, rest: seq<Byte>)
    requires HighBit(second) && |extended| == Width(second) && |mask| == 4 && Length(second, extended) == |body|
    ensures Unframed([first, second] + extended + mask + body + rest) == Got(first, Masked(body, mask), rest)
  {
    hide Width, Length, Masked;
    var wire := [first, second] + extended + mask + body + rest;
    var at := 2 + |extended|;
    assert wire[2..at] == extended && wire[at..at + 4] == mask;
    assert wire[at + 4..at + 4 + |body|] == body && wire[at + 4 + |body|..] == rest;
  }

  /** A server decodes what the client framed: the final bit, the opcode and the data, whatever the mask. */
  lemma UnframesToInput(s: Spoken, rest: seq<Byte>)
    requires SpokenOk(s)
    ensures var p := Unframed(Wire(s) + rest);
            p.Got? && Final(p.first) && Opcode(p.first) == s.opcode && p.data == s.data && p.rest == rest
  {
    hide Width, Length, Unframed, ToBigEndian, SpokenCode, SpokenWidth, Final, Opcode;
    var n := |s.data|;
    SpokenLength(n);
    MaskedTwice(s.data, s.mask);
    SpokenFirst(s.opcode);
    UnframedParts(WithHighBit(s.opcode), WithHighBit(SpokenCode(n)), ToBigEndian(n, SpokenWidth(n)), s.mask,
                  Masked(s.data, s.mask), rest);
  }

  lemma SpokenFirst(opcode: nat)
    requires opcode < 16
    ensures Final(WithHighBit(opcode)) && Opcode(WithHighBit(opcode)) == opcode
  {
  }
}

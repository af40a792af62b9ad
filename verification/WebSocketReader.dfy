/** The smoke client's connection: a buffer that `read` extends and cuts, and `receive` looping over it. */
module WebSocketReader {
  import opened HealthEvents
  import opened Bytes
  import opened WebSocketFrames

  const CR: Byte := 13
  const LF: Byte := 10

  predicate BlankLineAt(s: seq<Byte>, i: nat) {
    i + 4 <= |s| && s[i] == CR && s[i + 1] == LF && s[i + 2] == CR && s[i + 3] == LF
  }

  /** The end of the handshake: its first blank line. */
  predicate FirstBlankLine(s: seq<Byte>, i: nat) {
    BlankLineAt(s, i) && forall j | 0 <= j < i :: !BlankLineAt(s, j)
  }

  lemma BlankLinesOfPrefix(s: seq<Byte>, whole: seq<Byte>)
    requires s <= whole
    ensures forall i: nat | i + 4 <= |s| :: BlankLineAt(s, i) <==> BlankLineAt(whole, i)
  {
  }

  method FindBlankLine(s: seq<Byte>) returns (at: Option<nat>)
    ensures at.Some? ==> FirstBlankLine(s, at.value)
    ensures at.None? ==> forall j: nat | j < |s| :: !BlankLineAt(s, j)
  {
    var i := 0;
    while i < |s|
      invariant i <= |s| && forall j: nat | j < i :: !BlankLineAt(s, j)
    {
      if BlankLineAt(s, i) {
        return Some(i);
      }
      i := i + 1;
    }
    return None;
  }

  datatype Head = Head(first: Byte, second: Byte, length: nat)

  datatype Arrival = Ended | Invalid | Arrived(first: Byte, data: seq<Byte>)

  class WebSocket {
    var buffer: seq<Byte>
    var incoming: seq<Byte>             // what the peer sends and the socket has not delivered yet
    var outgoing: seq<Byte>             // what went out
    ghost var said: seq<Spoken>         // the frames it was made of

    /** Everything the client may still read. */
    ghost function Ahead(): seq<Byte>
      reads this
    {
      buffer + incoming
    }

    ghost predicate Valid()
      reads this
    {
      (forall i | 0 <= i < |said| :: SpokenOk(said[i])) && outgoing == WireOf(said)
    }

    constructor (incoming: seq<Byte>)
      ensures Valid() && Ahead() == incoming && said == []
    {
      this.incoming, buffer, outgoing, said := incoming, [], [], [];
      new;
      assert buffer + this.incoming == incoming;
    }

    /** The socket delivers any non-empty part of what is there, up to the size asked for. */
    method Recv(size: nat) returns (chunk: seq<Byte>)
      requires size > 0
      modifies this`incoming
      ensures old(incoming) == chunk + incoming && |chunk| <= size && (old(incoming) != [] ==> chunk != [])
    {
      var n: int := *;
      if n < 1 {
        n := 1;
      }
      if n > size {
        n := size;
      }
      if n > |incoming| {
        n := |incoming|;
      }
      chunk := incoming[..n];
      incoming := incoming[n..];
    }

    /** However the stream is cut into chunks, exactly the next bytes are returned and none is lost. */
    method Read(length: nat) returns (r: Option<seq<Byte>>)
      modifies this`buffer, this`incoming
      ensures r.Some? <==> |old(Ahead())| >= length
      ensures r.Some? ==> r.value == old(Ahead())[..length] && Ahead() == old(Ahead())[length..]
      ensures r.None? ==> Ahead() == old(Ahead())
      ensures r.Some? && |old(buffer)| <= length ==> buffer == []
    {
      while |buffer| < length
        invariant Ahead() == old(Ahead()) && |buffer| <= (if |old(buffer)| <= length then length else |old(buffer)|)
        decreases |incoming|
      {
        ghost var before := buffer;
        var wanted := length - |buffer|;
        var chunk := Recv(if wanted < 65536 then wanted else 65536);
        if chunk == [] {
          return None;
        }
        buffer := buffer + chunk;
        assert before + (chunk + incoming) == buffer + incoming;
      }
      r := Some(buffer[..length]);
      assert Ahead()[..length] == buffer[..length] && Ahead()[length..] == buffer[length..] + incoming;
      buffer := buffer[length..];
    }

    /** Read up to the blank line that ends the handshake; whatever came after it stays in the buffer. */
    method Handshake() returns (header: Option<seq<Byte>>)
      requires buffer == []
      modifies this`buffer, this`incoming
      ensures header.Some? ==>
                && FirstBlankLine(old(incoming), |header.value|)
                && header.value == old(incoming)[..|header.value|]
      ensures header.Some? ==> Ahead() == old(incoming)[|header.value| + 4..]
      ensures header.None? ==> forall i: nat | i + 4 <= 65536 - 4096 :: !BlankLineAt(old(incoming), i)
    {
      var at := FindBlankLine(buffer);
      while at.None?
        invariant Ahead() == old(incoming)
        invariant at.Some? ==> FirstBlankLine(buffer, at.value)
        invariant at.None? ==> forall j: nat | j < |buffer| :: !BlankLineAt(buffer, j)
        invariant at.None? ==> |buffer| <= 65536
        decreases |incoming|, if at.None? then 1 else 0
      {
        ghost var before := buffer;
        BlankLinesOfPrefix(before, old(incoming));
        var chunk := Recv(4096);
        if chunk == [] {
          assert buffer == old(incoming);
          return None;
        }
        buffer := buffer + chunk;
        assert before + (chunk + incoming) == buffer + incoming;
        at := FindBlankLine(buffer);
        if |buffer| > 65536 {
          return None;
        }
      }
      var i := at.value;
      BlankLinesOfPrefix(buffer, old(incoming));
      assert old(incoming)[i + 4..] == buffer[i + 4..] + incoming;
      header := Some(buffer[..i]);
      buffer := buffer[i + 4..];
    }

    /** `frame`: the peer decodes what was meant, whatever mask is drawn. */
    method Frame(opcode: nat, data: seq<Byte>)
      requires Valid() && opcode < 16 && |data| < 0x1_0000_0000_0000_0000
      modifies this`outgoing, this`said
      ensures Valid() && |said| == |old(said)| + 1 && said[..|old(said)|] == old(said)
      ensures said[|old(said)|].opcode == opcode && said[|old(said)|].data == data
    {
      hide Wire, ToBigEndian;
      var a: Byte, b: Byte, c: Byte, d: Byte := *, *, *, *;
      var mask := [a, b, c, d];
      var payload: seq<Byte> := [];
      for i := 0 to |data|
        invariant payload == Masked(data, mask)[..i]
      {
        payload := payload + [Xor(data[i], mask[i % 4])];
      }
      var second := if |data| < 126 then |data| else if |data| < 65536 then 126 else 127;
      var prefix := [WithHighBit(opcode), WithHighBit(second)];
      if |data| >= 126 {
        prefix := prefix + ToBigEndian(|data|, if |data| < 65536 then 2 else 8);
      }
      ghost var spoken := Spoken(opcode, data, mask);
      FramePieces(spoken, prefix, payload);
      WireAppend(said, spoken);
      outgoing := outgoing + (prefix + mask + payload);
      said := said + [spoken];
    }

    /** The first two bytes of a frame and its length. */
    method ReadHead() returns (h: Option<Head>)
      modifies this`buffer, this`incoming
      ensures var stream := old(Ahead());
              && (h.Some? <==> |stream| >= 2 && |stream| >= 2 + Width(stream[1]))
              && (h.Some? ==>
                    && h.value == Head(stream[0], stream[1], Length(stream[1], stream[2..2 + Width(stream[1])]))
                    && Ahead() == stream[2 + Width(stream[1])..])
    {
      hide BigEndian;
      ghost var stream := Ahead();
      var two := Read(2);
      if two.None? {
        return None;
      }
      var first, second := two.value[0], two.value[1];
      var length := Code(second);
      if length == 126 || length == 127 {
        var extended := Read(if length == 126 then 2 else 8);
        if extended.None? {
          return None;
        }
        length := BigEndian(extended.value);
        assert extended.value == stream[2..2 + Width(second)];
      }
      return Some(Head(first, second, length));
    }

    /** One frame of the server: its first byte and its data. */
    method ReadFrame() returns (p: Arrival)
      modifies this`buffer, this`incoming
      ensures p.Ended? <==> ParseFrame(old(Ahead())).Short?
      ensures p.Invalid? <==> ParseFrame(old(Ahead())).Refused?
      ensures p.Arrived? ==> ParseFrame(old(Ahead())) == Got(p.first, p.data, Ahead())
    {
      hide BigEndian, Width, Length, Refuses;
      ghost var stream := Ahead();
      var h := ReadHead();
      if h.None? {
        return Ended;
      }
      if Refuses(h.value.second, h.value.length) {
        return Invalid;
      }
      ghost var body := 2 + Width(h.value.second);
      var data := Read(h.value.length);
      if data.None? {
        return Ended;
      }
      assert stream[body..][..h.value.length] == stream[body..body + h.value.length];
      assert stream[body..][h.value.length..] == stream[body + h.value.length..];
      return Arrived(h.value.first, data.value);
    }

    /** What one frame does to the message under way. */
    method Take(first: Byte, data: seq<Byte>, message: seq<Byte>, ghost stream: seq<Byte>)
      returns (end: Option<Ending>, next: seq<Byte>)
      requires Valid() && ParseFrame(stream) == Got(first, data, Ahead())
      modifies this`outgoing, this`said
      ensures Valid() && |data| <= MAX_FRAME && |Ahead()| < |stream|
      ensures Answers(said, old(said), PingIn(first, data, end))
      ensures end.Some? ==> Scan(stream, message) == Scanned(end.value, [], Ahead())
      ensures end.None? ==> Scan(stream, message) == After(PingIn(first, data, end), Scan(Ahead(), next))
    {
      ParsedShrinks(stream);
      hide ParseFrame, Opcode, Final;
      var opcode := Opcode(first);
      next := message;
      if opcode == CLOSE {
        return Some(Closed), next;
      }
      if opcode == PING {
        Frame(PONG, data);
        return None, next;
      }
      AfterNone(Scan(Ahead(), message));
      if opcode == PONG {
        return None, next;
      }
      if !Carries(first) {
        return Some(BadOpcode), next;
      }
      next := message + data;
      AfterNone(Scan(Ahead(), next));
      if |next| > MAX_FRAME {
        return Some(TooLong), next;
      }
      return if Final(first) then Some(Message(next)) else None, next;
    }

    /** `receive`: one message from whatever chunks arrive, with the pings on the way answered. */
    method Receive() returns (r: Ending)
      requires Valid()
      modifies this`buffer, this`incoming, this`outgoing, this`said
      ensures Valid() && r == Scan(old(Ahead()), []).ending
      ensures Answers(said, old(said), Scan(old(Ahead()), []).pings)
      ensures r.Message? ==> Ahead() == Scan(old(Ahead()), []).rest
    {
      hide ParseFrame, Opcode, Final;
      var message: seq<Byte> := [];
      ghost var answered: seq<seq<Byte>> := [];
      ghost var whole := Scan(Ahead(), []);
      AfterNone(whole);
      while true
        invariant Valid() && Answers(said, old(said), answered)
        invariant whole == After(answered, Scan(Ahead(), message))
        decreases |Ahead()|
      {
        ghost var stream, before := Ahead(), said;
        assert answered + [] == answered;
        var p := ReadFrame();
        if p.Ended? {
          return Truncated;
        }
        if p.Invalid? {
          return BadFrame;
        }
        hide Scan;
        var end, next := Take(p.first, p.data, message, stream);
        AnswersTrans(said, before, old(said), answered, PingIn(p.first, p.data, end));
        if end.Some? {
          return end.value;
        }
        message := next;
        ghost var more := PingIn(p.first, p.data, end);
        AfterTwice(answered, more, Scan(Ahead(), message));
        answered := answered + more;
      }
    }

    /** Whatever the chunks, a message in fragments with control frames between them arrives whole, its
        pings are answered with their payloads in order, and the bytes after it are still there. */
    method ReceiveFragments(ghost frames: seq<WebSocketFrames.Frame>, ghost rest: seq<Byte>) returns (r: Ending)
      requires Valid() && Fragments(frames) && |Payload(frames)| <= MAX_FRAME
      requires forall i | 0 <= i < |frames| :: FrameOk(frames[i])
      requires Ahead() == Stream(frames) + rest
      modifies this`buffer, this`incoming, this`outgoing, this`said
      ensures Valid() && r == Message(Payload(frames)) && Ahead() == rest
      ensures Answers(said, old(said), Pings(frames))
    {
      ReceivesConcatenation(frames, rest, []);
      assert [] + Payload(frames) == Payload(frames);
      r := Receive();
    }
  }

  predicate IsPong(s: Spoken, ping: seq<Byte>) {
    s.opcode == PONG && s.data == ping
  }

  /** The client said exactly one pong per ping since, each with its payload. */
  ghost predicate Answers(said: seq<Spoken>, before: seq<Spoken>, pings: seq<seq<Byte>>) {
    && before <= said && |said| == |before| + |pings|
    && forall i | 0 <= i < |pings| :: IsPong(said[|before|..][i], pings[i])
  }

  ghost function After(answered: seq<seq<Byte>>, s: Scanned): Scanned {
    s.(pings := answered + s.pings)
  }

  /** The ping a frame is, if reading goes on after it. */
  function PingIn(first: Byte, data: seq<Byte>, end: Option<Ending>): seq<seq<Byte>> {
    if end.None? && Opcode(first) == PING then [data] else []
  }

  lemma AfterNone(s: Scanned)
    ensures After([], s) == s
  {
    assert [] + s.pings == s.pings;
  }

  lemma AfterTwice(a: seq<seq<Byte>>, b: seq<seq<Byte>>, s: Scanned)
    ensures After(a, After(b, s)) == After(a + b, s)
  {
    assert a + (b + s.pings) == (a + b) + s.pings;
  }

  lemma AnswersTrans(said: seq<Spoken>, middle: seq<Spoken>, before: seq<Spoken>, a: seq<seq<Byte>>, b: seq<seq<Byte>>)
    requires Answers(said, middle, b) && Answers(middle, before, a)
    ensures Answers(said, before, a + b)
  {
    assert said[|before|..] == middle[|before|..] + said[|middle|..];
    forall i | 0 <= i < |a + b|
      ensures IsPong(said[|before|..][i], (a + b)[i])
    {
      if i < |a| {
        assert IsPong(middle[|before|..][i], a[i]);
      } else {
        assert IsPong(said[|middle|..][i - |a|], b[i - |a|]);
      }
    }
  }

  lemma ParsedShrinks(stream: seq<Byte>)
    ensures ParseFrame(stream).Got? ==> |ParseFrame(stream).rest| < |stream| && |ParseFrame(stream).data| <= MAX_FRAME
  {
  }

  /** The pieces `frame` sends, put together. */
  lemma FramePieces(s: Spoken, prefix: seq<Byte>, payload: seq<Byte>)
    requires SpokenOk(s) && payload == Masked(s.data, s.mask)[..|s.data|]
    requires prefix == [WithHighBit(s.opcode), WithHighBit(SpokenCode(|s.data|))]
                       + if |s.data| >= 126 then ToBigEndian(|s.data|, if |s.data| < 65536 then 2 else 8) else []
    ensures prefix + s.mask + payload == Wire(s)
  {
    hide Masked, SpokenCode;
    assert payload == Masked(s.data, s.mask);
    if |s.data| < 126 {
      assert ToBigEndian(|s.data|, 0) == [];
      assert [WithHighBit(s.opcode), WithHighBit(SpokenCode(|s.data|))] + []
          == [WithHighBit(s.opcode), WithHighBit(SpokenCode(|s.data|))];
    }
  }

  // ---- everything the client said --------------------------------------------------------------

  function WireOf(said: seq<Spoken>): seq<Byte>
    requires forall i | 0 <= i < |said| :: SpokenOk(said[i])
  {
    if said == [] then [] else WireOf(said[..|said| - 1]) + Wire(said[|said| - 1])
  }

  lemma WireAppend(said: seq<Spoken>, s: Spoken)
    requires (forall i | 0 <= i < |said| :: SpokenOk(said[i])) && SpokenOk(s)
    ensures WireOf(said + [s]) == WireOf(said) + Wire(s)
  {
    assert (said + [s])[..|said|] == said;
  }

  datatype Heard = Heard(opcode: nat, data: seq<Byte>)

  /** What a server decodes from everything the client sent, and the bytes it is left with. */
  function HearAll(wire: seq<Byte>): (seq<Heard>, seq<Byte>) {
    match Unframed(wire)
    case Got(first, data, rest) =>
      if |rest| < |wire| then
        var (later, unread) := HearAll(rest);
        ([Heard(Opcode(first), data)] + later, unread)
      else ([], wire)
    case _ => ([], wire)
  }

  function Meant(said: seq<Spoken>): seq<Heard> {
    if said == [] then [] else [Heard(said[0].opcode, said[0].data)] + Meant(said[1..])
  }

  lemma {:induction false} WireFromFront(said: seq<Spoken>)
    requires said != [] && forall i | 0 <= i < |said| :: SpokenOk(said[i])
    ensures WireOf(said) == Wire(said[0]) + WireOf(said[1..])
  {
    hide Wire;
    if |said| == 1 {
      assert said[..0] == [] && said[1..] == [];
    } else {
      var init := said[..|said| - 1];
      WireFromFront(init);
      assert init[1..] == said[1..][..|said| - 2];
    }
  }

  /** The server hears exactly the frames that were meant, in order, and no byte is left over. */
  lemma {:induction false} HearsWhatWasMeant(said: seq<Spoken>)
    requires forall i | 0 <= i < |said| :: SpokenOk(said[i])
    ensures HearAll(WireOf(said)) == (Meant(said), [])
  {
    if said != [] {
      hide Wire, Unframed, Opcode;
      WireFromFront(said);
      UnframesToInput(said[0], WireOf(said[1..]));
      assert |Wire(said[0])| > 0 by {
        WireIsLong(said[0]);
      }
      HearsWhatWasMeant(said[1..]);
    } else {
      assert Unframed([]).Short?;
    }
  }

  lemma WireIsLong(s: Spoken)
    requires SpokenOk(s)
    ensures |Wire(s)| >= 6
  {
  }
}

/**
 A message as frames: the content header and the body pieces a session writes,
 and the decoder that puts an arriving message together and stages it.
 */
module AmqpContent {
  import opened Common
  import opened AmqpWire

  const BasicClass: nat := 60
  const EmptyProperties: seq<Octet> := [0, 0]
  const MinimumFrameMax: nat := 4096
  const ProposedFrameMax: nat := 131072

  const FrameError: nat := 501
  const SyntaxError: nat := 502
  const UnexpectedFrame: nat := 505

  // ----- the agreed frame maximum -----

  /** The client's answer to the proposal: zero leaves it as it is, and it can only be lowered, to a floor. */
  function Agree(asked: nat): (r: Option<nat>)
    ensures r == None <==> 0 < asked < MinimumFrameMax
    ensures r.Some? ==> Agreed(r.value) && (asked != 0 ==> r.value <= asked)
  {
    if asked != 0 && asked < MinimumFrameMax then None
    else if asked == 0 || asked > ProposedFrameMax then Some(ProposedFrameMax)
    else Some(asked)
  }

  predicate Agreed(max: nat) {
    MinimumFrameMax <= max <= ProposedFrameMax
  }

  // ----- sending -----

  datatype Message = Message(exchange: string, key: string, properties: seq<Octet>, body: seq<Octet>)

  /** The property block that goes on the wire. */
  function Sent(properties: seq<Octet>): seq<Octet> {
    if properties == [] then EmptyProperties else properties
  }

  function HeaderPayload(m: Message): seq<Octet> {
    Put(BasicClass, 2) + Put(0, 2) + Put(|m.body|, 8) + Sent(m.properties)
  }

  function Head(body: seq<Octet>, limit: nat): seq<Octet> {
    if |body| < limit then body else body[..limit]
  }

  function BodyFrames(channel: nat, body: seq<Octet>, limit: nat): seq<Frame>
    requires limit > 0
    decreases |body|
  {
    if body == [] then []
    else [Frame(BodyFrame, channel, Head(body, limit))] + BodyFrames(channel, body[|Head(body, limit)|..], limit)
  }

  function ContentFrames(channel: nat, m: Message, max: nat): seq<Frame>
    requires max > FrameOverhead
  {
    [Frame(HeaderFrame, channel, HeaderPayload(m))] + BodyFrames(channel, m.body, max - FrameOverhead)
  }

  function Encoded(frames: seq<Frame>): seq<Octet> {
    if frames == [] then [] else EncodeFrame(frames[0]) + Encoded(frames[1..])
  }

  /** Every body frame carries something and fits the maximum, end to end. */
  lemma {:induction false} BodyFramesFit(channel: nat, body: seq<Octet>, max: nat)
    requires max > FrameOverhead
    ensures forall f :: f in BodyFrames(channel, body, max - FrameOverhead) ==>
              f.kind == BodyFrame && f.channel == channel && f.payload != [] && |EncodeFrame(f)| <= max
    decreases |body|
  {
    if body != [] {
      BodyFramesFit(channel, body[|Head(body, max - FrameOverhead)|..], max);
    }
  }

  // ----- receiving -----

  /** A message that has not finished arriving. */
  datatype Publishing = Publishing(channel: nat, message: Message, mandatory: bool, size: nat)

  datatype Task = Publish(channel: nat, message: Message, mandatory: bool)

  /** What a session knows of arriving content: the failure is what it gave the stream up for. */
  datatype Decoder = Decoder(pending: Option<Publishing>, staged: seq<Task>, failure: Option<nat>)

  function Fatal(s: Decoder, code: nat): Decoder {
    s.(failure := Some(code))
  }

  function Complete(s: Decoder): Decoder
    requires s.pending.Some?
  {
    var p := s.pending.value;
    if |p.message.body| < p.size then s
    else s.(pending := None, staged := s.staged + [Publish(p.channel, p.message, p.mandatory)])
  }

  predicate Expected(s: Decoder, f: Frame) {
    s.pending.Some? && s.pending.value.channel == f.channel
  }

  function ContentHeader(s: Decoder, f: Frame): Decoder {
    if !Expected(s, f) then Fatal(s, UnexpectedFrame)
    else if |f.payload| < 12 || Get(f.payload[..2]) != BasicClass then Fatal(s, SyntaxError)
    else
      var p := s.pending.value;
      Complete(s.(pending := Some(p.(size := Get(f.payload[4..12]), message := p.message.(properties := f.payload[12..])))))
  }

  function ContentBody(s: Decoder, f: Frame): Decoder {
    if !Expected(s, f) then Fatal(s, UnexpectedFrame)
    else
      var p := s.pending.value;
      var grown := s.(pending := Some(p.(message := p.message.(body := p.message.body + f.payload))));
      if |p.message.body + f.payload| > p.size then Fatal(grown, FrameError) else Complete(grown)
  }

  /** One frame; what a method frame or a heartbeat does is not content. */
  function Receive(s: Decoder, f: Frame): Decoder {
    if s.failure.Some? then s
    else if f.kind == HeaderFrame then ContentHeader(s, f)
    else if f.kind == BodyFrame then ContentBody(s, f)
    else if f.kind == MethodFrame || f.kind == HeartbeatFrame then s
    else Fatal(s, FrameError)
  }

  /** The code a frame is refused with. */
  predicate RefusedWith(s: Decoder, f: Frame, failure: Option<nat>) {
    var awaited := s.pending.Some? && s.pending.value.channel == f.channel;
    if f.kind == 1 || f.kind == 8 then failure == None
    else if f.kind != 2 && f.kind != 3 then failure == Some(501)
    else if !awaited then failure == Some(505)
    else if f.kind == 2 then
      failure == if |f.payload| >= 12 && f.payload[0] == 0 && f.payload[1] == 60 then None else Some(502)
    else failure == if |s.pending.value.message.body| + |f.payload| > s.pending.value.size then Some(501) else None
  }

  lemma ClassOctets(payload: seq<Octet>)
    requires |payload| >= 2
    ensures Get(payload[..2]) == 60 <==> payload[0] == 0 && payload[1] == 60
  {
    var two := payload[..2];
    assert Get(two[..1][..0]) == 0;
    assert Get(two[..1]) == payload[0];
  }

  /** Content nobody announced, a header too short or of another class, and a body over its size are refused, each with its code, and a refused frame stages nothing. */
  lemma ReceiveRefuses(s: Decoder, f: Frame)
    requires s.failure == None
    ensures RefusedWith(s, f, Receive(s, f).failure)
    ensures Receive(s, f).failure.Some? ==> Receive(s, f).staged == s.staged
  {
    if |f.payload| >= 2 {
      ClassOctets(f.payload);
    }
  }

  function Feed(s: Decoder, frames: seq<Frame>): Decoder
    decreases |frames|
  {
    if frames == [] then s else Feed(Receive(s, frames[0]), frames[1..])
  }

  /** The whole stream, up to its end or the first frame it cannot be followed past. */
  function Follow(s: Decoder, bytes: seq<Octet>, limit: nat): Decoder
    decreases |bytes|
  {
    var read := ReadFrame(bytes, limit);
    if s.failure.Some? then s
    else if read.Got? then Follow(Receive(s, read.frame), read.rest, limit)
    else if read.Refused? then Fatal(s, FrameError)
    else s
  }

  // ----- the round trip -----

  /** A publish has been announced on the channel, and no content of it has arrived. */
  predicate Announced(s: Decoder, channel: nat) {
    && s.failure == None && s.pending.Some?
    && s.pending.value.channel == channel && s.pending.value.size == 0
    && s.pending.value.message.body == []
  }

  /** The decoder waits for the rest of a message of which part has arrived. */
  predicate Waiting(s: Decoder, channel: nat, rest: seq<Octet>) {
    && s.failure == None && s.pending.Some? && s.pending.value.channel == channel
    && rest != [] && |s.pending.value.message.body| + |rest| == s.pending.value.size
  }

  function Staged(s: Decoder, p: Publishing, properties: seq<Octet>, body: seq<Octet>): Decoder {
    s.(pending := None, staged := s.staged + [Publish(p.channel, p.message.(properties := properties, body := body), p.mandatory)])
  }

  lemma BodyStep(s: Decoder, channel: nat, piece: seq<Octet>, rest: seq<Octet>)
    requires Waiting(s, channel, piece + rest) && piece != []
    ensures var p := s.pending.value;
            var after := Receive(s, Frame(BodyFrame, channel, piece));
            var body := p.message.body + piece;
            if rest == [] then after == Staged(s, p, p.message.properties, body)
            else after == s.(pending := Some(p.(message := p.message.(body := body)))) && Waiting(after, channel, rest)
  {
  }

  /** The frames of the rest of a body stage the message on the last of them. */
  lemma {:induction false} FeedBody(s: Decoder, channel: nat, rest: seq<Octet>, limit: nat)
    requires Waiting(s, channel, rest) && limit > 0
    ensures var p := s.pending.value;
            Feed(s, BodyFrames(channel, rest, limit)) == Staged(s, p, p.message.properties, p.message.body + rest)
    decreases |rest|
  {
    var piece, left := Head(rest, limit), rest[|Head(rest, limit)|..];
    assert piece + left == rest;
    BodyStep(s, channel, piece, left);
    if left == [] {
      assert piece == rest;
      assert BodyFrames(channel, left, limit) == [];
    } else {
      var after := Receive(s, Frame(BodyFrame, channel, piece));
      FeedBody(after, channel, left, limit);
      assert s.pending.value.message.body + piece + left == s.pending.value.message.body + rest;
    }
  }

  /** No proper part of those frames stages anything. */
  lemma {:induction false} FeedPart(s: Decoder, channel: nat, rest: seq<Octet>, limit: nat, k: nat)
    requires Waiting(s, channel, rest) && limit > 0 && k < |BodyFrames(channel, rest, limit)|
    ensures var part := Feed(s, BodyFrames(channel, rest, limit)[..k]);
            part.staged == s.staged && part.pending.Some? && part.failure == None
    decreases k
  {
    if k > 0 {
      var frames := BodyFrames(channel, rest, limit);
      var piece, left := Head(rest, limit), rest[|Head(rest, limit)|..];
      assert piece + left == rest;
      BodyStep(s, channel, piece, left);
      FeedPart(Receive(s, Frame(BodyFrame, channel, piece)), channel, left, limit, k - 1);
      assert frames[..k][1..] == BodyFrames(channel, left, limit)[..k - 1];
    }
  }

  lemma HeaderLayout(m: Message)
    requires |m.body| < 0x1_0000_0000_0000_0000
    ensures var payload := HeaderPayload(m);
            && |payload| == 12 + |Sent(m.properties)| && Get(payload[..2]) == BasicClass
            && Get(payload[4..12]) == |m.body| && payload[12..] == Sent(m.properties)
  {
    var payload := HeaderPayload(m);
    assert payload[..2] == Put(BasicClass, 2) && payload[4..12] == Put(|m.body|, 8);
    Spans();
    GetPut(BasicClass, 2);
    GetPut(|m.body|, 8);
  }

  lemma HeaderStep(s: Decoder, channel: nat, m: Message)
    requires Announced(s, channel) && |m.body| < 0x1_0000_0000_0000_0000
    ensures var p := s.pending.value;
            var after := Receive(s, Frame(HeaderFrame, channel, HeaderPayload(m)));
            if m.body == [] then after == Staged(s, p, Sent(m.properties), [])
            else
              && after == s.(pending := Some(p.(size := |m.body|, message := p.message.(properties := Sent(m.properties)))))
              && Waiting(after, channel, m.body)
  {
    HeaderLayout(m);
  }

  /** The frames of a message stage it, whole, when all of them have arrived. */
  lemma FeedContent(s: Decoder, channel: nat, m: Message, max: nat)
    requires Announced(s, channel) && |m.body| < 0x1_0000_0000_0000_0000 && max > FrameOverhead
    ensures Feed(s, ContentFrames(channel, m, max)) == Staged(s, s.pending.value, Sent(m.properties), m.body)
  {
    HeaderStep(s, channel, m);
    var after := Receive(s, Frame(HeaderFrame, channel, HeaderPayload(m)));
    var bodies := BodyFrames(channel, m.body, max - FrameOverhead);
    assert ContentFrames(channel, m, max)[1..] == bodies;
    if m.body != [] {
      FeedBody(after, channel, m.body, max - FrameOverhead);
      assert [] + m.body == m.body;
    }
  }

  /** Exactly one publish, on the last frame: before it, nothing is staged and nothing has failed. */
  lemma StagedOnLastFrame(s: Decoder, channel: nat, m: Message, max: nat, k: nat)
    requires Announced(s, channel) && |m.body| < 0x1_0000_0000_0000_0000 && max > FrameOverhead
    requires k < |ContentFrames(channel, m, max)|
    ensures var part := Feed(s, ContentFrames(channel, m, max)[..k]);
            part.staged == s.staged && part.pending.Some? && part.failure == None
  {
    if k > 0 {
      HeaderStep(s, channel, m);
      var bodies := BodyFrames(channel, m.body, max - FrameOverhead);
      assert ContentFrames(channel, m, max)[..k][1..] == bodies[..k - 1];
      FeedPart(Receive(s, Frame(HeaderFrame, channel, HeaderPayload(m))), channel, m.body, max - FrameOverhead, k - 1);
    }
  }

  // ----- over the wire -----

  predicate Carried(f: Frame, limit: nat) {
    f.channel < 0x1_0000 && |f.payload| <= limit
  }

  lemma {:induction false} FeedFailed(s: Decoder, frames: seq<Frame>)
    requires s.failure.Some?
    ensures Feed(s, frames) == s
    decreases |frames|
  {
    if frames != [] {
      FeedFailed(s, frames[1..]);
    }
  }

  lemma {:induction false} FollowEncoded(s: Decoder, frames: seq<Frame>, limit: nat)
    requires limit < 0x1_0000_0000 && forall f :: f in frames ==> Carried(f, limit)
    ensures Follow(s, Encoded(frames), limit) == Feed(s, frames)
    decreases |frames|
  {
    if s.failure.Some? {
      FeedFailed(s, frames);
    } else if frames != [] {
      assert Carried(frames[0], limit);
      ReadEncoded(frames[0], Encoded(frames[1..]), limit);
      FollowEncoded(Receive(s, frames[0]), frames[1..], limit);
    }
  }

  /** Whatever bytes arrive, no message is staged, or left to finish, with a property block the frame maximum has no room for. */
  ghost predicate Roomy(s: Decoder, limit: nat) {
    && (forall t :: t in s.staged ==> |t.message.properties| + 12 <= limit)
    && (s.pending.Some? ==> |s.pending.value.message.properties| + 12 <= limit)
  }

  lemma ReceiveRoomy(s: Decoder, f: Frame, limit: nat)
    requires Roomy(s, limit) && |f.payload| <= limit
    ensures Roomy(Receive(s, f), limit)
  {
  }

  lemma {:induction false} FollowRoomy(s: Decoder, bytes: seq<Octet>, limit: nat)
    requires Roomy(s, limit)
    ensures Roomy(Follow(s, bytes, limit), limit)
    decreases |bytes|
  {
    var read := ReadFrame(bytes, limit);
    if s.failure == None && read.Got? {
      ReceiveRoomy(s, read.frame, limit);
      FollowRoomy(Receive(s, read.frame), read.rest, limit);
    }
  }

  /**
   The bytes of a message, read back, stage that message and nothing else if and
   only if its content header fits the frame maximum: the body is split to fit,
   the header never is.
   */
  lemma ContentRoundTrip(s: Decoder, channel: nat, m: Message, max: nat)
    requires Announced(s, channel) && Roomy(s, max) && Agreed(max)
    requires channel < 0x1_0000 && |m.body| < 0x1_0000_0000_0000_0000
    ensures Follow(s, Encoded(ContentFrames(channel, m, max)), max) == Staged(s, s.pending.value, Sent(m.properties), m.body)
       <==> 12 + |Sent(m.properties)| <= max
  {
    var frames := ContentFrames(channel, m, max);
    FollowRoomy(s, Encoded(frames), max);
    var staged := Staged(s, s.pending.value, Sent(m.properties), m.body);
    if 12 + |Sent(m.properties)| <= max {
      FramesCarried(channel, m, max);
      FollowEncoded(s, frames, max);
      FeedContent(s, channel, m, max);
    } else {
      assert staged.staged[|s.staged|] in staged.staged;
      assert !Roomy(staged, max);
    }
  }

  lemma FramesCarried(channel: nat, m: Message, max: nat)
    requires Agreed(max) && channel < 0x1_0000 && 12 + |Sent(m.properties)| <= max
    ensures forall f :: f in ContentFrames(channel, m, max) ==> Carried(f, max)
  {
    BodyFramesFit(channel, m.body, max);
    assert |HeaderPayload(m)| <= max;
  }

  // ----- the session -----

  class Session {
    var pending: Option<Publishing>
    var staged: seq<Task>
    var failure: Option<nat>
    var outgoing: seq<Octet>
    const frameMax: nat

    ghost function Abs(): Decoder
      reads this
    {
      Decoder(pending, staged, failure)
    }

    constructor (frameMax: nat)
      ensures this.frameMax == frameMax && outgoing == [] && Abs() == Decoder(None, [], None)
    {
      this.frameMax := frameMax;
      pending, staged, failure, outgoing := None, [], None, [];
    }

    method Send(f: Frame)
      modifies this`outgoing
      ensures outgoing == old(outgoing) + EncodeFrame(f)
    {
      outgoing := outgoing + EncodeFrame(f);
    }

    /** Writes the frames a message is. */
    method SendContent(channel: nat, m: Message)
      requires Agreed(frameMax)
      modifies this`outgoing
      ensures outgoing == old(outgoing) + Encoded(ContentFrames(channel, m, frameMax))
    {
      var properties := m.properties;
      if |properties| == 0 {
        properties := EmptyProperties;
      }
      var header := new Writer();
      header.Number(BasicClass, 2);
      header.Number(0, 2);
      header.Number(|m.body|, 8);
      header.Raw(properties);
      assert header.out == HeaderPayload(m);
      Send(Frame(HeaderFrame, channel, header.out));

      var limit := frameMax - FrameOverhead;
      ghost var before := outgoing;
      SendBody(channel, m.body, limit);
      ghost var frames := ContentFrames(channel, m, frameMax);
      assert frames[1..] == BodyFrames(channel, m.body, limit);
      assert Encoded(frames) == EncodeFrame(frames[0]) + Encoded(frames[1..]);
      assert outgoing == old(outgoing) + EncodeFrame(frames[0]) + Encoded(frames[1..]);
    }

    method SendBody(channel: nat, body: seq<Octet>, limit: nat)
      requires limit > 0
      modifies this`outgoing
      ensures outgoing == old(outgoing) + Encoded(BodyFrames(channel, body, limit))
    {
      var start := 0;
      assert body[0..] == body;
      while start < |body|
        invariant 0 <= start && Sending(channel, body, start, limit, outgoing, old(outgoing))
        decreases |body| - start
      {
        var end := if start + limit < |body| then start + limit else |body|;
        SendingStep(channel, body, start, limit, outgoing, old(outgoing));
        Send(Frame(BodyFrame, channel, body[start..end]));
        start := start + limit;
      }
    }

    method PublishComplete()
      requires pending.Some?
      modifies this`pending, this`staged
      ensures Abs() == Complete(old(Abs()))
    {
      if |pending.value.message.body| < pending.value.size {
        return;
      }
      var arrived := pending.value;
      pending := None;
      staged := staged + [Publish(arrived.channel, arrived.message, arrived.mandatory)];
    }

    method TakeHeader(f: Frame)
      modifies this`pending, this`staged, this`failure
      ensures Abs() == ContentHeader(old(Abs()), f)
    {
      if pending.None? || pending.value.channel != f.channel {
        failure := Some(UnexpectedFrame);
        return;
      }
      var reader := new Reader(f.payload);
      var class_ := reader.Number(2);
      var _ := reader.Number(2);
      var size := reader.Number(8);
      var properties := reader.Rest();
      assert !reader.truncated ==> f.payload[0..2] == f.payload[..2];
      if reader.truncated || class_ != BasicClass {
        failure := Some(SyntaxError);
        return;
      }
      pending := Some(pending.value.(size := size, message := pending.value.message.(properties := properties)));
      PublishComplete();
    }

    method TakeBody(f: Frame)
      modifies this`pending, this`staged, this`failure
      ensures Abs() == ContentBody(old(Abs()), f)
    {
      if pending.None? || pending.value.channel != f.channel {
        failure := Some(UnexpectedFrame);
        return;
      }
      var message := pending.value.message;
      pending := Some(pending.value.(message := message.(body := message.body + f.payload)));
      if |pending.value.message.body| > pending.value.size {
        failure := Some(FrameError);
        return;
      }
      PublishComplete();
    }

    /** Reads the stream frame by frame to its end, or to the frame it is given up for. */
    method Serve(bytes: seq<Octet>)
      requires failure == None
      modifies this`pending, this`staged, this`failure
      ensures Abs() == Follow(old(Abs()), bytes, frameMax)
    {
      var left := bytes;
      while true
        invariant Follow(Abs(), left, frameMax) == Follow(old(Abs()), bytes, frameMax)
        invariant failure == None
        decreases |left|
      {
        var read := ReadFrame(left, frameMax);
        if read.Short? {
          return;
        }
        if read.Refused? {
          failure := Some(FrameError);
          return;
        }
        left := read.rest;
        if read.frame.kind == HeaderFrame {
          TakeHeader(read.frame);
        } else if read.frame.kind == BodyFrame {
          TakeBody(read.frame);
        } else if read.frame.kind != MethodFrame && read.frame.kind != HeartbeatFrame {
          failure := Some(FrameError);
        }
        if failure.Some? {
          return;
        }
      }
    }
  }

  /** What is written, and the frames of what is left, are the frames of the whole body. */
  ghost predicate Sending(channel: nat, body: seq<Octet>, start: nat, limit: nat, sent: seq<Octet>, before: seq<Octet>)
    requires limit > 0
  {
    var left := if start < |body| then body[start..] else [];
    sent + Encoded(BodyFrames(channel, left, limit)) == before + Encoded(BodyFrames(channel, body, limit))
  }

  lemma SendingStep(channel: nat, body: seq<Octet>, start: nat, limit: nat, sent: seq<Octet>, before: seq<Octet>)
    requires start < |body| && limit > 0 && Sending(channel, body, start, limit, sent, before)
    ensures var end := if start + limit < |body| then start + limit else |body|;
            Sending(channel, body, start + limit, limit, sent + EncodeFrame(Frame(BodyFrame, channel, body[start..end])), before)
  {
    BodyFramesStep(channel, body, start, if start + limit < |body| then start + limit else |body|, limit, sent);
  }

  lemma BodyFramesStep(channel: nat, body: seq<Octet>, start: nat, end: nat, limit: nat, sent: seq<Octet>)
    requires start < |body| && limit > 0 && end == if start + limit < |body| then start + limit else |body|
    ensures sent + Encoded(BodyFrames(channel, body[start..], limit)) ==
            sent + EncodeFrame(Frame(BodyFrame, channel, body[start..end])) + Encoded(BodyFrames(channel, body[end..], limit))
  {
    var rest := body[start..];
    assert Head(rest, limit) == body[start..end] && rest[end - start..] == body[end..];
    var frames := BodyFrames(channel, rest, limit);
    assert frames[1..] == BodyFrames(channel, body[end..], limit);
  }
}

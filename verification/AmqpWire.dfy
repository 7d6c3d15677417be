/**
 AMQP fields and frames as octets: big-endian numbers, the reader that remembers
 it ran off the end, the writer, and one frame as the bytes it is on the wire.
 */
module AmqpWire {

  type Octet = x: int | 0 <= x < 256

  // ----- big-endian numbers -----

  /** How many values fit in so many octets. */
  function Span(width: nat): (n: nat)
    ensures n > 0
  {
    if width == 0 then 1 else 256 * Span(width - 1)
  }

  /** The lowest octets of a number, highest first: what does not fit is dropped. */
  function Put(value: nat, width: nat): (out: seq<Octet>)
    ensures |out| == width
  {
    if width == 0 then [] else Put(value / 256, width - 1) + [value % 256]
  }

  function Get(octets: seq<Octet>): nat {
    if octets == [] then 0 else Get(octets[..|octets| - 1]) * 256 + octets[|octets| - 1]
  }

  lemma {:induction false} GetPut(value: nat, width: nat)
    requires value < Span(width)
    ensures Get(Put(value, width)) == value
  {
    if width > 0 {
      GetPut(value / 256, width - 1);
      assert Put(value, width)[..width - 1] == Put(value / 256, width - 1);
    }
  }

  lemma {:induction false} PutGet(octets: seq<Octet>)
    ensures Get(octets) < Span(|octets|) && Put(Get(octets), |octets|) == octets
  {
    if octets != [] {
      var front, last := octets[..|octets| - 1], octets[|octets| - 1];
      PutGet(front);
      var value := Get(octets);
      assert value == Get(front) * 256 + last;
      assert value / 256 == Get(front) && value % 256 == last;
      assert octets == front + [last];
    }
  }

  lemma Spans()
    ensures Span(2) == 0x1_0000 && Span(4) == 0x1_0000_0000 && Span(8) == 0x1_0000_0000_0000_0000
  {
    assert Span(1) == 256;
    assert Span(3) == 256 * Span(2);
    assert Span(5) == 256 * Span(4) && Span(6) == 256 * Span(5) && Span(7) == 256 * Span(6);
  }

  // ----- the reader and the writer -----

  /** Takes fields off a payload, and remembers that one of them was not there. */
  class Reader {
    const data: seq<Octet>
    var at: nat
    var truncated: bool

    ghost predicate Valid()
      reads this
    {
      at <= |data|
    }

    constructor (data: seq<Octet>)
      ensures Valid() && this.data == data && at == 0 && !truncated
    {
      this.data, at, truncated := data, 0, false;
    }

    /** The bytes themselves, or zeros, at most eight, once anything was missing. */
    method Take(count: nat) returns (taken: seq<Octet>)
      requires Valid()
      modifies this
      ensures Valid()
      ensures truncated == (old(truncated) || old(at) + count > |data|)
      ensures !truncated ==> at == old(at) + count && taken == data[old(at)..at]
      ensures truncated ==> at == old(at) && taken == seq(if count < 8 then count else 8, _ => 0)
    {
      if truncated || at + count > |data| {
        truncated := true;
        return seq(if count < 8 then count else 8, _ => 0);
      }
      taken := data[at..at + count];
      at := at + count;
    }

    method Number(width: nat) returns (value: nat)
      requires Valid()
      modifies this
      ensures Valid()
      ensures truncated == (old(truncated) || old(at) + width > |data|)
      ensures !truncated ==> at == old(at) + width && value == Get(data[old(at)..at])
    {
      var taken := Take(width);
      value := Get(taken);
    }

    method Rest() returns (taken: seq<Octet>)
      requires Valid()
      modifies this
      ensures Valid() && truncated == old(truncated)
      ensures !truncated ==> taken == data[old(at)..] && at == |data|
    {
      taken := Take(|data| - at);
    }
  }

  class Writer {
    var out: seq<Octet>

    constructor ()
      ensures out == []
    {
      out := [];
    }

    method Number(value: nat, width: nat)
      modifies this
      ensures out == old(out) + Put(value, width)
    {
      out := out + Put(value, width);
    }

    method Raw(value: seq<Octet>)
      modifies this
      ensures out == old(out) + value
    {
      out := out + value;
    }
  }

  // ----- frames -----

  const MethodFrame: Octet := 1
  const HeaderFrame: Octet := 2
  const BodyFrame: Octet := 3
  const HeartbeatFrame: Octet := 8
  const FrameEnd: Octet := 0xCE
  const FrameOverhead: nat := 8

  datatype Frame = Frame(kind: Octet, channel: nat, payload: seq<Octet>)

  function EncodeFrame(f: Frame): (out: seq<Octet>)
    ensures |out| == FrameOverhead + |f.payload|
  {
    [f.kind] + Put(f.channel, 2) + Put(|f.payload|, 4) + f.payload + [FrameEnd]
  }

  /** A frame and the bytes behind it; too few bytes; or a frame the stream cannot be followed past. */
  datatype Read = Got(frame: Frame, rest: seq<Octet>) | Short | Refused

  function ReadFrame(bytes: seq<Octet>, limit: nat): (r: Read)
    ensures r.Got? ==> |r.rest| < |bytes| && |r.frame.payload| <= limit
  {
    if |bytes| < 7 then Short
    else
      var size := Get(bytes[3..7]);
      if size > limit then Refused
      else if |bytes| < 8 + size then Short
      else if bytes[7 + size] != FrameEnd then Refused
      else Got(Frame(bytes[0], Get(bytes[1..3]), bytes[7..7 + size]), bytes[8 + size..])
  }

  lemma FrameLayout(f: Frame, tail: seq<Octet>)
    ensures var bytes := EncodeFrame(f) + tail;
            var n := |f.payload|;
            && |bytes| == 8 + n + |tail| && bytes[0] == f.kind
            && bytes[1..3] == Put(f.channel, 2) && bytes[3..7] == Put(n, 4)
            && bytes[7..7 + n] == f.payload && bytes[7 + n] == FrameEnd && bytes[8 + n..] == tail
  {
  }

  /** A frame survives the wire, unless it is over the reader's maximum, which is refused. */
  lemma ReadEncoded(f: Frame, tail: seq<Octet>, limit: nat)
    requires f.channel < 0x1_0000 && |f.payload| < 0x1_0000_0000
    ensures ReadFrame(EncodeFrame(f) + tail, limit) == if |f.payload| <= limit then Got(f, tail) else Refused
  {
    FrameLayout(f, tail);
    Spans();
    GetPut(f.channel, 2);
    GetPut(|f.payload|, 4);
  }

  // ----- the layout, octet by octet -----

  lemma SpanOne(width: nat)
    ensures Span(0) == 1 && Span(width + 1) == 256 * Span(width)
  {
  }

  /** The octets of a number are its digits to base 256, the highest first. */
  lemma {:induction false} PutDigits(value: nat, width: nat, i: nat)
    requires i < width
    ensures Put(value, width)[i] == value / Span(width - 1 - i) % 256
    decreases width
  {
    if i < width - 1 {
      PutDigits(value / 256, width - 1, i);
      DivideTwice(value, Span(width - 2 - i));
    }
  }

  lemma DivideTwice(value: nat, by256: nat)
    requires by256 > 0
    ensures value / 256 / by256 == value / (256 * by256)
  {
    var q := value / 256 / by256;
    var r := value / 256 % by256;
    assert value / 256 == q * by256 + r;
    assert value == 256 * (q * by256 + r) + value % 256;
    QuotientIs(value, 256 * by256, q, 256 * r + value % 256);
  }

  lemma QuotientIs(value: nat, d: nat, q: nat, r: nat)
    requires value == q * d + r && r < d
    ensures value / d == q
  {
    var p, s := value / d, value % d;
    assert value == p * d + s && 0 <= s < d;
    if p < q {
      Times(p, q, d);
      assert false;
    } else if q < p {
      Times(q, p, d);
      assert false;
    }
  }

  lemma Times(p: nat, q: nat, d: nat)
    requires p < q
    ensures p * d + d <= q * d
  {
    assert q * d == p * d + d + (q - p - 1) * d;
  }

  // ----- reading part of a stream -----

  /** What is read as a frame is that frame as it is written. */
  lemma ReadIsWritten(bytes: seq<Octet>, limit: nat)
    requires ReadFrame(bytes, limit).Got?
    ensures var r := ReadFrame(bytes, limit); bytes == EncodeFrame(r.frame) + r.rest
  {
    var r := ReadFrame(bytes, limit);
    var size := Get(bytes[3..7]);
    PutGet(bytes[1..3]);
    PutGet(bytes[3..7]);
    assert bytes == [bytes[0]] + bytes[1..3] + bytes[3..7] + bytes[7..7 + size] + [bytes[7 + size]] + bytes[8 + size..];
  }

  /** More bytes behind it change nothing about a frame that was read or refused. */
  lemma ReadStays(bytes: seq<Octet>, more: seq<Octet>, limit: nat)
    ensures var r := ReadFrame(bytes, limit);
            && (r.Got? ==> ReadFrame(bytes + more, limit) == Got(r.frame, r.rest + more))
            && (r.Refused? ==> ReadFrame(bytes + more, limit) == Refused)
  {
    if |bytes| >= 7 {
      var size := Get(bytes[3..7]);
      assert (bytes + more)[3..7] == bytes[3..7] && (bytes + more)[1..3] == bytes[1..3];
      if |bytes| >= 8 + size {
        assert (bytes + more)[7..7 + size] == bytes[7..7 + size];
        assert (bytes + more)[8 + size..] == bytes[8 + size..] + more;
      }
    }
  }

  /** Any part of a frame that lacks its end is waited for, not refused. */
  lemma PartIsShort(f: Frame, n: nat, limit: nat)
    requires |f.payload| < 0x1_0000_0000 && |f.payload| <= limit && n < |EncodeFrame(f)|
    ensures ReadFrame(EncodeFrame(f)[..n], limit) == Short
  {
    var bytes := EncodeFrame(f);
    if n >= 7 {
      FrameLayout(f, []);
      assert bytes + [] == bytes;
      assert bytes[..n][3..7] == bytes[3..7];
      Spans();
      GetPut(|f.payload|, 4);
    }
  }
}

// src/network/server.rs, inside register: the length-prefixed frame reader and writer.
module Frames {
  import opened Bytes

  const FRAME_LIMIT: nat := 0x1_0000_0000

  /** The bytes of one message on the wire; the cast of its length to u32 drops high bits. */
  function Frame(msg: seq<byte>): seq<byte> {
    ToBe(|msg| % FRAME_LIMIT, 4) + msg
  }

  function Encoded(msgs: seq<seq<byte>>): seq<byte> {
    if msgs == [] then [] else Frame(msgs[0]) + Encoded(msgs[1..])
  }

  /** A frame begins with the length in four bytes, the highest first, and goes on with the message. */
  lemma FrameBytes(msg: seq<byte>)
    ensures var f := Frame(msg);
            && |f| == 4 + |msg| && f[4..] == msg
            && (f[0] as int) * 0x100_0000 + (f[1] as int) * 0x1_0000 + (f[2] as int) * 0x100 + f[3]
               == |msg| % FRAME_LIMIT
  {
    var n := |msg| % FRAME_LIMIT;
    assert ToBe(n, 4) == ToBe(n / 256, 3) + [n % 256];
    assert ToBe(n / 256, 3) == ToBe(n / 256 / 256, 2) + [n / 256 % 256];
    assert ToBe(n / 256 / 256, 2) == ToBe(n / 256 / 256 / 256, 1) + [n / 256 / 256 % 256];
    assert ToBe(n / 256 / 256 / 256, 1) == [n / 256 / 256 / 256 % 256];
  }

  /** The complete frames at the front of a stream. */
  function Decoded(stream: seq<byte>): seq<seq<byte>> {
    if |stream| < 4 then []
    else
      var n := FromBe(stream[..4]);
      if |stream| - 4 < n then []
      else [stream[4..4 + n]] + Decoded(stream[4 + n..])
  }

  lemma EncodedAt(msgs: seq<seq<byte>>, i: nat)
    requires i < |msgs|
    ensures Encoded(msgs[i..]) == Frame(msgs[i]) + Encoded(msgs[i + 1..])
  {
    assert msgs[i..][1..] == msgs[i + 1..];
  }

  lemma Regroup<T>(out: seq<T>, head: seq<T>, body: seq<T>, tail: seq<T>)
    ensures out + ((head + body) + tail) == ((out + head) + body) + tail
  {
  }

  method WriteFrames(msgs: seq<seq<byte>>) returns (wire: seq<byte>)
    ensures wire == Encoded(msgs)
  {
    wire := [];
    for i := 0 to |msgs|
      invariant wire + Encoded(msgs[i..]) == Encoded(msgs)
    {
      var msg := msgs[i];
      var size := ToBe(|msg| % FRAME_LIMIT, 4);
      EncodedAt(msgs, i);
      Regroup(wire, size, msg, Encoded(msgs[i + 1..]));
      wire := wire + size;
      wire := wire + msg;
    }
  }

  /** read_exact: fills the first n places of the buffer, or fails when the stream ends first. */
  method ReadExact(stream: seq<byte>, pos: nat, buffer: array<byte>, n: nat) returns (ok: bool)
    requires pos <= |stream| && n <= buffer.Length
    modifies buffer
    ensures ok <==> n <= |stream| - pos
    ensures ok ==> buffer[..n] == stream[pos..pos + n]
  {
    if |stream| - pos < n {
      return false;
    }
    for i := 0 to n
      invariant buffer[..i] == stream[pos..pos + i]
    {
      buffer[i] := stream[pos + i];
    }
    return true;
  }

  /** Vec::resize to a larger size: the old contents followed by zeros. */
  method Resized(buffer: array<byte>, size: nat) returns (bigger: array<byte>)
    requires buffer.Length <= size
    ensures fresh(bigger) && bigger.Length == size
    ensures bigger[..buffer.Length] == buffer[..]
    ensures forall i :: buffer.Length <= i < size ==> bigger[i] == 0
  {
    bigger := new byte[size](_ => 0);
    for i := 0 to buffer.Length
      invariant bigger[..i] == buffer[..i]
      invariant forall k :: buffer.Length <= k < size ==> bigger[k] == 0
    {
      bigger[i] := buffer[i];
    }
  }

  /** What is decoded from position pos of a stream, step by step. */
  lemma DecodedAt(stream: seq<byte>, pos: nat)
    requires pos <= |stream|
    ensures |stream| - pos < 4 ==> Decoded(stream[pos..]) == []
    ensures |stream| - pos >= 4 ==>
              var n := FromBe(stream[pos..pos + 4]);
              Decoded(stream[pos..]) ==
                if |stream| - (pos + 4) < n then []
                else [stream[pos + 4..pos + 4 + n]] + Decoded(stream[pos + 4 + n..])
  {
    var rest := stream[pos..];
    if |rest| >= 4 {
      assert rest[..4] == stream[pos..pos + 4];
      var n := FromBe(rest[..4]);
      if |rest| - 4 >= n {
        assert rest[4..4 + n] == stream[pos + 4..pos + 4 + n];
        assert rest[4 + n..] == stream[pos + 4 + n..];
      }
    }
  }

  /** One turn of the reader: the header into the size buffer, then the payload into the message buffer. */
  method ReadFrame(stream: seq<byte>, pos: nat, sizeBuffer: array<byte>, msgBuffer: array<byte>)
    returns (ok: bool, payload: seq<byte>, next: nat, buffer: array<byte>)
    requires pos <= |stream| && sizeBuffer.Length == 4
    modifies sizeBuffer, msgBuffer
    ensures buffer == msgBuffer || fresh(buffer)
    ensures ok <==> |stream| - pos >= 4 && |stream| - (pos + 4) >= FromBe(stream[pos..pos + 4])
    ensures ok ==> next == pos + 4 + FromBe(stream[pos..pos + 4]) && payload == stream[pos + 4..next]
  {
    buffer, payload, next := msgBuffer, [], pos;
    ok := ReadExact(stream, pos, sizeBuffer, 4);
    if !ok {
      return;
    }
    var size := FromBe(sizeBuffer[..4]);
    if buffer.Length < size {
      buffer := Resized(buffer, size);
    }
    ok := ReadExact(stream, pos + 4, buffer, size);
    if ok {
      payload, next := buffer[..size], pos + 4 + size;
    }
  }

  /** The reader task: one size buffer and one message buffer serve all frames. */
  method ReadFrames(stream: seq<byte>) returns (payloads: seq<seq<byte>>)
    ensures payloads == Decoded(stream)
  {
    payloads := [];
    var pos := 0;
    var sizeBuffer := new byte[4](_ => 0);
    var msgBuffer := new byte[0];
    ghost var goal := Decoded(stream);
    assert stream[0..] == stream;
    while true
      invariant pos <= |stream| && fresh(sizeBuffer) && fresh(msgBuffer) && sizeBuffer.Length == 4
      invariant payloads + Decoded(stream[pos..]) == goal
      decreases |stream| - pos
    {
      DecodedAt(stream, pos);
      ghost var here := Decoded(stream[pos..]);
      var ok, payload, next;
      ok, payload, next, msgBuffer := ReadFrame(stream, pos, sizeBuffer, msgBuffer);
      if !ok {
        break;
      }
      ghost var there := Decoded(stream[next..]);
      assert here == [payload] + there;
      AppendShift(payloads, payload, there);
      payloads := payloads + [payload];
      pos := next;
    }
  }

  /** One frame in front of any bytes decodes to a prefix of the message, all of it when the message is short. */
  lemma DecodedFrame(msg: seq<byte>, tail: seq<byte>)
    ensures Decoded(Frame(msg) + tail)
         == [msg[..|msg| % FRAME_LIMIT]] + Decoded(msg[|msg| % FRAME_LIMIT..] + tail)
  {
    var n := |msg| % FRAME_LIMIT;
    var s := Frame(msg) + tail;
    assert Pow256(4) == FRAME_LIMIT;
    FromBeToBe(n, 4);
    assert s[..4] == ToBe(n, 4);
    assert s[4..4 + n] == msg[..n];
    assert s[4 + n..] == msg[n..] + tail;
  }

  lemma DecodedWhole(msg: seq<byte>, tail: seq<byte>)
    requires |msg| < FRAME_LIMIT
    ensures Decoded(Frame(msg) + tail) == [msg] + Decoded(tail)
  {
    DecodedFrame(msg, tail);
    var n := |msg| % FRAME_LIMIT;
    assert n == |msg|;
    assert msg[..n] == msg && msg[n..] + tail == tail;
  }

  lemma DecodedCut(msg: seq<byte>, tail: seq<byte>)
    requires |msg| >= FRAME_LIMIT
    ensures var got := Decoded(Frame(msg) + tail); got != [] && got[0] != msg
  {
    DecodedFrame(msg, tail);
    var n := |msg| % FRAME_LIMIT;
    assert |msg[..n]| == n < |msg|;
  }

  /** Reading what was written gives the messages back exactly when every length fits in u32. */
  lemma {:induction false} RoundTripIff(msgs: seq<seq<byte>>)
    ensures Decoded(Encoded(msgs)) == msgs <==> forall m :: m in msgs ==> |m| < FRAME_LIMIT
  {
    if msgs != [] {
      var m, tail := msgs[0], Encoded(msgs[1..]);
      var got := Decoded(Encoded(msgs));
      RoundTripIff(msgs[1..]);
      assert msgs == [m] + msgs[1..];
      if |m| < FRAME_LIMIT {
        DecodedWhole(m, tail);
        assert got[1..] == Decoded(tail);
      } else {
        DecodedCut(m, tail);
        assert m in msgs;
      }
    }
  }

  lemma DecodedPartial(msg: seq<byte>, cut: nat)
    requires |msg| < FRAME_LIMIT && cut < |Frame(msg)|
    ensures Decoded(Frame(msg)[..cut]) == []
  {
    var s := Frame(msg)[..cut];
    if cut >= 4 {
      var n := |msg| % FRAME_LIMIT;
      assert s[..4] == ToBe(n, 4);
      assert Pow256(4) == FRAME_LIMIT;
      FromBeToBe(n, 4);
    }
  }

  /** The messages whose frames fit into the first bytes of the stream: no more, and no fewer. */
  ghost predicate Whole(got: seq<seq<byte>>, msgs: seq<seq<byte>>, cut: nat) {
    && got <= msgs && |Encoded(got)| <= cut
    && (|got| < |msgs| ==> cut < |Encoded(got)| + |Frame(msgs[|got|])|)
  }

  lemma WholeCons(m: seq<byte>, got: seq<seq<byte>>, rest: seq<seq<byte>>, cut: nat)
    requires Whole(got, rest, cut)
    ensures Whole([m] + got, [m] + rest, |Frame(m)| + cut)
  {
    EncodedCons(m, got);
  }

  lemma PrefixCons(m: seq<byte>, tail: seq<byte>, rest: seq<seq<byte>>)
    requires |m| < FRAME_LIMIT && Whole(Decoded(tail), rest, |tail|)
    ensures Whole(Decoded(Frame(m) + tail), [m] + rest, |Frame(m)| + |tail|)
  {
    DecodedWhole(m, tail);
    WholeCons(m, Decoded(tail), rest, |tail|);
  }

  /** A prefix of a frame and more is a part of the frame, or the frame and a prefix of the rest. */
  lemma PrefixSplit(head: seq<byte>, rest: seq<byte>, stream: seq<byte>)
    requires stream <= head + rest
    ensures |stream| < |head| ==> stream == head[..|stream|]
    ensures |stream| >= |head| ==> stream == head + stream[|head|..] && stream[|head|..] <= rest
  {
  }

  lemma {:induction false} PrefixRoundTrip(msgs: seq<seq<byte>>, stream: seq<byte>)
    requires forall m :: m in msgs ==> |m| < FRAME_LIMIT
    requires stream <= Encoded(msgs)
    ensures Whole(Decoded(stream), msgs, |stream|)
    decreases |msgs|
  {
    if msgs != [] {
      var m, rest := msgs[0], msgs[1..];
      assert m in msgs && msgs == [m] + rest;
      PrefixSplit(Frame(m), Encoded(rest), stream);
      if |stream| < |Frame(m)| {
        DecodedPartial(m, |stream|);
      } else {
        var tail := stream[|Frame(m)|..];
        PrefixRoundTrip(rest, tail);
        PrefixCons(m, tail, rest);
      }
    }
  }

  /** A truncated stream yields exactly the messages whose frames arrived whole. */
  lemma TruncatedRoundTrip(msgs: seq<seq<byte>>, cut: nat)
    requires forall m :: m in msgs ==> |m| < FRAME_LIMIT
    requires cut <= |Encoded(msgs)|
    ensures Whole(Decoded(Encoded(msgs)[..cut]), msgs, cut)
  {
    PrefixRoundTrip(msgs, Encoded(msgs)[..cut]);
  }

  lemma EncodedCons(m: seq<byte>, msgs: seq<seq<byte>>)
    ensures Encoded([m] + msgs) == Frame(m) + Encoded(msgs)
  {
    assert ([m] + msgs)[1..] == msgs;
  }
}

/** The hand-over of a websocket: tunnel/server.go handleWSConn reads the upgrade response, and
    tunnel/wsproxy.go Proxy the upgrade request, through a buffered reader that may have read further.
    What it read too much is forwarded before the connections are joined. */
module Handover {

  import opened Base
  import opened Join

  /** A connection to read from: `incoming` is everything its peer sends from here on. */
  class Source {
    var incoming: seq<Byte>

    constructor (incoming: seq<Byte>)
      ensures this.incoming == incoming
    {
      this.incoming := incoming;
    }

    /** One Read call: some bytes, as many as it pleases. */
    method Read() returns (chunk: seq<Byte>)
      modifies this
      ensures chunk + incoming == old(incoming)
      ensures old(incoming) != [] ==> chunk != []
    {
      if incoming == [] {
        return [];
      }
      var n: nat :| 1 <= n <= |incoming|;
      chunk := incoming[..n];
      incoming := incoming[n..];
    }
  }

  /** A connection to write to, which takes `room` more bytes before it fails. */
  class Sink {
    var received: seq<Byte>
    var room: nat

    constructor (room: nat)
      ensures received == [] && this.room == room
    {
      received, this.room := [], room;
    }

    method Write(bytes: seq<Byte>) returns (ok: bool)
      modifies this
      ensures ok == (|bytes| <= old(room))
      ensures ok ==> received == old(received) + bytes && room == old(room) - |bytes|
      ensures !ok ==> received == old(received) + bytes[..old(room)] && room == 0
    {
      ok := |bytes| <= room;
      received := received + if ok then bytes else bytes[..room];
      room := if ok then room - |bytes| else 0;
    }
  }

  /** The shortest prefix of the stream that is a whole message, the way a parser that reads byte by byte
      and stops at the end of the headers finds it. */
  ghost predicate IsMessage(complete: seq<Byte> -> bool, stream: seq<Byte>, head: seq<Byte>) {
    head <= stream && complete(head) && forall k :: 0 <= k < |head| ==> !complete(head[..k])
  }

  class BufferedReader {
    const src: Source
    var buffer: seq<Byte>

    constructor (src: Source)
      ensures this.src == src && buffer == []
    {
      this.src, buffer := src, [];
    }

    /** The bytes still to come, in order. */
    ghost function Pending(): seq<Byte>
      reads this, src
    {
      buffer + src.incoming
    }

    method ReadByte() returns (b: Option<Byte>)
      modifies this, src
      ensures b.None? ==> old(Pending()) == [] && Pending() == []
      ensures b.Some? ==> old(Pending()) == [b.value] + Pending()
    {
      if buffer == [] {
        buffer := src.Read();
      }
      if buffer == [] {
        return None;
      }
      b := Some(buffer[0]);
      buffer := buffer[1..];
    }

    method ReadMessage(complete: seq<Byte> -> bool) returns (head: Option<seq<Byte>>)
      modifies this, src
      ensures head.Some? ==> IsMessage(complete, old(Pending()), head.value) && old(Pending()) == head.value + Pending()
      ensures head.None? ==> forall h :: h <= old(Pending()) ==> !complete(h)
    {
      var read := [];
      ghost var all := Pending();
      while !complete(read)
        invariant all == read + Pending()
        invariant forall k :: 0 <= k < |read| ==> !complete(read[..k])
        decreases |Pending()|
      {
        ghost var left := Pending();
        var b := ReadByte();
        if b.None? {
          assert all == read;
          forall h | h <= all ensures !complete(h) {
            assert h == read[..|h|];
            assert read[..|read|] == read;
          }
          return None;
        }
        ghost var was := read;
        read := read + [b.value];
        assert forall k :: 0 <= k < |read| ==> read[..k] == was[..k];
        assert was[..|was|] == was;
      }
      return Some(read);
    }

    method Forward(dst: Sink) returns (ok: bool)
      modifies this, dst
      ensures ok <==> |old(buffer)| <= old(dst.room)
      ensures ok ==> dst.received == old(dst.received) + old(buffer) && buffer == []
      ensures !ok ==> dst.received == old(dst.received) + old(buffer)[..old(dst.room)]
    {
      if buffer == [] {
        return true;
      }
      ok := dst.Write(buffer);
      if ok {
        buffer := [];
      }
    }
  }

  lemma PartForwarded(head: seq<Byte>, buffered: seq<Byte>, k: nat, left: seq<Byte>)
    requires k <= |buffered|
    ensures head + buffered[..k] <= head + (buffered + left)
    ensures head + (buffered + left) == head + buffered + left
    ensures k == |buffered| ==> buffered[..k] == buffered
  {
  }

  datatype Outcome = NoMessage | HeadFailed | ForwardFailed | ReadyToJoin

  /** Reads the message, writes it on as `render` puts it, and forwards what the reader holds besides. What
      comes back is how many bytes of the conversation went to `dst` before joinStreams takes over. */
  method HandOver(src: Source, dst: Sink, complete: seq<Byte> -> bool, render: seq<Byte> -> seq<Byte>)
    returns (outcome: Outcome, ghost head: seq<Byte>, ghost forwarded: seq<Byte>)
    modifies src, dst
    ensures outcome == NoMessage <==> forall h :: h <= old(src.incoming) ==> !complete(h)
    ensures outcome == NoMessage ==> dst.received == old(dst.received)
    ensures outcome != NoMessage ==> IsMessage(complete, old(src.incoming), head)
    ensures outcome != NoMessage ==> (outcome == HeadFailed <==> |render(head)| > old(dst.room))
    ensures outcome == HeadFailed ==> dst.received == old(dst.received) + render(head)[..old(dst.room)]
    ensures outcome == ForwardFailed ==> |render(head)| + |forwarded| == old(dst.room) < |render(head)| + |old(src.incoming)|
    ensures outcome != NoMessage && |render(head)| + |old(src.incoming)| - |head| <= old(dst.room) ==>
              outcome == ReadyToJoin
    ensures outcome == ForwardFailed || outcome == ReadyToJoin ==>
              && dst.received == old(dst.received) + render(head) + forwarded
              && head + forwarded <= old(src.incoming)
    ensures outcome == ReadyToJoin ==> old(src.incoming) == head + forwarded + src.incoming
  {
    head, forwarded := [], [];
    var br := new BufferedReader(src);
    assert br.Pending() == src.incoming;
    var message := br.ReadMessage(complete);
    if message.None? {
      return NoMessage, head, forwarded;
    }
    head := message.value;
    ghost var was := dst.received;
    var ok := dst.Write(render(message.value));
    if !ok {
      return HeadFailed, head, forwarded;
    }
    ghost var buffered := br.buffer;
    ok := br.Forward(dst);
    if !ok {
      ghost var k := old(dst.room) - |render(head)|;
      forwarded := buffered[..k];
      PartForwarded(head, buffered, k, src.incoming);
      return ForwardFailed, head, forwarded;
    }
    forwarded := buffered;
    PartForwarded(head, buffered, |buffered|, src.incoming);
    return ReadyToJoin, head, forwarded;
  }

  /** The bytes forwarded by the hand-over and those copied by joinStreams make up, at every moment of the
      join, a prefix of what followed the upgrade; all of it when the direction ends with the stream. */
  lemma {:induction false} BytesSurvive(stream: seq<Byte>, head: seq<Byte>, forwarded: seq<Byte>, left: seq<Byte>,
                                        steps: seq<Step>, src: Side)
    requires stream == head + forwarded + left
    requires IsRun(START, steps) && From(After(START, steps), src).sent <= left
    ensures var f := From(After(START, steps), src);
            && forwarded + f.delivered <= stream[|head|..]
            && (f.phase == Done(EndOfStream) && f.sent == left ==> forwarded + f.delivered == stream[|head|..])
            && (f.phase.Reading? ==> f.taken <= |left| && stream == head + (forwarded + f.delivered) + left[f.taken..])
  {
    JoinDelivers(steps, src);
    var f := From(After(START, steps), src);
    assert stream[|head|..] == forwarded + left;
    PrefixOn(forwarded, f.delivered, f.sent, left);
    if f.phase.Reading? {
      Reassembled(head, forwarded, f.delivered, f.sent, left, f.taken);
    }
  }

  lemma PrefixOn(forwarded: seq<Byte>, delivered: seq<Byte>, sent: seq<Byte>, left: seq<Byte>)
    requires delivered <= sent <= left
    ensures forwarded + delivered <= forwarded + left
  {
    assert delivered == left[..|delivered|];
    assert forwarded + delivered == (forwarded + left)[..|forwarded| + |delivered|];
  }

  lemma Reassembled(head: seq<Byte>, forwarded: seq<Byte>, delivered: seq<Byte>, sent: seq<Byte>,
                    left: seq<Byte>, taken: nat)
    requires sent <= left && taken <= |sent| && delivered == sent[..taken]
    ensures head + forwarded + left == head + (forwarded + delivered) + left[taken..]
  {
    assert delivered == left[..taken];
    assert left == delivered + left[taken..];
  }
}

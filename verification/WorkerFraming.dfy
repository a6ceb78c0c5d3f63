/**
 The framing of `aiomisc_worker/protocol.py`: a four-byte big-endian length, then the payload.
 Pickle is not modelled, so payloads are byte strings.  The socket hands out the stream in chunks of
 its own choosing, and `_read` collects chunks until it has what was asked for.
 */
module WorkerFraming {
  import opened Basics

  newtype byte = x: int | 0 <= x < 256

  const LIMIT: nat := 0x1_0000_0000

  lemma HeaderDigits(n: nat)
    ensures n == 0x100_0000 * (n / 0x100_0000) + 0x1_0000 * (n / 0x1_0000 % 256) + 0x100 * (n / 256 % 256) + n % 256
  {
    assert n / 256 / 256 == n / 0x1_0000 && n / 0x1_0000 / 256 == n / 0x100_0000;
  }

  /** `Struct("!L").pack`: the most significant byte first. */
  function Header(n: nat): (r: seq<byte>)
    requires n < LIMIT
    ensures |r| == 4
    ensures n == 0x100_0000 * (r[0] as nat) + 0x1_0000 * (r[1] as nat) + 0x100 * (r[2] as nat) + r[3] as nat
  {
    HeaderDigits(n);
    [(n / 0x100_0000) as byte, (n / 0x1_0000 % 256) as byte, (n / 256 % 256) as byte, (n % 256) as byte]
  }

  /** `Struct("!L").unpack`. */
  function Unpack(h: seq<byte>): (n: nat)
    requires |h| == 4
    ensures n < LIMIT
  {
    ((h[0] as nat * 256 + h[1] as nat) * 256 + h[2] as nat) * 256 + h[3] as nat
  }

  lemma UnpackHeader(n: nat)
    requires n < LIMIT
    ensures Unpack(Header(n)) == n
  {
    assert n / 256 / 256 == n / 0x1_0000 && n / 0x1_0000 / 256 == n / 0x100_0000;
  }

  datatype StructError = TooLong

  /** `_pack` of a payload already pickled. */
  function Pack(payload: seq<byte>): Result<seq<byte>, StructError> {
    if |payload| < LIMIT then Ok(Header(|payload|) + payload) else Err(TooLong)
  }

  /** One message off a stream, if it is complete: the payload and what follows it. */
  function Decode(stream: seq<byte>): (r: Option<(seq<byte>, seq<byte>)>)
    ensures r.Some? ==> |r.value.1| < |stream|
  {
    if |stream| < 4 then None
    else
      var n := Unpack(stream[..4]);
      if |stream| < 4 + n then None else Some((stream[4..4 + n], stream[4 + n..]))
  }

  /** All complete messages of a stream. */
  function DecodeAll(stream: seq<byte>): seq<seq<byte>> {
    var r := Decode(stream);
    if r.None? then [] else [r.value.0] + DecodeAll(r.value.1)
  }

  predicate Framable(payloads: seq<seq<byte>>) {
    forall i :: 0 <= i < |payloads| ==> |payloads[i]| < LIMIT
  }

  /** The frames of several payloads, one after the other. */
  function Frames(payloads: seq<seq<byte>>): seq<byte>
    requires Framable(payloads)
  {
    if payloads == [] then [] else Pack(payloads[0]).value + Frames(payloads[1..])
  }

  lemma DecodePacked(payload: seq<byte>, rest: seq<byte>)
    requires |payload| < LIMIT
    ensures Decode(Pack(payload).value + rest) == Some((payload, rest))
  {
    var stream := Pack(payload).value + rest;
    assert stream[..4] == Header(|payload|);
    UnpackHeader(|payload|);
    assert stream[4..4 + |payload|] == payload;
    assert stream[4 + |payload|..] == rest;
  }

  /** A stream that ends inside a frame has no complete message. */
  lemma DecodeCut(payload: seq<byte>, n: nat)
    requires |payload| < LIMIT && n < |Pack(payload).value|
    ensures Decode(Pack(payload).value[..n]) == None
  {
    if 4 <= n {
      assert Pack(payload).value[..n][..4] == Header(|payload|);
      UnpackHeader(|payload|);
    }
  }

  /** A stream of frames cut anywhere decodes to the payloads whose frames are complete. */
  lemma {:induction false} DecodeAllOfCutFrames(payloads: seq<seq<byte>>, n: nat)
    requires Framable(payloads) && n <= |Frames(payloads)|
    ensures DecodeAll(Frames(payloads)[..n]) <= payloads
    ensures n == |Frames(payloads)| ==> DecodeAll(Frames(payloads)[..n]) == payloads
  {
    if payloads != [] {
      var first, rest := Pack(payloads[0]).value, Frames(payloads[1..]);
      if n < |first| {
        assert Frames(payloads)[..n] == first[..n];
        DecodeCut(payloads[0], n);
      } else {
        assert Frames(payloads)[..n] == first + rest[..n - |first|];
        DecodePacked(payloads[0], rest[..n - |first|]);
        DecodeAllOfCutFrames(payloads[1..], n - |first|);
        assert payloads == [payloads[0]] + payloads[1..];
      }
    }
  }

  function Joined(chunks: seq<seq<byte>>): seq<byte> {
    if chunks == [] then [] else chunks[0] + Joined(chunks[1..])
  }

  /** The receiving end of a connection; an empty sequence of chunks is the end of the stream. */
  class Socket {
    var chunks: seq<seq<byte>>

    ghost predicate Valid()
      reads this
    {
      forall i :: 0 <= i < |chunks| ==> chunks[i] != []
    }

    ghost function Bytes(): seq<byte>
      reads this
    {
      Joined(chunks)
    }

    constructor (chunks: seq<seq<byte>>)
      requires forall i :: 0 <= i < |chunks| ==> chunks[i] != []
      ensures Valid() && Bytes() == Joined(chunks)
    {
      this.chunks := chunks;
    }

    /** `recv`: some bytes from the head of the stream, none only at its end. */
    method Recv(size: nat) returns (r: seq<byte>)
      requires Valid() && 0 < size
      modifies this
      ensures Valid() && |r| <= size && r + Bytes() == old(Bytes())
      ensures r == [] <==> old(Bytes()) == []
    {
      if chunks == [] {
        return [];
      }
      var head := chunks[0];
      if |head| <= size {
        r := head;
        chunks := chunks[1..];
      } else {
        r := head[..size];
        chunks := [head[size..]] + chunks[1..];
        assert head == r + head[size..];
      }
    }

    /** `SocketIOProtocol._read`: exactly the bytes asked for, or ConnectionError (None). */
    method Read(size: nat) returns (r: Option<seq<byte>>)
      requires Valid()
      modifies this
      ensures Valid() && (r.Some? <==> size <= old(|Bytes()|))
      ensures r.Some? ==> r.value == old(Bytes())[..size] && Bytes() == old(Bytes())[size..]
      ensures r.None? ==> Bytes() == []
    {
      var buffer: seq<byte> := [];
      while |buffer| < size
        invariant Valid() && |buffer| <= size && buffer + Bytes() == old(Bytes())
        decreases size - |buffer|
      {
        var chunk := Recv(size - |buffer|);
        if chunk == [] {
          return None;
        }
        assert buffer + (chunk + Bytes()) == (buffer + chunk) + Bytes();
        buffer := buffer + chunk;
      }
      return Some(buffer);
    }

    /** `receive` without unpickling; None where the source raises ConnectionError. */
    method Receive() returns (r: Option<seq<byte>>)
      requires Valid()
      modifies this
      ensures Valid()
      ensures match Decode(old(Bytes()))
              case None => r == None
              case Some((payload, rest)) => r == Some(payload) && Bytes() == rest
    {
      ghost var stream := Bytes();
      var header := Read(4);
      if header.None? {
        return None;
      }
      r := Read(Unpack(header.value));
      assert r.Some? ==> r.value == stream[4..4 + Unpack(header.value)];
    }

    /** Receiving until the stream gives out: the same messages for every way it was cut into chunks. */
    method ReceiveAll() returns (messages: seq<seq<byte>>)
      requires Valid()
      modifies this
      ensures messages == DecodeAll(old(Bytes()))
    {
      messages := [];
      var next := Receive();
      ghost var stream := old(Bytes());
      while next.Some?
        invariant Valid()
        invariant next.Some? <==> Decode(stream).Some?
        invariant next.Some? ==> next.value == Decode(stream).value.0 && Bytes() == Decode(stream).value.1
        invariant messages + DecodeAll(stream) == DecodeAll(old(Bytes()))
        decreases |stream|
      {
        messages := messages + [next.value];
        stream := Bytes();
        next := Receive();
      }
    }
  }

  /** Whatever is framed, concatenated and sent arrives as it was, however the stream is cut. */
  method RoundTrip(payloads: seq<seq<byte>>, chunks: seq<seq<byte>>) returns (received: seq<seq<byte>>)
    requires Framable(payloads)
    requires Joined(chunks) == Frames(payloads) && forall i :: 0 <= i < |chunks| ==> chunks[i] != []
    ensures received == payloads
  {
    var socket := new Socket(chunks);
    received := socket.ReceiveAll();
    DecodeAllOfCutFrames(payloads, |Frames(payloads)|);
    assert Frames(payloads)[..|Frames(payloads)|] == Frames(payloads);
  }
}

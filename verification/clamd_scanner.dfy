/** INSTREAM framing towards clamd (core/clamd): a socket that may accept any part of what it
    is given, and the length-prefixed chunks sent through it. */
module Clamd {
  import opened BigEndian

  const CHUNK := 4096
  const COMMAND: seq<Byte> := [122, 73, 78, 83, 84, 82, 69, 65, 77, 0]   // "zINSTREAM\0"

  // ---- Specification -----------------------------------------------------------------

  function ChunkSize(n: nat): nat {
    if n < CHUNK then n else CHUNK
  }

  /** One chunk on the wire: its length in four big-endian bytes, then its bytes. */
  function Packet(chunk: seq<Byte>): seq<Byte> {
    Encode(|chunk|, 4) + chunk
  }

  /** The chunks of the data and the zero terminator. */
  function Frame(data: seq<Byte>): seq<Byte>
    decreases |data|
  {
    if data == [] then Encode(0, 4)
    else
      var n := ChunkSize(|data|);
      Packet(data[..n]) + Frame(data[n..])
  }

  datatype Decoded = Incomplete | Complete(chunks: seq<seq<Byte>>, rest: seq<Byte>)

  /** The receiving side, read independently of the sender: four big-endian bytes give a length,
      that many bytes follow, and a length of zero ends the stream. */
  function Unframe(stream: seq<Byte>): Decoded
    decreases |stream|
  {
    if |stream| < 4 then Incomplete
    else
      var n := Decode(stream[..4]);
      if n == 0 then Complete([], stream[4..])
      else if |stream| < 4 + n then Incomplete
      else
        match Unframe(stream[4 + n..])
        case Incomplete => Incomplete
        case Complete(chunks, rest) => Complete([stream[4..4 + n]] + chunks, rest)
  }

  function Concat(chunks: seq<seq<Byte>>): seq<Byte> {
    if chunks == [] then [] else chunks[0] + Concat(chunks[1..])
  }

  // ---- Properties --------------------------------------------------------------------

  lemma LengthBytes(n: nat)
    requires n <= CHUNK
    ensures Decode(Encode(n, 4)) == n
  {
    DecodeEncode(n, 4);
    assert Pow256(4) == 0x1_0000_0000;
  }

  lemma ThreeParts(a: seq<Byte>, b: seq<Byte>, c: seq<Byte>)
    ensures var s := a + b + c;
            s[..|a|] == a && s[|a|..|a| + |b|] == b && s[|a| + |b|..] == c
  {
  }

  lemma FrameParts(data: seq<Byte>, tail: seq<Byte>)
    requires data != []
    ensures var n := ChunkSize(|data|);
            var s := Frame(data) + tail;
            && |s| >= 4 + n && s[..4] == Encode(n, 4) && s[4..4 + n] == data[..n]
            && s[4 + n..] == Frame(data[n..]) + tail
  {
    var n := ChunkSize(|data|);
    var rest := Frame(data[n..]);
    Associate(Packet(data[..n]), rest, tail);
    ThreeParts(Encode(n, 4), data[..n], rest + tail);
  }

  lemma Associate(a: seq<Byte>, b: seq<Byte>, c: seq<Byte>)
    ensures (a + b) + c == a + (b + c)
  {
  }

  lemma UnframeChunk(data: seq<Byte>, tail: seq<Byte>)
    requires data != []
    ensures var n := ChunkSize(|data|);
            var after := Unframe(Frame(data[n..]) + tail);
            Unframe(Frame(data) + tail) ==
              if after.Complete? then Complete([data[..n]] + after.chunks, after.rest) else Incomplete
  {
    FrameParts(data, tail);
    LengthBytes(ChunkSize(|data|));
  }

  lemma UnframeEnd(tail: seq<Byte>)
    ensures Unframe(Frame([]) + tail) == Complete([], tail)
  {
    LengthBytes(0);
    ThreeParts(Encode(0, 4), [], tail);
    assert Encode(0, 4) + [] == Encode(0, 4);
  }

  /** Round trip: decoding what was framed gives the buffer back, in chunks of 1 to 4096 bytes,
      and leaves alone whatever follows. */
  lemma {:induction false} FrameRoundTrip(data: seq<Byte>, tail: seq<Byte>)
    ensures var d := Unframe(Frame(data) + tail);
            && d.Complete? && Concat(d.chunks) == data && d.rest == tail
            && forall i :: 0 <= i < |d.chunks| ==> 1 <= |d.chunks[i]| <= CHUNK
    decreases |data|
  {
    if data == [] {
      UnframeEnd(tail);
    } else {
      var n := ChunkSize(|data|);
      UnframeChunk(data, tail);
      FrameRoundTrip(data[n..], tail);
      var d := Unframe(Frame(data[n..]) + tail);
      assert ([data[..n]] + d.chunks)[1..] == d.chunks;
      assert data[..n] + data[n..] == data;
    }
  }

  /** Nothing shorter is complete: the server cannot mistake a stream that broke off for a
      finished one. */
  lemma {:induction false} PrefixIncomplete(data: seq<Byte>, prefix: seq<Byte>)
    requires prefix < Frame(data)
    ensures Unframe(prefix) == Incomplete
    decreases |data|
  {
    if data != [] && |prefix| >= 4 {
      var n := ChunkSize(|data|);
      FrameParts(data, []);
      assert Frame(data) + [] == Frame(data);
      LengthBytes(n);
      assert prefix[..4] == Frame(data)[..4];
      if |prefix| >= 4 + n {
        assert prefix[4 + n..] < Frame(data[n..]);
        PrefixIncomplete(data[n..], prefix[4 + n..]);
      }
    }
  }

  // ---- Implementation ----------------------------------------------------------------

  /** A connected socket.  `plan` holds the results the coming send calls return: a positive
      number of bytes accepted, cut down to what was offered, or an error. */
  class Socket {
    var sent: seq<Byte>
    var plan: seq<int>

    constructor (plan: seq<int>)
      ensures sent == [] && this.plan == plan
    {
      sent, this.plan := [], plan;
    }

    method Send(buf: seq<Byte>) returns (n: int)
      requires buf != []
      modifies this
      ensures n <= |buf|
      ensures sent == old(sent) + (if n > 0 then buf[..n] else [])
    {
      if plan == [] {
        return -1;
      }
      n := if plan[0] > |buf| then |buf| else plan[0];
      plan := plan[1..];
      if n > 0 {
        sent := sent + buf[..n];
      }
    }
  }

  /** k bytes are sent: all of them, or fewer and the call fails. */
  method SendAll(sock: Socket, buf: seq<Byte>) returns (ok: bool, ghost k: nat)
    modifies sock
    ensures k <= |buf| && sock.sent == old(sock.sent) + buf[..k]
    ensures ok <==> k == |buf|
  {
    var offset := 0;
    while offset < |buf|
      invariant 0 <= offset <= |buf|
      invariant sock.sent == old(sock.sent) + buf[..offset]
    {
      var n := sock.Send(buf[offset..]);
      if n <= 0 {
        return false, offset;
      }
      assert buf[..offset] + buf[offset..][..n] == buf[..offset + n];
      offset := offset + n;
    }
    return true, offset;
  }

  /** After k bytes of the goal, j bytes of its next piece are sent. */
  lemma Advance(goal: seq<Byte>, k: nat, piece: seq<Byte>, rest: seq<Byte>, j: nat)
    requires k <= |goal| && goal[k..] == piece + rest && j <= |piece|
    ensures k + j <= |goal| && goal[..k] + piece[..j] == goal[..k + j]
    ensures goal[k + j..] == piece[j..] + rest
    ensures j < |piece| ==> k + j < |goal|
  {
    assert piece[..j] == goal[k..][..j];
  }

  lemma SendStep(start: seq<Byte>, goal: seq<Byte>, k: nat, piece: seq<Byte>, rest: seq<Byte>, j: nat)
    requires k <= |goal| && goal[k..] == piece + rest && j <= |piece|
    ensures k + j <= |goal| && (start + goal[..k]) + piece[..j] == start + goal[..k + j]
    ensures j < |piece| ==> k + j < |goal|
    ensures j == |piece| ==> goal[k + j..] == rest
  {
    Advance(goal, k, piece, rest, j);
    Associate(start, goal[..k], piece[..j]);
  }

  /** Sends the next piece of a goal of which k bytes have gone out. */
  method SendPiece(sock: Socket, piece: seq<Byte>, ghost start: seq<Byte>, ghost goal: seq<Byte>,
                   ghost k: nat, ghost rest: seq<Byte>)
    returns (ok: bool, ghost k': nat)
    requires k <= |goal| && sock.sent == start + goal[..k] && goal[k..] == piece + rest
    modifies sock
    ensures k' <= |goal| && sock.sent == start + goal[..k']
    ensures if ok then goal[k'..] == rest else k' < |goal|
  {
    ghost var j;
    ok, j := SendAll(sock, piece);
    SendStep(start, goal, k, piece, rest, j);
    k' := k + j;
  }

  /** The length prefix and the bytes of one chunk. */
  method SendChunk(sock: Socket, chunk: seq<Byte>, ghost start: seq<Byte>, ghost goal: seq<Byte>,
                   ghost k: nat, ghost rest: seq<Byte>)
    returns (ok: bool, ghost k': nat)
    requires k <= |goal| && sock.sent == start + goal[..k] && goal[k..] == Packet(chunk) + rest
    modifies sock
    ensures k' <= |goal| && sock.sent == start + goal[..k']
    ensures if ok then goal[k'..] == rest else k' < |goal|
  {
    var length := Encode(|chunk|, 4);
    Associate(length, chunk, rest);
    ok, k' := SendPiece(sock, length, start, goal, k, chunk + rest);
    if ok {
      ok, k' := SendPiece(sock, chunk, start, goal, k', rest);
    }
  }

  /** The chunks of the buffer, one after the other. */
  method SendChunks(sock: Socket, data: seq<Byte>, ghost start: seq<Byte>, ghost goal: seq<Byte>, ghost k: nat)
    returns (ok: bool, ghost k': nat)
    requires k <= |goal| && sock.sent == start + goal[..k] && goal[k..] == Frame(data)
    modifies sock
    ensures k' <= |goal| && sock.sent == start + goal[..k']
    ensures if ok then goal[k'..] == Frame([]) else k' < |goal|
  {
    k' := k;
    assert data[0..] == data;
    var offset := 0;
    while offset < |data|
      invariant 0 <= offset <= |data| && k' <= |goal|
      invariant sock.sent == start + goal[..k'] && goal[k'..] == Frame(data[offset..])
    {
      var csz := if CHUNK < |data| - offset then CHUNK else |data| - offset;
      FrameOfChunk(data, offset, csz);
      ok, k' := SendChunk(sock, data[offset..offset + csz], start, goal, k', Frame(data[offset + csz..]));
      if !ok {
        return;
      }
      offset := offset + csz;
    }
    assert data[offset..] == [];
    ok := true;
  }

  /** do_instream up to reading the reply.  For every pattern of partial sends the server has
      the first k bytes of the command and the complete frame of the buffer: all of them when
      it succeeds, fewer when it fails. */
  method DoInstream(sock: Socket, data: seq<Byte>) returns (ok: bool, ghost k: nat)
    modifies sock
    ensures k <= |COMMAND + Frame(data)| && sock.sent == old(sock.sent) + (COMMAND + Frame(data))[..k]
    ensures ok <==> k == |COMMAND + Frame(data)|
  {
    ghost var start, goal := sock.sent, COMMAND + Frame(data);
    assert goal[0..] == goal;
    ok, k := SendPiece(sock, COMMAND, start, goal, 0, Frame(data));
    if ok {
      ok, k := SendChunks(sock, data, start, goal, k);
    }
    if ok {
      assert Frame([]) + [] == Frame([]);
      ok, k := SendPiece(sock, Encode(0, 4), start, goal, k, []);
    }
  }

  /** The frame in bytes: as long as there is data, four length bytes, the most significant first, and
      up to 4096 bytes of it, then the rest in the same way; at the end four zeros. */
  lemma FrameInBytes(data: seq<Byte>)
    ensures data == [] ==> Frame(data) == [0, 0, 0, 0]
    ensures 1 <= |data| < 4096 ==> Frame(data) == [0, 0, |data| / 256, |data| % 256] + data + [0, 0, 0, 0]
    ensures |data| >= 4096 ==> Frame(data) == [0, 0, 16, 0] + data[..4096] + Frame(data[4096..])
  {
    FourBytes(0);
    if 1 <= |data| < 4096 {
      ShortFrame(data);
    } else if |data| >= 4096 {
      FourBytes(4096);
    }
  }

  lemma ShortFrame(data: seq<Byte>)
    requires 1 <= |data| < 4096
    ensures Frame(data) == [0, 0, |data| / 256, |data| % 256] + data + [0, 0, 0, 0]
  {
    OnePacket(data, |data|);
    FourBytes(0);
    FourBytes(|data|);
  }

  lemma OnePacket(data: seq<Byte>, n: nat)
    requires 1 <= n == |data| <= CHUNK
    ensures Frame(data) == Encode(n, 4) + data + Encode(0, 4)
  {
    assert data[..n] == data && data[n..] == [];
  }

  lemma FourBytes(n: nat)
    requires n < 0x1_0000
    ensures Encode(n, 4) == [0, 0, n / 256, n % 256]
  {
    assert Encode(n, 4) == Encode(n / 256, 3) + [n % 256];
    assert Encode(n / 256, 3) == Encode(n / 256 / 256, 2) + [n / 256 % 256];
    assert n / 256 / 256 == 0;
    assert Encode(0, 2) == Encode(0, 1) + [0] == Encode(0, 0) + [0] + [0] == [0, 0];
  }

  lemma FrameOfChunk(data: seq<Byte>, offset: nat, csz: nat)
    requires offset < |data| && csz == ChunkSize(|data| - offset)
    ensures Frame(data[offset..]) == Packet(data[offset..offset + csz]) + Frame(data[offset + csz..])
  {
    assert data[offset..][..csz] == data[offset..offset + csz];
    assert data[offset..][csz..] == data[offset + csz..];
  }

  /** What the scan server makes of a connection: the command, then a framed stream. */
  function Receive(wire: seq<Byte>): Decoded {
    if |wire| < |COMMAND| || wire[..|COMMAND|] != COMMAND then Incomplete else Unframe(wire[|COMMAND|..])
  }

  /** The server sees a complete stream exactly when it has all the bytes, and then it holds the
      buffer. */
  lemma ReceivePrefix(data: seq<Byte>, k: nat)
    requires k <= |COMMAND + Frame(data)|
    ensures var seen := Receive((COMMAND + Frame(data))[..k]);
            && (seen.Complete? <==> k == |COMMAND + Frame(data)|)
            && (seen.Complete? ==> Concat(seen.chunks) == data && seen.rest == [])
  {
    var whole := COMMAND + Frame(data);
    if k >= |COMMAND| {
      var stream := Frame(data)[..k - |COMMAND|];
      assert whole[..k] == COMMAND + stream;
      if k == |whole| {
        assert stream + [] == Frame(data) + [];
        assert stream == Frame(data) + [];
        FrameRoundTrip(data, []);
      } else {
        PrefixIncomplete(data, stream);
      }
    }
  }

  /** End to end over a fresh connection, for every pattern of partial sends. */
  method StreamBuffer(sock: Socket, data: seq<Byte>) returns (ok: bool)
    requires sock.sent == []
    modifies sock
    ensures ok <==> Receive(sock.sent).Complete?
    ensures ok ==> Concat(Receive(sock.sent).chunks) == data && Receive(sock.sent).rest == []
  {
    ghost var k;
    ok, k := DoInstream(sock, data);
    ghost var whole := COMMAND + Frame(data);
    assert [] + whole[..k] == whole[..k];
    ReceivePrefix(data, k);
  }
}

/** Per-request signing (core/crypto_identity): the message that is signed, and the check of
    a signed request over an abstract signature scheme. */
module Crypto {
  import opened BigEndian

  type Bytes = seq<Byte>
  type Int64 = x: int | -0x8000_0000_0000_0000 <= x < 0x8000_0000_0000_0000

  /** verify(message, signature, public key); ECDSA itself is abstract. */
  type Verifier = (Bytes, Bytes, Bytes) -> bool

  datatype SignedRequest =
    SignedRequest(identityName: Bytes, challenge: Bytes, timestampMs: Int64, signature: Bytes)

  /** Name, challenge, and the two's-complement timestamp in eight big-endian bytes. */
  function Message(identityName: Bytes, challenge: Bytes, timestampMs: Int64): Bytes {
    identityName + challenge + Encode(timestampMs, 8)
  }

  /** x >> 8k on a signed integer: division rounding down. */
  function ShiftRight(x: int, k: nat): int {
    x / Pow256(k)
  }

  method BuildRequestMessage(identityName: Bytes, challenge: Bytes, timestampMs: Int64)
    returns (msg: Bytes)
    ensures msg == Message(identityName, challenge, timestampMs)
  {
    msg := [];
    msg := msg + identityName;
    msg := msg + challenge;
    var i := 7;
    assert ShiftRight(timestampMs, 8) == timestampMs / 0x1_0000_0000_0000_0000 by {
      assert Pow256(8) == 0x1_0000_0000_0000_0000;
    }
    while i >= 0
      invariant -1 <= i <= 7
      invariant msg == identityName + challenge + Encode(ShiftRight(timestampMs, i + 1), 7 - i)
    {
      DivDiv(timestampMs, Pow256(i), 256);
      msg := msg + [ShiftRight(timestampMs, i) % 256];
      i := i - 1;
    }
    assert ShiftRight(timestampMs, 0) == timestampMs;
  }

  function VerifySignedRequest(verify: Verifier, request: SignedRequest, expected: Bytes, key: Bytes): bool {
    && request.challenge == expected
    && verify(Message(request.identityName, request.challenge, request.timestampMs), request.signature, key)
  }

  /** The timestamp survives its encoding: every 64-bit value, negative ones included. */
  function DecodeTimestamp(bs: Bytes): int
    requires |bs| == 8
  {
    var n := Decode(bs);
    if n < 0x8000_0000_0000_0000 then n else n - 0x1_0000_0000_0000_0000
  }

  lemma TimestampRoundTrip(t: Int64)
    ensures DecodeTimestamp(Encode(t, 8)) == t
  {
    DecodeEncode(t, 8);
    assert Pow256(8) == 0x1_0000_0000_0000_0000;
    TwosComplement(t, Decode(Encode(t, 8)));
  }

  lemma TwosComplement(t: Int64, n: nat)
    requires n == t % 0x1_0000_0000_0000_0000
    ensures t == if n < 0x8000_0000_0000_0000 then n else n - 0x1_0000_0000_0000_0000
  {
  }

  /** The layout of the message: the name, the challenge, and the timestamp in the last eight bytes,
      the most significant first. */
  lemma MessageLayout(name: Bytes, challenge: Bytes, t: Int64, i: nat)
    requires i < 8
    ensures var m := Message(name, challenge, t);
            && |m| == |name| + |challenge| + 8
            && m[..|name|] == name && m[|name|..|name| + |challenge|] == challenge
            && m[|m| - 1 - i] == t / Pow256(i) % 256
  {
    var m := Message(name, challenge, t);
    var tail := Encode(t, 8);
    assert m == name + challenge + tail;
    assert m[|m| - 1 - i] == tail[7 - i];
    EncodedByte(t, 8, 7 - i);
  }

  /** A signature that is good for one message only binds all of it: the request is accepted exactly
      for the challenge that is expected, and with the name, challenge and timestamp signed. */
  lemma SignatureBinds(verify: Verifier, name: Bytes, challenge: Bytes, t: Int64, request: SignedRequest,
                       expected: Bytes, key: Bytes)
    requires forall m :: verify(m, request.signature, key) <==> m == Message(name, challenge, t)
    requires |challenge| == |expected|
    ensures VerifySignedRequest(verify, request, expected, key)
       <==> && request.identityName == name && request.challenge == challenge == expected
            && request.timestampMs == t
  {
    if request.challenge == expected {
      MessageInjective(request.identityName, request.challenge, request.timestampMs, name, challenge, t);
    }
  }

  /** Two signed messages are the same bytes exactly when the timestamps agree and name and
      challenge agree as one string; so with challenges of one fixed length all three fields
      are determined. */
  lemma MessageInjective(name: Bytes, challenge: Bytes, t: Int64, name': Bytes, challenge': Bytes, t': Int64)
    ensures Message(name, challenge, t) == Message(name', challenge', t')
       <==> name + challenge == name' + challenge' && t == t'
    ensures |challenge| == |challenge'| && Message(name, challenge, t) == Message(name', challenge', t') ==>
              name == name' && challenge == challenge' && t == t'
  {
    var m, m' := Message(name, challenge, t), Message(name', challenge', t');
    if m == m' {
      assert m[..|m| - 8] == name + challenge && m'[..|m'| - 8] == name' + challenge';
      assert m[|m| - 8..] == Encode(t, 8) && m'[|m'| - 8..] == Encode(t', 8);
      TimestampRoundTrip(t);
      TimestampRoundTrip(t');
      if |challenge| == |challenge'| {
        assert (name + challenge)[..|name|] == name && (name' + challenge')[..|name'|] == name';
        assert (name + challenge)[|name|..] == challenge && (name' + challenge')[|name'|..] == challenge';
      }
    }
  }

  /** Without a fixed challenge length the boundary is lost: a byte may move from the front
      of the challenge to the end of the name. */
  lemma BoundaryIsNotSigned(name: Bytes, b: Byte, challenge: Bytes, t: Int64)
    ensures Message(name, [b] + challenge, t) == Message(name + [b], challenge, t)
    ensures name != name + [b]
  {
    assert |name| != |name + [b]|;
    assert name + ([b] + challenge) == name + [b] + challenge;
  }
}

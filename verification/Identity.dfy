/** The byte string a subscription's identifier is the digest of: three length-framed fields. */
module Identity {
  import opened Wrappers

  newtype byte = x: int | 0 <= x < 256

  /** 256 to the `k`. */
  function Capacity(k: nat): nat {
    if k == 0 then 1 else 256 * Capacity(k - 1)
  }

  /** The low `k` bytes of `n`, most significant first; higher ones are lost, as in a fixed-width integer. */
  function BigEndian(n: nat, k: nat): (bytes: seq<byte>)
    ensures |bytes| == k
  {
    if k == 0 then [] else BigEndian(n / 256, k - 1) + [(n % 256) as byte]
  }

  function Value(bytes: seq<byte>): nat {
    if bytes == [] then 0 else 256 * Value(bytes[..|bytes| - 1]) + bytes[|bytes| - 1] as nat
  }

  /** A number that fits in `k` bytes is read back from them. */
  lemma {:induction false} BigEndianRoundTrip(n: nat, k: nat)
    requires n < Capacity(k)
    ensures Value(BigEndian(n, k)) == n
  {
    if k != 0 {
      BigEndianRoundTrip(n / 256, k - 1);
      assert BigEndian(n, k)[..k - 1] == BigEndian(n / 256, k - 1);
    }
  }

  const LENGTH_BYTES: nat := 8

  /** A field that a 64-bit length describes. */
  predicate Fits(field: seq<byte>) {
    |field| < Capacity(LENGTH_BYTES)
  }

  /** That is any field shorter than two to the 64. */
  lemma FitsExactly(field: seq<byte>)
    ensures Fits(field) <==> |field| < 18446744073709551616
  {
    assert Capacity(1) == 256 && Capacity(2) == 65536;
    assert Capacity(4) == 4294967296;
    assert Capacity(6) == 281474976710656;
  }

  function Framed(field: seq<byte>): seq<byte> {
    BigEndian(|field|, LENGTH_BYTES) + field
  }

  /** Two framings that start alike frame the same field, whatever follows. */
  lemma FramedIsPrefixFree(a: seq<byte>, b: seq<byte>, afterA: seq<byte>, afterB: seq<byte>)
    requires Fits(a) && Fits(b) && Framed(a) + afterA == Framed(b) + afterB
    ensures a == b && afterA == afterB
  {
    var x, y := Framed(a) + afterA, Framed(b) + afterB;
    assert x[..LENGTH_BYTES] == BigEndian(|a|, LENGTH_BYTES) && y[..LENGTH_BYTES] == BigEndian(|b|, LENGTH_BYTES);
    BigEndianRoundTrip(|a|, LENGTH_BYTES);
    BigEndianRoundTrip(|b|, LENGTH_BYTES);
    assert x[LENGTH_BYTES..LENGTH_BYTES + |a|] == a && y[LENGTH_BYTES..LENGTH_BYTES + |b|] == b;
    assert x[LENGTH_BYTES + |a|..] == afterA && y[LENGTH_BYTES + |b|..] == afterB;
  }

  function HashInput(topic: seq<byte>, callback: seq<byte>, since: seq<byte>): seq<byte> {
    Framed(topic) + (Framed(callback) + Framed(since))
  }

  /** Different (topic, callback, time) triples are hashed as different byte strings. */
  lemma FramingIsInjective(topic: seq<byte>, callback: seq<byte>, since: seq<byte>,
                           topic': seq<byte>, callback': seq<byte>, since': seq<byte>)
    requires Fits(topic) && Fits(callback) && Fits(since) && Fits(topic') && Fits(callback') && Fits(since')
    requires HashInput(topic, callback, since) == HashInput(topic', callback', since')
    ensures topic == topic' && callback == callback' && since == since'
  {
    hide Framed, Fits;
    FramedIsPrefixFree(topic, topic', Framed(callback) + Framed(since), Framed(callback') + Framed(since'));
    FramedIsPrefixFree(callback, callback', Framed(since), Framed(since'));
    assert Framed(since) + [] == Framed(since) && Framed(since') + [] == Framed(since');
    FramedIsPrefixFree(since, since', [], []);
  }

  class Hasher {
    var written: seq<byte>

    constructor ()
      ensures written == []
    {
      written := [];
    }

    method WriteField(field: seq<byte>)
      modifies this
      ensures written == old(written) + Framed(field)
    {
      written := written + BigEndian(|field|, LENGTH_BYTES);
      written := written + field;
    }
  }

  /** What is hashed for a subscription, or nothing when a part is missing. */
  method SubscriptionHashInput(topic: seq<byte>, callback: seq<byte>, since: Option<seq<byte>>) returns (input: Option<seq<byte>>)
    ensures input.Some? <==> topic != [] && callback != [] && since.Some?
    ensures input.Some? ==> input.value == HashInput(topic, callback, since.value)
  {
    if topic == [] || callback == [] || since.None? {
      return None;
    }
    var hasher := new Hasher();
    hasher.WriteField(topic);
    hasher.WriteField(callback);
    hasher.WriteField(since.value);
    assert hasher.written == HashInput(topic, callback, since.value);
    return Some(hasher.written);
  }
}

/**
 * What the two endpoints share: the message path, the ready token, the shape of
 * a peer message, and the framing of the three-element reply into one blob.
 *
 * The handheld writes a `List<byte[]>` with Java object serialization and the
 * watch reads it back. That wire format is a foreign library format; here it is
 * replaced by a length-prefixed framing (a 4-byte big-endian count, then each
 * byte array as a 4-byte big-endian length followed by its bytes) that keeps
 * the two facts the protocol relies on: reading back what was written gives the
 * same list, and a blob that is not a well-formed list fails as a whole (the
 * `IOException` of `readObject`).
 */
module Wire {
  import opened Wrappers

  /** An octet of a Java `byte[]`, read unsigned. */
  newtype byte = x: int | 0 <= x < 0x100

  /** The largest length of a Java array (and of an `ArrayList`). */
  const MaxArrayLength: nat := 0x7FFF_FFFF

  /** A Java `byte[]`. */
  type ByteArray = s: seq<byte> | |s| <= 0x7FFF_FFFF witness []

  /** A Java `List<byte[]>`. */
  type ByteArrayList = l: seq<ByteArray> | |l| <= 0x7FFF_FFFF witness []

  /** The per-peer handle the transport hands out (`Node.getId()`). */
  type NodeId = string

  /** The one path used for both the ready request and the reply. */
  const DataPath: string := "/wearable/sunwatch/data"

  /** The token a watch sends to ask for data. */
  const DataReady: string := "dataReady"

  /** `String.getBytes()` on a string that is all ASCII. */
  function AsciiBytes(s: string): (b: seq<byte>)
    requires forall i :: 0 <= i < |s| ==> s[i] < 128 as char
    ensures |b| == |s|
    ensures forall i :: 0 <= i < |s| ==> b[i] as int == s[i] as int
  {
    if s == [] then [] else [s[0] as int as byte] + AsciiBytes(s[1..])
  }

  /** The body of a ready request: `DATA_READY.getBytes()`. */
  const ReadyToken: seq<byte> := AsciiBytes(DataReady)

  /**
   * A message handed to `MessageApi.sendMessage`: the addressee, the path and
   * the body. The handheld can pass a null body, hence the option.
   */
  datatype Message = Message(to: NodeId, path: string, data: Option<seq<byte>>)

  // ---------------------------------------------------------------------------
  // Framing of a list of byte arrays
  // ---------------------------------------------------------------------------

  /** A non-negative Java `int` as four big-endian bytes. */
  function IntBytes(n: nat): (b: seq<byte>)
    requires n <= MaxArrayLength
    ensures |b| == 4 && b[0] < 0x80
  {
    var low := n / 0x100;
    var mid := low / 0x100;
    [(mid / 0x100) as byte, (mid % 0x100) as byte, (low % 0x100) as byte, (n % 0x100) as byte]
  }

  /** Four big-endian bytes read as an unsigned number. */
  function ReadInt(b: seq<byte>): nat
    requires |b| >= 4
  {
    ((b[0] as nat * 0x100 + b[1] as nat) * 0x100 + b[2] as nat) * 0x100 + b[3] as nat
  }

  lemma DivMod256(q: nat, r: nat)
    requires r < 0x100
    ensures (q * 0x100 + r) / 0x100 == q && (q * 0x100 + r) % 0x100 == r
  {
  }

  lemma IntBytesRoundTrip(n: nat)
    requires n <= MaxArrayLength
    ensures ReadInt(IntBytes(n)) == n
  {
    var low := n / 0x100;
    var mid := low / 0x100;
    assert n == low * 0x100 + n % 0x100;
    assert low == mid * 0x100 + low % 0x100;
    assert mid == (mid / 0x100) * 0x100 + mid % 0x100;
  }

  lemma ReadIntRoundTrip(b: seq<byte>)
    requires |b| == 4 && ReadInt(b) <= MaxArrayLength
    ensures IntBytes(ReadInt(b)) == b
  {
    var mid := b[0] as nat * 0x100 + b[1] as nat;
    var low := mid * 0x100 + b[2] as nat;
    DivMod256(low, b[3] as nat);
    DivMod256(mid, b[2] as nat);
    DivMod256(b[0] as nat, b[1] as nat);
  }

  /** Each byte array as its length followed by its bytes. */
  function EncodeElements(l: seq<ByteArray>): seq<byte>
  {
    if l == [] then [] else IntBytes(|l[0]|) + l[0] + EncodeElements(l[1..])
  }

  /** Writes a list: its element count, then its elements. */
  function Serialize(l: ByteArrayList): seq<byte>
  {
    IntBytes(|l|) + EncodeElements(l)
  }

  /** Reads `n` length-prefixed byte arrays and returns them with what is left. */
  function ReadElements(b: seq<byte>, n: nat): (r: Option<(seq<ByteArray>, seq<byte>)>)
    ensures r.Some? ==> |r.value.0| == n
    decreases n
  {
    if n == 0 then Some(([], b))
    else if |b| < 4 then None
    else
      var len := ReadInt(b[..4]);
      if len > MaxArrayLength || |b| - 4 < len then None
      else
        match ReadElements(b[4 + len..], n - 1)
        case None => None
        case Some((tail, rest)) => Some(([b[4..4 + len]] + tail, rest))
  }

  /**
   * Reads a list back, as `readObject` reads one object: `None` for a blob
   * that does not start with a framed list; bytes after the list are ignored.
   */
  function Deserialize(blob: seq<byte>): Option<ByteArrayList>
  {
    if |blob| < 4 then None
    else
      var count := ReadInt(blob[..4]);
      if count > MaxArrayLength then None
      else
        match ReadElements(blob[4..], count)
        case None => None
        case Some((elems, _)) => Some(elems)
  }

  lemma {:induction false} ReadEncodedElements(l: seq<ByteArray>, rest: seq<byte>)
    ensures ReadElements(EncodeElements(l) + rest, |l|) == Some((l, rest))
  {
    if l != [] {
      var b := EncodeElements(l) + rest;
      var len := |l[0]|;
      assert b == IntBytes(len) + l[0] + (EncodeElements(l[1..]) + rest);
      assert b[..4] == IntBytes(len);
      IntBytesRoundTrip(len);
      assert b[4..4 + len] == l[0];
      assert b[4 + len..] == EncodeElements(l[1..]) + rest;
      ReadEncodedElements(l[1..], rest);
      assert ReadInt(b[..4]) == len;
      assert ReadElements(b, |l|) == Some(([l[0]] + l[1..], rest));
      assert [l[0]] + l[1..] == l;
    } else {
      assert EncodeElements(l) + rest == rest;
    }
  }

  lemma {:induction false} EncodeReadElements(b: seq<byte>, n: nat)
    requires ReadElements(b, n).Some?
    ensures EncodeElements(ReadElements(b, n).value.0) + ReadElements(b, n).value.1 == b
    decreases n
  {
    if n > 0 {
      var len := ReadInt(b[..4]);
      var (tail, rest) := ReadElements(b[4 + len..], n - 1).value;
      EncodeReadElements(b[4 + len..], n - 1);
      ReadIntRoundTrip(b[..4]);
      var l := [b[4..4 + len]] + tail;
      assert l[0] == b[4..4 + len] && l[1..] == tail;
      assert b == b[..4] + b[4..4 + len] + b[4 + len..];
    }
  }

  /** Reading back a written list gives the same list, whatever follows it. */
  lemma SerializeRoundTrip(l: ByteArrayList, rest: seq<byte>)
    ensures Deserialize(Serialize(l) + rest) == Some(l)
  {
    var blob := Serialize(l) + rest;
    assert blob[..4] == IntBytes(|l|);
    IntBytesRoundTrip(|l|);
    assert blob[4..] == EncodeElements(l) + rest;
    ReadEncodedElements(l, rest);
  }

  /** A blob that reads as a list starts with the writing of that list. */
  lemma DeserializeRoundTrip(blob: seq<byte>)
    requires Deserialize(blob).Some?
    ensures Serialize(Deserialize(blob).value) <= blob
  {
    var count := ReadInt(blob[..4]);
    ReadIntRoundTrip(blob[..4]);
    EncodeReadElements(blob[4..], count);
    assert blob == blob[..4] + blob[4..];
  }
}

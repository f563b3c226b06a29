/**
 * The client-generated identifier: a 128-bit UUID, its 16-byte view
 * (`Uuid::as_bytes`) and its construction from a byte slice
 * (`Uuid::from_slice`), which fails unless the slice holds exactly 16 bytes.
 */
module Uuids {
  import opened Wrappers
  import opened Bytes

  const UUID_LEN: nat := 16

  /** A UUID, as the unsigned 128-bit number its bytes spell big-endian. */
  type Uuid = n: nat | n < Pow256(UUID_LEN)

  /** The error `Uuid::from_slice` reports: the slice length was not 16. */
  datatype UuidError = ByteLength(len: nat)

  /** The 16 bytes of `u`, in order. */
  function AsBytes(u: Uuid): (b: seq<byte>)
    ensures |b| == UUID_LEN
    ensures FromBytesBE(b) == u
  {
    FromToBytesBE(u, UUID_LEN);
    ToBytesBE(u, UUID_LEN)
  }

  /** The UUID whose bytes are `b`, or a length error. */
  function FromSlice(b: seq<byte>): (r: Result<Uuid, UuidError>)
    ensures r.Err? <==> |b| != UUID_LEN
    ensures r.Err? ==> r.error == ByteLength(|b|)
    ensures r.Ok? ==> AsBytes(r.value) == b
  {
    if |b| != UUID_LEN then Err(ByteLength(|b|))
    else
      ToFromBytesBE(b);
      Ok(FromBytesBE(b))
  }

  /** Reading back the bytes of a UUID gives that UUID. */
  lemma FromSliceAsBytes(u: Uuid)
    ensures FromSlice(AsBytes(u)) == Ok(u)
  {
  }

  /** Distinct UUIDs have distinct byte views. */
  lemma AsBytesInjective(u: Uuid, v: Uuid)
    ensures AsBytes(u) == AsBytes(v) ==> u == v
  {
  }
}

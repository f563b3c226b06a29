/**
 * The uuid identifier strategy: `id_fitter` packs a UUID into a generic BSON
 * binary, the canonical filter selects a document by that key, and the
 * inserted-id match in `create_one` turns a key echoed by the store back into
 * a UUID.
 */
module IdCodec {
  import opened Wrappers
  import opened Bytes
  import opened Uuids
  import opened Bson

  /** `id_fitter`: the store key of `id`, a generic binary holding its 16 bytes in order. */
  function IdFitter(id: Uuid): (b: Bson)
    ensures b.Binary? && b.subtype == Generic
    ensures |b.bytes| == UUID_LEN && FromSlice(b.bytes) == Ok(id)
  {
    Binary(Generic, AsBytes(id))
  }

  /** The canonical single-document filter `{_id: id_fitter(id)}`. */
  function IdFilter(id: Uuid): (f: Document)
    ensures f.Keys == {ID_KEY}
    ensures DecodeInsertedId(f[ID_KEY]) == Some(id)
  {
    map[ID_KEY := IdFitter(id)]
  }

  /** What the inserted-id match in `create_one` does, as written: a value, or a panic. */
  datatype Decoded = Decoded(id: Option<Uuid>) | Panicked(cause: UuidError)

  /**
   * The inserted-id match as written: any binary goes through
   * `Uuid::from_slice(..).unwrap()`, which panics when the slice is not 16
   * bytes long; every other BSON value gives no id.
   */
  function DecodeInsertedIdAsWritten(b: Bson): (d: Decoded)
    ensures d.Panicked? <==> b.Binary? && |b.bytes| != UUID_LEN
    ensures d.Decoded? && d.id.Some? ==> b.Binary? && AsBytes(d.id.value) == b.bytes
    ensures b.Binary? && |b.bytes| == UUID_LEN ==> d.Decoded? && d.id.Some?
  {
    match b
    case Binary(_, bytes) =>
      (match FromSlice(bytes)
       case Ok(u) => Decoded(Some(u))
       case Err(e) => Panicked(e))
    case _ => Decoded(None)
  }

  /**
   * The inserted-id match as the facade uses it: a binary of 16 bytes, of any
   * subtype, is the UUID with those bytes; every other value, including a
   * binary of another length, gives no id.
   */
  function DecodeInsertedId(b: Bson): (r: Option<Uuid>)
    ensures r.Some? <==> b.Binary? && |b.bytes| == UUID_LEN
    ensures r.Some? ==> AsBytes(r.value) == b.bytes
  {
    match b
    case Binary(_, bytes) =>
      (match FromSlice(bytes)
       case Ok(u) => Some(u)
       case Err(_) => None)
    case _ => None
  }

  /** A two-byte binary id makes the code as written panic. */
  lemma ShortBinaryIdPanics()
    ensures DecodeInsertedIdAsWritten(Binary(Generic, [0x01, 0x02])) == Panicked(ByteLength(2))
  {
  }

  /** Wherever the code as written returns, the facade's decoder returns the same id. */
  lemma DecodeAgreesWhereAsWrittenReturns(b: Bson)
    ensures DecodeInsertedIdAsWritten(b).Decoded? ==> DecodeInsertedIdAsWritten(b).id == DecodeInsertedId(b)
  {
  }

  /** Decoding the key of a UUID gives back that UUID. */
  lemma DecodeIdFitter(id: Uuid)
    ensures DecodeInsertedId(IdFitter(id)) == Some(id)
  {
  }

  /** Every well-formed key (generic subtype, 16 bytes) is the key of the UUID it decodes to. */
  lemma IdFitterDecode(b: Bson)
    requires b.Binary? && b.subtype == Generic && |b.bytes| == UUID_LEN
    ensures DecodeInsertedId(b).Some? && IdFitter(DecodeInsertedId(b).value) == b
  {
  }

  /** The subtype tag is not checked when decoding, so re-encoding replaces it by `Generic`. */
  lemma DecodeIgnoresSubtype(subtype: BinarySubtype, bytes: seq<byte>)
    ensures DecodeInsertedId(Binary(subtype, bytes)) == DecodeInsertedId(Binary(Generic, bytes))
    ensures subtype != Generic && |bytes| == UUID_LEN ==>
      IdFitter(DecodeInsertedId(Binary(subtype, bytes)).value) != Binary(subtype, bytes)
  {
  }

  /** Distinct UUIDs have distinct keys, so the canonical filter names one identifier. */
  lemma IdFitterInjective(u: Uuid, v: Uuid)
    ensures IdFitter(u) == IdFitter(v) ==> u == v
  {
    if IdFitter(u) == IdFitter(v) {
      assert FromSlice(AsBytes(u)) == Ok(v);
    }
  }
}

/**
 * The part of BSON the facade touches: values, documents (field name to
 * value) and the binary wrapper with its subtype tag.
 */
module Bson {
  import opened Bytes

  /** The subtype tag carried by a BSON binary value. */
  datatype BinarySubtype =
    | Generic
    | Function
    | BinaryOld
    | UuidOld
    | UuidStd
    | Md5
    | Encrypted
    | UserDefined(tag: byte)

  /** A BSON value. Types the facade never inspects are left out. */
  datatype Bson =
    | Null
    | Bool(b: bool)
    | Int64(i: int)
    | Str(s: string)
    | ObjectId(oid: seq<byte>)
    | Binary(subtype: BinarySubtype, bytes: seq<byte>)
    | Array(items: seq<Bson>)
    | Doc(fields: map<string, Bson>)

  /** A BSON document; used for stored models, filters and update specifications. */
  type Document = map<string, Bson>

  const ID_KEY: string := "_id"
  const SET_KEY: string := "$set"
}

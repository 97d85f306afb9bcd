/** The object store the service writes profile images to (the `S3Service` collaborator).
    Its client is not part of this model; it is represented by the one behaviour the
    service relies on: bytes put under a bucket and key are the bytes got back. */
module ObjectStorage {
  import opened Wrappers

  newtype Byte = b: int | 0 <= b < 256

  /** A location in the store. */
  datatype ObjectRef = ObjectRef(bucket: string, key: string)

  class ObjectStore {
    var objects: map<ObjectRef, seq<Byte>>

    constructor ()
      ensures objects == map[]
    {
      objects := map[];
    }

    /** `putObject(bucket, key, bytes)`: store the bytes, replacing what was there. */
    method PutObject(bucket: string, key: string, bytes: seq<Byte>)
      modifies this
      ensures objects == old(objects)[ObjectRef(bucket, key) := bytes]
    {
      objects := objects[ObjectRef(bucket, key) := bytes];
    }

    /** `getObject(bucket, key)`: the stored bytes; absent when nothing is stored there. */
    method GetObject(bucket: string, key: string) returns (r: Option<seq<Byte>>)
      ensures r.Some? <==> ObjectRef(bucket, key) in objects
      ensures r.Some? ==> r.value == objects[ObjectRef(bucket, key)]
    {
      var at := ObjectRef(bucket, key);
      if at in objects {
        r := Some(objects[at]);
      } else {
        r := None;
      }
    }
  }
}

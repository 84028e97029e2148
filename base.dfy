/** Values shared by every part of the edge proxy model: bytes, optional values,
    and the errors the core returns or propagates. */
module Base {

  newtype byte = b: int | 0 <= b < 256

  type Bytes = seq<byte>

  datatype Option<+T> = None | Some(value: T)

  /** Every error the modelled code can return. The first four are the durable
      store's taxonomy; the others stand for errors raised by code outside the
      model (readers, the serializer, the file system, url parsing). */
  datatype Error =
    | ErrStorageAccessConflict          // "specified key is under accessing"
    | ErrStorageNotFound                // "specified key is not found"
    | ErrKeyHasNoContent                // "specified key has no contents"
    | ErrKeyIsEmpty                     // "specified key is empty"
    | EOF                               // io.EOF: the stream ended
    | ErrClosedPipe                     // io.ErrClosedPipe: write on a closed pipe
    | ReadFailed(reason: string)        // any other error from reading a body
    | CloseFailed(reason: string)       // an error from closing a body
    | DecodeFailed(reason: string)      // the serializer could not decode
    | EncodeFailed(reason: string)      // the serializer could not encode
    | GzipFailed(reason: string)        // the gzip decoder could not be built
    | ErrResourceType(resource: string) // "err resource type: %s"
    | FsFailed(reason: string)          // an os error other than "does not exist"
    | GVRNotRecognized                  // hubmeta.ErrGVRNotRecognized
    | CacheQueryFailed(reason: string)  // any other error of the cache manager
    | NilRequestInfo                    // a nil RequestInfo is dereferenced (a Go panic)
    | Message(text: string)             // an fmt.Errorf / errors.New with this text

  datatype Result<+T> = Ok(value: T) | Err(error: Error)
}

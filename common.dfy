/** The value types shared by the server and the client. */
module Common {

  datatype Option<T> = None | Some(value: T)

  /** The kind of a submitted document. A document that arrives with any
      other tag is `Unsupported`; the server accepts only the first three. */
  datatype DataType = Txt | Html | Json | Unsupported(tag: string)

  /** A submitted document `{ type, source, data }`. The field `type` is a
      keyword in Dafny and is called `kind` here. */
  datatype Data = Data(kind: DataType, source: string, data: string)

  /** A queued chunk has the shape of a document: it is the originating
      document with `data` replaced by one segment of its narration. */
  type StreamChunk = Data
}

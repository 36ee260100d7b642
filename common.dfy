/** Values shared by the service client, the session controller and the uploader. */
module Common {

  /** A JavaScript value that may be `null` or `undefined`. */
  datatype Option<+T> = None | Some(value: T)

  /** The outcome of a step that may throw: its value, or the message of the thrown `Error`. */
  datatype Result<+T> = Ok(value: T) | Err(message: string)

  /** A browser `File`: its name, its declared media type (`file.type`) and its bytes. */
  datatype File = File(name: string, mimeType: string, bytes: seq<bv8>)
}

/** What the length-delimited connection hands the client, one read at a
    time (the `framed.next()` of src/repl.rs and src/main.rs).

    The codec itself (4-byte length prefix, a 32 MiB maximum frame length,
    buffering) is not modelled: a frame it cannot deliver, such as one whose
    declared length exceeds the maximum, shows up as `FrameError`. */
module Wire {
  import opened Json
  import opened Protocol

  /** The body of one frame as `serde_json::from_slice::<ManagementResponse>`
      sees it: either the text of a response, or bytes that are not one. */
  datatype Frame = Decodes(response: ManagementResponse) | Undecodable(raw: seq<byte>)

  /** One result of reading the connection: `Some(Ok(frame))`,
      `Some(Err(e))`, or `None` at end of stream. */
  datatype Read = Got(frame: Frame) | FrameError(reason: string) | EndOfStream
}

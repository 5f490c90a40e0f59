/**
 * The two collaborators the controller only calls: the message producer,
 * whose result is an input here, and the JSON object mapper, whose reading
 * and writing are functions supplied by the caller.
 */
module Messaging {
  import opened Wrappers
  import opened Entities

  /** What `sendMessage` gives back to the handler. */
  datatype Sent =
    | Replied(raw: string)              // the raw reply text
    | NoReply                            // `sendMessage` returned null
    | SendFailed(error: Option<string>)  // `sendMessage` threw; the exception's message

  /** What reading a reply as an `ACK` gives. */
  datatype Decoded<P> =
    | Malformed(error: Option<string>)  // `readValue` threw; the exception's message
    | NullAck                            // the text was read as a null ACK
    | Decoded(ack: ACK<P>)

  /** What `writeValueAsString` gives. */
  datatype Encoded = Text(text: string) | JsonError(error: Option<string>)

  /**
   * The object mapper specialised to one payload type: reading an `ACK<P>`,
   * writing a whole `ACK<P>`, and writing a bare (possibly null) payload.
   */
  datatype Codec<!P> = Codec(
    decode: string -> Decoded<P>,
    writeAck: ACK<P> -> Encoded,
    writePayload: Option<P> -> Encoded)

  /** Writing `ack` and reading the text back gives `ack` again. */
  ghost predicate RoundTrips<P>(codec: Codec<P>, ack: ACK<P>)
  {
    codec.writeAck(ack).Text? && codec.decode(codec.writeAck(ack).text) == Decoded(ack)
  }
}

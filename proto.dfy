/**
 * The protocol-buffer messages the server exchanges: `prost_types::Any` and the
 * generated `MessageTransport` envelope. Their wire encoding is generated code
 * that is not part of this model, so it appears only as an encode/decode pair
 * supplied from outside (`Codec`).
 */
module Proto {
  import opened Wrappers

  type byte = x: int | 0 <= x < 256

  /** `prost_types::Any`: a type URL naming the payload type and the payload bytes. */
  datatype Any = Any(typeUrl: string, value: seq<byte>)

  /** The envelope every frame carries: an optional payload and an optional acknowledgement id. */
  datatype MessageTransport = MessageTransport(payload: Option<Any>, acknowledgementId: Option<string>)

  /** `MessageTransport::default()`: both optional fields absent. */
  function DefaultTransport(): (t: MessageTransport)
    ensures t.payload.None? && t.acknowledgementId.None?
  {
    MessageTransport(None, None)
  }

  /** The error prost reports when a frame does not decode; only its text is observable. */
  datatype DecodeError = DecodeError(description: string)

  /** The generated encoder and decoder of `MessageTransport`, taken as parameters. */
  datatype Codec = Codec(
    encode: MessageTransport -> seq<byte>,
    decode: seq<byte> -> Result<MessageTransport, DecodeError>)

  /**
   * ASSUMPTION about the generated code, never proved here: decoding what was
   * encoded gives back the same envelope. Lemmas that rely on it take it as a
   * `requires` clause.
   */
  ghost predicate RoundTrip(c: Codec)
  {
    forall t :: c.decode(c.encode(t)) == Ok(t)
  }
}

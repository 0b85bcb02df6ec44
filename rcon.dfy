/**
 * The remote-console (WebRcon) request the supervisor sends, and the shape of an
 * inbound push once it has been decoded.
 */
module Rcon {
  import opened Options

  /** The object that `packet` hands to JSON.stringify. */
  datatype Packet = Packet(identifier: int, message: string, name: string)

  /** Identifier every request carries: the supervisor never matches replies to requests. */
  const RequestIdentifier: int := -1

  /** Name of the channel the server's WebRcon endpoint expects. */
  const ChannelName: string := "WebRcon"

  /** The command the supervisor sends by itself as soon as a session opens. */
  const StatusCommand: string := "status"

  /** `packet(command)`: the request that runs `command` on the server. */
  function CommandPacket(command: string): Packet {
    Packet(RequestIdentifier, command, ChannelName)
  }

  /**
   * Every request carries identifier -1 and the channel name "WebRcon", and the
   * command text is recoverable from the request: two requests are equal exactly
   * when their commands are.
   */
  lemma CommandPacketCarriesCommand(a: string, b: string)
    ensures CommandPacket(a).identifier == -1 && CommandPacket(a).name == "WebRcon"
    ensures CommandPacket(a).message == a
    ensures CommandPacket(a) == CommandPacket(b) <==> a == b
  {
  }

  /**
   * An inbound push as the handler's `try` block sees it:
   * - None when the block throws. That happens when JSON.parse throws, and also when it
   *   returns `null` (or `undefined`), because reading `.Message` then throws.
   * - Some(None) when it parsed to an object without a `Message` string.
   * - Some(Some(m)) when its `Message` is `m`.
   */
  type Payload = Option<Option<string>>

  /** JavaScript truthiness of a string: only the empty string is falsy. */
  predicate Truthy(m: string) {
    m != ""
  }

  /** The text a push contributes to the console and the log, if any. */
  function PushedText(payload: Payload): Option<string> {
    match payload
    case Some(Some(m)) => if Truthy(m) then Some(m) else None
    case _ => None
  }
}

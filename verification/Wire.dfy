/** Frames a client sends on a channel, and both ends' view of that channel. */
module Wire {
  import opened Amqp

  datatype Frame =
    | Publish(tag: nat, key: string, payload: seq<byte>, headers: Headers)
    | Ack(tag: nat)
    | Nack(tag: nat)

  /** `client` and `broker` say which end still holds the channel open; `wire` is sent, not yet processed. */
  datatype Link = Link(client: bool, broker: bool, qos: nat, wire: seq<Frame>)

  const FRESH := Link(true, true, 0, [])

  /** Writing on a channel the broker has dropped loses the frame without an error. */
  function Send(l: Link, f: Frame): Link {
    if l.broker then l.(wire := l.wire + [f]) else l
  }
}

/** Inbound event payloads and the server-side stamping of chat messages. */
module Messages {

  /** A value that may be absent; `None` stands for JavaScript's `undefined`. */
  datatype Option<+T> = None | Some(value: T)

  /** A client payload: a flat object of named string fields. */
  type Payload = map<string, string>

  /** The key under which the server records the receipt time of a message. */
  const TIMESTAMP_KEY: string := "timestamp"

  /** Reading a field of a payload: `undefined` when the client did not send it. */
  function Field(p: Payload, key: string): Option<string>
  {
    if key in p then Some(p[key]) else None
  }

  /** The completed message `{ ...msg, timestamp }`: every incoming field, plus
      (or overriding) the timestamp field. */
  function Stamp(msg: Payload, timestamp: string): (r: Payload)
    ensures r.Keys == msg.Keys + {TIMESTAMP_KEY}
    ensures Field(r, TIMESTAMP_KEY) == Some(timestamp)
    ensures forall k :: k != TIMESTAMP_KEY ==> Field(r, k) == Field(msg, k)
  {
    msg[TIMESTAMP_KEY := timestamp]
  }
}

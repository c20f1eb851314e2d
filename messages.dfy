/** Decoded device-bus datagrams: the JSON values a WiHome message carries,
    the message itself (a flat JSON object) and the UDP address it came from. */
module Messages {

  /** A decoded JSON value. Numbers are modelled as integers only. */
  datatype Value =
    | Null
    | Bool(b: bool)
    | Num(n: int)
    | Str(s: string)
    | Arr(items: seq<Value>)
    | Obj(fields: map<string, Value>)

  /** A message is the JSON object of one datagram, keyed by field name. */
  type Message = map<string, Value>

  /** A UDP peer address, the `(host, port)` pair that a socket reports. */
  datatype Address = Address(host: string, port: int)

  datatype Option<T> = None | Some(value: T)

  /** Whether a value may serve as a key of a Python dict: decoded lists and
      objects become unhashable lists and dicts. */
  predicate Hashable(v: Value) {
    !v.Arr? && !v.Obj?
  }
}

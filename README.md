# WiHome gateway state, modelled in Dafny

`pywihome.py` defines `WiHome`. This object is the gateway between the WiHome
UDP device bus and a local consumer (the HomeKit bridge). It keeps three pieces
of state:

- `rxq`: the receive queue. It holds application messages, oldest first, and
  keeps only the newest `CMDS_MAX` = 256.
- `txq`: the transmit queue. It holds messages the consumer has handed to
  `write`.
- `devs`: the device table. It maps a device's `client` name to the host it
  last sent a `findhub` query from.

A background loop receives one datagram at a time. A `findhub` query is
answered with the same message, with `cmd` rewritten to `hubid`, sent back to
the sender, and the sender's host is recorded under the query's `client`.
Every other message goes into `rxq`. The consumer calls `isrx`, `read` and
`write`.

The project has two files:

- `messages.dfy` (module `Messages`): decoded JSON values, a message as a
  `map<string, Value>`, the `(host, port)` address, and Python's hashability
  of a dict key.
- `pywihome.dfy` (module `PyWiHome`): the constant `CMDS_MAX`; Python's slice
  `s[-k:]` (`SliceFrom`); the receive queue's admission rule as a function
  (`Admit`, `AdmitAll`) with its lemmas; the findhub reply; and the class
  `WiHome`, whose fields are `rxq`, `txq`, `devs` and `receiving`, with the
  methods `Receive`, `IsRx`, `Read` and `Write`.

`Receive` is one iteration of the `run` loop. The socket is replaced by
parameters and a result: the method takes the decoded message and the
sender's address, and it returns the reply and its destination instead of
calling `sendto`.

A `findhub` query with no `client` key is modelled as the source behaves.
The reply is sent first (pywihome.py:32). Then the lookup `msg['client']`
raises `KeyError` (pywihome.py:33), which ends the daemon receive thread.
`Receive` returns `Faulted(reply, addr, MissingClient)`, leaves `devs`
unchanged, and clears `receiving`. No further `Receive` is possible after
that, because `Receive` requires `receiving`. A `client` value that is a JSON
list or object takes the same path with `UnhashableClient`, since Python
raises `TypeError` when such a value is used as a dict key. `isrx`, `read` and
`write` run on the consumer's thread, so they keep working.

In three places the code does less than a complete gateway would, and the
model follows the code:

- The device table stores only the host `addr[0]`, not the full address.
- `write` checks only that a `client` key is present, not that it is
  non-empty.
- The code has no `clientid` or `findclient` handling, no callback registry,
  and no transmit or resolve pass. These are not modelled.

## Model

| member | source | states |
|---|---|---|
| `PyWiHome.WiHome.constructor` | pywihome.py:11-14 | A new gateway starts with an empty receive queue, an empty transmit queue and an empty device table, and its receive loop is running. |
| `PyWiHome.WiHome.Receive` | pywihome.py:29-38 | For a findhub message: exactly one reply, sent to the full sender address, equal to the message with `cmd` set to `hubid`. The device table gains `client -> host` and every other entry is kept, or, when `client` is missing or unhashable, the table is unchanged and the receive loop stops. The queues are untouched. For any other message, including one without `cmd`: no reply and the device table unchanged. The receive queue becomes `Admit(old rxq, msg)`: the message is appended, nothing is dropped below capacity, and only the oldest entry is dropped at capacity. `txq` is unchanged and the bound `|rxq| <= CMDS_MAX` is kept. |
| `PyWiHome.HubIdReply` | pywihome.py:29-31 | The reply has `cmd == "hubid"` and has every other key of the query with the same value. It has no key the query lacks besides `cmd`. |
| `PyWiHome.SliceFrom` | pywihome.py:38 | Python's `s[start:]`: for a negative start `-k` it is the last `min(len, k)` elements of `s`, in order. For a non-negative start it is the list from that index, clamped to the length. |
| `PyWiHome.Admit` | pywihome.py:37-38 | After one arrival, the queue has length `min(old + 1, CMDS_MAX)`, ends with the new message, and is a suffix of `old + [msg]`. It is `old + [msg]` when `old` was below capacity, and `old[1..] + [msg]` when `old` was at capacity. |
| `PyWiHome.SliceFromTwice` | pywihome.py:37-38 | Cutting a list to its newest `n` entries, appending more, and cutting again gives the same result as cutting once at the end. |
| `PyWiHome.AdmitThenCut` | pywihome.py:37-38 | Admitting one arrival and then keeping the newest `CMDS_MAX` of the rest gives the newest `CMDS_MAX` of all the arrivals together. |
| `PyWiHome.AdmitAllKeepsNewest` | pywihome.py:36-38 | From any queue within the bound, a run of application arrivals leaves exactly the newest `CMDS_MAX` of the old queue followed by the arrivals, in arrival order. So the oldest entries are dropped first and survivors keep their relative order. |
| `PyWiHome.AdmitAllWithinCapacity` | pywihome.py:36-38 | While everything fits in `CMDS_MAX`, nothing is dropped: the queue is the old queue followed by the arrivals. |
| `PyWiHome.AdmitAllOverflow` | pywihome.py:36-38 | When at least `CMDS_MAX` messages arrive, the queue is exactly the `CMDS_MAX` most recent arrivals. |
| `PyWiHome.WiHome.IsRx` | pywihome.py:43-44 | Returns true exactly when the receive queue is non-empty, and changes nothing. |
| `PyWiHome.WiHome.Read` | pywihome.py:46-50 | On a non-empty queue, returns the oldest message and leaves the rest in order. On an empty queue, returns the no-message result (`False` in the source) and changes nothing. `txq`, `devs` and the receive loop's status are untouched, and the bound is kept. |
| `PyWiHome.WiHome.Write` | pywihome.py:52-56 | Returns true exactly when the message has a `client` key. In that case `txq` becomes the old `txq` with exactly that message appended. Otherwise nothing changes. Every queued message has a `client` key. |

## Left out

- The UDP socket: creation, `bind` to port 24559, `recvfrom` and `sendto`. This is I/O. A received datagram is a parameter of `Receive`, and a send is its returned reply and destination.
- JSON decoding and encoding. `Receive` takes an already-decoded object. A payload that is not valid JSON raises an uncaught exception at the decode in the source and is not modelled. Neither is a payload that decodes to a JSON value other than an object. JSON numbers are integers here, and floating point is not modelled.
- Python's equality between `True`, `1` and `1.0` as dict keys. In the model, `Bool(true)` and `Num(1)` are different device-table keys.
- Python aliasing. Messages are values: a later change by the caller to a dict it passed to `write` is not reflected in `txq`, and the in-place rewrite of `cmd` in a findhub message is modelled as a new reply value.
- The daemon thread and the endless `while True` loop. This is concurrency. One loop iteration is one call to `Receive`, and interleavings with the consumer's calls are not modelled.
- The `print` diagnostics in the receive loop.
- The transmit loop `for msg in txq:` at pywihome.py:40. It has no body, so the file does not parse as written, and there is no send, resolve or retry behaviour to model. `txq` is changed only through `Write`.
- The module-level demo that drains the queue every four seconds, and the commented-out send at the end of pywihome.py.
- WiHome2HomeKit.py, the HomeKit accessory wiring. Its call to `attach_rx_event_callback` names a method that pywihome.py does not define.

/** The WiHome gateway object: a bounded receive queue, a transmit queue and
    a device table, updated by the receive loop and by the consumer's calls. */
module PyWiHome {
  import opened Messages

  /** Capacity of the receive queue. */
  const CMDS_MAX: int := 256

  function Min(a: int, b: int): int { if a <= b then a else b }

  // ---------------------------------------------------------------------------
  // The bounded receive queue, as values

  /** Python's slice `s[start:]`: a negative start counts from the end, and
      the start is clamped to the bounds of the list. */
  function SliceFrom<T>(s: seq<T>, start: int): (r: seq<T>)
    ensures start < 0 ==> |r| == Min(|s|, -start)
    ensures 0 <= start ==> |r| == |s| - Min(|s|, start)
    ensures r == s[|s| - |r|..]
  {
    var i := if start < 0 then start + |s| else start;
    var j := if i < 0 then 0 else if i > |s| then |s| else i;
    s[j..]
  }

  /** The receive queue after one application message arrives: the message
      is appended, then the queue is cut back to its newest CMDS_MAX entries. */
  function Admit(q: seq<Message>, m: Message): (r: seq<Message>)
    ensures |r| == Min(|q| + 1, CMDS_MAX)
    ensures r[|r| - 1] == m
    ensures r == (q + [m])[|q| + 1 - |r|..]
    ensures |q| < CMDS_MAX ==> r == q + [m]
    ensures |q| == CMDS_MAX ==> r == q[1..] + [m]
  {
    var r := SliceFrom(q + [m], -CMDS_MAX);
    assert |q| == CMDS_MAX ==> (q + [m])[1..] == q[1..] + [m];
    r
  }

  /** The receive queue after the application messages `ms` arrive in order. */
  function AdmitAll(q: seq<Message>, ms: seq<Message>): seq<Message>
    decreases |ms|
  {
    if ms == [] then q else AdmitAll(Admit(q, ms[0]), ms[1..])
  }

  /** Cutting a list to its newest n entries before appending more, and again
      after, keeps the same entries as cutting only once at the end. */
  lemma {:induction false} SliceFromTwice<T>(s: seq<T>, t: seq<T>, n: int)
    requires n > 0
    ensures SliceFrom(SliceFrom(s, -n) + t, -n) == SliceFrom(s + t, -n)
  {
    var u := SliceFrom(s, -n);
    assert u + t == (s + t)[|s| - |u|..];
  }

  /** Admitting the first of several arrivals and then cutting once keeps the
      same entries as cutting once after all of them. */
  lemma AdmitThenCut(q: seq<Message>, ms: seq<Message>)
    requires ms != []
    ensures SliceFrom(Admit(q, ms[0]) + ms[1..], -CMDS_MAX) == SliceFrom(q + ms, -CMDS_MAX)
  {
    var m, rest := ms[0], ms[1..];
    var s := q + [m];
    calc {
      SliceFrom(Admit(q, m) + rest, -CMDS_MAX);
      SliceFrom(SliceFrom(s, -CMDS_MAX) + rest, -CMDS_MAX);
      { SliceFromTwice(s, rest, CMDS_MAX); }
      SliceFrom(s + rest, -CMDS_MAX);
      { assert s + rest == q + ms; }
      SliceFrom(q + ms, -CMDS_MAX);
    }
  }

  /** Any run of arrivals leaves exactly the newest CMDS_MAX messages of the
      old queue followed by the arrivals, in arrival order. */
  lemma {:induction false} AdmitAllKeepsNewest(q: seq<Message>, ms: seq<Message>)
    requires |q| <= CMDS_MAX
    ensures AdmitAll(q, ms) == SliceFrom(q + ms, -CMDS_MAX)
    decreases |ms|
  {
    if ms == [] {
      assert q + ms == q;
    } else {
      AdmitAllKeepsNewest(Admit(q, ms[0]), ms[1..]);
      AdmitThenCut(q, ms);
    }
  }

  /** While the queue has room for every arrival nothing is dropped: the
      arrivals follow the old entries in arrival order. */
  lemma AdmitAllWithinCapacity(q: seq<Message>, ms: seq<Message>)
    requires |q| + |ms| <= CMDS_MAX
    ensures AdmitAll(q, ms) == q + ms
  {
    AdmitAllKeepsNewest(q, ms);
  }

  /** When at least CMDS_MAX messages arrive, the queue holds exactly the
      CMDS_MAX most recent of them and nothing older. */
  lemma AdmitAllOverflow(q: seq<Message>, ms: seq<Message>)
    requires |q| <= CMDS_MAX <= |ms|
    ensures AdmitAll(q, ms) == ms[|ms| - CMDS_MAX..]
  {
    AdmitAllKeepsNewest(q, ms);
    assert (q + ms)[|q| + |ms| - CMDS_MAX..] == ms[|ms| - CMDS_MAX..];
  }

  // ---------------------------------------------------------------------------
  // Receive classification

  /** A device's query for the gateway: its `cmd` field is the string "findhub". */
  predicate IsFindHub(msg: Message) {
    "cmd" in msg && msg["cmd"] == Str("findhub")
  }

  /** The answer to a findhub query: the query itself with `cmd` rewritten. */
  function HubIdReply(msg: Message): (r: Message)
    ensures r.Keys == msg.Keys + {"cmd"}
    ensures r["cmd"] == Str("hubid")
    ensures forall k :: k in msg && k != "cmd" ==> r[k] == msg[k]
  {
    msg["cmd" := Str("hubid")]
  }

  /** Why the receive loop stops after answering a findhub query: the device
      table lookup raises a KeyError or, for a list or object, a TypeError. */
  datatype Fault = MissingClient | UnhashableClient

  /** What one receive step does besides updating the gateway's state. */
  datatype RxOutcome =
    | Queued
    | Replied(reply: Message, to: Address)
    | Faulted(reply: Message, to: Address, fault: Fault)

  /** The receive step can record the sender of a findhub query. */
  predicate HasClientKey(msg: Message) {
    "client" in msg && Hashable(msg["client"])
  }

  // ---------------------------------------------------------------------------
  // The gateway object

  class WiHome {
    /** Received application messages, oldest first. */
    var rxq: seq<Message>
    /** Messages accepted by Write, oldest first. */
    var txq: seq<Message>
    /** Device table: client name to the host it last queried from. */
    var devs: map<Value, string>
    /** Whether the receive loop is still running. */
    var receiving: bool

    /** The receive queue never exceeds its bound, and every message waiting
        for transmission names a client. */
    ghost predicate Valid()
      reads this
    {
      |rxq| <= CMDS_MAX &&
      forall i :: 0 <= i < |txq| ==> "client" in txq[i]
    }

    constructor ()
      ensures Valid()
      ensures rxq == [] && txq == [] && devs == map[] && receiving
    {
      rxq := [];
      txq := [];
      devs := map[];
      receiving := true;
    }

    /** One iteration of the receive loop, for the datagram `msg` from `addr`.
        A findhub query is answered to `addr` and its sender recorded; any
        other message joins the receive queue. */
    method Receive(msg: Message, addr: Address) returns (outcome: RxOutcome)
      requires Valid() && receiving
      modifies this
      ensures Valid()
      ensures txq == old(txq)
      ensures !IsFindHub(msg) ==>
        && outcome == Queued
        && rxq == Admit(old(rxq), msg)
        && devs == old(devs)
        && receiving
      ensures !IsFindHub(msg) && |old(rxq)| < CMDS_MAX ==> rxq == old(rxq) + [msg]
      ensures !IsFindHub(msg) && |old(rxq)| == CMDS_MAX ==> rxq == old(rxq)[1..] + [msg]
      ensures IsFindHub(msg) ==>
        && !outcome.Queued?
        && outcome.reply == HubIdReply(msg)
        && outcome.to == addr
        && rxq == old(rxq)
      ensures IsFindHub(msg) && HasClientKey(msg) ==>
        && outcome.Replied?
        && devs == old(devs)[msg["client"] := addr.host]
        && receiving
      ensures IsFindHub(msg) && !HasClientKey(msg) ==>
        && outcome.Faulted?
        && outcome.fault == (if "client" in msg then UnhashableClient else MissingClient)
        && devs == old(devs)
        && !receiving
    {
      if IsFindHub(msg) {
        var reply := HubIdReply(msg);
        if "client" !in msg {
          outcome := Faulted(reply, addr, MissingClient);
          receiving := false;
        } else if !HasClientKey(msg) {
          outcome := Faulted(reply, addr, UnhashableClient);
          receiving := false;
        } else {
          devs := devs[msg["client"] := addr.host];
          outcome := Replied(reply, addr);
        }
      } else {
        rxq := rxq + [msg];
        rxq := SliceFrom(rxq, -CMDS_MAX);
        outcome := Queued;
      }
    }

    /** Whether a received message is waiting. */
    method IsRx() returns (pending: bool)
      ensures pending <==> |rxq| > 0
    {
      pending := |rxq| > 0;
    }

    /** Takes the oldest received message, or reports that there is none. */
    method Read() returns (r: Option<Message>)
      requires Valid()
      modifies this`rxq
      ensures Valid()
      ensures old(rxq) == [] ==> r == None && rxq == old(rxq)
      ensures old(rxq) != [] ==> r == Some(old(rxq)[0]) && rxq == old(rxq)[1..]
      ensures txq == old(txq) && devs == old(devs) && receiving == old(receiving)
    {
      var pending := IsRx();
      if pending {
        r := Some(rxq[0]);
        rxq := rxq[1..];
      } else {
        r := None;
      }
    }

    /** Queues `msg` for transmission; a message naming no client is refused. */
    method Write(msg: Message) returns (ok: bool)
      requires Valid()
      modifies this`txq
      ensures Valid()
      ensures ok <==> "client" in msg
      ensures txq == if ok then old(txq) + [msg] else old(txq)
      ensures rxq == old(rxq) && devs == old(devs) && receiving == old(receiving)
    {
      if "client" !in msg {
        return false;
      }
      txq := txq + [msg];
      return true;
    }
  }

  /** A device queries for the gateway and is recorded, then the consumer
      queues a message for it. */
  method Discovery() {
    var gw := new WiHome();
    var query := map["cmd" := Str("findhub"), "client" := Str("dev1")];
    var from := Address("10.0.0.5", 24559);
    assert IsFindHub(query) && HasClientKey(query);
    var outcome := gw.Receive(query, from);
    assert outcome.Replied? && outcome.to == from && outcome.reply["cmd"] == Str("hubid");
    assert gw.devs[Str("dev1")] == "10.0.0.5";

    var ok := gw.Write(map["client" := Str("dev1")]);
    assert ok && |gw.txq| == 1;
  }

  /** Two application messages are read back in arrival order. */
  method ArrivalOrder(info1: Message, info2: Message)
    requires !IsFindHub(info1) && !IsFindHub(info2)
  {
    var gw := new WiHome();
    var from := Address("10.0.0.5", 24559);
    var outcome := gw.Receive(info1, from);
    outcome := gw.Receive(info2, from);
    assert gw.rxq == [info1, info2];
    var first := gw.Read();
    var second := gw.Read();
    var third := gw.Read();
    assert first == Some(info1) && second == Some(info2) && third == None;
  }
}

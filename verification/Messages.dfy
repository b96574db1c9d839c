/**
 Inter-process messages (IPMs) as both ends of a channel see them, and the
 meters that add up what a queue of them is worth to the back-pressure audit.
 */
module Messages {

  type Bytes = seq<bv8>

  datatype Option<+T> = None | Some(value: T)

  datatype Tag =
    | Hello | Goodbye | Cancel | Flush | KeepAlive | PeerError
    | OutputFound | PushData | QueryBuffer | UsedData
    | OtherTag(code: nat)

  /** What a FIFO has handed out since it was last asked. */
  datatype Audit = Audit(items: nat, bytes: nat)

  const EmptyAudit := Audit(0, 0)

  /** `length` is the header's byte count after the header, uncompressed;
      `body` is the payload as it is being carried, so it is the deflated
      bytes when `deflated` is set. */
  datatype Message = Message(
    tag: Tag, stream: nat, order: nat, length: nat, body: Bytes, deflated: bool, audit: Audit)

  /** A message with no payload. */
  function Control(tag: Tag, stream: nat, audit: Audit := EmptyAudit): Message {
    Message(tag, stream, 0, 0, [], false, audit)
  }

  /** Execution parameters of one channel. `header` stands for the size of the
      message header, and the two functions for the compression module. */
  datatype Pars = Pars(
    header: nat, maxItems: nat, maxBytes: nat, deflating: bool,
    deflate: Bytes -> Bytes, inflate: Bytes -> Bytes)
  {
    ghost predicate Valid() {
      forall b: Bytes :: inflate(deflate(b)) == b
    }
  }

  /** The bytes a message's handler will see: only non-empty payloads are inflated. */
  function Plain(p: Pars, m: Message): Bytes {
    if !m.deflated then m.body
    else if m.length == 0 then []
    else p.inflate(m.body)
  }

  /** The header tells the true size of the payload. */
  predicate Sound(p: Pars, m: Message) {
    |Plain(p, m)| == m.length
  }

  /** What the sender thread writes to the socket for a message. */
  function Pack(p: Pars, m: Message): Message {
    if p.deflating && m.tag == PushData then m.(body := p.deflate(m.body), deflated := true) else m
  }

  /** What the receiver thread hands to a deliverer. */
  function Unpack(p: Pars, m: Message): Message {
    m.(body := Plain(p, m), deflated := false)
  }

  lemma PackKeepsContent(p: Pars, m: Message)
    requires p.Valid() && !m.deflated && Sound(p, m)
    ensures Plain(p, Pack(p, m)) == Plain(p, m) && Sound(p, Pack(p, m))
    ensures Pack(p, m) == m.(body := Pack(p, m).body, deflated := Pack(p, m).deflated)
  {
    if p.deflating && m.tag == PushData {
      assert p.inflate(p.deflate(m.body)) == m.body;
    }
  }

  // ---------------------------------------------------------------------------
  // Meters

  datatype Measure = Items | Volume

  datatype Meter =
    | Pushed(measure: Measure, stream: nat)   // PUSHDATA of a stream
    | Returned(measure: Measure, stream: nat) // amounts carried by USEDDATA of a stream
    | Queries(stream: nat)                    // QUERYBUFFER messages of a stream
    | Replies(stream: nat)                    // USEDDATA messages of a stream
    | Tagged(tag: Tag)                        // messages with a tag

  function Amount(a: Audit, measure: Measure): nat {
    if measure == Items then a.items else a.bytes
  }

  function Weigh(p: Pars, m: Message, w: Meter): nat {
    match w
    case Pushed(measure, k) =>
      if m.tag == PushData && m.stream == k then (if measure == Items then 1 else p.header + m.length) else 0
    case Returned(measure, k) => if m.tag == UsedData && m.stream == k then Amount(m.audit, measure) else 0
    case Queries(k) => if m.tag == QueryBuffer && m.stream == k then 1 else 0
    case Replies(k) => if m.tag == UsedData && m.stream == k then 1 else 0
    case Tagged(t) => if m.tag == t then 1 else 0
  }

  function Total(p: Pars, q: seq<Message>, w: Meter): nat {
    if q == [] then 0 else Weigh(p, q[0], w) + Total(p, q[1..], w)
  }

  lemma {:induction false} TotalAppend(p: Pars, x: seq<Message>, y: seq<Message>, w: Meter)
    ensures Total(p, x + y, w) == Total(p, x, w) + Total(p, y, w)
  {
    if x == [] {
      assert x + y == y;
    } else {
      assert (x + y)[1..] == x[1..] + y;
      TotalAppend(p, x[1..], y, w);
    }
  }

  lemma TotalOne(p: Pars, m: Message, w: Meter)
    ensures Total(p, [m], w) == Weigh(p, m, w)
  {
    assert [m][1..] == [];
  }

  /** Replacing one message by another of the same weight leaves the total. */
  lemma TotalMiddle(p: Pars, x: seq<Message>, m: Message, y: seq<Message>, w: Meter)
    ensures Total(p, x + [m] + y, w) == Total(p, x, w) + Weigh(p, m, w) + Total(p, y, w)
  {
    TotalAppend(p, x + [m], y, w);
    TotalAppend(p, x, [m], w);
    TotalOne(p, m, w);
  }

  // ---------------------------------------------------------------------------
  // The data of one stream

  /** One PUSHDATA as its handler sees it. */
  datatype Item = Item(order: nat, body: Bytes)

  function ItemOf(p: Pars, m: Message): Item {
    Item(m.order, Plain(p, m))
  }

  /** The PUSHDATA of stream k in a queue, in queue order. */
  function Data(p: Pars, q: seq<Message>, k: nat): seq<Item> {
    if q == [] then []
    else (if q[0].tag == PushData && q[0].stream == k then [ItemOf(p, q[0])] else []) + Data(p, q[1..], k)
  }

  lemma {:induction false} DataAppend(p: Pars, x: seq<Message>, y: seq<Message>, k: nat)
    ensures Data(p, x + y, k) == Data(p, x, k) + Data(p, y, k)
  {
    if x == [] {
      assert x + y == y;
    } else {
      assert (x + y)[1..] == x[1..] + y;
      DataAppend(p, x[1..], y, k);
    }
  }

  lemma DataOne(p: Pars, m: Message, k: nat)
    ensures Data(p, [m], k) == if m.tag == PushData && m.stream == k then [ItemOf(p, m)] else []
  {
    assert [m][1..] == [];
  }

  lemma DataMiddle(p: Pars, x: seq<Message>, m: Message, y: seq<Message>, k: nat)
    ensures Data(p, x + [m] + y, k) == Data(p, x, k) + Data(p, [m], k) + Data(p, y, k)
  {
    DataAppend(p, x + [m], y, k);
    DataAppend(p, x, [m], k);
  }

  /** As many items in a stream's data as PUSHDATA of the stream. */
  lemma {:induction false} DataCount(p: Pars, q: seq<Message>, k: nat)
    ensures |Data(p, q, k)| == Total(p, q, Pushed(Items, k))
  {
    if q != [] {
      DataCount(p, q[1..], k);
    }
  }
}

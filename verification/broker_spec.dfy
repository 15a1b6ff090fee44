/**
 The broker's message path (broker/server.go) as steps on values: sends, topic removals and
 crashes with replay of the write-ahead log. Leadership, roles, Raft's answer and how far a
 write gets are parameters. A failed log write and a crash may leave the first bytes of an
 entry in the current file, and a failed fragment write the first bytes of a message.
 */
module BrokerSpec {
  import opened Codec
  import opened Common
  import opened WalSpec
  import opened WalImpl
  import opened FragmentStore
  import F = FragmentSpec

  const LIMITS := Limits(128 * 1024 * 1024, 10000)

  datatype Msg = Msg(id: nat, payload: Bytes)

  datatype TopicRole = Unspecified | Leading | Following

  /** files: the write-ahead log files; store: the fragments and their files. */
  datatype Broker = Broker(counter: nat, topics: set<Bytes>, roles: map<Bytes, TopicRole>, files: seq<Bytes>,
                           store: Store)

  datatype Reply = Success(id: nat) | Retry | Error

  predicate Ok(b: Broker) {
    b.files != []
  }

  function Strip(log: seq<F.Message>): seq<Msg> {
    if log == [] then [] else Strip(log[..|log| - 1]) + [Msg(log[|log| - 1].id, log[|log| - 1].payload)]
  }

  /** What a topic's fragments hold, as a pull reads it. */
  function Log(b: Broker, topic: Bytes): seq<Msg> {
    Strip(LogOf(b.store, topic))
  }

  datatype Op =
    | SetRole(topic: Bytes, role: TopicRole, ok: bool)
    | Send(topic: Bytes, payload: Bytes, leader: bool, role: TopicRole, walOk: bool, cut: nat, raftOk: bool,
           created: Creation, stored: Stored, now: int)
    | RemoveTopic(topic: Bytes, reason: Bytes, walOk: bool, cut: nat, now: int)
    | Crash(torn: Entry, k: nat, now: int)

  /** Entry sizes fit their 32-bit fields, times fit 64 bits, and what fails or crashes cuts an
      entry short. */
  predicate Sound(op: Op) {
    match op
    case SetRole(_, _, _) => true
    case Send(topic, payload, _, _, _, cut, _, _, _, now) =>
      25 + |topic| + |payload| < U32 && cut < 29 + |topic| + |payload| && -U63 <= now < U63
    case RemoveTopic(topic, reason, _, cut, now) =>
      25 + |topic| + |reason| < U32 && cut < 29 + |topic| + |reason| && -U63 <= now < U63
    case Crash(torn, k, now) => torn.Fits() && k < |Encode(torn)| && -U63 <= now < U63
  }

  predicate Issues(b: Broker, op: Op) {
    op.Send? && op.topic in b.topics && op.leader
  }

  function NextId(b: Broker): nat {
    (b.counter + 1) % U64
  }

  function MessageEntry(b: Broker, op: Op): Entry
    requires op.Send?
  {
    Entry(1, op.topic, NextId(b), op.payload, op.now)
  }

  /** The entry an operation writes or tries to write. */
  function Tries(b: Broker, op: Op): (r: Option<Entry>)
    ensures r.Some? ==> op.Send? || op.RemoveTopic?
    ensures Sound(op) && r.Some? ==> -U63 <= r.value.timestamp < U63 && op.cut < |Encode(r.value)|
  {
    if Issues(b, op) then Some(MessageEntry(b, op))
    else if op.RemoveTopic? && op.topic in b.topics then Some(Entry(2, op.topic, 0, op.reason, op.now))
    else None
  }

  /** The current file after the attempt. */
  function Logged(b: Broker, op: Op): seq<Bytes>
    requires Sound(op) && b.files != [] && Tries(b, op).Some?
  {
    Extended(b.files, Reached(Tries(b, op).value, op.walOk, op.cut))
  }

  function NextMessage(b: Broker, op: Op): F.Message
    requires op.Send?
  {
    F.Message(NextId(b), op.now, op.payload)
  }

  /** The fragments after the send, if it gets that far. */
  function Sent(b: Broker, op: Op): Store
    requires op.Send? && Sound(op)
  {
    AfterWrite(b.store, op.topic, NextMessage(b, op), op.created, op.stored, LIMITS)
  }

  function ProcessMessage(b: Broker, op: Op): (r: (Broker, Reply))
    requires op.Send? && Sound(op) && Ok(b)
    ensures Ok(r.0)
  {
    if !Issues(b, op) then (b, Retry)
    else
      var c := b.(counter := NextId(b), roles := b.roles[op.topic := op.role], files := Logged(b, op));
      if !op.walOk then (c, Error)
      else if !op.raftOk then (c, Retry)
      else (c.(store := Sent(b, op)),
            if Opens(b.store, op.topic, op.created, LIMITS) && op.stored.Synced? then Success(NextId(b)) else Error)
  }

  function Remove(b: Broker, op: Op): (r: Broker)
    requires op.RemoveTopic? && Sound(op) && Ok(b)
    ensures Ok(r)
  {
    if op.topic !in b.topics then b
    else
      var c := b.(files := Logged(b, op));
      if !op.walOk then c
      else c.(topics := b.topics - {op.topic}, roles := b.roles - {op.topic}, store := AfterClose(b.store, op.topic))
  }

  function Refilled(s: Store, e: Entry, now: int): Store
    requires -U63 <= now < U63
  {
    AfterWrite(s, e.topic, F.Message(e.id, now, e.payload), Created, Synced, LIMITS)
  }

  /** What replay does with one entry. Raft knows no topic yet, so roles are unspecified. */
  function Handle(b: Broker, e: Entry, now: int): (r: Broker)
    requires Ok(b) && -U63 <= now < U63
    ensures r.files == b.files
  {
    if e.kind == 1 then
      b.(store := Refilled(b.store, e, now), counter := if e.id > b.counter then e.id else b.counter,
         topics := b.topics + {e.topic}, roles := b.roles[e.topic := Unspecified])
    else if e.kind == 2 then
      b.(store := AfterClose(b.store, e.topic), topics := b.topics - {e.topic}, roles := b.roles - {e.topic})
    else b
  }

  function Handled(b: Broker, es: seq<Entry>, now: int): (r: Broker)
    requires Ok(b) && -U63 <= now < U63
    ensures r.files == b.files
  {
    if es == [] then b else Handle(Handled(b, es[..|es| - 1], now), es[|es| - 1], now)
  }

  function Blank(files: seq<Bytes>, disk: F.Disk): Broker {
    Broker(0, {}, map[], files + [HEADER], Store(map[], disk))
  }

  /** A new broker over the files found: a new current file, then replay. */
  function Started(found: seq<Bytes>, disk: F.Disk, now: int): (r: Broker)
    requires -U63 <= now < U63
    ensures Ok(r)
  {
    Handled(Blank(found, disk), ReplayAll(found + [HEADER]), now)
  }

  function Next(b: Broker, op: Op): (r: Broker)
    requires Ok(b) && Sound(op)
    ensures Ok(r)
  {
    match op
    case SetRole(topic, role, ok) =>
      if ok then b.(topics := b.topics + {topic}, roles := b.roles[topic := role]) else b
    case Send(_, _, _, _, _, _, _, _, _, _) => ProcessMessage(b, op).0
    case RemoveTopic(_, _, _, _, _) => Remove(b, op)
    case Crash(torn, k, now) => Started(Extended(b.files, Encode(torn)[..k]), b.store.disk, now)
  }

  ghost predicate AllSound(ops: seq<Op>) {
    forall i :: 0 <= i < |ops| ==> Sound(ops[i])
  }

  ghost function Run(ops: seq<Op>): (b: Broker)
    requires AllSound(ops)
    ensures Ok(b)
  {
    if ops == [] then Started([], map[], 0) else Next(Run(ops[..|ops| - 1]), ops[|ops| - 1])
  }

  // ---- what happened in a run ----

  /** The part of a run one log file covers: its whole entries and the first k bytes of one
      more. */
  datatype Part = Part(entries: seq<Entry>, torn: Entry, k: nat)

  /** written: every entry whose write returned; acked: every message answered with Success
      and not removed since; parts: how the entries are spread over files. */
  datatype History = History(written: seq<Entry>, acked: seq<(Bytes, Msg)>, parts: seq<Part>)

  const NOTHING := Entry(0, [], 0, [], 0)

  function EmptyPart(): Part {
    Part([], NOTHING, 0)
  }

  /** The entry an operation writes, if its write returns. */
  function Writes(b: Broker, op: Op): Option<Entry> {
    if Tries(b, op).Some? && op.walOk then Tries(b, op) else None
  }

  function Without(acked: seq<(Bytes, Msg)>, topic: Bytes): seq<(Bytes, Msg)> {
    if acked == [] then []
    else
      var rest := Without(acked[..|acked| - 1], topic);
      if acked[|acked| - 1].0 == topic then rest else rest + [acked[|acked| - 1]]
  }

  /** The last part with one more entry, or with the start of one. */
  function Grow(parts: seq<Part>, e: Entry): seq<Part>
    requires parts != []
  {
    var n := |parts| - 1;
    parts[n := parts[n].(entries := parts[n].entries + [e])]
  }

  function Tear(parts: seq<Part>, torn: Entry, k: nat): seq<Part>
    requires parts != []
  {
    if k == 0 then parts
    else
      var n := |parts| - 1;
      parts[n := parts[n].(torn := torn, k := k)]
  }

  /** A send counts as acknowledged when it is answered with Success, under the id answered. */
  function AckedAfter(b: Broker, acked: seq<(Bytes, Msg)>, op: Op): seq<(Bytes, Msg)>
    requires Ok(b) && Sound(op)
  {
    if op.Send? && ProcessMessage(b, op).1.Success?
    then acked + [(op.topic, Msg(ProcessMessage(b, op).1.id, op.payload))]
    else if op.RemoveTopic? && op.topic in b.topics && op.walOk then Without(acked, op.topic)
    else acked
  }

  function PartsAfter(b: Broker, parts: seq<Part>, op: Op): (r: seq<Part>)
    requires parts != []
    ensures r != []
  {
    if op.Crash? then Tear(parts, op.torn, op.k) + [EmptyPart()]
    else if Tries(b, op).None? then parts
    else if op.walOk then Grow(parts, Tries(b, op).value)
    else Tear(parts, Tries(b, op).value, op.cut)
  }

  function Record(b: Broker, h: History, op: Op): (r: History)
    requires h.parts != [] && Ok(b) && Sound(op)
    ensures r.parts != []
  {
    var w := Writes(b, op);
    History(h.written + if w.Some? then [w.value] else [], AckedAfter(b, h.acked, op), PartsAfter(b, h.parts, op))
  }

  ghost function HistoryOf(ops: seq<Op>): (h: History)
    requires AllSound(ops)
    ensures h.parts != []
  {
    if ops == [] then History([], [], [EmptyPart()])
    else Record(Run(ops[..|ops| - 1]), HistoryOf(ops[..|ops| - 1]), ops[|ops| - 1])
  }

  /** The operation puts bytes into the current file. */
  predicate LeavesBytes(b: Broker, op: Op) {
    if op.Crash? then op.k > 0 else Tries(b, op).Some? && (op.walOk || op.cut > 0)
  }

  /** Nothing is written behind what a failed write left in the same file. */
  ghost predicate Orderly(ops: seq<Op>)
    requires AllSound(ops)
  {
    ops == [] ||
    (var rest, op := ops[..|ops| - 1], ops[|ops| - 1];
     Orderly(rest) && (LeavesBytes(Run(rest), op) ==> HistoryOf(rest).parts[|HistoryOf(rest).parts| - 1].k == 0))
  }

  // ---- what the entries stand for ----

  /** The position after the last removal of a topic. */
  function AfterRemoval(es: seq<Entry>, topic: Bytes): (n: nat)
    ensures n <= |es|
    ensures forall i :: n <= i < |es| ==> !(es[i].kind == 2 && es[i].topic == topic)
    ensures n > 0 ==> es[n - 1].kind == 2 && es[n - 1].topic == topic
  {
    if es == [] then 0
    else if es[|es| - 1].kind == 2 && es[|es| - 1].topic == topic then |es|
    else AfterRemoval(es[..|es| - 1], topic)
  }

  /** The messages of a topic among some entries, in order. */
  function Messages(es: seq<Entry>, topic: Bytes): seq<Msg> {
    if es == [] then []
    else
      var last := es[|es| - 1];
      Messages(es[..|es| - 1], topic) +
        if last.kind == 1 && last.topic == topic then [Msg(last.id, last.payload)] else []
  }

  /** What a topic's log should hold: its messages after its last removal. */
  function Recorded(es: seq<Entry>, topic: Bytes): seq<Msg> {
    Messages(es[AfterRemoval(es, topic)..], topic)
  }

  function MaxId(es: seq<Entry>): nat {
    if es == [] then 0
    else
      var rest, last := MaxId(es[..|es| - 1]), es[|es| - 1];
      if last.kind == 1 && last.id > rest then last.id else rest
  }
}

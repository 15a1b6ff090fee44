/**
 What consumers can pull from a running broker. A failed fragment write leaves bytes in the
 fragment, and what is stored behind them is not read as it was written: exactly when, and
 what holds in runs where it does not happen.
 */
module BrokerReads {
  import opened Codec
  import opened Common
  import opened WalSpec
  import opened WalImpl
  import opened FragmentStore
  import opened BrokerSpec
  import opened BrokerTheorems
  import opened BrokerLimits
  import F = FragmentSpec

  // ---- every run ----

  lemma StepOk(b: Broker, op: Op)
    requires Ok(b) && Sound(op) && StoreOk(b.store)
    ensures StoreOk(Next(b, op).store)
  {
    hide StoreOk, Sent, AfterClose, Extended, Reached;
    match op
    case SetRole(_, _, _) =>
    case Send(_, _, _, _, _, _, _, _, _, _) => SentOk(b, op);
    case RemoveTopic(_, _, _, _, _) => ClosedOk(b.store, op.topic);
    case Crash(torn, k, now) => StartOk(Extended(b.files, Encode(torn)[..k]), b.store.disk, now);
  }

  lemma StartOk(found: seq<Bytes>, disk: F.Disk, now: int)
    requires -U63 <= now < U63
    ensures StoreOk(Started(found, disk, now).store)
  {
    hide StoreOk, Handled, ReplayAll, Storable, Log, Recorded, MaxId, AllWhole;
    AllStorable(found + [HEADER]);
    HandledIs(found, disk, ReplayAll(found + [HEADER]), now, []);
    WholeStore(Started(found, disk, now).store);
  }

  /** In every run the files that fragments refer to are there. */
  lemma {:induction false} RunOk(ops: seq<Op>)
    requires AllSound(ops)
    ensures StoreOk(Run(ops).store)
  {
    hide StoreOk, Next, Started;
    if ops == [] {
      StartOk([], map[], 0);
    } else {
      RunOk(ops[..|ops| - 1]);
      StepOk(Run(ops[..|ops| - 1]), ops[|ops| - 1]);
    }
  }

  lemma {:induction false} HandledFills(found: seq<Bytes>, disk: F.Disk, es: seq<Entry>, now: int, topic: Bytes)
    requires Storable(es) && -U63 <= now < U63
    ensures Filled(Of(Handled(Blank(found, disk), es, now).store, topic), LIMITS)
  {
    hide AfterWrite, AfterClose, Filled;
    if es == [] {
      BlankFilled(disk, topic);
    } else {
      var rest, e := es[..|es| - 1], es[|es| - 1];
      HandledFills(found, disk, rest, now, topic);
      var s := Handled(Blank(found, disk), rest, now).store;
      WriteFills(s, e.topic, F.Message(e.id, now, e.payload), Created, Synced, LIMITS, topic);
      CloseFills(s, e.topic, LIMITS, topic);
    }
  }

  lemma BlankFilled(disk: F.Disk, topic: Bytes)
    ensures Filled(Of(Store(map[], disk), topic), LIMITS)
  {
  }

  lemma StartFills(found: seq<Bytes>, disk: F.Disk, now: int, topic: Bytes)
    requires -U63 <= now < U63
    ensures Filled(Of(Started(found, disk, now).store, topic), LIMITS)
  {
    hide Handled, ReplayAll, Storable, Filled;
    AllStorable(found + [HEADER]);
    HandledFills(found, disk, ReplayAll(found + [HEADER]), now, topic);
  }

  lemma StepFills(b: Broker, op: Op, topic: Bytes)
    requires Ok(b) && Sound(op) && Filled(Of(b.store, topic), LIMITS)
    ensures Filled(Of(Next(b, op).store, topic), LIMITS)
  {
    hide Filled, AfterWrite, AfterClose, Extended, Reached, Started, NextId;
    match op
    case SetRole(_, _, _) =>
    case Send(_, _, _, _, _, _, _, _, _, _) =>
      NextFits(b);
      WriteFills(b.store, op.topic, NextMessage(b, op), op.created, op.stored, LIMITS, topic);
    case RemoveTopic(_, _, _, _, _) => CloseFills(b.store, op.topic, LIMITS, topic);
    case Crash(torn, k, now) => StartFills(Extended(b.files, Encode(torn)[..k]), b.store.disk, now, topic);
  }

  /** In every run no fragment exceeds its limits by more than the message that filled it, and
      a topic gets a new fragment only when the last one is full. */
  lemma {:induction false} RunFills(ops: seq<Op>, topic: Bytes)
    requires AllSound(ops)
    ensures Filled(Of(Run(ops).store, topic), Limits(134217728, 10000))
  {
    hide Filled, Next, Started;
    if ops == [] {
      StartFills([], map[], 0, topic);
    } else {
      RunFills(ops[..|ops| - 1], topic);
      StepFills(Run(ops[..|ops| - 1]), ops[|ops| - 1], topic);
    }
  }

  // ---- the next message ----

  /** After the send, pulls read the message at the end of the topic's log. */
  ghost predicate ReadAfter(b: Broker, topic: Bytes, payload: Bytes, now: int)
    requires Ok(b) && Sound(NextSend(topic, payload, now))
  {
    LogOf(Next(b, NextSend(topic, payload, now)).store, topic)
    == LogOf(b.store, topic) + [F.Message(NextId(b), now, payload)]
  }

  /** Whatever message is acknowledged next can be pulled from the end of the topic's log, if
      and only if the fragment it goes to ends in a whole message or is full. */
  lemma PullableIff(ops: seq<Op>, topic: Bytes, now: int)
    requires AllSound(ops) && topic in Run(ops).topics && 26 + |topic| < U32 && -U63 <= now < U63
    ensures Readable(Run(ops).store, topic, LIMITS)
        <==> forall payload: Bytes :: 25 + |topic| + |payload| < U32 ==> ReadAfter(Run(ops), topic, payload, now)
  {
    hide Run, HistoryOf, Next, AfterWrite, LogOf, Readable, TopicOk, NextId, F.Misses;
    var b := Run(ops);
    RunOk(ops);
    assert TopicOk(b.store, topic);
    if Readable(b.store, topic, LIMITS) {
      forall payload: Bytes | 25 + |topic| + |payload| < U32 ensures ReadAfter(b, topic, payload, now) {
        NextStep(b, HistoryOf(ops), topic, payload, now);
        NextFits(b);
        WriteAppends(b.store, topic, F.Message(NextId(b), now, payload), Created, Synced, LIMITS);
      }
    } else {
      var x, more := LostWrite(b.store, topic, NextId(b), now, LIMITS);
      NextStep(b, HistoryOf(ops), topic, [x], now);
      NotThere(LogOf(b.store, topic), more, F.Message(NextId(b), now, [x]));
    }
  }

  lemma NextFits(b: Broker)
    ensures NextId(b) < U64
  {
  }

  lemma {:induction false} StripConcat(a: seq<F.Message>, b: seq<F.Message>)
    ensures Strip(a + b) == Strip(a) + Strip(b)
  {
    hide Strip;
    if b == [] {
      assert a + b == a;
      StripNone();
    } else {
      var rest, m := b[..|b| - 1], b[|b| - 1];
      StripConcat(a, rest);
      StripMore(a + rest, m);
      StripMore(rest, m);
      assert a + b == a + rest + [m];
      assert b == rest + [m];
      var last := Msg(m.id, m.payload);
      assert Strip(a) + Strip(rest) + [last] == Strip(a) + (Strip(rest) + [last]);
    }
  }

  lemma {:induction false} StripMisses(log: seq<F.Message>, payload: Bytes, m: Msg)
    requires F.Misses(log, payload) && m.payload == payload
    ensures m !in Strip(log)
  {
    if log != [] {
      var rest, last := log[..|log| - 1], log[|log| - 1];
      StripMisses(rest, payload, m);
      StripMore(rest, last);
      assert log == rest + [last];
    }
  }

  /** Otherwise there is a message of one byte that is acknowledged next and that pulls do not
      read from there on. */
  lemma UnreadSend(ops: seq<Op>, topic: Bytes, now: int) returns (x: Byte, more: seq<Msg>)
    requires AllSound(ops) && topic in Run(ops).topics && 26 + |topic| < U32 && -U63 <= now < U63
    requires !Readable(Run(ops).store, topic, LIMITS)
    ensures var b, op := Run(ops), NextSend(topic, [x], now);
      && Sound(op) && ProcessMessage(b, op).1 == Success(NextId(b))
      && Log(Next(b, op), topic) == Log(b, topic) + more && Msg(NextId(b), [x]) !in more
  {
    hide Run, HistoryOf, Next, ProcessMessage, AfterWrite, LogOf, Readable, TopicOk, NextId, F.Misses, Strip;
    var b := Run(ops);
    RunOk(ops);
    assert TopicOk(b.store, topic);
    var found;
    x, found := LostWrite(b.store, topic, NextId(b), now, LIMITS);
    NextStep(b, HistoryOf(ops), topic, [x], now);
    StripConcat(LogOf(b.store, topic), found);
    more := Strip(found);
    StripMisses(found, [x], Msg(NextId(b), [x]));
  }

  /** A send whose fragment write fails after `cut` bytes. */
  function CutSend(topic: Bytes, payload: Bytes, cut: nat, now: int): Op {
    Send(topic, payload, true, Leading, true, 0, true, Created, NotStored(cut), now)
  }

  /** One failed write is enough: the message acknowledged next is in no pull. */
  lemma AckedIsUnread(topic: Bytes, payload: Bytes, cut: nat, now: int) returns (x: Byte)
    requires 26 + |topic| + |payload| < U32 && 0 < cut < 20 + |payload| && -U63 <= now < U63
    ensures var ops := [SetRole(topic, Leading, true)] + [CutSend(topic, payload, cut, now)]
      + [NextSend(topic, [x], now)];
      AllSound(ops) && HistoryOf(ops).acked == [(topic, Msg(2, [x]))] && Msg(2, [x]) !in Log(Run(ops), topic)
  {
    hide Run, HistoryOf, Next, Record, AllSound, Readable, Log, NextId;
    var ops := [SetRole(topic, Leading, true)] + [CutSend(topic, payload, cut, now)];
    CutRun(topic, payload, cut, now);
    var more;
    x, more := UnreadSend(ops, topic, now);
    var op := NextSend(topic, [x], now);
    Extend(ops, op);
    NoWrap(Run(ops));
    NextStep(Run(ops), HistoryOf(ops), topic, [x], now);
  }

  lemma CutRun(topic: Bytes, payload: Bytes, cut: nat, now: int)
    requires 26 + |topic| + |payload| < U32 && 0 < cut < 20 + |payload| && -U63 <= now < U63
    ensures var ops := [SetRole(topic, Leading, true)] + [CutSend(topic, payload, cut, now)];
      && AllSound(ops) && topic in Run(ops).topics && Run(ops).counter == 1 && HistoryOf(ops).acked == []
      && Log(Run(ops), topic) == [] && !Readable(Run(ops).store, topic, LIMITS)
  {
    hide Run, HistoryOf, Next, Record, AllSound, Readable, Log, NextId, AfterWrite;
    var first, op := [SetRole(topic, Leading, true)], CutSend(topic, payload, cut, now);
    FirstRole(topic);
    FirstStore(topic);
    Extend(first, op);
    NoWrap(Run(first));
    CutStep(Run(first), HistoryOf(first), op);
    CutStore(Run(first).store, topic, F.Message(1, now, payload), cut);
    LogOfNone(Run(first + [op]), topic);
  }

  lemma LogOfNone(b: Broker, topic: Bytes)
    requires LogOf(b.store, topic) == []
    ensures Log(b, topic) == []
  {
  }

  lemma FirstStore(topic: Bytes)
    ensures AllSound([SetRole(topic, Leading, true)])
    ensures Run([SetRole(topic, Leading, true)]).store == Store(map[], map[])
  {
    hide Handled, ReplayAll;
    var ops: seq<Op> := [];
    Extend(ops, SetRole(topic, Leading, true));
    assert ops + [SetRole(topic, Leading, true)] == [SetRole(topic, Leading, true)];
    NothingReplayed();
    assert [] + [HEADER] == [HEADER];
    NothingHandled(Blank([], map[]), 0);
  }

  lemma CutStep(b: Broker, h: History, op: Op)
    requires Ok(b) && Issues(b, op) && Sound(op) && op.walOk && op.raftOk && op.stored.NotStored? && h.parts != []
    ensures Next(b, op).store == Sent(b, op) && Next(b, op).counter == NextId(b) && Next(b, op).topics == b.topics
    ensures Record(b, h, op).acked == h.acked
  {
    hide Sent, NextId, Extended, Reached, NeedsRoll;
  }

  lemma CutStore(s: Store, topic: Bytes, m: F.Message, cut: nat)
    requires s == Store(map[], map[]) && m.Fits() && 0 < cut < 20 + |m.payload|
    ensures var s' := AfterWrite(s, topic, m, Created, NotStored(cut), LIMITS);
      LogOf(s', topic) == [] && !Readable(s', topic, LIMITS)
  {
    hide LogOf, F.Decode, F.Left, F.Encode, LastTail, F.Header;
    assert TopicOk(s, topic);
    var r := BeforeWrite(s, topic, m.timestamp, Created, LIMITS);
    BeforeParts(s, topic, m.timestamp, Created, LIMITS);
    WroteParts(r, topic, m, NotStored(cut));
    WriteAppends(s, topic, m, Created, NotStored(cut), LIMITS);
    NothingLeft();
    F.DecodeTorn([], m, cut);
    NoLog(s, topic);
    assert [] + F.Encode(m)[..cut] == F.Encode(m)[..cut];
  }

  lemma NoLog(s: Store, topic: Bytes)
    requires s.fragments == map[]
    ensures LogOf(s, topic) == []
  {
  }

  // ---- runs in which nothing is stored behind left bytes ----

  /** The send gets as far as the fragments. */
  predicate Reaches(b: Broker, op: Op) {
    Issues(b, op) && op.walOk && op.raftOk
  }

  /** ... and leaves the whole message in one. */
  predicate Lands(b: Broker, op: Op) {
    && Reaches(b, op) && Opens(b.store, op.topic, op.created, LIMITS)
    && (op.stored.NotStored? ==> op.stored.cut >= 20 + |op.payload|)
  }

  /** No fragment write goes behind what a failed one left in the same file. */
  ghost predicate Tidy(ops: seq<Op>)
    requires AllSound(ops)
  {
    ops == [] ||
    (var rest, op := ops[..|ops| - 1], ops[|ops| - 1];
     Tidy(rest) && (Reaches(Run(rest), op) ==> Readable(Run(rest).store, op.topic, LIMITS)))
  }

  /** What pulls read of a topic has increasing ids, was recorded since its last removal, and
      includes every message acknowledged since. */
  ghost predicate Live(log: seq<Msg>, recorded: seq<Msg>, acked: seq<(Bytes, Msg)>, topic: Bytes) {
    && IdsIncrease(log)
    && (forall m :: m in log ==> m in recorded)
    && (forall m :: (topic, m) in acked ==> m in log)
  }

  lemma SendLog(b: Broker, op: Op, topic: Bytes)
    requires Ok(b) && op.Send? && Sound(op) && StoreOk(b.store)
    requires Reaches(b, op) ==> Readable(b.store, op.topic, LIMITS)
    ensures Log(Next(b, op), topic)
         == Log(b, topic) + if Lands(b, op) && op.topic == topic then [Msg(NextId(b), op.payload)] else []
  {
    hide StoreOk, TopicOk, LogOf, AfterWrite, Readable, Opens, Strip, NextId, Extended, Reached;
    assert Log(b, topic) + [] == Log(b, topic);
    if Reaches(b, op) {
      SentLog(b, op, topic);
    }
  }

  lemma SentLog(b: Broker, op: Op, topic: Bytes)
    requires op.Send? && Sound(op) && StoreOk(b.store) && Reaches(b, op) && Readable(b.store, op.topic, LIMITS)
    ensures Strip(LogOf(Sent(b, op), topic))
         == Log(b, topic) + if Lands(b, op) && op.topic == topic then [Msg(NextId(b), op.payload)] else []
  {
    hide TopicOk, LogOf, AfterWrite, Readable, Opens, Strip, NextId;
    var m := NextMessage(b, op);
    NextFits(b);
    assert Log(b, topic) + [] == Log(b, topic) && LogOf(b.store, topic) + [] == LogOf(b.store, topic);
    if topic != op.topic {
      WriteKeeps(b.store, op.topic, m, op.created, op.stored, LIMITS, topic);
    } else if Opens(b.store, op.topic, op.created, LIMITS) {
      assert TopicOk(b.store, topic);
      WriteAppends(b.store, topic, m, op.created, op.stored, LIMITS);
      StripMore(LogOf(b.store, topic), m);
    } else {
      NotOpened(b.store, topic, m, op.created, op.stored);
    }
  }

  lemma NotOpened(s: Store, topic: Bytes, m: F.Message, created: Creation, stored: Stored)
    requires StoreOk(s) && -U63 <= m.timestamp < U63 && !Opens(s, topic, created, LIMITS)
    ensures LogOf(AfterWrite(s, topic, m, created, stored, LIMITS), topic) == LogOf(s, topic)
  {
    hide StoreOk, LogOf, AfterCreate, NeedsRoll;
    CreateKeeps(s, topic, m.timestamp, created, topic);
  }

  lemma RecordedBelow(es: seq<Entry>, topic: Bytes, m: Msg)
    requires m in Recorded(es, topic)
    ensures m.id <= MaxId(es)
  {
    hide MaxId;
    var n := AfterRemoval(es, topic);
    var i :| 0 <= i < |Recorded(es, topic)| && Recorded(es, topic)[i] == m;
    var k := MessageFrom(es[n..], topic, i);
    BelowMax(es, n + k);
  }

  lemma LiveMore(log: seq<Msg>, recorded: seq<Msg>, acked: seq<(Bytes, Msg)>, topic: Bytes, m: Msg,
                 acked': seq<(Bytes, Msg)>)
    requires Live(log, recorded, acked, topic) && (forall x :: x in recorded ==> x.id < m.id)
    requires forall x :: (topic, x) in acked' ==> (topic, x) in acked || x == m
    ensures Live(log + [m], recorded + [m], acked', topic)
  {
    forall i, j | 0 <= i < j < |log + [m]| ensures (log + [m])[i].id < (log + [m])[j].id {
      assert log[i] in log;
    }
  }

  lemma LiveSend(b: Broker, h: History, op: Op, topic: Bytes)
    requires Inv(b, h) && op.Send? && Sound(op) && b.counter + 1 < U64
    requires Reaches(b, op) ==> Readable(b.store, op.topic, LIMITS)
    requires Live(Log(b, topic), Recorded(h.written, topic), h.acked, topic)
    ensures var (b', h') := (Next(b, op), Record(b, h, op));
      Live(Log(b', topic), Recorded(h'.written, topic), h'.acked, topic)
  {
    hide Recorded, Log, StoreOk, Readable, Opens, MaxId, FilesOk, Flat, AllFit, Increasing,
      AckedOk, NextId, PartsAfter, Next, IdsIncrease;
    SendLog(b, op, topic);
    InvCounter(b, h);
    assert h.written + [] == h.written && Log(b, topic) + [] == Log(b, topic);
    if Issues(b, op) && op.walOk {
      var e, m := MessageEntry(b, op), Msg(NextId(b), op.payload);
      RecordedStep(h.written, e, topic);
      if Lands(b, op) && op.topic == topic {
        forall x | x in Recorded(h.written, topic) ensures x.id < m.id {
          RecordedBelow(h.written, topic, x);
        }
        LiveMore(Log(b, topic), Recorded(h.written, topic), h.acked, topic, m, AckedAfter(b, h.acked, op));
      }
    }
  }

  lemma LiveRemove(b: Broker, h: History, op: Op, topic: Bytes)
    requires Ok(b) && StoreOk(b.store) && op.RemoveTopic? && Sound(op) && h.parts != []
    requires Live(Log(b, topic), Recorded(h.written, topic), h.acked, topic)
    ensures var (b', h') := (Next(b, op), Record(b, h, op));
      Live(Log(b', topic), Recorded(h'.written, topic), h'.acked, topic)
  {
    hide Recorded, StoreOk, LogOf, PartsAfter, Strip, Extended, Reached, AfterClose, IdsIncrease, Without;
    assert h.written + [] == h.written;
    if op.topic in b.topics && op.walOk {
      RecordedStep(h.written, Entry(2, op.topic, 0, op.reason, op.now), topic);
      CloseKeeps(b.store, op.topic, topic);
      WithoutIs(h.acked, op.topic);
      StripNone();
      NoIds();
    }
  }

  lemma NoIds()
    ensures IdsIncrease([])
  {
  }

  lemma LiveCrash(b: Broker, h: History, op: Op, topic: Bytes)
    requires Inv(b, h) && op.Crash? && Sound(op) && (op.k > 0 ==> Clean(h.parts))
    ensures var (b', h') := (Next(b, op), Record(b, h, op));
      Live(Log(b', topic), Recorded(h'.written, topic), h'.acked, topic)
  {
    hide Next, Recorded, MaxId, IdsIncrease, FilesOk, Flat, AllFit, Extended, StoreOk, AllWhole,
      Storable, Log, PartsAfter;
    CrashKept(b, h, op);
    FitStorable(h.written);
    HandledIs(Extended(b.files, Encode(op.torn)[..op.k]), b.store.disk, h.written, op.now, topic);
    RecordedIncrease(h.written, topic);
    assert h.written + [] == h.written;
    forall m | (topic, m) in h.acked ensures m in Recorded(h.written, topic) {
      var i :| 0 <= i < |h.acked| && h.acked[i] == (topic, m);
      assert h.acked[i].1 in Recorded(h.written, h.acked[i].0);
    }
  }

  lemma LiveStep(b: Broker, h: History, op: Op, topic: Bytes)
    requires Inv(b, h) && Sound(op) && b.counter + 1 < U64 && (LeavesBytes(b, op) ==> Clean(h.parts))
    requires Reaches(b, op) ==> Readable(b.store, op.topic, LIMITS)
    requires Live(Log(b, topic), Recorded(h.written, topic), h.acked, topic)
    ensures var (b', h') := (Next(b, op), Record(b, h, op));
      Live(Log(b', topic), Recorded(h'.written, topic), h'.acked, topic)
  {
    match op
    case SetRole(_, _, _) => LiveRole(b, h, op, topic);
    case Send(_, _, _, _, _, _, _, _, _, _) =>
      hide Inv, Next, Record, Recorded, Log, Live, Readable, Reaches;
      LiveSend(b, h, op, topic);
    case RemoveTopic(_, _, _, _, _) =>
      hide Next, Record, Recorded, Log, Live, FilesOk, Flat, AllFit, MaxId, Increasing, AckedOk, StoreOk;
      LiveRemove(b, h, op, topic);
    case Crash(_, _, _) =>
      hide Inv, Next, Record, Recorded, Log, Live;
      LiveCrash(b, h, op, topic);
  }

  lemma LiveRole(b: Broker, h: History, op: Op, topic: Bytes)
    requires Ok(b) && op.SetRole? && h.parts != []
    ensures Next(b, op).store == b.store && Record(b, h, op).written == h.written && Record(b, h, op).acked == h.acked
  {
    assert h.written + [] == h.written;
  }

  /** While no write goes behind left bytes, fragments stand for one log over whole runs:
      every message acknowledged and not removed since can be pulled, ids increase, and
      nothing is read that was not recorded. */
  lemma {:induction false} AckedIsPullable(ops: seq<Op>, topic: Bytes)
    requires AllSound(ops) && |ops| < U64 && Orderly(ops) && Tidy(ops)
    ensures Live(Log(Run(ops), topic), Recorded(HistoryOf(ops).written, topic), HistoryOf(ops).acked, topic)
  {
    hide Inv, Next, Record, Recorded, Log, Live, LeavesBytes, Readable, Reaches, Started;
    if ops == [] {
      LiveStart(topic);
    } else {
      var rest, op := ops[..|ops| - 1], ops[|ops| - 1];
      AckedIsPullable(rest, topic);
      RunInv(rest);
      LiveStep(Run(rest), HistoryOf(rest), op, topic);
    }
  }

  lemma LiveStart(topic: Bytes)
    ensures Live(Log(Run([]), topic), Recorded(HistoryOf([]).written, topic), HistoryOf([]).acked, topic)
  {
    hide Handled, ReplayAll, Log, Recorded;
    NothingReplayed();
    assert [] + [HEADER] == [HEADER];
    NothingHandled(Blank([], map[]), 0);
    BlankIs([], map[], topic);
  }
}

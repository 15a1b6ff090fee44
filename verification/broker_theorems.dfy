/**
 Crash recovery of the broker: after any mix of sends, removals and crashes, replay rebuilds
 each topic's log from the write-ahead log, and recorded ids are never issued again.
 */
module BrokerTheorems {
  import opened Codec
  import opened Common
  import opened WalSpec
  import opened WalImpl
  import opened FragmentStore
  import opened BrokerSpec
  import F = FragmentSpec

  // ---- what replay rebuilds ----

  lemma RecordedStep(es: seq<Entry>, e: Entry, topic: Bytes)
    ensures Recorded(es + [e], topic) ==
      if e.topic != topic then Recorded(es, topic)
      else if e.kind == 2 then []
      else if e.kind == 1 then Recorded(es, topic) + [Msg(e.id, e.payload)]
      else Recorded(es, topic)
  {
    var all := es + [e];
    assert all[..|all| - 1] == es;
    var n := AfterRemoval(es, topic);
    if e.kind != 2 || e.topic != topic {
      var tail := all[n..];
      assert tail == es[n..] + [e];
      assert tail[..|tail| - 1] == es[n..];
    }
  }

  lemma MaxIdStep(es: seq<Entry>, e: Entry)
    ensures MaxId(es + [e]) == if e.kind == 1 && e.id > MaxId(es) then e.id else MaxId(es)
  {
    assert (es + [e])[..|es|] == es;
  }

  lemma StripMore(log: seq<F.Message>, m: F.Message)
    ensures Strip(log + [m]) == Strip(log) + [Msg(m.id, m.payload)]
  {
    assert (log + [m])[..|log|] == log;
  }

  /** Every file of every topic is whole. */
  ghost predicate AllWhole(s: Store) {
    StoreOk(s) && forall topic :: Whole(s, topic)
  }

  lemma RefillWhole(s: Store, e: Entry, now: int)
    requires AllWhole(s) && -U63 <= now < U63 && e.id < U64 && |e.payload| < U32
    ensures AllWhole(Refilled(s, e, now))
  {
    hide StoreOk, Whole, AfterWrite;
    var m := F.Message(e.id, now, e.payload);
    StoreKept(s, e.topic, m, Created, Synced, LIMITS);
    forall t ensures Whole(Refilled(s, e, now), t) {
      WriteWhole(s, e.topic, m, Created, Synced, LIMITS, t);
    }
  }

  lemma CloseWhole(s: Store, topic: Bytes)
    requires AllWhole(s)
    ensures AllWhole(AfterClose(s, topic))
  {
    hide Whole, TopicOk;
    forall t ensures TopicOk(AfterClose(s, topic), t) && Whole(AfterClose(s, topic), t) {
      CloseKeeps(s, topic, t);
      CloseWholeTopic(s, topic, t);
    }
  }

  lemma CloseWholeTopic(s: Store, topic: Bytes, t: Bytes)
    requires TopicOk(s, t) && Whole(s, t)
    ensures Whole(AfterClose(s, topic), t)
  {
    if t != topic {
      WholeKept(s, AfterClose(s, topic), t);
    }
  }

  /** An entry handled on whole files does to a topic's log what it stands for. */
  lemma RefillLog(s: Store, e: Entry, now: int, topic: Bytes)
    requires AllWhole(s) && -U63 <= now < U63 && e.id < U64 && |e.payload| < U32
    ensures Strip(LogOf(Refilled(s, e, now), topic))
         == Strip(LogOf(s, topic)) + if e.topic == topic then [Msg(e.id, e.payload)] else []
  {
    hide TopicOk, Whole, LogOf, AfterWrite, Readable, Strip;
    var m := F.Message(e.id, now, e.payload);
    assert TopicOk(s, topic) && Whole(s, topic);
    if e.topic == topic {
      WholeReadable(s, topic, LIMITS);
      WriteAppends(s, topic, m, Created, Synced, LIMITS);
      StripMore(LogOf(s, topic), m);
    } else {
      WriteKeeps(s, e.topic, m, Created, Synced, LIMITS, topic);
      assert Strip(LogOf(s, topic)) + [] == Strip(LogOf(s, topic));
    }
  }

  lemma HandleLog(b: Broker, e: Entry, now: int, topic: Bytes)
    requires Ok(b) && AllWhole(b.store) && -U63 <= now < U63 && e.id < U64 && |e.payload| < U32
    ensures AllWhole(Handle(b, e, now).store)
    ensures Log(Handle(b, e, now), topic) ==
      if e.topic != topic then Log(b, topic)
      else if e.kind == 2 then []
      else if e.kind == 1 then Log(b, topic) + [Msg(e.id, e.payload)]
      else Log(b, topic)
  {
    hide AllWhole, Refilled, AfterClose, LogOf, Strip;
    if e.kind == 1 {
      RefillWhole(b.store, e, now);
      RefillLog(b.store, e, now, topic);
    } else if e.kind == 2 {
      CloseWhole(b.store, e.topic);
      WholeStore(b.store);
      CloseKeeps(b.store, e.topic, topic);
      assert Strip([]) == [] by { StripNone(); }
    }
  }

  lemma StripNone()
    ensures Strip([]) == []
  {
  }

  lemma WholeStore(s: Store)
    requires AllWhole(s)
    ensures StoreOk(s)
  {
  }

  /** Handling the entries in order leaves in every topic its messages after its last removal,
      and the largest id in the counter. */
  lemma {:induction false} HandledIs(found: seq<Bytes>, disk: F.Disk, es: seq<Entry>, now: int, topic: Bytes)
    requires Storable(es) && -U63 <= now < U63
    ensures var b := Handled(Blank(found, disk), es, now);
      && AllWhole(b.store) && Log(b, topic) == Recorded(es, topic) && b.counter == MaxId(es)
      && (topic in b.topics <==> Recorded(es, topic) != [])
  {
    hide Handled, Handle, Recorded, MaxId, Log, AllWhole, Blank;
    BlankIs(found, disk, topic);
    if es == [] {
      NothingHandled(Blank(found, disk), now);
    } else {
      var rest, e := es[..|es| - 1], es[|es| - 1];
      var b := Handled(Blank(found, disk), rest, now);
      HandledIs(found, disk, rest, now, topic);
      OneHandled(Blank(found, disk), es, now);
      HandleLog(b, e, now, topic);
      HandleFields(b, e, now, topic);
      assert es == rest + [e];
      RecordedStep(rest, e, topic);
      MaxIdStep(rest, e);
    }
  }

  lemma OneHandled(b: Broker, es: seq<Entry>, now: int)
    requires Ok(b) && -U63 <= now < U63 && es != []
    ensures Ok(Handled(b, es[..|es| - 1], now))
    ensures Handled(b, es, now) == Handle(Handled(b, es[..|es| - 1], now), es[|es| - 1], now)
  {
    hide Handle;
  }

  lemma HandleFields(b: Broker, e: Entry, now: int, topic: Bytes)
    requires Ok(b) && -U63 <= now < U63
    ensures var r := Handle(b, e, now);
      && r.counter == (if e.kind == 1 && e.id > b.counter then e.id else b.counter)
      && (topic in r.topics <==>
            (topic in b.topics || (e.kind == 1 && e.topic == topic)) && !(e.kind == 2 && e.topic == topic))
  {
    hide Refilled, AfterClose;
  }

  lemma BlankIs(found: seq<Bytes>, disk: F.Disk, topic: Bytes)
    ensures Ok(Blank(found, disk)) && Blank(found, disk).counter == 0 && Blank(found, disk).topics == {}
    ensures AllWhole(Blank(found, disk).store) && Log(Blank(found, disk), topic) == []
    ensures Recorded([], topic) == [] && MaxId([]) == 0
  {
  }

  // ---- the files hold what was written ----

  function Flat(parts: seq<Part>): seq<Entry> {
    if parts == [] then [] else Flat(parts[..|parts| - 1]) + parts[|parts| - 1].entries
  }

  ghost predicate PartOk(file: Bytes, p: Part) {
    FileHolds(file, p.entries, p.torn, p.k)
  }

  ghost predicate FilesOk(files: seq<Bytes>, parts: seq<Part>) {
    |files| == |parts| && parts != [] && forall i :: 0 <= i < |parts| ==> PartOk(files[i], parts[i])
  }

  /** No failed write left bytes in the current file. */
  predicate Clean(parts: seq<Part>)
    requires parts != []
  {
    parts[|parts| - 1].k == 0
  }

  lemma {:induction false} FilesReplay(files: seq<Bytes>, parts: seq<Part>)
    requires |files| == |parts| && forall i :: 0 <= i < |parts| ==> PartOk(files[i], parts[i])
    ensures ReplayAll(files) == Flat(parts)
  {
    if files != [] {
      var n := |files| - 1;
      FilesReplay(files[..n], parts[..n]);
      assert PartOk(files[n], parts[n]);
      HoldsReplays(files[n], parts[n].entries, parts[n].torn, parts[n].k);
    }
  }

  lemma HeaderPart()
    ensures PartOk(HEADER, EmptyPart())
  {
    assert HEADER == HEADER + EncodeAll([]) + Encode(NOTHING)[..0];
  }

  lemma PartGrows(file: Bytes, p: Part, e: Entry)
    requires PartOk(file, p) && p.k == 0 && e.Fits()
    ensures PartOk(file + Encode(e), p.(entries := p.entries + [e]))
  {
    EncodeAllConcat(p.entries, [e]);
    OneEncoded(e);
    assert Encode(p.torn)[..0] == [];
    assert file + Encode(e) == HEADER + EncodeAll(p.entries + [e]) + Encode(p.torn)[..0];
  }

  lemma PartTears(file: Bytes, p: Part, torn: Entry, k: nat)
    requires PartOk(file, p) && p.k == 0 && torn.Fits() && k < |Encode(torn)|
    ensures PartOk(file + Encode(torn)[..k], p.(torn := torn, k := k))
  {
    assert Encode(p.torn)[..0] == [];
    assert file == HEADER + EncodeAll(p.entries);
  }

  lemma FilesGrow(files: seq<Bytes>, parts: seq<Part>, e: Entry)
    requires FilesOk(files, parts) && Clean(parts) && e.Fits()
    ensures FilesOk(Extended(files, Encode(e)), Grow(parts, e))
  {
    var n := |parts| - 1;
    assert PartOk(files[n], parts[n]);
    PartGrows(files[n], parts[n], e);
  }

  lemma FilesTear(files: seq<Bytes>, parts: seq<Part>, torn: Entry, k: nat)
    requires FilesOk(files, parts) && torn.Fits() && k < |Encode(torn)| && (k > 0 ==> Clean(parts))
    ensures FilesOk(Extended(files, Encode(torn)[..k]), Tear(parts, torn, k))
  {
    var n := |parts| - 1;
    assert PartOk(files[n], parts[n]);
    if k > 0 {
      PartTears(files[n], parts[n], torn, k);
    } else {
      assert files[n] + Encode(torn)[..0] == files[n];
    }
  }

  lemma FilesStart(files: seq<Bytes>, parts: seq<Part>)
    requires FilesOk(files, parts)
    ensures FilesOk(files + [HEADER], parts + [EmptyPart()])
  {
    HeaderPart();
  }

  lemma FlatGrow(parts: seq<Part>, e: Entry)
    requires parts != []
    ensures Flat(Grow(parts, e)) == Flat(parts) + [e]
  {
    var n := |parts| - 1;
    assert Grow(parts, e)[..n] == parts[..n];
  }

  lemma FlatTear(parts: seq<Part>, torn: Entry, k: nat)
    requires parts != []
    ensures Flat(Tear(parts, torn, k)) == Flat(parts) && Flat(parts + [EmptyPart()]) == Flat(parts)
  {
    var n := |parts| - 1;
    assert Tear(parts, torn, k)[..n] == parts[..n];
    assert (parts + [EmptyPart()])[..n + 1] == parts;
  }

  // ---- the invariant of runs ----

  ghost predicate Increasing(es: seq<Entry>) {
    forall i, j :: 0 <= i < j < |es| && es[i].kind == 1 && es[j].kind == 1 ==> es[i].id < es[j].id
  }

  ghost predicate AckedOk(written: seq<Entry>, acked: seq<(Bytes, Msg)>) {
    forall i :: 0 <= i < |acked| ==> acked[i].1 in Recorded(written, acked[i].0)
  }

  ghost predicate Inv(b: Broker, h: History) {
    && Ok(b) && b.roles.Keys == b.topics && StoreOk(b.store) && FilesOk(b.files, h.parts) && Flat(h.parts) == h.written
    && AllFit(h.written) && MaxId(h.written) <= b.counter
    && Increasing(h.written) && AckedOk(h.written, h.acked)
  }

  lemma {:induction false} BelowMax(es: seq<Entry>, i: nat)
    requires i < |es| && es[i].kind == 1
    ensures es[i].id <= MaxId(es)
  {
    if i < |es| - 1 {
      BelowMax(es[..|es| - 1], i);
    }
  }

  lemma IncreasingStep(es: seq<Entry>, e: Entry)
    requires Increasing(es) && (e.kind == 1 ==> MaxId(es) < e.id)
    ensures Increasing(es + [e])
  {
    forall i | 0 <= i < |es| && es[i].kind == 1 && e.kind == 1 ensures es[i].id < e.id {
      BelowMax(es, i);
    }
  }

  lemma {:induction false} WithoutIs(acked: seq<(Bytes, Msg)>, topic: Bytes)
    ensures forall a :: a in Without(acked, topic) ==> a in acked && a.0 != topic
  {
    if acked != [] {
      WithoutIs(acked[..|acked| - 1], topic);
      assert acked == acked[..|acked| - 1] + [acked[|acked| - 1]];
    }
  }

  /** A written entry that removes no topic keeps what is recorded. */
  lemma AckedStep(h: History, e: Entry, acked: seq<(Bytes, Msg)>)
    requires AckedOk(h.written, h.acked)
    requires forall i :: 0 <= i < |acked| ==>
      (acked[i] in h.acked && (e.kind == 2 ==> acked[i].0 != e.topic))
      || (e.kind == 1 && acked[i] == (e.topic, Msg(e.id, e.payload)))
    ensures AckedOk(h.written + [e], acked)
  {
    forall i | 0 <= i < |acked| ensures acked[i].1 in Recorded(h.written + [e], acked[i].0) {
      RecordedStep(h.written, e, acked[i].0);
      if acked[i] in h.acked {
        var j :| 0 <= j < |h.acked| && h.acked[j] == acked[i];
      }
    }
  }

  lemma WroteKept(b: Broker, h: History, e: Entry, b': Broker, acked: seq<(Bytes, Msg)>)
    requires Inv(b, h) && Clean(h.parts) && e.Fits() && Ok(b') && b'.files == Extended(b.files, Encode(e))
    requires b'.counter >= b.counter && (e.kind == 1 ==> b'.counter == e.id > b.counter)
    requires b'.roles.Keys == b'.topics && StoreOk(b'.store) && AckedOk(h.written + [e], acked)
    ensures Inv(b', History(h.written + [e], acked, Grow(h.parts, e)))
  {
    assert h.parts != [];
    hide FilesOk, AckedOk, Flat, StoreOk;
    FilesGrow(b.files, h.parts, e);
    FlatGrow(h.parts, e);
    IncreasingStep(h.written, e);
    MaxIdStep(h.written, e);
  }

  lemma TornKept(b: Broker, h: History, e: Entry, k: nat, b': Broker)
    requires Inv(b, h) && (k > 0 ==> Clean(h.parts)) && e.Fits() && k < |Encode(e)|
    requires Ok(b') && b'.files == Extended(b.files, Encode(e)[..k]) && b'.counter >= b.counter
    requires b'.roles.Keys == b'.topics && StoreOk(b'.store)
    ensures Inv(b', h.(parts := Tear(h.parts, e, k)))
  {
    assert h.parts != [];
    hide FilesOk, AckedOk, Flat, Increasing, AllFit, MaxId, StoreOk;
    FilesTear(b.files, h.parts, e, k);
    FlatTear(h.parts, e, k);
  }

  lemma SentOk(b: Broker, op: Op)
    requires op.Send? && Sound(op) && StoreOk(b.store)
    ensures StoreOk(Sent(b, op))
  {
    hide StoreOk, AfterWrite;
    StoreKept(b.store, op.topic, NextMessage(b, op), op.created, op.stored, LIMITS);
  }

  lemma ClosedOk(s: Store, topic: Bytes)
    requires StoreOk(s)
    ensures StoreOk(AfterClose(s, topic))
  {
    hide TopicOk;
    forall t ensures TopicOk(AfterClose(s, topic), t) {
      CloseKeeps(s, topic, t);
    }
  }

  lemma SendKept(b: Broker, h: History, op: Op)
    requires Inv(b, h) && op.Send? && Sound(op) && b.counter + 1 < U64 && (LeavesBytes(b, op) ==> Clean(h.parts))
    ensures Inv(ProcessMessage(b, op).0, Record(b, h, op)) && ProcessMessage(b, op).0.counter <= b.counter + 1
  {
    hide FilesOk, Flat, Increasing, Recorded, AllFit, MaxId, StoreOk, Sent;
    NoWrap(b);
    SentOk(b, op);
    if Issues(b, op) {
      var e := MessageEntry(b, op);
      assert ProcessMessage(b, op).0.roles.Keys == ProcessMessage(b, op).0.topics;
      if op.walOk {
        AckedStep(h, e, AckedAfter(b, h.acked, op));
        hide AckedOk, Inv, Extended;
        WroteKept(b, h, e, ProcessMessage(b, op).0, AckedAfter(b, h.acked, op));
      } else {
        hide AckedOk, Inv, Extended, Tear;
        TornKept(b, h, e, op.cut, ProcessMessage(b, op).0);
        assert h.written + [] == h.written;
      }
    } else {
      assert h.written + [] == h.written;
    }
  }

  lemma RemoveKept(b: Broker, h: History, op: Op)
    requires Inv(b, h) && op.RemoveTopic? && Sound(op) && (LeavesBytes(b, op) ==> Clean(h.parts))
    ensures Inv(Remove(b, op), Record(b, h, op)) && Remove(b, op).counter == b.counter
  {
    hide FilesOk, Flat, Increasing, Recorded, AllFit, MaxId, StoreOk, AfterClose;
    ClosedOk(b.store, op.topic);
    if op.topic in b.topics {
      var e := Entry(2, op.topic, 0, op.reason, op.now);
      assert Remove(b, op).roles.Keys == Remove(b, op).topics;
      if op.walOk {
        WithoutIs(h.acked, op.topic);
        AckedStep(h, e, Without(h.acked, op.topic));
        hide AckedOk, Inv, Extended;
        WroteKept(b, h, e, Remove(b, op), Without(h.acked, op.topic));
      } else {
        hide AckedOk, Inv, Extended, Tear;
        TornKept(b, h, e, op.cut, Remove(b, op));
        assert h.written + [] == h.written;
      }
    } else {
      assert h.written + [] == h.written;
    }
  }

  /** What the files after a crash replay to. */
  lemma CrashFiles(files: seq<Bytes>, h: History, torn: Entry, k: nat)
    requires FilesOk(files, h.parts) && Flat(h.parts) == h.written && torn.Fits() && k < |Encode(torn)|
    requires k > 0 ==> Clean(h.parts)
    ensures var (f, parts) := (Extended(files, Encode(torn)[..k]) + [HEADER], Tear(h.parts, torn, k) + [EmptyPart()]);
      FilesOk(f, parts) && Flat(parts) == h.written && ReplayAll(f) == h.written
  {
    assert h.parts != [];
    hide FilesOk, Flat, Extended, Tear, ReplayAll;
    var f, parts := Extended(files, Encode(torn)[..k]), Tear(h.parts, torn, k);
    FilesTear(files, h.parts, torn, k);
    PartsLeft(f, parts);
    FilesStart(f, parts);
    ReplaysFlat(f + [HEADER], parts + [EmptyPart()]);
    FlatTear(h.parts, torn, k);
    FlatTear(parts, NOTHING, 0);
  }

  lemma PartsLeft(files: seq<Bytes>, parts: seq<Part>)
    requires FilesOk(files, parts)
    ensures parts != []
  {
  }

  /** A crash leaves the history as it was and rebuilds the state from the entries written. */
  lemma CrashKept(b: Broker, h: History, op: Op)
    requires Inv(b, h) && op.Crash? && Sound(op) && (op.k > 0 ==> Clean(h.parts))
    ensures Inv(Next(b, op), Record(b, h, op))
    ensures Next(b, op) == Handled(Blank(Extended(b.files, Encode(op.torn)[..op.k]), b.store.disk), h.written, op.now)
    ensures Next(b, op).counter == MaxId(h.written)
  {
    hide Inv, FilesOk, Flat, Increasing, Recorded, AllFit, MaxId, AckedOk, Extended, Tear, Storable,
      AllWhole, StoreOk, Log, ReplayAll, Handled, Clean, Next, Record;
    InvParts(b, h);
    var files := Extended(b.files, Encode(op.torn)[..op.k]);
    CrashFiles(b.files, h, op.torn, op.k);
    CrashStep(b, h, op);
    FitStorable(h.written);
    HandledIs(files, b.store.disk, h.written, op.now, []);
    WholeStore(Next(b, op).store);
    HandledRoles(files, b.store.disk, h.written, op.now);
    InvFrom(Next(b, op), Record(b, h, op));
  }

  lemma CrashStep(b: Broker, h: History, op: Op)
    requires Ok(b) && op.Crash? && Sound(op) && h.parts != []
    ensures var files := Extended(b.files, Encode(op.torn)[..op.k]);
      && Next(b, op) == Handled(Blank(files, b.store.disk), ReplayAll(files + [HEADER]), op.now)
      && Next(b, op).files == files + [HEADER]
      && Record(b, h, op) == History(h.written, h.acked, Tear(h.parts, op.torn, op.k) + [EmptyPart()])
  {
    hide Handled, ReplayAll, Extended, Tear, Encode;
    assert h.written + [] == h.written;
  }

  lemma InvParts(b: Broker, h: History)
    requires Inv(b, h)
    ensures Ok(b) && FilesOk(b.files, h.parts) && h.parts != [] && Flat(h.parts) == h.written
    ensures AllFit(h.written) && Increasing(h.written) && AckedOk(h.written, h.acked)
  {
    hide Flat, Increasing, AllFit, MaxId, AckedOk, StoreOk;
  }

  lemma InvFrom(b: Broker, h: History)
    requires Ok(b) && b.roles.Keys == b.topics && StoreOk(b.store)
      && FilesOk(b.files, h.parts) && Flat(h.parts) == h.written
    requires AllFit(h.written) && MaxId(h.written) <= b.counter
    requires Increasing(h.written) && AckedOk(h.written, h.acked)
    ensures Inv(b, h)
  {
    hide FilesOk, Flat, Increasing, AllFit, MaxId, AckedOk, StoreOk;
  }

  lemma FitStorable(es: seq<Entry>)
    requires AllFit(es)
    ensures Storable(es)
  {
  }

  lemma ReplaysFlat(files: seq<Bytes>, parts: seq<Part>)
    requires FilesOk(files, parts)
    ensures ReplayAll(files) == Flat(parts)
  {
    FilesReplay(files, parts);
  }

  lemma {:induction false} HandledRoles(found: seq<Bytes>, disk: F.Disk, es: seq<Entry>, now: int)
    requires -U63 <= now < U63
    ensures var b := Handled(Blank(found, disk), es, now);
      b.roles.Keys == b.topics && forall t :: t in b.roles ==> b.roles[t] == Unspecified
  {
    hide Refilled, AfterClose;
    if es != [] {
      HandledRoles(found, disk, es[..|es| - 1], now);
    }
  }

  lemma RoleKept(b: Broker, h: History, op: Op)
    requires Inv(b, h) && op.SetRole?
    ensures Inv(Next(b, op), Record(b, h, op)) && Next(b, op).counter == b.counter
  {
    hide FilesOk, Flat, Increasing, Recorded, AllFit, MaxId, AckedOk, StoreOk;
    assert h.written + [] == h.written;
  }

  lemma InvKept(b: Broker, h: History, op: Op)
    requires Inv(b, h) && Sound(op) && b.counter + 1 < U64 && (LeavesBytes(b, op) ==> Clean(h.parts))
    ensures Inv(Next(b, op), Record(b, h, op)) && Next(b, op).counter <= b.counter + 1
  {
    assert Ok(b) && MaxId(h.written) <= b.counter;
    hide Inv, Record, ProcessMessage, Remove, Started, MaxId;
    match op
    case SetRole(_, _, _) => RoleKept(b, h, op);
    case Send(_, _, _, _, _, _, _, _, _, _) => SendKept(b, h, op);
    case RemoveTopic(_, _, _, _, _) => RemoveKept(b, h, op);
    case Crash(_, _, _) => CrashKept(b, h, op);
  }

  lemma {:induction false} RunInv(ops: seq<Op>)
    requires AllSound(ops) && |ops| < U64 && Orderly(ops)
    ensures Inv(Run(ops), HistoryOf(ops)) && Run(ops).counter <= |ops|
  {
    if ops == [] {
      StartInv();
    } else {
      var rest, op := ops[..|ops| - 1], ops[|ops| - 1];
      RunInv(rest);
      hide Inv, ProcessMessage, Remove, Record, Started, LeavesBytes;
      InvKept(Run(rest), HistoryOf(rest), op);
    }
  }

  lemma StartInv()
    ensures Inv(Run([]), HistoryOf([])) && Run([]).counter == 0
  {
    hide ReplayAll, PartOk, Handled, EmptyPart;
    HeaderPart();
    NothingReplayed();
    NothingHandled(Blank([], map[]), 0);
    assert HistoryOf([]) == History([], [], [EmptyPart()]);
    assert [] + [HEADER] == [HEADER];
  }

  lemma NothingReplayed()
    ensures ReplayAll([HEADER]) == Flat([EmptyPart()]) == []
  {
    HeaderPart();
    FilesReplay([HEADER], [EmptyPart()]);
    hide ReplayAll, PartOk;
    assert [EmptyPart()][..0] == [];
  }

  lemma NothingHandled(b: Broker, now: int)
    requires Ok(b) && -U63 <= now < U63
    ensures Handled(b, [], now) == b
  {
  }

  // ---- crash recovery ----

  lemma {:induction false} MessageFrom(es: seq<Entry>, topic: Bytes, i: nat) returns (k: nat)
    requires i < |Messages(es, topic)|
    ensures k < |es| && es[k].kind == 1 && es[k].topic == topic
      && Msg(es[k].id, es[k].payload) == Messages(es, topic)[i]
  {
    var rest := es[..|es| - 1];
    if i < |Messages(rest, topic)| {
      k := MessageFrom(rest, topic, i);
    } else {
      k := |es| - 1;
    }
  }

  ghost predicate IdsIncrease(log: seq<Msg>) {
    forall i, j :: 0 <= i < j < |log| ==> log[i].id < log[j].id
  }

  lemma {:induction false} MessagesIncrease(es: seq<Entry>, topic: Bytes)
    requires Increasing(es)
    ensures IdsIncrease(Messages(es, topic))
  {
    if es != [] {
      var rest, last := es[..|es| - 1], es[|es| - 1];
      MessagesIncrease(rest, topic);
      forall i | 0 <= i < |Messages(rest, topic)| && last.kind == 1 ensures Messages(rest, topic)[i].id < last.id {
        var k := MessageFrom(rest, topic, i);
        assert es[k] == rest[k];
      }
    }
  }

  lemma RecordedIncrease(es: seq<Entry>, topic: Bytes)
    requires Increasing(es)
    ensures IdsIncrease(Recorded(es, topic))
  {
    assert Increasing(es[AfterRemoval(es, topic)..]);
    MessagesIncrease(es[AfterRemoval(es, topic)..], topic);
  }

  /** Crash recovery: whenever the broker crashes, whatever was being written, replay rebuilds
      for every topic exactly the messages recorded after its last removal, in order. They
      have increasing ids and include every message answered with Success and not removed
      since. The counter restarts at the largest recorded id, and no role is known yet. */
  lemma CrashRecovery(ops: seq<Op>, crash: Op, topic: Bytes)
    requires AllSound(ops) && |ops| < U64 && Orderly(ops) && crash.Crash? && Sound(crash)
    requires crash.k > 0 ==> Clean(HistoryOf(ops).parts)
    ensures var (b, h) := (Next(Run(ops), crash), HistoryOf(ops));
      && Log(b, topic) == Recorded(h.written, topic) && IdsIncrease(Log(b, topic))
      && (topic in b.topics <==> Log(b, topic) != [])
      && (topic in b.topics ==> topic in b.roles && b.roles[topic] == Unspecified)
      && (forall m :: (topic, m) in h.acked ==> m in Log(b, topic))
      && b.counter == MaxId(h.written)
  {
    hide Run, HistoryOf, Next, Recorded, MaxId, IdsIncrease, FilesOk, Flat, AllFit, Orderly, Extended,
      StoreOk, AllWhole, Storable, Log;
    var b, h := Run(ops), HistoryOf(ops);
    RunInv(ops);
    CrashKept(b, h, crash);
    FitStorable(h.written);
    HandledIs(Extended(b.files, Encode(crash.torn)[..crash.k]), b.store.disk, h.written, crash.now, topic);
    HandledRoles(Extended(b.files, Encode(crash.torn)[..crash.k]), b.store.disk, h.written, crash.now);
    RecordedIncrease(h.written, topic);
    forall m | (topic, m) in h.acked ensures m in Recorded(h.written, topic) {
      var i :| 0 <= i < |h.acked| && h.acked[i] == (topic, m);
      assert h.acked[i].1 in Recorded(h.written, h.acked[i].0);
    }
  }

  /** What step i of a run does to the state and to the entries written. */
  lemma StepAt(ops: seq<Op>, i: nat)
    requires AllSound(ops) && i < |ops|
    ensures AllSound(ops[..i]) && AllSound(ops[..i + 1]) && Run(ops[..i + 1]) == Next(Run(ops[..i]), ops[i])
    ensures var (h, h', w) := (HistoryOf(ops[..i]), HistoryOf(ops[..i + 1]), Writes(Run(ops[..i]), ops[i]));
      h'.written == h.written + if w.Some? then [w.value] else []
  {
    assert ops[..i + 1][..i] == ops[..i];
    hide Next, Writes, AckedAfter, PartsAfter;
  }

  lemma SoundPrefix(ops: seq<Op>, i: nat)
    requires AllSound(ops) && i <= |ops|
    ensures AllSound(ops[..i])
  {
  }

  lemma {:induction false} WrittenGrows(ops: seq<Op>, i: nat, j: nat)
    requires AllSound(ops) && i <= j <= |ops|
    ensures AllSound(ops[..i]) && AllSound(ops[..j]) && HistoryOf(ops[..i]).written <= HistoryOf(ops[..j]).written
    decreases j
  {
    hide Run, HistoryOf, Writes, AllSound, Next;
    if i < j {
      WrittenGrows(ops, i, j - 1);
      StepAt(ops, j - 1);
    } else {
      SoundPrefix(ops, i);
    }
  }

  lemma {:induction false} OrderlyPrefix(ops: seq<Op>, i: nat)
    requires AllSound(ops) && Orderly(ops) && i <= |ops|
    ensures AllSound(ops[..i]) && Orderly(ops[..i])
    decreases |ops|
  {
    hide Run, HistoryOf, LeavesBytes;
    if i < |ops| {
      OrderlyPrefix(ops[..|ops| - 1], i);
      assert ops[..|ops| - 1][..i] == ops[..i];
    } else {
      assert ops[..i] == ops;
    }
  }

  lemma CounterAt(ops: seq<Op>, j: nat)
    requires AllSound(ops) && |ops| < U64 && Orderly(ops) && j < |ops|
    ensures AllSound(ops[..j])
      && MaxId(HistoryOf(ops[..j]).written) < NextId(Run(ops[..j])) == Run(ops[..j]).counter + 1
  {
    hide Run, HistoryOf, Inv, NextId, MaxId, Orderly;
    OrderlyPrefix(ops, j);
    RunInv(ops[..j]);
    InvCounter(Run(ops[..j]), HistoryOf(ops[..j]));
  }

  lemma InvCounter(b: Broker, h: History)
    requires Inv(b, h) && b.counter + 1 < U64
    ensures MaxId(h.written) < NextId(b) == b.counter + 1
  {
    hide FilesOk, Flat, Increasing, AllFit, MaxId, AckedOk, NextId;
    NoWrap(b);
  }

  lemma NoWrap(b: Broker)
    requires b.counter + 1 < U64
    ensures NextId(b) == b.counter + 1
  {
  }

  // ---- answers ----

  /** A send is answered with Success, under the id its message was given, if and only if the
      broker serves and leads the topic, the log took the whole entry, Raft took the message,
      and a fragment has it on disk. It is put off (Retry) when nothing was done or Raft
      refused it; a refused message is in the log all the same. */
  lemma Answers(b: Broker, op: Op)
    requires Ok(b) && op.Send? && Sound(op)
    ensures var (c, reply) := ProcessMessage(b, op);
      var led := op.topic in b.topics && op.leader;
      && (reply.Success? <==>
            led && op.walOk && op.raftOk && Opens(b.store, op.topic, op.created, LIMITS) && op.stored.Synced?)
      && (reply.Success? ==> reply.id == NextId(b) && c.store == Sent(b, op))
      && (reply.Retry? <==> !led || (op.walOk && !op.raftOk))
      && (!led ==> c == b)
      && (led && op.walOk ==> c.files == Extended(b.files, Encode(Entry(1, op.topic, NextId(b), op.payload, op.now))))
      && (led && !(op.walOk && op.raftOk) ==> c.store == b.store)
      && (led ==> c.counter == NextId(b) && op.topic in c.roles && c.roles[op.topic] == op.role)
  {
    hide Sent, Extended, Encode, NextId, Opens;
  }

  /** The run ends with a removal of a served topic that is in the log. */
  ghost predicate EndsInRemoval(ops: seq<Op>) {
    && ops != [] && AllSound(ops[..|ops| - 1])
    && var op := ops[|ops| - 1]; op.RemoveTopic? && op.walOk && op.topic in Run(ops[..|ops| - 1]).topics
  }

  lemma RemovalStep(ops: seq<Op>)
    requires AllSound(ops) && EndsInRemoval(ops)
    ensures var (rest, op) := (ops[..|ops| - 1], ops[|ops| - 1]);
      && Sound(op) && Run(ops) == Next(Run(rest), op)
      && HistoryOf(ops).written == HistoryOf(rest).written + [Entry(2, op.topic, 0, op.reason, op.now)]
  {
    hide Next, AckedAfter, PartsAfter;
  }

  /** A removed topic is no longer served, has nothing to pull, and comes back empty from every
      crash. */
  lemma RemovedStays(ops: seq<Op>, crash: Op)
    requires AllSound(ops) && |ops| < U64 && Orderly(ops) && crash.Crash? && Sound(crash) && EndsInRemoval(ops)
    requires crash.k > 0 ==> Clean(HistoryOf(ops).parts)
    ensures var (b, topic) := (Run(ops), ops[|ops| - 1].topic);
      && topic !in b.topics && topic !in b.roles && Log(b, topic) == []
      && topic !in Next(b, crash).topics && Log(Next(b, crash), topic) == []
  {
    hide Run, HistoryOf, Next, Inv, Recorded, MaxId, IdsIncrease, Orderly, Log, AllSound, StoreOk, Sound;
    var rest, op := ops[..|ops| - 1], ops[|ops| - 1];
    RemovalStep(ops);
    RecordedStep(HistoryOf(rest).written, Entry(2, op.topic, 0, op.reason, op.now), op.topic);
    CrashRecovery(ops, crash, op.topic);
    OrderlyPrefix(ops, |rest|);
    RunInv(rest);
    InvStore(Run(rest), HistoryOf(rest));
    RemovedLog(Run(rest), op);
  }

  lemma InvStore(b: Broker, h: History)
    requires Inv(b, h)
    ensures StoreOk(b.store)
  {
    hide FilesOk, Flat, Increasing, AllFit, MaxId, AckedOk, StoreOk;
  }

  lemma RemovedLog(b: Broker, op: Op)
    requires Ok(b) && StoreOk(b.store) && op.RemoveTopic? && Sound(op) && op.walOk && op.topic in b.topics
    ensures var c := Next(b, op); op.topic !in c.topics && op.topic !in c.roles && Log(c, op.topic) == []
  {
    hide LogOf, AfterClose, Extended, Encode;
    CloseKeeps(b.store, op.topic, op.topic);
  }

  /** A role that Raft takes makes the broker serve the topic in it; nothing else changes. */
  lemma RoleServes(b: Broker, topic: Bytes, role: TopicRole)
    requires Ok(b)
    ensures var c := Next(b, SetRole(topic, role, true));
      && topic in c.topics && c.topics - {topic} == b.topics - {topic} && topic in c.roles && c.roles[topic] == role
      && c.files == b.files && c.store == b.store && c.counter == b.counter
    ensures Next(b, SetRole(topic, role, false)) == b
  {
  }

  // ---- the next send ----

  /** A send that is acknowledged whenever the broker serves the topic. */
  function NextSend(topic: Bytes, payload: Bytes, now: int): Op {
    Send(topic, payload, true, Leading, true, 0, true, Created, Synced, now)
  }

  lemma NextStep(b: Broker, h: History, topic: Bytes, payload: Bytes, now: int)
    requires Ok(b) && topic in b.topics && h.parts != [] && 25 + |topic| + |payload| < U32 && -U63 <= now < U63
    ensures var op, e := NextSend(topic, payload, now), Entry(1, topic, NextId(b), payload, now);
      && Sound(op) && ProcessMessage(b, op).1 == Success(NextId(b)) && Writes(b, op) == Some(e)
      && Next(b, op).store == AfterNext(b.store, topic, NextId(b), now, payload, LIMITS)
      && Next(b, op).counter == NextId(b) && Next(b, op).topics == b.topics
      && Next(b, op).files == Extended(b.files, Encode(e))
      && Record(b, h, op).acked == h.acked + [(topic, Msg(NextId(b), payload))]
      && Record(b, h, op).parts == Grow(h.parts, e)
  {
    hide AfterWrite, Extended, NextId, NeedsRoll, Encode, Grow;
  }

  // ---- ids ----

  /** Step j of the run issues this id. */
  ghost predicate IssuesId(ops: seq<Op>, j: nat, id: nat) {
    j < |ops| && AllSound(ops[..j]) && Issues(Run(ops[..j]), ops[j]) && NextId(Run(ops[..j])) == id
  }

  /** An id whose log write returned is never issued again, not even after crashes: every id
      issued later is larger. */
  lemma NeverReissued(ops: seq<Op>, i: nat, j: nat)
    requires AllSound(ops) && |ops| < U64 && Orderly(ops) && i < j < |ops|
    requires AllSound(ops[..i]) && AllSound(ops[..j])
    requires Issues(Run(ops[..i]), ops[i]) && ops[i].walOk
    ensures NextId(Run(ops[..i])) < NextId(Run(ops[..j]))
  {
    hide Run, HistoryOf, MaxId, NextId, Orderly;
    StepAt(ops, i);
    WrittenGrows(ops, i + 1, j);
    var n := |HistoryOf(ops[..i]).written|;
    assert HistoryOf(ops[..j]).written[n] == HistoryOf(ops[..i + 1]).written[n] == MessageEntry(Run(ops[..i]), ops[i]);
    BelowMax(HistoryOf(ops[..j]).written, n);
    CounterAt(ops, j);
  }
}

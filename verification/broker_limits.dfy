/**
 Where crash recovery ends: exactly which ids are issued again, what bytes left by a failed
 log write do to entries behind them, and exactly when the next message survives a crash.
 */
module BrokerLimits {
  import opened Codec
  import opened Common
  import opened WalSpec
  import opened WalImpl
  import opened FragmentStore
  import opened BrokerSpec
  import F = FragmentSpec
  import opened BrokerTheorems

  // ---- ids that are issued again ----

  /** A run so far, with nothing torn in its current file, serving the topic. */
  ghost predicate Serving(ops: seq<Op>, topic: Bytes, counter: nat) {
    && AllSound(ops) && Orderly(ops) && 25 + |topic| < U32
    && topic in Run(ops).topics && Run(ops).counter == counter && Clean(HistoryOf(ops).parts)
  }

  lemma Extend(ops: seq<Op>, op: Op)
    requires AllSound(ops) && Sound(op)
    ensures AllSound(ops + [op]) && Run(ops + [op]) == Next(Run(ops), op)
    ensures HistoryOf(ops + [op]) == Record(Run(ops), HistoryOf(ops), op)
    ensures Orderly(ops) && (LeavesBytes(Run(ops), op) ==> Clean(HistoryOf(ops).parts)) ==> Orderly(ops + [op])
  {
    hide Next, Record, LeavesBytes;
    assert (ops + [op])[..|ops|] == ops;
  }

  lemma SendOne(ops: seq<Op>, topic: Bytes, counter: nat)
    requires Serving(ops, topic, counter) && counter + 1 < U64
    ensures Serving(ops + [NextSend(topic, [], 0)], topic, counter + 1)
    ensures IssuesId(ops + [NextSend(topic, [], 0)], |ops|, counter + 1)
  {
    hide Run, HistoryOf, Orderly, AllSound, Next, Record, Issues, NextId, Clean, LeavesBytes;
    var op := NextSend(topic, [], 0);
    PlainStep(Run(ops), HistoryOf(ops), topic);
    Extend(ops, op);
    assert (ops + [op])[..|ops|] == ops && (ops + [op])[|ops|] == op;
  }

  lemma PlainStep(b: Broker, h: History, topic: Bytes)
    requires Ok(b) && topic in b.topics && h.parts != [] && Clean(h.parts)
    requires 25 + |topic| < U32 && b.counter + 1 < U64
    ensures var op := NextSend(topic, [], 0);
      && Sound(op) && Issues(b, op) && NextId(b) == b.counter + 1 && Clean(Record(b, h, op).parts)
      && Next(b, op).counter == b.counter + 1 && Next(b, op).topics == b.topics
  {
    hide NextId, Next, Record, ProcessMessage;
    NoWrap(b);
    NextStep(b, h, topic, [], 0);
  }

  lemma {:induction false} SendMany(ops: seq<Op>, topic: Bytes, counter: nat, n: nat) returns (more: seq<Op>)
    requires Serving(ops, topic, counter) && counter + n < U64
    ensures |more| == n && Serving(ops + more, topic, counter + n)
  {
    hide Serving;
    if n == 0 {
      more := [];
      assert ops + [] == ops;
    } else {
      var rest := SendMany(ops, topic, counter, n - 1);
      SendOne(ops + rest, topic, counter + n - 1);
      more := rest + [NextSend(topic, [], 0)];
      assert ops + more == ops + rest + [NextSend(topic, [], 0)];
    }
  }

  /** A crash and a new role: the broker serves the topic again, from the largest recorded
      id. */
  lemma Restart(ops: seq<Op>, topic: Bytes) returns (more: seq<Op>)
    requires AllSound(ops) && Orderly(ops) && |ops| < U64 && 25 + |topic| < U32
    ensures |more| == 2 && Serving(ops + more, topic, MaxId(HistoryOf(ops).written))
  {
    hide Run, HistoryOf, Orderly, AllSound, Inv, MaxId, Next, Record, Clean, LeavesBytes, Sound;
    var crash, role := Crash(NOTHING, 0, 0), SetRole(topic, Leading, true);
    RunInv(ops);
    CleanCrash(Run(ops), HistoryOf(ops), crash);
    CrashKept(Run(ops), HistoryOf(ops), crash);
    Extend(ops, crash);
    RoleStep(Run(ops + [crash]), HistoryOf(ops + [crash]), topic);
    Extend(ops + [crash], role);
    more := [crash, role];
    assert ops + more == ops + [crash] + [role];
  }

  lemma CleanCrash(b: Broker, h: History, op: Op)
    requires Ok(b) && h.parts != [] && op == Crash(NOTHING, 0, 0)
    ensures Sound(op) && !LeavesBytes(b, op) && Clean(Record(b, h, op).parts)
  {
  }

  lemma RoleStep(b: Broker, h: History, topic: Bytes)
    requires Ok(b) && h.parts != []
    ensures var op := SetRole(topic, Leading, true);
      && Sound(op) && !LeavesBytes(b, op) && Record(b, h, op).parts == h.parts
      && Next(b, op).counter == b.counter && topic in Next(b, op).topics && Next(b, op).files == b.files
      && Record(b, h, op).acked == h.acked
  {
  }

  /** Some continuation that keeps the log files in order issues the id again. */
  ghost predicate Reissues(ops: seq<Op>, more: seq<Op>, id: nat) {
    && AllSound(ops + more) && Orderly(ops + more) && |ops + more| < U64
    && exists j :: |ops| <= j && IssuesId(ops + more, j, id)
  }

  lemma Reissue(ops: seq<Op>) returns (more: seq<Op>)
    requires ops != [] && AllSound(ops) && Orderly(ops) && 2 * |ops| + 3 < U64
    requires AllSound(ops[..|ops| - 1]) && Issues(Run(ops[..|ops| - 1]), ops[|ops| - 1]) && !ops[|ops| - 1].walOk
    ensures Reissues(ops, more, NextId(Run(ops[..|ops| - 1])))
  {
    hide Run, HistoryOf, Orderly, MaxId, NextId, Serving;
    var rest, op := ops[..|ops| - 1], ops[|ops| - 1];
    var id, top := NextId(Run(rest)), MaxId(HistoryOf(ops).written);
    assert Sound(op);
    CounterAt(ops, |rest|);
    NothingWritten(ops);
    CounterBound(ops, |rest|);
    hide Sound, AllSound, Issues, IssuesId;
    var a := Restart(ops, op.topic);
    var b := SendMany(ops + a, op.topic, top, id - 1 - top);
    SendOne(ops + a + b, op.topic, id - 1);
    more := a + b + [NextSend(op.topic, [], 0)];
    assert ops + more == ops + a + b + [NextSend(op.topic, [], 0)];
    ServingIs(ops + more, op.topic, id);
  }

  lemma NothingWritten(ops: seq<Op>)
    requires ops != [] && AllSound(ops) && ops[|ops| - 1].Send? && !ops[|ops| - 1].walOk
    ensures AllSound(ops[..|ops| - 1]) && HistoryOf(ops).written == HistoryOf(ops[..|ops| - 1]).written
  {
    hide Run, Next, Tries, AckedAfter, PartsAfter;
  }

  lemma ServingIs(ops: seq<Op>, topic: Bytes, counter: nat)
    requires Serving(ops, topic, counter)
    ensures AllSound(ops) && Orderly(ops)
  {
  }

  lemma CounterBound(ops: seq<Op>, j: nat)
    requires AllSound(ops) && |ops| < U64 && Orderly(ops) && j < |ops|
    ensures AllSound(ops[..j]) && NextId(Run(ops[..j])) <= j + 1
  {
    hide Run, HistoryOf, Inv, NextId, Orderly;
    OrderlyPrefix(ops, j);
    RunInv(ops[..j]);
    NoWrap(Run(ops[..j]));
  }

  lemma Final(ops: seq<Op>, more: seq<Op>)
    requires ops != [] && AllSound(ops) && Orderly(ops)
    requires AllSound(ops[..|ops| - 1]) && Issues(Run(ops[..|ops| - 1]), ops[|ops| - 1]) && ops[|ops| - 1].walOk
    ensures !Reissues(ops, more, NextId(Run(ops[..|ops| - 1])))
  {
    hide Run, Orderly, NextId;
    var all, i := ops + more, |ops| - 1;
    var id := NextId(Run(ops[..i]));
    if Reissues(ops, more, id) {
      var j :| |ops| <= j && IssuesId(all, j, id);
      assert all[..i] == ops[..i] && all[i] == ops[i];
      NeverReissued(all, i, j);
      assert false;
    }
  }

  /** The id a step issues is issued again in some continuation if and only if its log write
      failed. */
  lemma IdIsFinal(ops: seq<Op>)
    requires ops != [] && AllSound(ops) && Orderly(ops) && 2 * |ops| + 3 < U64
    requires AllSound(ops[..|ops| - 1]) && Issues(Run(ops[..|ops| - 1]), ops[|ops| - 1])
    ensures var id := NextId(Run(ops[..|ops| - 1]));
      ops[|ops| - 1].walOk <==> forall more: seq<Op> :: !Reissues(ops, more, id)
  {
    hide Run, Orderly, NextId, Reissues;
    if ops[|ops| - 1].walOk {
      var id := NextId(Run(ops[..|ops| - 1]));
      forall more: seq<Op> ensures !Reissues(ops, more, id) {
        Final(ops, more);
      }
    } else {
      var more := Reissue(ops);
    }
  }

  // ---- bytes behind a failed write ----

  /** A broker that serves one topic from a single log file. */
  ghost predicate OneFile(b: Broker, topic: Bytes, counter: nat, file: Bytes) {
    Ok(b) && topic in b.topics && b.counter == counter && b.files == [file]
  }

  lemma FirstRole(topic: Bytes)
    ensures var ops := [SetRole(topic, Leading, true)];
      AllSound(ops) && OneFile(Run(ops), topic, 0, HEADER) && HistoryOf(ops).acked == []
  {
    hide Run, HistoryOf, Next, Record, Inv, Sound, Orderly, LeavesBytes, Clean;
    var ops: seq<Op> := [];
    StartInv();
    StartFile();
    RoleStep(Run(ops), HistoryOf(ops), topic);
    Extend(ops, SetRole(topic, Leading, true));
    assert ops + [SetRole(topic, Leading, true)] == [SetRole(topic, Leading, true)];
  }

  lemma StartFile()
    ensures Run([]).files == [HEADER] && HistoryOf([]).acked == [] && HistoryOf([]).parts != []
  {
    hide Handled, ReplayAll;
    assert [] + [HEADER] == [HEADER];
  }

  /** A send whose log write fails after `cut` bytes. */
  function FailedSend(topic: Bytes, payload: Bytes, cut: nat): Op {
    Send(topic, payload, true, Leading, false, cut, true, Created, Synced, 0)
  }

  /** What such a send and a failed removal do to the file. */
  lemma SendStep(ops: seq<Op>, topic: Bytes, counter: nat, file: Bytes, op: Op)
    requires AllSound(ops) && OneFile(Run(ops), topic, counter, file) && counter < 10 && Sound(op)
    requires op.Send? && op.topic == topic && op.leader && op.raftOk && op.created.Created? && op.stored.Synced?
    ensures AllSound(ops + [op])
    ensures OneFile(Run(ops + [op]), topic, counter + 1,
                    file + Reached(Entry(1, topic, counter + 1, op.payload, op.now), op.walOk, op.cut))
    ensures HistoryOf(ops + [op]).acked
         == HistoryOf(ops).acked + if op.walOk then [(topic, Msg(counter + 1, op.payload))] else []
  {
    hide Run, HistoryOf, AllSound, Reached, NextId, Sent, AfterClose;
    Extend(ops, op);
    NoWrap(Run(ops));
    assert HistoryOf(ops).acked + [] == HistoryOf(ops).acked;
  }

  lemma FailedRemoval(ops: seq<Op>, topic: Bytes, counter: nat, file: Bytes, op: Op)
    requires AllSound(ops) && OneFile(Run(ops), topic, counter, file) && Sound(op)
    requires op.RemoveTopic? && op.topic == topic && !op.walOk
    ensures AllSound(ops + [op])
    ensures OneFile(Run(ops + [op]), topic, counter,
      file + Reached(Entry(2, topic, 0, op.reason, op.now), false, op.cut))
    ensures HistoryOf(ops + [op]).acked == HistoryOf(ops).acked
  {
    hide Run, HistoryOf, AllSound, Reached;
    Extend(ops, op);
  }

  lemma CrashOfOne(b: Broker, topic: Bytes, counter: nat, file: Bytes, es: seq<Entry>)
    requires OneFile(b, topic, counter, file) && Replay(file).entries == es
    ensures var c := Next(b, Crash(NOTHING, 0, 0));
      Log(c, topic) == Recorded(es, topic) && c.counter == MaxId(es)
  {
    hide Recorded, MaxId, Handled, ReplayAll, Storable, Log, AllWhole, Blank;
    var files := Extended(b.files, Encode(NOTHING)[..0]);
    assert files == [file] by { assert file + [] == file; }
    assert ReplayAll(files + [HEADER]) == es by { TwoFiles(file, es); }
    AllStorable(files + [HEADER]);
    HandledIs(files, b.store.disk, es, 0, topic);
  }

  lemma TwoFiles(file: Bytes, es: seq<Entry>)
    requires Replay(file).entries == es
    ensures ReplayAll([file] + [HEADER]) == es
  {
    var files := [file] + [HEADER];
    assert files[..1] == [file] && [file][..0] == [];
    assert HEADER == HEADER + EncodeAll([]);
    RoundTrip([]);
    hide Replay;
    assert ReplayAll([file]) == [] + Replay(file).entries == es;
    assert ReplayAll(files) == ReplayAll([file]) + Replay(HEADER).entries == es + [] == es;
  }

  lemma LostRun(topic: Bytes, big: Bytes, small: Bytes)
    requires 25 + |topic| + |big| < U32 && 25 + |topic| + |small| < U32
    ensures var ops := [SetRole(topic, Leading, true)] + [FailedSend(topic, big, 4)] + [NextSend(topic, small, 0)];
      && AllSound(ops) && HistoryOf(ops).acked == [(topic, Msg(2, small))]
      && OneFile(Run(ops), topic, 2,
                 HEADER + Encode(Entry(1, topic, 1, big, 0))[..4] + Encode(Entry(1, topic, 2, small, 0)))
  {
    hide Run, HistoryOf, OneFile, AllSound, Encode;
    var ops := [SetRole(topic, Leading, true)];
    var failed, sent := FailedSend(topic, big, 4), NextSend(topic, small, 0);
    var torn := Entry(1, topic, 1, big, 0);
    FirstRole(topic);
    SendStep(ops, topic, 0, HEADER, failed);
    assert Reached(torn, false, 4) == Encode(torn)[..4];
    SendStep(ops + [failed], topic, 1, HEADER + Encode(torn)[..4], sent);
  }

  lemma LostFile(torn: Entry, e: Entry)
    requires torn.Fits() && e.Fits() && 4 + |Encode(e)| < |Encode(torn)|
    ensures Replay(HEADER + Encode(torn)[..4] + Encode(e)).entries == []
  {
    hide Replay, Encode;
    assert HEADER + Encode(torn)[..4] + Encode(e) == HEADER + EncodeAll([]) + (Encode(torn)[..4] + Encode(e));
    LostBehindTorn([], torn, 4, Encode(e));
  }

  /** A message written behind the size field of an entry whose write failed is acknowledged
      and lost by the next crash, and its id is free again. */
  lemma AckedIsLost(topic: Bytes, big: Bytes, small: Bytes)
    requires 25 + |topic| + |big| < U32 && |big| > |small| + 4
    ensures var ops := [SetRole(topic, Leading, true)] + [FailedSend(topic, big, 4)] + [NextSend(topic, small, 0)];
      && AllSound(ops) && (topic, Msg(2, small)) in HistoryOf(ops).acked
      && var b := Next(Run(ops), Crash(NOTHING, 0, 0)); Log(b, topic) == [] && b.counter == 0
  {
    hide Run, HistoryOf, OneFile, AllSound, Next, Replay, Recorded, MaxId;
    var torn, e := Entry(1, topic, 1, big, 0), Entry(1, topic, 2, small, 0);
    var ops := [SetRole(topic, Leading, true)] + [FailedSend(topic, big, 4)] + [NextSend(topic, small, 0)];
    LostRun(topic, big, small);
    LostFile(torn, e);
    CrashOfOne(Run(ops), topic, 2, HEADER + Encode(torn)[..4] + Encode(e), []);
    NothingRecorded(topic);
  }

  lemma NothingRecorded(topic: Bytes)
    ensures Recorded([], topic) == [] && MaxId([]) == 0
  {
  }

  /** Acknowledged, then a removal whose write stops 8 bytes short, then a message whose write
      stops after 8. */
  function ForgingOps(topic: Bytes, payload: Bytes, reason: Bytes): seq<Op> {
    var removal := RemoveTopic(topic, reason, false, 21 + |topic| + |reason|, 0);
    [SetRole(topic, Leading, true)] + [NextSend(topic, payload, 0)] + [removal] + [FailedSend(topic, payload, 8)]
  }

  function Untimed(torn: Entry): Bytes
    requires torn.Fits()
  {
    var b := Encode(torn); b[..|b| - 8]
  }

  lemma ForgingRun(topic: Bytes, payload: Bytes, reason: Bytes)
    requires 25 + |topic| + |payload| < U32 && 25 + |topic| + |reason| < U32
    ensures var ops := ForgingOps(topic, payload, reason);
      && AllSound(ops) && HistoryOf(ops).acked == [(topic, Msg(1, payload))]
      && OneFile(Run(ops), topic, 2, HEADER + Encode(Entry(1, topic, 1, payload, 0))
                   + Untimed(Entry(2, topic, 0, reason, 0)) + Encode(Entry(1, topic, 2, payload, 0))[..8])
  {
    hide Run, HistoryOf, OneFile, AllSound, Encode;
    var ops := [SetRole(topic, Leading, true)];
    var removal := RemoveTopic(topic, reason, false, 21 + |topic| + |reason|, 0);
    var sent, failed := NextSend(topic, payload, 0), FailedSend(topic, payload, 8);
    var e, torn, next := Entry(1, topic, 1, payload, 0), Entry(2, topic, 0, reason, 0), Entry(1, topic, 2, payload, 0);
    FirstRole(topic);
    SendStep(ops, topic, 0, HEADER, sent);
    assert Reached(e, true, 0) == Encode(e);
    FailedRemoval(ops + [sent], topic, 1, HEADER + Encode(e), removal);
    assert Reached(torn, false, removal.cut) == Untimed(torn);
    SendStep(ops + [sent] + [removal], topic, 1, HEADER + Encode(e) + Untimed(torn), failed);
    assert Reached(next, false, 8) == Encode(next)[..8];
  }

  lemma ForgedFile(e: Entry, torn: Entry, time: Bytes)
    requires e.Fits() && torn.Fits() && |time| == 8
    ensures Replay(HEADER + Encode(e) + Untimed(torn) + time).entries
         == [e] + [torn.(timestamp := Signed(UnBE(time)))]
  {
    hide Replay, Encode, Signed, UnBE;
    OneEncoded(e);
    assert HEADER + Encode(e) + Untimed(torn) + time == HEADER + EncodeAll([e]) + (Untimed(torn) + time);
    ForgedBehindTorn([e], torn, time);
  }

  /** Two failed writes in a row can make up an entry that nobody was told was written: here a
      removal, which takes an acknowledged message with it. */
  lemma RemovalIsForged(topic: Bytes, payload: Bytes, reason: Bytes)
    requires 25 + |topic| + |payload| < U32 && 25 + |topic| + |reason| < U32
    ensures var ops := ForgingOps(topic, payload, reason);
      && AllSound(ops) && (topic, Msg(1, payload)) in HistoryOf(ops).acked
      && topic in Run(ops).topics && Log(Next(Run(ops), Crash(NOTHING, 0, 0)), topic) == []
  {
    hide Run, HistoryOf, AllSound, Next, Replay, Recorded, MaxId, Encode, Untimed, ForgingOps, Signed, UnBE;
    var e, torn, next := Entry(1, topic, 1, payload, 0), Entry(2, topic, 0, reason, 0), Entry(1, topic, 2, payload, 0);
    var time := Encode(next)[..8];
    var forged := torn.(timestamp := Signed(UnBE(time)));
    ForgingRun(topic, payload, reason);
    ForgedFile(e, torn, time);
    CrashOfOne(Run(ForgingOps(topic, payload, reason)), topic, 2,
               HEADER + Encode(e) + Untimed(torn) + time, [e] + [forged]);
    RecordedStep([e], forged, topic);
  }

  // ---- exactly when the next message survives ----

  /** The message sent next, and acknowledged, is there after a crash. */
  ghost predicate Survives(b: Broker, topic: Bytes, payload: Bytes, now: int, crash: Op)
    requires Ok(b) && Sound(NextSend(topic, payload, now)) && crash.Crash? && Sound(crash)
  {
    Msg(NextId(b), payload) in Log(Next(Next(b, NextSend(topic, payload, now)), crash), topic)
  }

  ghost predicate AllSurvive(b: Broker, topic: Bytes, now: int)
    requires Ok(b) && -U63 <= now < U63
  {
    forall payload: Bytes, crash: Op :: 25 + |topic| + |payload| < U32 && crash.Crash? && Sound(crash) ==>
      Survives(b, topic, payload, now, crash)
  }

  lemma CleanSurvives(ops: seq<Op>, topic: Bytes, payload: Bytes, now: int, crash: Op)
    requires AllSound(ops) && |ops| + 1 < U64 && Orderly(ops) && Clean(HistoryOf(ops).parts)
    requires topic in Run(ops).topics && Sound(NextSend(topic, payload, now)) && crash.Crash? && Sound(crash)
    ensures Survives(Run(ops), topic, payload, now, crash)
  {
    hide Run, HistoryOf, Next, Record, ProcessMessage, Orderly, AllSound, LeavesBytes, Log, NextId,
      Recorded, MaxId, IdsIncrease;
    var op := NextSend(topic, payload, now);
    Extend(ops, op);
    NextStep(Run(ops), HistoryOf(ops), topic, payload, now);
    CrashRecovery(ops + [op], crash, topic);
    assert (topic, Msg(NextId(Run(ops)), payload)) in HistoryOf(ops + [op]).acked;
  }

  /** The files after the send replay to what was written and what is made of the torn bytes
      and the entry behind them. */
  lemma TornReplay(files: seq<Bytes>, parts: seq<Part>, e: Entry)
    requires FilesOk(files, parts) && e.Fits()
    ensures var p := parts[|parts| - 1];
      p.torn.Fits() && p.k <= |Encode(p.torn)|
      && ReplayAll(Extended(files, Encode(e)) + [HEADER])
         == Flat(parts) + ReadEntries(Encode(p.torn)[..p.k] + Encode(e)).entries
  {
    hide ReplayAll, Replay, ReadEntries, Encode, EncodeAll, Flat, HEADER;
    var n, all := |files| - 1, Extended(files, Encode(e));
    var p := parts[n];
    assert PartOk(files[n], p);
    var tail := Encode(p.torn)[..p.k] + Encode(e);
    assert files[n] + Encode(e) == HEADER + EncodeAll(p.entries) + tail;
    ReplayThen(p.entries, tail);
    assert all[..n] == files[..n];
    FilesReplay(files[..n], parts[..n]);
    LastReplay(all);
    LastReplay(all + [HEADER]);
    assert (all + [HEADER])[..n + 1] == all;
    HeaderReplay();
    LastPart(parts);
    Associate3(Flat(parts[..n]), p.entries, ReadEntries(tail).entries);
  }

  lemma LastReplay(files: seq<Bytes>)
    requires files != []
    ensures ReplayAll(files) == ReplayAll(files[..|files| - 1]) + Replay(files[|files| - 1]).entries
  {
    hide Replay;
  }

  lemma HeaderReplay()
    ensures Replay(HEADER).entries == []
  {
    RoundTrip([]);
    assert HEADER == HEADER + EncodeAll([]);
  }

  lemma LastPart(parts: seq<Part>)
    requires parts != []
    ensures Flat(parts) == Flat(parts[..|parts| - 1]) + parts[|parts| - 1].entries
  {
  }

  lemma Associate3(a: seq<Entry>, b: seq<Entry>, c: seq<Entry>)
    ensures a + (b + c) + [] == a + b + c
  {
  }

  lemma NotRecorded(written: seq<Entry>, lost: seq<Entry>, topic: Bytes, m: Msg)
    requires MaxId(written) < m.id && Misses(lost, topic, m.payload)
    ensures m !in Recorded(written + lost, topic)
  {
    hide MaxId;
    var all := written + lost;
    var n := AfterRemoval(all, topic);
    if m in Recorded(all, topic) {
      var i :| 0 <= i < |Recorded(all, topic)| && Recorded(all, topic)[i] == m;
      var k := MessageFrom(all[n..], topic, i);
      if n + k < |written| {
        BelowMax(written, n + k);
      }
      assert false;
    }
  }

  lemma TornLoses(b: Broker, h: History, topic: Bytes, now: int) returns (x: Byte)
    requires Ok(b) && h.parts != [] && !Clean(h.parts) && topic in b.topics && b.counter + 1 < U64
    requires 26 + |topic| < U32 && -U63 <= now < U63 && Inv(b, h)
    ensures x < 2 && Sound(NextSend(topic, [x], now)) && Sound(Crash(NOTHING, 0, now))
    ensures !Survives(b, topic, [x], now, Crash(NOTHING, 0, now))
  {
    hide Inv, Next, Record, ProcessMessage, Log, NextId, Recorded, MaxId, FilesOk, Flat, Encode,
      ReadEntries, Misses, ReplayAll, AllFit, Increasing, AckedOk, Clean, Sound, Extended, Grow, Writes, AfterNext;
    InvParts(b, h);
    var p, id := h.parts[|h.parts| - 1], NextId(b);
    InvCounter(b, h);
    LastTorn(b.files, h.parts);
    var lost;
    x, lost := LostBehind(Encode(p.torn)[..p.k], topic, id, now);
    var e := Entry(1, topic, id, [x], now);
    NextStep(b, h, topic, [x], now);
    TornReplay(b.files, h.parts, e);
    AfterCrash(Next(b, NextSend(topic, [x], now)), now, topic, h.written + lost);
    NotRecorded(h.written, lost, topic, Msg(id, [x]));
  }

  lemma LastTorn(files: seq<Bytes>, parts: seq<Part>)
    requires FilesOk(files, parts) && !Clean(parts)
    ensures var p := parts[|parts| - 1];
      && p.torn.Fits() && p.k <= |Encode(p.torn)|
      && ReadEntries(Encode(p.torn)[..p.k]) == Replayed([], false)
  {
    hide ReadEntries, Encode, EncodeAll;
    var p := parts[|parts| - 1];
    assert PartOk(files[|parts| - 1], p);
    ReadTorn(p.torn, p.k);
  }

  lemma AfterCrash(b: Broker, now: int, topic: Bytes, es: seq<Entry>)
    requires Ok(b) && -U63 <= now < U63 && ReplayAll(b.files + [HEADER]) == es
    ensures Sound(Crash(NOTHING, 0, now)) && Log(Next(b, Crash(NOTHING, 0, now)), topic) == Recorded(es, topic)
  {
    hide Recorded, MaxId, Handled, ReplayAll, Storable, Log, AllWhole, Blank, HEADER;
    var files := Extended(b.files, Encode(NOTHING)[..0]);
    assert files == b.files by { assert b.files[|b.files| - 1] + [] == b.files[|b.files| - 1]; }
    AllStorable(files + [HEADER]);
    HandledIs(files, b.store.disk, es, now, topic);
  }

  /** Crash recovery, exactly: after an orderly run, every message acknowledged next survives
      every crash if and only if no failed write left bytes in the current log file. */
  lemma RecoveryIff(ops: seq<Op>, topic: Bytes, now: int)
    requires AllSound(ops) && |ops| + 1 < U64 && Orderly(ops)
    requires topic in Run(ops).topics && 26 + |topic| < U32 && -U63 <= now < U63
    ensures Clean(HistoryOf(ops).parts) <==> AllSurvive(Run(ops), topic, now)
  {
    hide Run, HistoryOf, Orderly, AllSound, Clean, Survives, Inv;
    if Clean(HistoryOf(ops).parts) {
      forall payload: Bytes, crash: Op | 25 + |topic| + |payload| < U32 && crash.Crash? && Sound(crash)
        ensures Survives(Run(ops), topic, payload, now, crash)
      {
        CleanSurvives(ops, topic, payload, now, crash);
      }
    } else {
      RunInv(ops);
      var x := TornLoses(Run(ops), HistoryOf(ops), topic, now);
      assert Sound(Crash(NOTHING, 0, now));
      assert !Survives(Run(ops), topic, [x], now, Crash(NOTHING, 0, now));
    }
  }
}

/**
 The broker of broker/server.go over a write-ahead log and a fragment manager, proved step by
 step against BrokerSpec.
 */
module BrokerImpl {
  import opened Codec
  import opened Common
  import opened WalSpec
  import opened WalImpl
  import opened BrokerSpec
  import F = FragmentSpec
  import opened FragmentStore
  import opened FragmentImpl

  /** The messages of a batch, each with its offset. */
  method Numbered(messages: seq<F.Message>, offset: nat) returns (out: seq<(F.Message, nat)>)
    ensures |out| == |messages| && forall j :: 0 <= j < |out| ==> out[j] == (messages[j], offset + j)
  {
    out := [];
    var at := offset;
    var i := 0;
    while i < |messages|
      invariant i <= |messages| && |out| == i && at == offset + i
      invariant forall j :: 0 <= j < i ==> out[j] == (messages[j], offset + j)
    {
      out := out + [(messages[i], at)];
      at := at + 1;
      i := i + 1;
    }
  }

  lemma PulledSlice<T>(log: seq<T>, offset: nat, batch: nat)
    requires offset < U64 && batch < U32
    ensures |log| <= U63 ==> F.Slice(log, offset, F.Bound(offset, batch)) == F.Slice(log, offset, offset + batch)
    ensures var s := F.Slice(log, offset, F.Bound(offset, batch));
      forall i :: 0 <= i < |s| ==> offset + i < |log| && s[i] == log[offset + i]
  {
    F.ReadIsSlice(log, offset, batch);
  }

  class BrokerServer {
    const fragmentMgr: FragmentManager
    const wal: WAL
    var messageCounter: nat
    var topics: set<Bytes>
    var topicRoles: map<Bytes, TopicRole>

    ghost predicate Valid()
      reads fragmentMgr, wal
    {
      fragmentMgr.Valid() && fragmentMgr.Bounds() == LIMITS && wal.files != []
    }

    ghost function View(): Broker
      reads this, fragmentMgr, wal
    {
      Broker(messageCounter, topics, topicRoles, wal.files, fragmentMgr.View())
    }

    /** Start over the files found on disk and replay the log. */
    constructor (found: seq<Bytes>, disk: F.Disk, now: int)
      requires -U63 <= now < U63
      ensures Valid() && View() == Started(found, disk, now)
    {
      fragmentMgr := new FragmentManager(128 * 1024 * 1024, 10000, disk);
      wal := new WAL(found);
      messageCounter, topics, topicRoles := 0, {}, map[];
      new;
      ReplayWAL(now);
    }

    /** Replay hands every entry to the handler; fragment writes succeed. */
    method ReplayWAL(now: int)
      requires Valid() && -U63 <= now < U63
      modifies this, fragmentMgr
      ensures Valid() && View() == Handled(old(View()), ReplayAll(wal.files), now)
    {
      hide StoreOk, Encode, ReplayAll, Handle, Storable;
      var handed := wal.ReplayFiles();
      AllStorable(wal.files);
      var i := 0;
      while i < |handed|
        invariant i <= |handed| && Valid() && wal.files == old(wal.files)
        invariant View() == Handled(old(View()), handed[..i], now)
      {
        HandleEntry(handed[i], now);
        i := i + 1;
        assert handed[..i][..i - 1] == handed[..i - 1];
      }
      assert handed[..i] == handed;
    }

    method HandleEntry(e: Entry, now: int)
      requires Valid() && -U63 <= now < U63 && e.id < U64 && |e.payload| < U32
      modifies this, fragmentMgr
      ensures Valid() && View() == Handle(old(View()), e, now)
    {
      hide StoreOk, LogOf, AfterWrite, AfterClose, Readable, Opens;
      if e.kind == 1 {
        var done := fragmentMgr.WriteMessage(e.topic, F.Message(e.id, now, e.payload), Created, Synced);
        if e.id > messageCounter {
          messageCounter := e.id;
        }
        topics := topics + {e.topic};
        topicRoles := topicRoles[e.topic := Unspecified];
      } else if e.kind == 2 {
        topics := topics - {e.topic};
        topicRoles := topicRoles - {e.topic};
        fragmentMgr.CloseTopic(e.topic);
      }
    }

    method SetTopicRole(topic: Bytes, role: TopicRole, ok: bool)
      requires Valid()
      modifies this
      ensures Valid() && View() == Next(old(View()), SetRole(topic, role, ok))
    {
      if !ok {
        return;
      }
      topics := topics + {topic};
      topicRoles := topicRoles[topic := role];
    }

    method ProcessMessage(op: Op) returns (reply: Reply)
      requires Valid() && op.Send? && Sound(op)
      modifies this, fragmentMgr, wal
      ensures Valid() && (View(), reply) == BrokerSpec.ProcessMessage(old(View()), op)
    {
      hide StoreOk, LogOf, AfterWrite, Readable, Opens, Encode, Reached;
      if op.topic !in topics {
        return Retry;
      }
      if !op.leader {
        return Retry;
      }
      messageCounter := (messageCounter + 1) % U64;
      var id := messageCounter;
      topics := topics + {op.topic};
      assert topics == old(topics);
      topicRoles := topicRoles[op.topic := op.role];
      var logged := wal.WriteMessage(op.topic, id, op.payload, op.now, op.walOk, op.cut);
      if !logged {
        return Error;
      }
      if !op.raftOk {
        return Retry;
      }
      var done := fragmentMgr.WriteMessage(op.topic, F.Message(id, op.now, op.payload), op.created, op.stored);
      if !done {
        return Error;
      }
      return Success(id);
    }

    method RemoveTopic(op: Op) returns (removed: bool)
      requires Valid() && op.RemoveTopic? && Sound(op)
      modifies this, fragmentMgr, wal
      ensures Valid() && View() == Remove(old(View()), op) && (removed <==> op.topic in old(topics) && op.walOk)
    {
      hide StoreOk, LogOf, AfterClose, Encode, Reached;
      if op.topic !in topics {
        return false;
      }
      var logged := wal.WriteRemoveTopic(op.topic, op.reason, op.now, op.walOk, op.cut);
      if !logged {
        return false;
      }
      topics := topics - {op.topic};
      topicRoles := topicRoles - {op.topic};
      fragmentMgr.CloseTopic(op.topic);
      return true;
    }

    /** Pulled messages carry their position in the topic's log as offset. The batch size is a
        32-bit number, so the read is the slice asked for on any log of up to 2^63 messages. */
    method PullMessage(topic: Bytes, offset: nat, batch: nat, serving: bool)
      returns (sent: Option<seq<(F.Message, nat)>>)
      requires Valid() && offset < U64 && batch < U32
      ensures sent.None? <==> topic !in topics || !serving
      ensures sent.Some? && |fragmentMgr.Log(topic)| <= U63 ==>
        |sent.value| == |F.Slice(fragmentMgr.Log(topic), offset, offset + batch)|
      ensures sent.Some? ==>
        && |sent.value| == |F.Slice(fragmentMgr.Log(topic), offset, F.Bound(offset, batch))|
        && forall i :: 0 <= i < |sent.value| ==>
             && sent.value[i].1 == offset + i < |fragmentMgr.Log(topic)|
             && sent.value[i].0 == fragmentMgr.Log(topic)[offset + i]
    {
      if topic !in topics || !serving {
        return None;
      }
      hide F.Slice, F.Bound;
      var messages := fragmentMgr.ReadMessages(topic, offset, batch, {});
      PulledSlice(fragmentMgr.Log(topic), offset, batch);
      var out := Numbered(messages, offset);
      return Some(out);
    }
  }
}

/**
 The state of the fragment manager (internal/storage/fragment.go) as a value, bytes included:
 what creating a fragment, writing a message and closing a topic do to it, and when the log a
 topic's files decode to grows by the message written.
 */
module FragmentStore {
  import opened Codec
  import opened Common
  import opened FragmentSpec

  datatype Store = Store(fragments: map<Bytes, seq<Fragment>>, disk: Disk)

  datatype Limits = Limits(maxSize: int, maxMessages: int)

  /** How creating a fragment file ends: done, with no file, or with a part of the header. */
  datatype Creation = Created | NoFile | Partial(left: Bytes)

  function Of(s: Store, topic: Bytes): seq<Fragment> {
    if topic in s.fragments then s.fragments[topic] else []
  }

  /** The log of a topic, decoded from the bytes of its files. */
  function LogOf(s: Store, topic: Bytes): seq<Message> {
    Joined(s.disk, topic, |Of(s, topic)|)
  }

  /** Fragment i has id i, and its file holds a header and at least the bytes counted. */
  ghost predicate FragmentOk(disk: Disk, topic: Bytes, f: Fragment, i: nat) {
    f.id == i && (topic, i) in disk && |disk[(topic, i)]| >= 20 + |topic| + f.size
  }

  ghost predicate TopicOk(s: Store, topic: Bytes) {
    forall i :: 0 <= i < |Of(s, topic)| ==> FragmentOk(s.disk, topic, Of(s, topic)[i], i)
  }

  ghost predicate StoreOk(s: Store) {
    forall topic :: TopicOk(s, topic)
  }

  lemma TopicIsOk(s: Store, topic: Bytes)
    requires StoreOk(s)
    ensures TopicOk(s, topic)
  {
  }

  // ---- operations ----

  /** The next write needs a new fragment: there is none yet, or the last one is full. */
  predicate NeedsRoll(all: seq<Fragment>, limits: Limits) {
    all == [] || all[|all| - 1].size >= limits.maxSize || all[|all| - 1].messageCount >= limits.maxMessages
  }

  function Rolled(s: Store, topic: Bytes, file: Bytes): Store {
    var n := |Of(s, topic)|;
    Store(s.fragments[topic := Of(s, topic) + [Fragment(n, 0, 0)]], s.disk[(topic, n) := file])
  }

  /** A created fragment has the next id and an empty file; a failed creation may leave a file
      that no fragment refers to. */
  function AfterCreate(s: Store, topic: Bytes, now: int, created: Creation): Store
    requires -U63 <= now < U63
  {
    match created
    case Created => Rolled(s, topic, Header(topic, now))
    case NoFile => s
    case Partial(left) => s.(disk := s.disk[(topic, |Of(s, topic)|) := left])
  }

  function Counted(f: Fragment, m: Message): Fragment {
    f.(size := f.size + 20 + |m.payload|, messageCount := f.messageCount + 1)
  }

  function FileOf(disk: Disk, key: (Bytes, nat)): Bytes {
    if key in disk then disk[key] else []
  }

  /** The last file grows by what is written; the counters move only when all of it is. */
  function Wrote(s: Store, topic: Bytes, m: Message, stored: Stored): Store
    requires Of(s, topic) != [] && -U63 <= m.timestamp < U63
  {
    var all, n := Of(s, topic), |Of(s, topic)| - 1;
    Store(if stored.NotStored? then s.fragments else s.fragments[topic := all[n := Counted(all[n], m)]],
          s.disk[(topic, n) := FileOf(s.disk, (topic, n)) + Written(m, stored)])
  }

  /** There is a fragment to write to. */
  predicate Opens(s: Store, topic: Bytes, created: Creation, limits: Limits) {
    NeedsRoll(Of(s, topic), limits) ==> created.Created?
  }

  function BeforeWrite(s: Store, topic: Bytes, now: int, created: Creation, limits: Limits): (r: Store)
    requires -U63 <= now < U63
    ensures Opens(s, topic, created, limits) ==> Of(r, topic) != []
  {
    if NeedsRoll(Of(s, topic), limits) then AfterCreate(s, topic, now, created) else s
  }

  function AfterWrite(s: Store, topic: Bytes, m: Message, created: Creation, stored: Stored, limits: Limits): Store
    requires -U63 <= m.timestamp < U63
  {
    var r := BeforeWrite(s, topic, m.timestamp, created, limits);
    if Opens(s, topic, created, limits) then Wrote(r, topic, m, stored) else r
  }

  function AfterClose(s: Store, topic: Bytes): Store {
    s.(fragments := s.fragments - {topic})
  }

  // ---- what stays as it was ----

  /** Files 0..n of the topic are the same on both disks. */
  ghost predicate SameFiles(a: Disk, b: Disk, topic: Bytes, n: nat) {
    forall i :: 0 <= i < n && (topic, i) in a ==> (topic, i) in b && a[(topic, i)] == b[(topic, i)]
  }

  lemma FilesKept(s: Store, d: Disk, topic: Bytes, n: nat)
    requires TopicOk(s, topic) && n <= |Of(s, topic)| && SameFiles(s.disk, d, topic, n)
    ensures forall i :: 0 <= i < n ==>
      FragmentOk(d, topic, Of(s, topic)[i], i) && Tail(d, topic, i) == Tail(s.disk, topic, i)
    ensures Joined(d, topic, n) == Joined(s.disk, topic, n)
  {
    forall i | 0 <= i < n
      ensures FragmentOk(d, topic, Of(s, topic)[i], i) && Tail(d, topic, i) == Tail(s.disk, topic, i)
    {
      assert FragmentOk(s.disk, topic, Of(s, topic)[i], i);
    }
    JoinedSame(s.disk, d, topic, n);
  }

  /** A topic is untouched by changes to fragments and files of others. */
  lemma TopicKept(s: Store, s': Store, topic: Bytes)
    requires TopicOk(s, topic) && Of(s', topic) == Of(s, topic) && SameFiles(s.disk, s'.disk, topic, |Of(s, topic)|)
    ensures TopicOk(s', topic) && LogOf(s', topic) == LogOf(s, topic)
  {
    hide FragmentOk, Joined, Tail;
    FilesKept(s, s'.disk, topic, |Of(s, topic)|);
  }

  lemma JoinedLast(d: Disk, topic: Bytes, n: nat)
    ensures Joined(d, topic, n + 1) == Joined(d, topic, n) + Decode(Tail(d, topic, n))
  {
    hide Decode, Tail;
  }

  // ---- creating a fragment ----

  lemma RollOver(s: Store, topic: Bytes, file: Bytes)
    requires TopicOk(s, topic) && |file| == 20 + |topic|
    ensures TopicOk(Rolled(s, topic, file), topic) && LogOf(Rolled(s, topic, file), topic) == LogOf(s, topic)
    ensures Tail(Rolled(s, topic, file).disk, topic, |Of(s, topic)|) == []
  {
    hide FragmentOk, Decode, Joined, Tail;
    var n, s' := |Of(s, topic)|, Rolled(s, topic, file);
    FilesKept(s, s'.disk, topic, n);
    EmptyFragment(s'.disk, topic, n);
    JoinedLast(s'.disk, topic, n);
    assert forall i :: 0 <= i < n ==> Of(s', topic)[i] == Of(s, topic)[i];
  }

  lemma EmptyFragment(d: Disk, topic: Bytes, n: nat)
    requires (topic, n) in d && |d[(topic, n)]| == 20 + |topic|
    ensures FragmentOk(d, topic, Fragment(n, 0, 0), n) && Tail(d, topic, n) == [] && Decode(Tail(d, topic, n)) == []
  {
    assert Tail(d, topic, n) == [];
  }

  /** Creating a fragment, or failing to, changes no log. */
  lemma CreateKeeps(s: Store, topic: Bytes, now: int, created: Creation, t: Bytes)
    requires StoreOk(s) && -U63 <= now < U63
    ensures TopicOk(AfterCreate(s, topic, now, created), t)
    ensures LogOf(AfterCreate(s, topic, now, created), t) == LogOf(s, t)
  {
    hide TopicOk, LogOf, Header;
    assert TopicOk(s, t);
    if created.Created? && t == topic {
      RollOver(s, topic, Header(topic, now));
    } else {
      TopicKept(s, AfterCreate(s, topic, now, created), t);
    }
  }

  // ---- writing a message ----

  lemma LastFile(s: Store, topic: Bytes)
    requires TopicOk(s, topic) && Of(s, topic) != []
    ensures var n := |Of(s, topic)| - 1;
      && Of(s, topic)[n].id == n && (topic, n) in s.disk
      && |s.disk[(topic, n)]| >= 20 + |topic| + Of(s, topic)[n].size
  {
    assert FragmentOk(s.disk, topic, Of(s, topic)[|Of(s, topic)| - 1], |Of(s, topic)| - 1);
  }

  lemma TailGrows(d: Disk, topic: Bytes, n: nat, more: Bytes)
    requires (topic, n) in d && |d[(topic, n)]| >= 20 + |topic|
    ensures Tail(d[(topic, n) := d[(topic, n)] + more], topic, n) == Tail(d, topic, n) + more
  {
  }

  /** The message bytes of the last file. */
  function LastTail(s: Store, topic: Bytes): Bytes {
    if Of(s, topic) == [] then [] else Tail(s.disk, topic, |Of(s, topic)| - 1)
  }

  /** The log of the fragments before the last. */
  function Earlier(s: Store, topic: Bytes): seq<Message> {
    if Of(s, topic) == [] then [] else Joined(s.disk, topic, |Of(s, topic)| - 1)
  }

  lemma LogParts(s: Store, topic: Bytes)
    requires Of(s, topic) != []
    ensures LogOf(s, topic) == Earlier(s, topic) + Decode(LastTail(s, topic))
  {
    hide Decode, Tail;
  }

  /** A write makes the last file longer and leaves the earlier ones alone. */
  lemma WroteParts(s: Store, topic: Bytes, m: Message, stored: Stored)
    requires TopicOk(s, topic) && Of(s, topic) != [] && -U63 <= m.timestamp < U63
    ensures var s' := Wrote(s, topic, m, stored);
      && TopicOk(s', topic) && |Of(s', topic)| == |Of(s, topic)| && Earlier(s', topic) == Earlier(s, topic)
      && LastTail(s', topic) == LastTail(s, topic) + Written(m, stored)
  {
    hide Joined, Tail, Encode;
    var n, s' := |Of(s, topic)| - 1, Wrote(s, topic, m, stored);
    LastFile(s, topic);
    TailGrows(s.disk, topic, n, Written(m, stored));
    FilesKept(s, s'.disk, topic, n);
    forall i | 0 <= i < |Of(s', topic)| ensures FragmentOk(s'.disk, topic, Of(s', topic)[i], i) {
      assert i < n ==> Of(s', topic)[i] == Of(s, topic)[i];
    }
  }

  /** A write touches no other topic, whether it succeeds or not. */
  lemma WriteKeeps(s: Store, topic: Bytes, m: Message, created: Creation, stored: Stored, limits: Limits, t: Bytes)
    requires StoreOk(s) && -U63 <= m.timestamp < U63
    ensures TopicOk(AfterWrite(s, topic, m, created, stored, limits), t)
    ensures t != topic ==> LogOf(AfterWrite(s, topic, m, created, stored, limits), t) == LogOf(s, t)
  {
    hide TopicOk, LogOf, Header, Written, NeedsRoll;
    var r := BeforeWrite(s, topic, m.timestamp, created, limits);
    assert TopicOk(s, t);
    CreateKeeps(s, topic, m.timestamp, created, t);
    if Opens(s, topic, created, limits) {
      if t == topic {
        WroteParts(r, topic, m, stored);
      } else {
        TopicKept(r, Wrote(r, topic, m, stored), t);
      }
    }
  }

  lemma StoreKept(s: Store, topic: Bytes, m: Message, created: Creation, stored: Stored, limits: Limits)
    requires StoreOk(s) && -U63 <= m.timestamp < U63
    ensures StoreOk(AfterWrite(s, topic, m, created, stored, limits))
  {
    hide TopicOk, AfterWrite;
    forall t ensures TopicOk(AfterWrite(s, topic, m, created, stored, limits), t) {
      WriteKeeps(s, topic, m, created, stored, limits, t);
    }
  }

  lemma CloseKeeps(s: Store, topic: Bytes, t: Bytes)
    requires StoreOk(s)
    ensures TopicOk(AfterClose(s, topic), t)
    ensures LogOf(AfterClose(s, topic), t) == if t == topic then [] else LogOf(s, t)
  {
    assert TopicOk(s, t);
    if t != topic {
      TopicKept(s, AfterClose(s, topic), t);
    }
  }

  // ---- the log grows by the message ----

  /** Nothing is left behind the whole messages of the file that the next write goes to. */
  predicate Readable(s: Store, topic: Bytes, limits: Limits) {
    NeedsRoll(Of(s, topic), limits) || Clean(LastTail(s, topic))
  }

  lemma BeforeParts(s: Store, topic: Bytes, now: int, created: Creation, limits: Limits)
    requires TopicOk(s, topic) && -U63 <= now < U63 && Opens(s, topic, created, limits)
    ensures var r := BeforeWrite(s, topic, now, created, limits);
      && TopicOk(r, topic) && Of(r, topic) != [] && LogOf(r, topic) == LogOf(s, topic)
      && LastTail(r, topic) == if NeedsRoll(Of(s, topic), limits) then [] else LastTail(s, topic)
  {
    hide TopicOk, LogOf, Header, Tail;
    if NeedsRoll(Of(s, topic), limits) {
      RollOver(s, topic, Header(topic, now));
    }
  }

  /** What is read after a write: the log as it was, and what the bytes left in the last file
      and those written come to together. */
  lemma WriteGives(s: Store, topic: Bytes, m: Message, created: Creation, stored: Stored, limits: Limits)
    requires TopicOk(s, topic) && -U63 <= m.timestamp < U63 && Opens(s, topic, created, limits)
    ensures var left := if NeedsRoll(Of(s, topic), limits) then [] else Left(LastTail(s, topic));
      LogOf(AfterWrite(s, topic, m, created, stored, limits), topic)
      == LogOf(s, topic) + Decode(left + Written(m, stored))
  {
    hide TopicOk, LogOf, Decode, Left, Earlier, LastTail, NeedsRoll, Written, BeforeWrite, Wrote;
    var r := BeforeWrite(s, topic, m.timestamp, created, limits);
    var r' := Wrote(r, topic, m, stored);
    BeforeParts(s, topic, m.timestamp, created, limits);
    WroteParts(r, topic, m, stored);
    LogParts(r, topic);
    LogParts(r', topic);
    DecodeThen(LastTail(r, topic), Written(m, stored));
    NothingLeft();
    Associate(Earlier(r, topic), Decode(LastTail(r, topic)), Decode(Left(LastTail(r, topic)) + Written(m, stored)));
  }

  lemma Associate(a: seq<Message>, b: seq<Message>, c: seq<Message>)
    ensures a + (b + c) == a + b + c
  {
  }

  lemma NothingLeft()
    ensures Left([]) == [] && Decode([]) == []
  {
  }

  /** What a write adds to the log of a readable topic: the message, or nothing when it was
      cut short. */
  function Added(m: Message, stored: Stored): seq<Message> {
    if stored.NotStored? && stored.cut < 20 + |m.payload| then [] else [m]
  }

  lemma WriteAppends(s: Store, topic: Bytes, m: Message, created: Creation, stored: Stored, limits: Limits)
    requires TopicOk(s, topic) && m.Fits() && Opens(s, topic, created, limits) && Readable(s, topic, limits)
    ensures LogOf(AfterWrite(s, topic, m, created, stored, limits), topic) == LogOf(s, topic) + Added(m, stored)
  {
    hide TopicOk, LogOf, Decode, Left, LastTail, NeedsRoll, AfterWrite, Encode;
    WriteGives(s, topic, m, created, stored, limits);
    assert [] + Written(m, stored) == Written(m, stored);
    if stored.NotStored? && stored.cut < |Encode(m)| {
      NoMessage(m, stored.cut);
      Unread(Encode(m)[..stored.cut]);
    } else {
      CleanOne(m);
    }
  }

  /** The store and log after the next message. */
  function AfterNext(s: Store, topic: Bytes, id: nat, now: int, payload: Bytes, limits: Limits): Store
    requires -U63 <= now < U63
  {
    AfterWrite(s, topic, Message(id, now, payload), Created, Synced, limits)
  }

  ghost predicate GrowsBy(s: Store, topic: Bytes, id: nat, now: int, payload: Bytes, limits: Limits)
    requires -U63 <= now < U63
  {
    LogOf(AfterNext(s, topic, id, now, payload, limits), topic) == LogOf(s, topic) + [Message(id, now, payload)]
  }

  /** Some message stored next is not among what is read from there on. */
  lemma LostWrite(s: Store, topic: Bytes, id: nat, now: int, limits: Limits) returns (x: Byte, more: seq<Message>)
    requires TopicOk(s, topic) && -U63 <= now < U63 && !Readable(s, topic, limits)
    ensures x < 2 && LogOf(AfterNext(s, topic, id, now, [x], limits), topic) == LogOf(s, topic) + more
      && Misses(more, [x])
  {
    hide TopicOk, LogOf, Decode, Left, LastTail, NeedsRoll, AfterWrite, Encode, Misses;
    var left := Left(LastTail(s, topic));
    LeftHasNone(LastTail(s, topic));
    x := Spoiled(left, id, now);
    var m := Message(id, now, [x]);
    WriteGives(s, topic, m, Created, Synced, limits);
    more := Decode(left + Encode(m));
  }

  /** Fragments stand for one log: whatever message is stored next, the log grows by just that
      message, if and only if the file it goes to ends in a whole message. */
  lemma GrowsIff(s: Store, topic: Bytes, id: nat, now: int, limits: Limits)
    requires TopicOk(s, topic) && id < U64 && -U63 <= now < U63
    ensures Readable(s, topic, limits)
        <==> forall payload: Bytes :: |payload| < U32 ==> GrowsBy(s, topic, id, now, payload, limits)
  {
    hide TopicOk, LogOf, Readable, AfterWrite, Misses;
    if Readable(s, topic, limits) {
      forall payload: Bytes | |payload| < U32 ensures GrowsBy(s, topic, id, now, payload, limits) {
        WriteAppends(s, topic, Message(id, now, payload), Created, Synced, limits);
      }
    } else {
      var x, more := LostWrite(s, topic, id, now, limits);
      assert !GrowsBy(s, topic, id, now, [x], limits) by { NotThere(LogOf(s, topic), more, Message(id, now, [x])); }
    }
  }

  lemma NotThere(log: seq<Message>, more: seq<Message>, m: Message)
    requires Misses(more, m.payload)
    ensures log + more != log + [m]
  {
    assert (log + more)[|log|..] == more && (log + [m])[|log|..] == [m] && [m][0] == m;
  }

  // ---- files without failed writes ----

  /** Whole messages, and counters that agree with them. */
  ghost predicate WholeFile(d: Disk, topic: Bytes, f: Fragment, i: nat) {
    && Clean(Tail(d, topic, i)) && |Tail(d, topic, i)| == f.size && |Decode(Tail(d, topic, i))| == f.messageCount
  }

  ghost predicate Whole(s: Store, topic: Bytes) {
    forall i :: 0 <= i < |Of(s, topic)| ==> WholeFile(s.disk, topic, Of(s, topic)[i], i)
  }

  lemma WholeReadable(s: Store, topic: Bytes, limits: Limits)
    requires Whole(s, topic)
    ensures Readable(s, topic, limits)
  {
    hide Clean, Decode, Tail;
    if Of(s, topic) != [] {
      assert WholeFile(s.disk, topic, Of(s, topic)[|Of(s, topic)| - 1], |Of(s, topic)| - 1);
    }
  }

  lemma WholeFiles(s: Store, s': Store, topic: Bytes, n: nat)
    requires TopicOk(s, topic) && Whole(s, topic) && n <= |Of(s, topic)| && SameFiles(s.disk, s'.disk, topic, n)
    requires n <= |Of(s', topic)| && forall i :: 0 <= i < n ==> Of(s', topic)[i] == Of(s, topic)[i]
    ensures forall i :: 0 <= i < n ==> WholeFile(s'.disk, topic, Of(s', topic)[i], i)
  {
    hide FragmentOk, Clean, Decode, Tail;
    FilesKept(s, s'.disk, topic, n);
    forall i | 0 <= i < n ensures WholeFile(s'.disk, topic, Of(s', topic)[i], i) {
      assert WholeFile(s.disk, topic, Of(s, topic)[i], i);
    }
  }

  lemma WholeKept(s: Store, s': Store, topic: Bytes)
    requires TopicOk(s, topic) && Whole(s, topic) && Of(s', topic) == Of(s, topic)
    requires SameFiles(s.disk, s'.disk, topic, |Of(s, topic)|)
    ensures Whole(s', topic)
  {
    hide WholeFile, TopicOk;
    WholeFiles(s, s', topic, |Of(s, topic)|);
  }

  lemma RolledWhole(s: Store, topic: Bytes, file: Bytes)
    requires TopicOk(s, topic) && Whole(s, topic) && |file| == 20 + |topic|
    ensures Whole(Rolled(s, topic, file), topic)
  {
    hide TopicOk, Decode, Left, Tail;
    var n, s' := |Of(s, topic)|, Rolled(s, topic, file);
    WholeFiles(s, s', topic, n);
    EmptyFragment(s'.disk, topic, n);
    NothingLeft();
  }

  lemma WroteWhole(s: Store, topic: Bytes, m: Message, stored: Stored)
    requires TopicOk(s, topic) && Whole(s, topic) && Of(s, topic) != [] && m.Fits() && !stored.NotStored?
    ensures Whole(Wrote(s, topic, m, stored), topic)
  {
    hide TopicOk, Decode, Clean, Tail, Encode;
    var n, s' := |Of(s, topic)| - 1, Wrote(s, topic, m, stored);
    WholeFiles(s, s', topic, n);
    assert WholeFile(s.disk, topic, Of(s, topic)[n], n);
    LastFile(s, topic);
    TailGrows(s.disk, topic, n, Encode(m));
    DecodeAppend(Tail(s.disk, topic, n), m);
  }

  /** A write that stores its message keeps all files whole. */
  lemma WriteWhole(s: Store, topic: Bytes, m: Message, created: Creation, stored: Stored, limits: Limits, t: Bytes)
    requires StoreOk(s) && Whole(s, topic) && Whole(s, t) && m.Fits()
    requires Opens(s, topic, created, limits) && !stored.NotStored?
    ensures Whole(AfterWrite(s, topic, m, created, stored, limits), t)
  {
    hide Whole, TopicOk, Header, Written, NeedsRoll;
    assert TopicOk(s, topic) && TopicOk(s, t);
    var r := BeforeWrite(s, topic, m.timestamp, created, limits);
    if NeedsRoll(Of(s, topic), limits) {
      RolledWhole(s, topic, Header(topic, m.timestamp));
    }
    CreateKeeps(s, topic, m.timestamp, created, topic);
    if t == topic {
      WroteWhole(r, topic, m, stored);
    } else {
      WholeKept(s, AfterWrite(s, topic, m, created, stored, limits), t);
    }
  }

  // ---- how full fragments get ----

  predicate Full(f: Fragment, limits: Limits) {
    f.size >= limits.maxSize || f.messageCount >= limits.maxMessages
  }

  ghost predicate FilledAt(all: seq<Fragment>, i: nat, limits: Limits)
    requires i < |all|
  {
    && all[i].messageCount <= limits.maxMessages && all[i].size < limits.maxSize + 20 + U32
    && (i < |all| - 1 ==> Full(all[i], limits))
  }

  /** No fragment has more messages than the limit or is larger than it by more than one
      message, and only full ones have a successor. */
  ghost predicate Filled(all: seq<Fragment>, limits: Limits) {
    forall i :: 0 <= i < |all| ==> FilledAt(all, i, limits)
  }

  lemma RolledFills(all: seq<Fragment>, limits: Limits)
    requires Filled(all, limits) && NeedsRoll(all, limits) && limits.maxSize > 0 && limits.maxMessages > 0
    ensures Filled(all + [Fragment(|all|, 0, 0)], limits)
  {
    var more := all + [Fragment(|all|, 0, 0)];
    forall i | 0 <= i < |more| ensures FilledAt(more, i, limits) {
      if i < |all| {
        assert FilledAt(all, i, limits);
      }
    }
  }

  lemma CountedFills(all: seq<Fragment>, m: Message, limits: Limits)
    requires all != [] && Filled(all, limits) && !NeedsRoll(all, limits) && m.Fits()
    ensures Filled(all[|all| - 1 := Counted(all[|all| - 1], m)], limits)
  {
    var more := all[|all| - 1 := Counted(all[|all| - 1], m)];
    forall i | 0 <= i < |more| ensures FilledAt(more, i, limits) {
      assert FilledAt(all, i, limits);
    }
  }

  lemma WriteFills(s: Store, topic: Bytes, m: Message, created: Creation, stored: Stored, limits: Limits, t: Bytes)
    requires Filled(Of(s, t), limits) && m.Fits() && limits.maxSize > 0 && limits.maxMessages > 0
    ensures Filled(Of(AfterWrite(s, topic, m, created, stored, limits), t), limits)
  {
    hide Written, Header, Filled, Counted;
    var all := Of(s, topic);
    if t == topic && Opens(s, topic, created, limits) {
      if NeedsRoll(all, limits) {
        RolledFills(all, limits);
        all := all + [Fragment(|all|, 0, 0)];
      }
      CountedFills(all, m, limits);
    }
  }

  lemma CloseFills(s: Store, topic: Bytes, limits: Limits, t: Bytes)
    requires Filled(Of(s, t), limits)
    ensures Filled(Of(AfterClose(s, topic), t), limits)
  {
  }
}

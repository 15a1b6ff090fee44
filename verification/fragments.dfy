/**
 The fragment manager of internal/storage/fragment.go with TTL expiry off: rolling fragment
 files that together stand for one log per topic. Every method is proved to take View() to the
 value FragmentStore gives.
 */
module FragmentImpl {
  import opened Codec
  import opened Common
  import opened FragmentSpec
  import opened FragmentStore

  /** The bytes that reach the file: the fields one after the other, up to a failure. */
  method FieldBytes(m: Message, stored: Stored) returns (out: Bytes)
    requires -U63 <= m.timestamp < U63
    ensures out == Written(m, stored)
  {
    out := BE(m.id, 8);
    out := out + BE(Unsigned(m.timestamp), 8);
    out := out + BE(|m.payload|, 4);
    out := out + m.payload;
    if stored.NotStored? {
      if stored.cut < |out| {
        out := out[..stored.cut];
      }
    }
  }

  /** A write in one step. */
  lemma WriteEffects(s: Store, topic: Bytes, m: Message, created: Creation, stored: Stored, limits: Limits)
    requires StoreOk(s) && m.Fits()
    ensures var s' := AfterWrite(s, topic, m, created, stored, limits);
      && StoreOk(s') && (forall t :: t != topic ==> LogOf(s', t) == LogOf(s, t))
      && (Opens(s, topic, created, limits) && Readable(s, topic, limits) ==>
            LogOf(s', topic) == LogOf(s, topic) + Added(m, stored))
  {
    hide TopicOk, LogOf, AfterWrite, Added, Readable, Opens;
    StoreKept(s, topic, m, created, stored, limits);
    forall t | t != topic ensures LogOf(AfterWrite(s, topic, m, created, stored, limits), t) == LogOf(s, t) {
      WriteKeeps(s, topic, m, created, stored, limits, t);
    }
    if Opens(s, topic, created, limits) && Readable(s, topic, limits) {
      assert TopicOk(s, topic);
      WriteAppends(s, topic, m, created, stored, limits);
    }
  }

  class FragmentManager {
    const maxSize: int
    const maxMessages: int
    var fragments: map<Bytes, seq<Fragment>>
    var disk: Disk

    function View(): Store
      reads this
    {
      Store(fragments, disk)
    }

    ghost function Bounds(): Limits {
      Limits(maxSize, maxMessages)
    }

    ghost predicate Valid()
      reads this
    {
      StoreOk(View())
    }

    /** The log of a topic, decoded from the bytes of its files. */
    ghost function Log(topic: Bytes): seq<Message>
      reads this
    {
      LogOf(View(), topic)
    }

    /** A manager knows no fragments at first, whatever files are on disk. */
    constructor (maxSize: int, maxMessages: int, disk: Disk)
      ensures Valid() && View() == Store(map[], disk) && Bounds() == Limits(maxSize, maxMessages)
      ensures forall topic :: Log(topic) == []
    {
      this.maxSize, this.maxMessages := maxSize, maxMessages;
      this.fragments, this.disk := map[], disk;
    }

    /** No log changes, whether the file is created or not. */
    method CreateFragment(topic: Bytes, now: int, created: Creation) returns (ok: bool)
      requires Valid() && -U63 <= now < U63
      modifies this
      ensures View() == AfterCreate(old(View()), topic, now, created) && ok == created.Created?
      ensures Valid() && forall t :: Log(t) == old(Log(t))
    {
      hide TopicOk, LogOf;
      forall t
        ensures TopicOk(AfterCreate(View(), topic, now, created), t)
        ensures LogOf(AfterCreate(View(), topic, now, created), t) == Log(t)
      {
        CreateKeeps(View(), topic, now, created, t);
      }
      var id := |Of(View(), topic)|;
      if created.NoFile? {
        return false;
      }
      if created.Partial? {
        disk := disk[(topic, id) := created.left];
        return false;
      }
      var file: Bytes := MAGIC;
      file := file + BE(1, 4);
      file := file + BE(|topic|, 4);
      file := file + topic;
      file := file + BE(Unsigned(now), 8);
      disk := disk[(topic, id) := file];
      fragments := fragments[topic := Of(View(), topic) + [Fragment(id, 0, 0)]];
      return true;
    }

    /** Rolls over exactly when the next write needs a new fragment. */
    method GetCurrentFragment(topic: Bytes, now: int, created: Creation) returns (ok: bool)
      requires Valid() && -U63 <= now < U63
      modifies this
      ensures View() == BeforeWrite(old(View()), topic, now, created, Bounds())
      ensures ok == Opens(old(View()), topic, created, Bounds())
      ensures Valid() && forall t :: Log(t) == old(Log(t))
    {
      hide TopicOk, LogOf, AfterCreate;
      var all := Of(View(), topic);
      if |all| == 0 {
        ok := CreateFragment(topic, now, created);
        return;
      }
      var current := all[|all| - 1];
      if current.size >= maxSize || current.messageCount >= maxMessages {
        ok := CreateFragment(topic, now, created);
        return;
      }
      return true;
    }

    /** The fields go to the last file one after the other, so a write that fails part-way
        leaves the first `cut` bytes of the message there and the counters as they were. No
        other topic is touched. The topic's log grows by the message, or by nothing when it was
        cut short, if nothing was left in the file by an earlier failure; FragmentStore.GrowsIff
        says what happens otherwise. */
    method WriteMessage(topic: Bytes, m: Message, created: Creation, stored: Stored) returns (done: bool)
      requires Valid() && m.Fits()
      modifies this
      ensures View() == AfterWrite(old(View()), topic, m, created, stored, Bounds())
      ensures done == (Opens(old(View()), topic, created, Bounds()) && stored.Synced?)
      ensures Valid() && forall t :: t != topic ==> Log(t) == old(Log(t))
      ensures Opens(old(View()), topic, created, Bounds()) && Readable(old(View()), topic, Bounds()) ==>
        Log(topic) == old(Log(topic)) + Added(m, stored)
    {
      hide TopicOk, StoreOk, LogOf, Written, BeforeWrite, Added, Readable, Opens, FragmentOk;
      WriteEffects(View(), topic, m, created, stored, Bounds());
      var ok := GetCurrentFragment(topic, m.timestamp, created);
      if !ok {
        return false;
      }
      TopicIsOk(View(), topic);
      LastFile(View(), topic);
      var all := fragments[topic];
      var last := all[|all| - 1];
      var out := FieldBytes(m, stored);
      disk := disk[(topic, last.id) := disk[(topic, last.id)] + out];
      if stored.NotStored? {
        return false;
      }
      last := last.(size := last.size + (8 + 8 + 4 + |m.payload|));
      last := last.(messageCount := last.messageCount + 1);
      fragments := fragments[topic := all[|all| - 1 := last]];
      return stored.Synced?;
    }

    method CloseTopic(topic: Bytes)
      requires Valid()
      modifies this
      ensures View() == AfterClose(old(View()), topic)
      ensures Valid() && Log(topic) == [] && (forall t :: t != topic ==> Log(t) == old(Log(t)))
    {
      hide TopicOk, LogOf;
      forall t ensures TopicOk(AfterClose(View(), topic), t)
               ensures LogOf(AfterClose(View(), topic), t) == if t == topic then [] else Log(t)
      {
        CloseKeeps(View(), topic, t);
      }
      if topic !in fragments {
        assert AfterClose(View(), topic) == View();
        return;
      }
      fragments := fragments - {topic};
    }

    /** Reading decodes, from the file bytes, exactly the part of the topic's log between the
        offset and the bound, whatever failed writes left in the files. Files that cannot be
        opened are skipped and their messages not counted. */
    method ReadMessages(topic: Bytes, offset: nat, limit: int, shut: set<nat>) returns (messages: seq<Message>)
      requires Valid() && offset < U64 && -U63 <= limit < U63
      ensures messages == Slice(Opened(disk, topic, |Of(View(), topic)|, shut), offset, Bound(offset, limit))
      ensures shut == {} ==> messages == Slice(Log(topic), offset, Bound(offset, limit))
    {
      hide Slice, Decode, Left;
      assert TopicOk(View(), topic);
      OpenedAll(disk, topic, |Of(View(), topic)|);
      messages := [];
      SliceOfNone(offset, Bound(offset, limit));
      var bound := Bound(offset, limit);
      var all := Of(View(), topic);
      var currentOffset: nat := 0;
      var i := 0;
      while i < |all|
        invariant i <= |all|
        invariant currentOffset == Min(|Opened(disk, topic, i, shut)|, bound)
        invariant messages == Slice(Opened(disk, topic, i, shut), offset, bound)
      {
        if currentOffset >= bound {
          ReadEnough(disk, topic, i, |all|, shut, offset, bound);
          return;
        }
        ghost var before := Opened(disk, topic, i, shut);
        assert FragmentOk(disk, topic, all[i], i);
        if all[i].id !in shut {
          var rest := disk[(topic, all[i].id)][20 + |topic|..];
          currentOffset, messages := ReadFragment(before, rest, offset, bound, currentOffset, messages);
        } else {
          assert before + [] == before;
        }
        i := i + 1;
      }
    }

    /** The inner loop: decode messages off one file until it ends or the bound is reached.
        `before` is what earlier fragments held. */
    static method ReadFragment(ghost before: seq<Message>, file: Bytes, offset: nat, bound: nat,
                               start: nat, found: seq<Message>)
      returns (currentOffset: nat, messages: seq<Message>)
      requires start == |before| <= bound && found == Slice(before, offset, bound)
      ensures currentOffset == Min(|before + Decode(file)|, bound)
      ensures messages == Slice(before + Decode(file), offset, bound)
    {
      hide Slice, Decode;
      currentOffset, messages := start, found;
      var rest := file;
      ghost var got := before;
      while currentOffset < bound && HasMessage(rest)
        invariant before + Decode(file) == got + Decode(rest)
        invariant currentOffset == |got| <= bound && messages == Slice(got, offset, bound)
        decreases |rest|
      {
        var m := FirstMessage(rest);
        DecodeStep(rest);
        SliceGrows(got, m, offset, bound);
        assert got + Decode(rest) == got + [m] + Decode(rest[Width(rest)..]);
        if currentOffset >= offset {
          messages := messages + [m];
        }
        got := got + [m];
        rest := rest[Width(rest)..];
        currentOffset := currentOffset + 1;
      }
      DecodeStep(rest);
      SliceStops(got, Decode(rest), offset, bound);
    }

    /** Fragments whose id is idx modulo n. */
    method SelectFragmentsForReplication(topic: Bytes, idx: nat, n: nat) returns (selected: seq<Fragment>)
      requires n > 0
      ensures selected == Selected(Of(View(), topic), idx, n)
    {
      selected := [];
      var all := Of(View(), topic);
      var i := 0;
      while i < |all|
        invariant i <= |all| && selected == Selected(all[..i], idx, n)
      {
        if all[i].id % n == idx {
          selected := selected + [all[i]];
        }
        i := i + 1;
        assert all[..i][..i - 1] == all[..i - 1];
      }
      assert all[..i] == all;
    }
  }

  // ---- reading ----

  lemma DecodeStep(rest: Bytes)
    ensures Decode(rest) == if HasMessage(rest) then [FirstMessage(rest)] + Decode(rest[Width(rest)..]) else []
  {
  }

  lemma SliceOfNone(lo: nat, hi: nat)
    ensures Slice<Message>([], lo, hi) == []
  {
  }

  lemma SliceGrows(s: seq<Message>, m: Message, lo: nat, hi: nat)
    requires |s| < hi
    ensures Slice(s + [m], lo, hi) == Slice(s, lo, hi) + if |s| >= lo then [m] else []
  {
  }

  lemma SliceStops(s: seq<Message>, more: seq<Message>, lo: nat, hi: nat)
    requires |s| <= hi && (|s| == hi || more == [])
    ensures Slice(s + more, lo, hi) == Slice(s, lo, hi) && Min(|s + more|, hi) == |s|
  {
  }

  lemma {:induction false} OpenedGrows(disk: Disk, topic: Bytes, i: nat, n: nat, shut: set<nat>)
    requires i <= n
    ensures Opened(disk, topic, i, shut) <= Opened(disk, topic, n, shut)
  {
    if i < n {
      OpenedGrows(disk, topic, i, n - 1, shut);
    }
  }

  lemma ReadEnough(disk: Disk, topic: Bytes, i: nat, n: nat, shut: set<nat>, lo: nat, hi: nat)
    requires i <= n && |Opened(disk, topic, i, shut)| >= hi
    ensures Slice(Opened(disk, topic, n, shut), lo, hi) == Slice(Opened(disk, topic, i, shut), lo, hi)
  {
    OpenedGrows(disk, topic, i, n, shut);
  }

  // ---- choosing fragments to replicate ----

  function Selected(all: seq<Fragment>, idx: nat, n: nat): seq<Fragment>
    requires n > 0
  {
    if all == [] then []
    else
      var last := all[|all| - 1];
      Selected(all[..|all| - 1], idx, n) + if last.id % n == idx then [last] else []
  }

  lemma SelectedOne(all: seq<Fragment>, idx: nat, n: nat)
    requires n > 0 && all != []
    ensures var rest, last := all[..|all| - 1], all[|all| - 1];
      Selected(all, idx, n) == if last.id % n == idx then Selected(rest, idx, n) + [last] else Selected(rest, idx, n)
  {
  }

  function Times(s: seq<Fragment>, f: Fragment): nat {
    if s == [] then 0 else Times(s[..|s| - 1], f) + if s[|s| - 1] == f then 1 else 0
  }

  lemma TimesOne(s: seq<Fragment>, x: Fragment, f: Fragment)
    ensures Times(s + [x], f) == Times(s, f) + if x == f then 1 else 0
  {
    assert (s + [x])[..|s|] == s;
  }

  lemma {:induction false} SelectedTimes(all: seq<Fragment>, idx: nat, n: nat, f: Fragment)
    requires n > 0
    ensures Times(Selected(all, idx, n), f) == if f.id % n == idx then Times(all, f) else 0
  {
    hide Selected;
    if all == [] {
      assert Selected(all, idx, n) == [] by { NoneSelected(idx, n); }
    } else {
      hide Times;
      var rest, last := all[..|all| - 1], all[|all| - 1];
      assert rest + [last] == all;
      SelectedTimes(rest, idx, n, f);
      SelectedOne(all, idx, n);
      TimesOne(Selected(rest, idx, n), last, f);
      TimesOne(rest, last, f);
    }
  }

  lemma NoneSelected(idx: nat, n: nat)
    requires n > 0
    ensures Selected([], idx, n) == []
  {
  }

  /** How often a fragment is shipped to the targets 0..k. */
  function Shipped(all: seq<Fragment>, n: nat, k: nat, f: Fragment): nat
    requires n > 0
  {
    if k == 0 then 0 else Shipped(all, n, k - 1, f) + Times(Selected(all, k - 1, n), f)
  }

  lemma {:induction false} ShippedIs(all: seq<Fragment>, n: nat, k: nat, f: Fragment)
    requires n > 0
    ensures Shipped(all, n, k, f) == if f.id % n < k then Times(all, f) else 0
  {
    if k > 0 {
      ShippedIs(all, n, k - 1, f);
      SelectedTimes(all, k - 1, n, f);
    }
  }

  lemma {:induction false} PositionsOnce(all: seq<Fragment>, f: Fragment)
    requires forall i :: 0 <= i < |all| ==> all[i].id == i
    ensures Times(all, f) == if f in all then 1 else 0
  {
    if all != [] {
      PositionsOnce(all[..|all| - 1], f);
      assert all == all[..|all| - 1] + [all[|all| - 1]];
    }
  }

  /** Selecting by id modulo n for every index below n ships each fragment exactly once: ids
      are positions. */
  lemma EachSelectedOnce(all: seq<Fragment>, n: nat, f: Fragment)
    requires n > 0 && forall i :: 0 <= i < |all| ==> all[i].id == i
    ensures Shipped(all, n, n, f) == if f in all then 1 else 0
  {
    ShippedIs(all, n, n, f);
    PositionsOnce(all, f);
  }
}

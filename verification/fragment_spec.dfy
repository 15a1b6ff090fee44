/**
 The fragment file format (internal/storage/fragment.go) and the log a topic's fragments
 stand for.
 */
module FragmentSpec {
  import opened Codec
  import opened Common

  datatype Message = Message(id: nat, timestamp: int, payload: Bytes) {
    predicate Fits() {
      id < U64 && -U63 <= timestamp < U63 && |payload| < U32
    }
  }

  /** A fragment's bookkeeping; its bytes are on disk under (topic, id). */
  datatype Fragment = Fragment(id: nat, size: nat, messageCount: nat)

  const MAGIC: Bytes := [70, 82, 65, 71]

  function Header(topic: Bytes, createdAt: int): (r: Bytes)
    requires -U63 <= createdAt < U63
    ensures |r| == 20 + |topic|
  {
    MAGIC + BE(1, 4) + BE(|topic|, 4) + topic + BE(Unsigned(createdAt), 8)
  }

  function Encode(m: Message): (r: Bytes)
    requires -U63 <= m.timestamp < U63
    ensures |r| == 20 + |m.payload|
  {
    BE(m.id, 8) + BE(Unsigned(m.timestamp), 8) + BE(|m.payload|, 4) + m.payload
  }

  /** A whole message at the start of some bytes. */
  predicate HasMessage(rest: Bytes) {
    |rest| >= 20 && |rest| >= 20 + UnBE(rest[16..20])
  }

  function FirstMessage(rest: Bytes): Message
    requires HasMessage(rest)
  {
    Message(UnBE(rest[..8]), Signed(UnBE(rest[8..16])), rest[20..20 + UnBE(rest[16..20])])
  }

  function Width(rest: Bytes): (n: nat)
    requires HasMessage(rest)
    ensures 20 <= n <= |rest|
  {
    20 + UnBE(rest[16..20])
  }

  /** The whole messages at the start of some bytes, up to the first torn one. */
  function Decode(rest: Bytes): seq<Message> {
    if HasMessage(rest) then [FirstMessage(rest)] + Decode(rest[Width(rest)..]) else []
  }

  lemma DecodeOne(m: Message, rest: Bytes)
    requires m.Fits()
    ensures Decode(Encode(m) + rest) == [m] + Decode(rest)
  {
    var data := Encode(m) + rest;
    ReadU64(m.id);
    ReadU64(Unsigned(m.timestamp));
    ReadU32(|m.payload|);
    assert data[..8] == BE(m.id, 8);
    assert data[8..16] == BE(Unsigned(m.timestamp), 8);
    assert data[16..20] == BE(|m.payload|, 4);
    assert data[20..20 + |m.payload|] == m.payload;
    assert data[20 + |m.payload|..] == rest;
  }

  /** What is behind the whole messages. */
  function Left(rest: Bytes): Bytes {
    if HasMessage(rest) then Left(rest[Width(rest)..]) else rest
  }

  /** The bytes are whole messages, nothing else. */
  predicate Clean(rest: Bytes) {
    Left(rest) == []
  }

  /** The bytes of a message that reach its file: the fields are written one after the other,
      and nothing is taken back when one of them fails. */
  function Written(m: Message, stored: Stored): Bytes
    requires -U63 <= m.timestamp < U63
  {
    if stored.NotStored? && stored.cut < |Encode(m)| then Encode(m)[..stored.cut] else Encode(m)
  }

  lemma KeepsFirst(rest: Bytes, more: Bytes)
    requires HasMessage(rest)
    ensures HasMessage(rest + more)
      && FirstMessage(rest + more) == FirstMessage(rest) && Width(rest + more) == Width(rest)
    ensures (rest + more)[Width(rest)..] == rest[Width(rest)..] + more
  {
    var data, w := rest + more, Width(rest);
    assert data[16..20] == rest[16..20] && data[..8] == rest[..8] && data[8..16] == rest[8..16];
    assert data[20..w] == rest[20..w];
  }

  /** More bytes are read together with what was left. */
  lemma {:induction false} DecodeThen(rest: Bytes, more: Bytes)
    ensures Decode(rest + more) == Decode(rest) + Decode(Left(rest) + more)
    ensures Left(rest + more) == Left(Left(rest) + more)
    decreases |rest|
  {
    if HasMessage(rest) {
      DecodeThen(rest[Width(rest)..], more);
      KeepsFirst(rest, more);
      hide HasMessage, FirstMessage, Width;
    }
  }

  lemma CleanOne(m: Message)
    requires m.Fits()
    ensures Clean(Encode(m)) && Decode(Encode(m)) == [m]
  {
    hide Encode, BE, UnBE;
    ReadU32(|m.payload|);
    SizeField(m);
    var data := Encode(m);
    assert HasMessage(data) && data[Width(data)..] == [];
    assert Left(data) == Left(data[Width(data)..]) == [];
    DecodeOne(m, []);
    assert data + [] == data;
  }

  /** Appending a message to clean bytes appends it to what they decode to. */
  lemma DecodeAppend(rest: Bytes, m: Message)
    requires Clean(rest) && m.Fits()
    ensures Clean(rest + Encode(m)) && Decode(rest + Encode(m)) == Decode(rest) + [m]
  {
    hide Encode, Decode, Left;
    DecodeThen(rest, Encode(m));
    assert [] + Encode(m) == Encode(m);
    CleanOne(m);
  }

  /** A message cut short behind clean bytes is not read, and its bytes are what is left. */
  lemma DecodeTorn(rest: Bytes, m: Message, k: nat)
    requires Clean(rest) && m.Fits() && k < |Encode(m)|
    ensures Decode(rest + Encode(m)[..k]) == Decode(rest) && Left(rest + Encode(m)[..k]) == Encode(m)[..k]
  {
    hide Decode, Left;
    var torn := Encode(m)[..k];
    DecodeThen(rest, torn);
    assert [] + torn == torn;
    NoMessage(m, k);
    Unread(torn);
  }

  lemma NoMessage(m: Message, k: nat)
    requires m.Fits() && k < |Encode(m)|
    ensures !HasMessage(Encode(m)[..k])
  {
    hide Encode, BE, UnBE;
    ReadU32(|m.payload|);
    SizeField(m);
    if k >= 20 {
      assert Encode(m)[..k][16..20] == Encode(m)[16..20];
    }
  }

  lemma SizeField(m: Message)
    requires -U63 <= m.timestamp < U63
    ensures Encode(m)[16..20] == BE(|m.payload|, 4)
  {
    hide BE;
  }

  /** Where the fields of a message are. */
  lemma MessageLayout(m: Message)
    requires -U63 <= m.timestamp < U63
    ensures Encode(m)[..8] == BE(m.id, 8) && Encode(m)[8..16] == BE(Unsigned(m.timestamp), 8)
    ensures Encode(m)[16..20] == BE(|m.payload|, 4) && Encode(m)[20..] == m.payload
  {
    hide BE;
  }

  lemma Unread(rest: Bytes)
    requires !HasMessage(rest)
    ensures Decode(rest) == [] && Left(rest) == rest
  {
  }

  // ---- behind a message cut short ----

  lemma {:induction false} LeftHasNone(rest: Bytes)
    ensures !HasMessage(Left(rest))
    decreases |rest|
  {
    if HasMessage(rest) {
      LeftHasNone(rest[Width(rest)..]);
    }
  }

  /** No message with this payload is read off the bytes. */
  ghost predicate Misses(found: seq<Message>, payload: Bytes) {
    forall i :: 0 <= i < |found| ==> found[i].payload != payload
  }

  lemma {:induction false} ShortBytes(rest: Bytes, payload: Bytes)
    requires |rest| < 20 + |payload|
    ensures Misses(Decode(rest), payload)
    decreases |rest|
  {
    if HasMessage(rest) {
      ShortBytes(rest[Width(rest)..], payload);
    }
  }

  /** The byte that would be taken for the payload if a message of one byte were read from
      the start of `left` and the message behind it. */
  function Taken(left: Bytes, id: nat, now: int): Byte
    requires left != [] && -U63 <= now < U63
  {
    if |left| > 20 then left[20] else Encode(Message(id, now, [0]))[20 - |left|]
  }

  lemma TakenIs(left: Bytes, id: nat, now: int, x: Byte)
    requires left != [] && -U63 <= now < U63
    ensures (left + Encode(Message(id, now, [x])))[20] == Taken(left, id, now)
  {
    var head := BE(id, 8) + BE(Unsigned(now), 8) + BE(1, 4);
    assert Encode(Message(id, now, [x])) == head + [x] && Encode(Message(id, now, [0])) == head + [0];
  }

  /** Something is left, so one of the messages [0] and [1] is not read behind it. */
  lemma Spoiled(left: Bytes, id: nat, now: int) returns (x: Byte)
    requires left != [] && !HasMessage(left) && -U63 <= now < U63
    ensures x < 2 && Misses(Decode(left + Encode(Message(id, now, [x]))), [x])
  {
    hide Taken, Encode, Decode, Misses, UnBE;
    x := if Taken(left, id, now) == 0 then 1 else 0;
    TakenIs(left, id, now, x);
    var data := left + Encode(Message(id, now, [x]));
    if HasMessage(data) {
      assert |left| >= 20 ==> data[16..20] == left[16..20];
      var w := Width(data);
      assert w > |left|;
      ShortBytes(data[w..], [x]);
      assert FirstMessage(data).payload != [x];
      MissesMore(data, [x]);
    } else {
      Unread(data);
      NothingMissed([x]);
    }
  }

  lemma MissesMore(data: Bytes, payload: Bytes)
    requires HasMessage(data) && FirstMessage(data).payload != payload && Misses(Decode(data[Width(data)..]), payload)
    ensures Misses(Decode(data), payload)
  {
    hide HasMessage, FirstMessage, Width;
  }

  lemma NothingMissed(payload: Bytes)
    ensures Misses([], payload)
  {
  }

  ghost predicate ReadsBack(rest: Bytes, m: Message)
    requires -U63 <= m.timestamp < U63
  {
    Decode(rest + Encode(m)) == Decode(rest) + [m]
  }

  /** Every message written next is read back if and only if nothing is left behind the whole
      ones. */
  lemma ReadBackIff(rest: Bytes, id: nat, now: int)
    requires id < U64 && -U63 <= now < U63
    ensures Clean(rest) <==> forall payload: Bytes :: |payload| < U32 ==> ReadsBack(rest, Message(id, now, payload))
  {
    hide Decode, Encode, Clean, ReadsBack, Misses;
    if Clean(rest) {
      forall payload: Bytes | |payload| < U32 ensures ReadsBack(rest, Message(id, now, payload)) {
        ReadBack(rest, Message(id, now, payload));
      }
    } else {
      var x := LostBehind(rest, id, now);
      NotBack(rest, Message(id, now, [x]));
    }
  }

  lemma ReadBack(rest: Bytes, m: Message)
    requires Clean(rest) && m.Fits()
    ensures ReadsBack(rest, m)
  {
    hide Decode, Encode, Clean;
    DecodeAppend(rest, m);
  }

  lemma NotBack(rest: Bytes, m: Message)
    requires -U63 <= m.timestamp < U63
    requires var n, all := |Decode(rest)|, Decode(rest + Encode(m)); n <= |all| && Misses(all[n..], m.payload)
    ensures !ReadsBack(rest, m)
  {
    hide Decode, Encode;
    assert (Decode(rest) + [m])[|Decode(rest)|..] == [m] && [m][0] == m;
  }

  /** Otherwise one of two messages is not among what is read from there on. */
  lemma LostBehind(rest: Bytes, id: nat, now: int) returns (x: Byte)
    requires !Clean(rest) && -U63 <= now < U63
    ensures var n, all := |Decode(rest)|, Decode(rest + Encode(Message(id, now, [x])));
      x < 2 && n <= |all| && all[..n] == Decode(rest) && Misses(all[n..], [x])
  {
    hide Decode, Left, Encode, Misses;
    LeftHasNone(rest);
    x := Spoiled(Left(rest), id, now);
    DecodeThen(rest, Encode(Message(id, now, [x])));
  }

  // ---- the log of a topic ----

  type Disk = map<(Bytes, nat), Bytes>

  /** The message bytes of a fragment's file. */
  function Tail(disk: Disk, topic: Bytes, id: nat): Bytes {
    if (topic, id) in disk && |disk[(topic, id)]| >= 20 + |topic| then disk[(topic, id)][20 + |topic|..] else []
  }

  /** All messages of a topic: those of its fragments 0..n, decoded and joined. */
  function Joined(disk: Disk, topic: Bytes, n: nat): seq<Message> {
    if n == 0 then [] else Joined(disk, topic, n - 1) + Decode(Tail(disk, topic, n - 1))
  }

  /** What reading finds when some files cannot be opened and are skipped. */
  function Opened(disk: Disk, topic: Bytes, n: nat, shut: set<nat>): seq<Message> {
    if n == 0 then []
    else Opened(disk, topic, n - 1, shut) + if n - 1 in shut then [] else Decode(Tail(disk, topic, n - 1))
  }

  lemma {:induction false} OpenedAll(disk: Disk, topic: Bytes, n: nat)
    ensures Opened(disk, topic, n, {}) == Joined(disk, topic, n)
  {
    if n > 0 {
      OpenedAll(disk, topic, n - 1);
    }
  }

  lemma {:induction false} JoinedSame(a: Disk, b: Disk, topic: Bytes, n: nat)
    requires forall i :: 0 <= i < n ==> Tail(a, topic, i) == Tail(b, topic, i)
    ensures Joined(a, topic, n) == Joined(b, topic, n)
  {
    if n > 0 {
      JoinedSame(a, b, topic, n - 1);
    }
  }

  // ---- reading a range ----

  /** Messages lo..hi of a log, as far as there are any. */
  function Slice<T>(s: seq<T>, lo: nat, hi: nat): seq<T> {
    if lo >= hi || lo >= |s| then [] else if hi <= |s| then s[lo..hi] else s[lo..]
  }

  /** The first offset not read: uint64 addition, with the limit converted from int. */
  function Bound(offset: nat, limit: int): (r: nat)
    requires -U63 <= limit < U63
    ensures r < U64
  {
    (offset + Unsigned(limit)) % U64
  }

  /** Reading is the slice of the log asked for, for a limit that is not negative, exactly
      when the addition does not wrap or there is nothing to read anyway. It wraps only behind
      offset 2^63, so a read goes wrong only on a log of more than 2^63 messages. */
  lemma ReadIsSlice<T>(log: seq<T>, offset: nat, limit: int)
    requires offset < U64 && 0 <= limit < U63
    ensures Slice(log, offset, Bound(offset, limit)) == Slice(log, offset, offset + limit)
        <==> offset + limit < U64 || offset >= |log| || limit == 0
  {
    var sum := offset + limit;
    if sum >= U64 {
      assert Bound(offset, limit) == sum - U64 by {
        assert sum == U64 * 1 + (sum - U64);
      }
    }
  }

  /** A negative limit reads nothing when the offset is at least as large; otherwise the bound
      wraps and everything from the offset on is read, as far as the bound reaches. A pull never
      asks for this: its batch size is an unsigned 32-bit number. */
  lemma NegativeLimit<T>(log: seq<T>, offset: nat, limit: int)
    requires offset < U64 && -U63 <= limit < 0
    ensures offset + limit >= 0 ==> Slice(log, offset, Bound(offset, limit)) == []
    ensures offset + limit < 0 && |log| <= U63 ==> Slice(log, offset, Bound(offset, limit)) == Slice(log, offset, |log|)
  {
    var sum := offset + Unsigned(limit);
    if sum >= U64 {
      assert Bound(offset, limit) == sum - U64 by {
        assert sum == U64 * 1 + (sum - U64);
      }
    }
  }

  ghost predicate Sane(limits: seq<nat>) {
    forall i :: 0 <= i < |limits| ==> limits[i] < U63
  }

  /** A consumer that asks for one page after another, going on from the last offset + 1. */
  ghost function ReadPages<T>(log: seq<T>, offset: nat, limits: seq<nat>): seq<T>
    requires Sane(limits)
    decreases |limits|
  {
    if limits == [] then []
    else
      var page := Slice(log, offset, Bound(offset, limits[0]));
      page + ReadPages(log, offset + |page|, limits[1..])
  }

  function Sum(limits: seq<nat>): nat {
    if limits == [] then 0 else limits[0] + Sum(limits[1..])
  }

  lemma SliceTwice<T>(log: seq<T>, offset: nat, a: nat, b: nat)
    requires offset <= |log|
    ensures var next := offset + |Slice(log, offset, offset + a)|;
      next <= |log| && Slice(log, offset, offset + a) + Slice(log, next, next + b) == Slice(log, offset, offset + a + b)
  {
  }

  lemma OnePage<T>(log: seq<T>, offset: nat, limit: nat)
    requires |log| <= U63 && offset <= |log| && limit < U63
    ensures Slice(log, offset, Bound(offset, limit)) == Slice(log, offset, offset + limit)
  {
    ReadIsSlice(log, offset, limit);
  }

  /** Paging visits every message once, in order and without gaps, whatever the page sizes. */
  lemma {:induction false} PagingVisitsAll<T>(log: seq<T>, offset: nat, limits: seq<nat>)
    requires Sane(limits) && |log| <= U63 && offset <= |log|
    ensures ReadPages(log, offset, limits) == Slice(log, offset, offset + Sum(limits))
    decreases |limits|
  {
    hide Slice, Bound, Sane;
    if limits == [] {
      NoPage(log, offset);
    } else {
      FirstPage(log, offset, limits);
      hide ReadPages;
      var page := Slice(log, offset, offset + limits[0]);
      SliceTwice(log, offset, limits[0], Sum(limits[1..]));
      PagingVisitsAll(log, offset + |page|, limits[1..]);
    }
  }

  lemma NoPage<T>(log: seq<T>, offset: nat)
    ensures Slice(log, offset, offset) == []
  {
  }

  lemma FirstPage<T>(log: seq<T>, offset: nat, limits: seq<nat>)
    requires Sane(limits) && |log| <= U63 && offset <= |log| && limits != []
    ensures Sane(limits[1..])
    ensures var page := Slice(log, offset, offset + limits[0]);
      ReadPages(log, offset, limits) == page + ReadPages(log, offset + |page|, limits[1..])
  {
    hide Slice, Bound;
    assert limits[0] < U63;
    OnePage(log, offset, limits[0]);
  }
}

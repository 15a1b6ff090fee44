/**
 The write-ahead log of internal/storage/wal.go over files that are byte sequences, in the
 order of their names. The last file is the current one.
 */
module WalImpl {
  import opened Codec
  import opened WalSpec

  /** Everything handed on by replaying the files in order; a damaged file only loses its own
      tail. */
  function ReplayAll(files: seq<Bytes>): seq<Entry> {
    if files == [] then [] else ReplayAll(files[..|files| - 1]) + Replay(files[|files| - 1]).entries
  }

  /** Files as a write leaves them: the current one grew by some bytes. */
  function Extended(files: seq<Bytes>, bytes: Bytes): seq<Bytes>
    requires files != []
  {
    files[|files| - 1 := files[|files| - 1] + bytes]
  }

  /** The bytes of an entry that reach the file: all of them when the write returns, the first
      `cut` of them when it fails part-way. */
  function Reached(e: Entry, ok: bool, cut: nat): Bytes
    requires -U63 <= e.timestamp < U63 && (!ok ==> cut <= |Encode(e)|)
  {
    if ok then Encode(e) else Encode(e)[..cut]
  }

  /** Every file is a header and whole fitting entries, possibly with the start of one more. */
  ghost predicate FileHolds(file: Bytes, es: seq<Entry>, torn: Entry, k: nat) {
    && AllFit(es) && torn.Fits() && k < |Encode(torn)|
    && file == HEADER + EncodeAll(es) + Encode(torn)[..k]
  }

  lemma HoldsReplays(file: Bytes, es: seq<Entry>, torn: Entry, k: nat)
    requires FileHolds(file, es, torn, k)
    ensures Replay(file).entries == es
  {
    hide Replay, Encode, EncodeAll, Inside;
    EncodeAllConcat(es, [torn]);
    var all := es + [torn];
    var n := |EncodeAll(es)| + k;
    OneEncoded(torn);
    assert HEADER + EncodeAll(es) + Encode(torn)[..k] == (HEADER + EncodeAll(all))[..8 + n];
    TornTail(all, 8 + n);
    InsideBefore(es, torn, n);
    assert all[..|es|] == es;
  }

  lemma OneEncoded(e: Entry)
    requires e.Fits()
    ensures AllFit([e]) && EncodeAll([e]) == Encode(e)
  {
    assert [e][1..] == [];
  }

  lemma {:induction false} InsideBefore(es: seq<Entry>, torn: Entry, n: nat)
    requires AllFit(es) && torn.Fits() && |EncodeAll(es)| <= n < |EncodeAll(es)| + |Encode(torn)|
    ensures AllFit(es + [torn]) && Inside(es + [torn], n) == |es|
  {
    if es != [] {
      InsideBefore(es[1..], torn, n - |Encode(es[0])|);
      assert (es + [torn])[1..] == es[1..] + [torn];
    }
  }

  // ---- bytes behind a torn entry ----

  lemma {:induction false} ReadAllThen(es: seq<Entry>, tail: Bytes)
    requires AllFit(es)
    ensures ReadEntries(EncodeAll(es) + tail).entries == es + ReadEntries(tail).entries
  {
    hide ReadEntries;
    if es == [] {
      assert EncodeAll(es) + tail == tail;
      assert es + ReadEntries(tail).entries == ReadEntries(tail).entries;
    } else {
      hide Encode, EncodeAll, AllFit;
      FirstEncoded(es);
      var first, more := Encode(es[0]), EncodeAll(es[1..]);
      ReadAllThen(es[1..], tail);
      ReadOne(es[0], more + tail);
      assert EncodeAll(es) + tail == first + (more + tail);
      var handed := ReadEntries(tail).entries;
      assert [es[0]] + (es[1..] + handed) == es + handed;
    }
  }

  lemma FirstEncoded(es: seq<Entry>)
    requires AllFit(es) && es != []
    ensures es[0].Fits() && AllFit(es[1..]) && EncodeAll(es) == Encode(es[0]) + EncodeAll(es[1..])
  {
    hide Encode;
  }

  lemma ReplayThen(es: seq<Entry>, tail: Bytes)
    requires AllFit(es)
    ensures Replay(HEADER + EncodeAll(es) + tail).entries == es + ReadEntries(tail).entries
  {
    hide ReadEntries, EncodeAll;
    var file := HEADER + EncodeAll(es) + tail;
    assert file[..4] == MAGIC && file[8..] == EncodeAll(es) + tail;
    ReadAllThen(es, tail);
  }

  /** What is written behind a torn entry is lost, as long as it is too short to complete
      that entry: whole entries as well. */
  lemma LostBehindTorn(es: seq<Entry>, torn: Entry, k: nat, rest: Bytes)
    requires AllFit(es) && torn.Fits() && 4 <= k < |Encode(torn)| && |rest| < |Encode(torn)| - k
    ensures Replay(HEADER + EncodeAll(es) + (Encode(torn)[..k] + rest)).entries == es
  {
    var tail := Encode(torn)[..k] + rest;
    ReplayThen(es, tail);
    ReadU32(|Body(torn)|);
    assert tail[..4] == BE(|Body(torn)|, 4);
    hide ParseEntry;
    assert ReadEntries(tail).entries == [];
  }

  /** When it is long enough, the torn entry is handed on after all, with a wrong time: here
      the eight bytes of its time are made up by whatever came next. */
  lemma ForgedBehindTorn(es: seq<Entry>, torn: Entry, time: Bytes)
    requires AllFit(es) && torn.Fits() && |time| == 8
    ensures var forged := torn.(timestamp := Signed(UnBE(time)));
      Replay(HEADER + EncodeAll(es) + (Encode(torn)[..|Encode(torn)| - 8] + time)).entries == es + [forged]
  {
    var forged := torn.(timestamp := Signed(UnBE(time)));
    var tail := Encode(torn)[..|Encode(torn)| - 8] + time;
    ForgedBytes(torn, time);
    assert tail == Encode(forged) + [];
    hide Encode, EncodeAll, Replay, ReadEntries, AllFit;
    ReadOne(forged, []);
    ReplayThen(es, tail);
    ReadNothing();
    assert [forged] + [] == [forged];
  }

  lemma ForgedBytes(torn: Entry, time: Bytes)
    requires torn.Fits() && |time| == 8
    ensures var forged := torn.(timestamp := Signed(UnBE(time)));
      forged.Fits() && Encode(forged) == Encode(torn)[..|Encode(torn)| - 8] + time
  {
    hide Encode, BE, UnBE, Signed, Unsigned;
    ReadsBack(time);
    OtherTime(torn, torn.(timestamp := Signed(UnBE(time))));
  }

  lemma ReadsBack(time: Bytes)
    requires |time| == 8
    ensures var t := Signed(UnBE(time)); -U63 <= t < U63 && BE(Unsigned(t), 8) == time
  {
    hide BE, UnBE, Pow256;
    Widths();
    UnBEBound(time);
    BEofUnBE(time);
  }

  lemma OtherTime(a: Entry, b: Entry)
    requires a.Fits() && b.Fits() && b == a.(timestamp := b.timestamp)
    ensures Encode(b) == Encode(a)[..|Encode(a)| - 8] + BE(Unsigned(b.timestamp), 8)
  {
    var front := [a.kind] + BE(|a.topic|, 4) + a.topic + BE(a.id, 8) + BE(|a.payload|, 4) + a.payload;
    assert Body(a) == front + BE(Unsigned(a.timestamp), 8);
    assert Body(b) == front + BE(Unsigned(b.timestamp), 8);
    assert Encode(a)[..|Encode(a)| - 8] == BE(|Body(a)|, 4) + front;
  }

  /** Entries read to a clean end are followed by those of the bytes behind. */
  lemma {:induction false} ReadThen(rest: Bytes, more: Bytes)
    requires ReadEntries(rest).clean
    ensures ReadEntries(rest + more).entries == ReadEntries(rest).entries + ReadEntries(more).entries
    decreases |rest|
  {
    hide ParseEntry, UnBE;
    if rest == [] {
      assert rest + more == more;
      assert [] + ReadEntries(more).entries == ReadEntries(more).entries;
    } else {
      var size := UnBE(rest[..4]);
      ReadThen(rest[4 + size..], more);
      FirstKept(rest, more);
      var e := ParseEntry(rest[4..4 + size]).value;
      Regroup(e, ReadEntries(rest[4 + size..]).entries, ReadEntries(more).entries);
    }
  }

  lemma Regroup(e: Entry, a: seq<Entry>, b: seq<Entry>)
    ensures [e] + (a + b) == [e] + a + b
  {
  }

  lemma FirstKept(rest: Bytes, more: Bytes)
    requires |rest| >= 4 && |rest| >= 4 + UnBE(rest[..4])
    ensures var size, data := UnBE(rest[..4]), rest + more;
      && data[..4] == rest[..4] && data[4..4 + size] == rest[4..4 + size] && data[4 + size..] == rest[4 + size..] + more
  {
    hide UnBE;
  }

  /** No entry has this topic and payload. */
  ghost predicate Misses(es: seq<Entry>, topic: Bytes, payload: Bytes) {
    forall i :: 0 <= i < |es| ==> !(es[i].topic == topic && es[i].payload == payload)
  }

  lemma ParsedLength(data: Bytes)
    requires ParseEntry(data).Some?
    ensures var e := ParseEntry(data).value; |data| >= 25 + |e.topic| + |e.payload|
  {
    hide UnBE;
  }

  lemma {:induction false} ShortRest(rest: Bytes, topic: Bytes, payload: Bytes)
    requires |rest| < 29 + |topic| + |payload|
    ensures Misses(ReadEntries(rest).entries, topic, payload)
    decreases |rest|
  {
    hide ParseEntry, UnBE;
    if |rest| >= 4 {
      var size := UnBE(rest[..4]);
      if |rest| >= 4 + size && ParseEntry(rest[4..4 + size]).Some? {
        ParsedLength(rest[4..4 + size]);
        ShortRest(rest[4 + size..], topic, payload);
      }
    }
  }

  lemma ParsedByte(data: Bytes, topic: Bytes, x: Byte)
    requires ParseEntry(data).Some? && ParseEntry(data).value.topic == topic && ParseEntry(data).value.payload == [x]
    ensures |data| > 17 + |topic| && data[17 + |topic|] == x
  {
    hide UnBE;
  }

  /** The fields of a message entry before its payload. */
  function Front(topic: Bytes, id: nat): (r: Bytes)
    ensures |r| == 21 + |topic|
  {
    BE(26 + |topic|, 4) + [1] + BE(|topic|, 4) + topic + BE(id, 8) + BE(1, 4)
  }

  lemma FrontIs(topic: Bytes, id: nat, x: Byte, now: int)
    requires -U63 <= now < U63
    ensures Encode(Entry(1, topic, id, [x], now)) == Front(topic, id) + [x] + BE(Unsigned(now), 8)
  {
    hide BE;
    var e := Entry(1, topic, id, [x], now);
    assert Body(e) == [1] + BE(|topic|, 4) + topic + BE(id, 8) + BE(1, 4) + [x] + BE(Unsigned(now), 8);
  }

  /** The byte that would be taken for the payload if an entry of this topic with one byte of
      payload were read from the start of `left` and the entry behind it. */
  function Taken(left: Bytes, topic: Bytes, id: nat): Byte
    requires left != []
  {
    var at := 21 + |topic|;
    if |left| > at then left[at] else Front(topic, id)[at - |left|]
  }

  /** Bytes that are not a whole entry. */
  predicate Unfinished(left: Bytes) {
    left != [] && (|left| < 4 || |left| < 4 + UnBE(left[..4]))
  }

  /** Behind such bytes one of the messages [0] and [1] is not handed on. */
  lemma Spoiled(left: Bytes, topic: Bytes, id: nat, now: int) returns (x: Byte)
    requires Unfinished(left) && -U63 <= now < U63
    ensures x < 2 && Misses(ReadEntries(left + Encode(Entry(1, topic, id, [x], now))).entries, topic, [x])
  {
    hide ParseEntry, Encode, UnBE, Front, Misses, BE;
    x := if Taken(left, topic, id) == 0 then 1 else 0;
    FrontIs(topic, id, x, now);
    var e := Encode(Entry(1, topic, id, [x], now));
    var data := left + e;
    assert data[21 + |topic|] == Taken(left, topic, id) != x;
    assert |left| >= 4 ==> data[..4] == left[..4];
    var size := UnBE(data[..4]);
    assert |left| < 4 + size;
    NoEntries(topic, [x]);
    if |data| >= 4 + size && ParseEntry(data[4..4 + size]).Some? {
      var p := ParseEntry(data[4..4 + size]).value;
      if p.topic == topic && p.payload == [x] {
        ParsedByte(data[4..4 + size], topic, x);
        assert false;
      }
      ShortRest(data[4 + size..], topic, [x]);
      MissesMore(p, ReadEntries(data[4 + size..]).entries, topic, [x]);
    }
  }

  lemma NoEntries(topic: Bytes, payload: Bytes)
    ensures Misses([], topic, payload)
  {
  }

  lemma MissesMore(p: Entry, es: seq<Entry>, topic: Bytes, payload: Bytes)
    requires !(p.topic == topic && p.payload == payload) && Misses(es, topic, payload)
    ensures Misses([p] + es, topic, payload)
  {
  }

  /** Behind bytes that do not end cleanly one of two messages is not handed on. */
  lemma {:induction false} LostBehind(rest: Bytes, topic: Bytes, id: nat, now: int) returns (x: Byte, lost: seq<Entry>)
    requires !ReadEntries(rest).clean && -U63 <= now < U63
    ensures x < 2 && Misses(lost, topic, [x])
    ensures ReadEntries(rest + Encode(Entry(1, topic, id, [x], now))).entries == ReadEntries(rest).entries + lost
    decreases |rest|
  {
    hide ParseEntry, Encode, UnBE, Misses;
    if Unfinished(rest) {
      x := Spoiled(rest, topic, id, now);
      lost := ReadEntries(rest + Encode(Entry(1, topic, id, [x], now))).entries;
      assert ReadEntries(rest).entries + lost == lost;
    } else {
      var size := UnBE(rest[..4]);
      if ParseEntry(rest[4..4 + size]).None? {
        x, lost := 0, [];
        FirstKept(rest, Encode(Entry(1, topic, id, [x], now)));
        NoEntries(topic, [x]);
      } else {
        x, lost := LostBehind(rest[4 + size..], topic, id, now);
        FirstKept(rest, Encode(Entry(1, topic, id, [x], now)));
        Regroup(ParseEntry(rest[4..4 + size]).value, ReadEntries(rest[4 + size..]).entries, lost);
      }
    }
  }

  /** Replay hands on the entry written next, right behind what it handed on before. */
  ghost predicate HandedOn(rest: Bytes, e: Entry)
    requires -U63 <= e.timestamp < U63
  {
    ReadEntries(rest + Encode(e)).entries == ReadEntries(rest).entries + [e]
  }

  /** Every message entry written next is handed on by replay if and only if the bytes before
      it end cleanly, whatever they are. */
  lemma HandedOnIff(rest: Bytes, topic: Bytes, id: nat, now: int)
    requires 26 + |topic| < U32 && id < U64 && -U63 <= now < U63
    ensures ReadEntries(rest).clean
        <==> forall payload: Bytes :: 25 + |topic| + |payload| < U32 ==>
          HandedOn(rest, Entry(1, topic, id, payload, now))
  {
    hide ReadEntries, Encode, Misses;
    if ReadEntries(rest).clean {
      forall payload: Bytes | 25 + |topic| + |payload| < U32 ensures HandedOn(rest, Entry(1, topic, id, payload, now)) {
        var e := Entry(1, topic, id, payload, now);
        ReadThen(rest, Encode(e));
        ReadOne(e, []);
        ReadNothing();
        assert Encode(e) + [] == Encode(e) && [e] + [] == [e];
      }
    } else {
      var x, lost := LostBehind(rest, topic, id, now);
      var e := Entry(1, topic, id, [x], now);
      NotHanded(ReadEntries(rest).entries, lost, e);
    }
  }

  lemma NotHanded(es: seq<Entry>, lost: seq<Entry>, e: Entry)
    requires Misses(lost, e.topic, e.payload)
    ensures es + lost != es + [e]
  {
    assert (es + lost)[|es|..] == lost && (es + [e])[|es|..] == [e] && [e][0] == e;
  }

  // ---- what replay can hand on ----

  /** Whatever bytes are replayed, a parsed entry's id and payload fit a fragment. */
  lemma ParsedFits(data: Bytes)
    requires ParseEntry(data).Some?
    ensures var e := ParseEntry(data).value; e.id < U64 && |e.payload| < U32
  {
    hide UnBE, Pow256;
    Widths();
    var at := 5 + UnBE(data[1..5]);
    UnBEBound(data[at..at + 8]);
    UnBEBound(data[at + 8..at + 12]);
  }

  ghost predicate Storable(es: seq<Entry>) {
    forall i :: 0 <= i < |es| ==> es[i].id < U64 && |es[i].payload| < U32
  }

  lemma {:induction false} ReadStorable(rest: Bytes)
    ensures Storable(ReadEntries(rest).entries)
    decreases |rest|
  {
    hide ParseEntry, UnBE;
    if |rest| >= 4 {
      var size := UnBE(rest[..4]);
      if |rest| >= 4 + size && ParseEntry(rest[4..4 + size]).Some? {
        ParsedFits(rest[4..4 + size]);
        ReadStorable(rest[4 + size..]);
      }
    }
  }

  lemma {:induction false} AllStorable(files: seq<Bytes>)
    ensures Storable(ReplayAll(files))
  {
    if files != [] {
      AllStorable(files[..|files| - 1]);
      if |files[|files| - 1]| >= 8 {
        ReadStorable(files[|files| - 1][8..]);
      }
    }
  }

  lemma VersionBytes()
    ensures BE(1, 4) == [0, 0, 0, 1]
  {
    assert BE(0, 1) == [0];
    assert BE(0, 2) == [0, 0];
    assert BE(0, 3) == [0, 0, 0];
  }

  class WAL {
    var files: seq<Bytes>

    /** Opening a log directory starts a new file after the ones found there. */
    constructor (found: seq<Bytes>)
      ensures files == found + [HEADER]
    {
      var file: Bytes := [];
      file := file + MAGIC;
      file := file + BE(1, 4);
      VersionBytes();
      assert file == HEADER;
      files := found + [file];
    }

    /** The fields go to the file one after the other, so a write that fails part-way leaves
        the first `cut` bytes of the entry. */
    method Write(e: Entry, ok: bool, cut: nat) returns (written: bool)
      requires files != [] && -U63 <= e.timestamp < U63 && (!ok ==> cut <= |Encode(e)|)
      modifies this
      ensures written == ok && files == Extended(old(files), Reached(e, ok, cut))
    {
      var entrySize := 1 + 4 + |e.topic| + 8 + 4 + |e.payload| + 8;
      var out := BE(entrySize, 4);
      out := out + [e.kind];
      out := out + BE(|e.topic|, 4);
      out := out + e.topic;
      out := out + BE(e.id, 8);
      out := out + BE(|e.payload|, 4);
      out := out + e.payload;
      out := out + BE(Unsigned(e.timestamp), 8);
      assert out == Encode(e);
      if !ok {
        out := out[..cut];
      }
      files := files[|files| - 1 := files[|files| - 1] + out];
      return ok;
    }

    method WriteMessage(topic: Bytes, id: nat, payload: Bytes, now: int, ok: bool, cut: nat) returns (written: bool)
      requires files != [] && -U63 <= now < U63 && (!ok ==> cut <= 29 + |topic| + |payload|)
      modifies this
      ensures written == ok
      ensures files == Extended(old(files), Reached(Entry(1, topic, id, payload, now), ok, cut))
    {
      written := Write(Entry(1, topic, id, payload, now), ok, cut);
    }

    method WriteRemoveTopic(topic: Bytes, reason: Bytes, now: int, ok: bool, cut: nat) returns (written: bool)
      requires files != [] && -U63 <= now < U63 && (!ok ==> cut <= 29 + |topic| + |reason|)
      modifies this
      ensures written == ok
      ensures files == Extended(old(files), Reached(Entry(2, topic, 0, reason, now), ok, cut))
    {
      written := Write(Entry(2, topic, 0, reason, now), ok, cut);
    }

    /** The entries handed to the handler, and whether the file ended cleanly. */
    static method ReplayFile(file: Bytes) returns (handed: seq<Entry>, clean: bool)
      ensures Replayed(handed, clean) == Replay(file)
    {
      hide ParseEntry, UnBE;
      handed := [];
      if |file| < 4 || file[..4] != MAGIC || |file| < 8 {
        return handed, false;
      }
      var at := 8;
      while at < |file|
        invariant 8 <= at <= |file|
        invariant var rest := ReadEntries(file[at..]);
          Replay(file) == Replayed(handed + rest.entries, rest.clean)
      {
        var rest := file[at..];
        if |rest| < 4 {
          return handed, false;
        }
        var size := UnBE(rest[..4]);
        if |rest| < 4 + size {
          return handed, false;
        }
        var parsed := ParseEntry(rest[4..4 + size]);
        if parsed.None? {
          return handed, false;
        }
        assert rest[4 + size..] == file[at + 4 + size..];
        handed := handed + [parsed.value];
        at := at + 4 + size;
      }
      return handed, true;
    }

    method ReplayFiles() returns (handed: seq<Entry>)
      ensures handed == ReplayAll(files)
    {
      handed := [];
      var i := 0;
      while i < |files|
        invariant i <= |files| && handed == ReplayAll(files[..i])
      {
        var more, clean := ReplayFile(files[i]);
        handed := handed + more;
        i := i + 1;
        assert files[..i][..i - 1] == files[..i - 1];
      }
      assert files[..i] == files;
    }
  }
}

/**
 The write-ahead log format (internal/storage/wal.go): entry encoding, entry parsing, and
 what replaying any bytes hands to the handler.
 */
module WalSpec {
  import opened Codec
  import opened Common

  datatype Entry = Entry(kind: Byte, topic: Bytes, id: nat, payload: Bytes, timestamp: int) {
    predicate Fits() {
      25 + |topic| + |payload| < U32 && id < U64 && -U63 <= timestamp < U63
    }
  }

  /** "WAL1" and version 1. */
  const HEADER: Bytes := [87, 65, 76, 49, 0, 0, 0, 1]
  const MAGIC: Bytes := [87, 65, 76, 49]

  function Body(e: Entry): (r: Bytes)
    requires -U63 <= e.timestamp < U63
    ensures |r| == 25 + |e.topic| + |e.payload|
  {
    [e.kind] + BE(|e.topic|, 4) + e.topic + BE(e.id, 8) + BE(|e.payload|, 4) + e.payload + BE(Unsigned(e.timestamp), 8)
  }

  function Encode(e: Entry): (r: Bytes)
    requires -U63 <= e.timestamp < U63
    ensures |r| == 4 + |Body(e)|
  {
    BE(|Body(e)|, 4) + Body(e)
  }

  ghost predicate AllFit(es: seq<Entry>) {
    forall i :: 0 <= i < |es| ==> es[i].Fits()
  }

  ghost function EncodeAll(es: seq<Entry>): Bytes
    requires AllFit(es)
  {
    if es == [] then [] else Encode(es[0]) + EncodeAll(es[1..])
  }

  function ParseEntry(data: Bytes): Option<Entry> {
    if |data| < 1 || 5 > |data| then None
    else
      var topicLen := UnBE(data[1..5]);
      if 5 + topicLen > |data| || 5 + topicLen + 8 > |data| || 5 + topicLen + 12 > |data| then None
      else
        var topic := data[5..5 + topicLen];
        var at := 5 + topicLen;
        var id := UnBE(data[at..at + 8]);
        var payloadLen := UnBE(data[at + 8..at + 12]);
        if at + 12 + payloadLen > |data| || at + 12 + payloadLen + 8 > |data| then None
        else
          var payload := data[at + 12..at + 12 + payloadLen];
          var end := at + 12 + payloadLen;
          Some(Entry(data[0], topic, id, payload, Signed(UnBE(data[end..end + 8]))))
  }

  /** What reading entries off the rest of a file hands on, and whether it ended cleanly. */
  datatype Replayed = Replayed(entries: seq<Entry>, clean: bool)

  function ReadEntries(rest: Bytes): Replayed {
    if rest == [] then Replayed([], true)
    else if |rest| < 4 then Replayed([], false)
    else
      var size := UnBE(rest[..4]);
      if |rest| < 4 + size then Replayed([], false)
      else
        match ParseEntry(rest[4..4 + size])
        case None => Replayed([], false)
        case Some(e) =>
          var more := ReadEntries(rest[4 + size..]);
          Replayed([e] + more.entries, more.clean)
  }

  function Replay(file: Bytes): Replayed {
    if |file| < 8 || file[..4] != MAGIC then Replayed([], false) else ReadEntries(file[8..])
  }

  // ---- round trip and torn tails ----

  lemma BodyFront(e: Entry)
    requires -U63 <= e.timestamp < U63
    ensures Body(e)[0] == e.kind && Body(e)[1..5] == BE(|e.topic|, 4) && Body(e)[5..5 + |e.topic|] == e.topic
  {
    var data := Body(e);
    var back := BE(e.id, 8) + BE(|e.payload|, 4) + e.payload + BE(Unsigned(e.timestamp), 8);
    FieldAt([e.kind], BE(|e.topic|, 4), e.topic + back, 1, 5);
    FieldAt([e.kind] + BE(|e.topic|, 4), e.topic, back, 5, 5 + |e.topic|);
    assert data == [e.kind] + BE(|e.topic|, 4) + (e.topic + back) == [e.kind] + BE(|e.topic|, 4) + e.topic + back;
  }

  lemma BodyBack(e: Entry)
    requires -U63 <= e.timestamp < U63
    ensures var at := 5 + |e.topic|;
      var end := at + 12 + |e.payload|;
      && Body(e)[at..at + 8] == BE(e.id, 8) && Body(e)[at + 8..at + 12] == BE(|e.payload|, 4)
      && Body(e)[at + 12..end] == e.payload && Body(e)[end..end + 8] == BE(Unsigned(e.timestamp), 8)
  {
    var data := Body(e);
    var front := [e.kind] + BE(|e.topic|, 4) + e.topic;
    var at, end := |front|, |front| + 12 + |e.payload|;
    var id, size, stamp := BE(e.id, 8), BE(|e.payload|, 4), BE(Unsigned(e.timestamp), 8);
    FieldAt(front, id, size + e.payload + stamp, at, at + 8);
    FieldAt(front + id, size, e.payload + stamp, at + 8, at + 12);
    FieldAt(front + id + size, e.payload, stamp, at + 12, end);
    FieldAt(front + id + size + e.payload, stamp, [], end, end + 8);
    assert data == front + id + (size + e.payload + stamp) == front + id + size + (e.payload + stamp);
    assert data == front + id + size + e.payload + stamp == front + id + size + e.payload + stamp + [];
  }

  /** Parsing undoes encoding. */
  lemma ParseBody(e: Entry)
    requires e.Fits()
    ensures ParseEntry(Body(e)) == Some(e)
  {
    hide Body, BE, UnBE;
    BodyFront(e);
    BodyBack(e);
    ReadU32(|e.topic|);
    ReadU64(e.id);
    ReadU32(|e.payload|);
    ReadU64(Unsigned(e.timestamp));
  }

  lemma ReadOne(e: Entry, rest: Bytes)
    requires e.Fits()
    ensures var more := ReadEntries(rest);
      ReadEntries(Encode(e) + rest) == Replayed([e] + more.entries, more.clean)
  {
    var data := Encode(e) + rest;
    var size := |Body(e)|;
    ReadU32(size);
    assert data[..4] == BE(size, 4);
    assert data[4..4 + size] == Body(e);
    assert data[4 + size..] == rest;
    ParseBody(e);
  }

  /** A torn entry hands nothing on; it ends cleanly only when nothing of it is there. */
  lemma ReadTorn(e: Entry, k: nat)
    requires e.Fits() && k < |Encode(e)|
    ensures ReadEntries(Encode(e)[..k]) == Replayed([], k == 0)
  {
    var data := Encode(e)[..k];
    if k >= 4 {
      ReadU32(|Body(e)|);
      assert data[..4] == BE(|Body(e)|, 4);
    }
  }

  lemma ReadNothing()
    ensures ReadEntries([]) == Replayed([], true)
  {
  }

  /** How many entries lie wholly inside the first n bytes. */
  ghost function Inside(es: seq<Entry>, n: nat): (m: nat)
    requires AllFit(es)
    ensures m <= |es|
  {
    if es == [] || |Encode(es[0])| > n then 0 else 1 + Inside(es[1..], n - |Encode(es[0])|)
  }

  lemma {:induction false} InsideIs(es: seq<Entry>, n: nat)
    requires AllFit(es)
    ensures var m := Inside(es, n);
      |EncodeAll(es[..m])| <= n && (m < |es| ==> n < |EncodeAll(es[..m + 1])|)
  {
    if es != [] && |Encode(es[0])| <= n {
      InsideIs(es[1..], n - |Encode(es[0])|);
      var m := Inside(es, n);
      assert es[..m][1..] == es[1..][..m - 1];
      if m < |es| {
        assert es[..m + 1][1..] == es[1..][..m];
      }
    } else if es != [] {
      assert es[..1] == [es[0]];
      assert es[..1][1..] == [];
    }
  }

  lemma {:induction false} ReadPrefix(es: seq<Entry>, k: nat)
    requires AllFit(es) && k <= |EncodeAll(es)|
    ensures var m := Inside(es, k);
      ReadEntries(EncodeAll(es)[..k]) == Replayed(es[..m], k == |EncodeAll(es[..m])|)
  {
    hide ReadEntries, Encode;
    if es == [] {
      assert EncodeAll(es)[..k] == [];
      ReadNothing();
    } else if k < |Encode(es[0])| {
      assert EncodeAll(es)[..k] == Encode(es[0])[..k];
      ReadTorn(es[0], k);
    } else {
      var n := |Encode(es[0])|;
      ReadPrefix(es[1..], k - n);
      assert EncodeAll(es)[..k] == Encode(es[0]) + EncodeAll(es[1..])[..k - n];
      ReadOne(es[0], EncodeAll(es[1..])[..k - n]);
      var m := Inside(es, k);
      assert es[..m] == [es[0]] + es[1..][..m - 1];
      assert es[..m][1..] == es[1..][..m - 1];
    }
  }

  /** Torn-tail recovery: of every byte prefix of a log file, replay hands on exactly the
      entries lying wholly inside it, and ends cleanly only at an entry boundary. */
  lemma TornTail(es: seq<Entry>, k: nat)
    requires AllFit(es) && k <= |HEADER + EncodeAll(es)|
    ensures var cut := (HEADER + EncodeAll(es))[..k];
      Replay(cut) == if k < 8 then Replayed([], false)
                     else
                       var m := Inside(es, k - 8);
                       Replayed(es[..m], k == 8 + |EncodeAll(es[..m])|)
  {
    hide ReadEntries, EncodeAll, Inside, AllFit;
    var cut := (HEADER + EncodeAll(es))[..k];
    if k >= 8 {
      assert cut[..4] == MAGIC;
      assert cut[8..] == EncodeAll(es)[..k - 8];
      ReadPrefix(es, k - 8);
    }
  }

  /** The uncut file is the full round trip. */
  lemma RoundTrip(es: seq<Entry>)
    requires AllFit(es)
    ensures Replay(HEADER + EncodeAll(es)) == Replayed(es, true)
  {
    hide Replay, Encode, EncodeAll, Inside;
    var file := HEADER + EncodeAll(es);
    var m := Inside(es, |file| - 8);
    InsideIs(es, |file| - 8);
    TornTail(es, |file|);
    assert file[..|file|] == file;
    if m < |es| {
      EncodeAllPrefix(es, m + 1);
      assert false;
    }
    assert es[..m] == es;
  }

  lemma {:induction false} EncodeAllConcat(a: seq<Entry>, b: seq<Entry>)
    requires AllFit(a) && AllFit(b)
    ensures AllFit(a + b) && EncodeAll(a + b) == EncodeAll(a) + EncodeAll(b)
  {
    hide EncodeAll, Encode;
    if a == [] {
      assert a + b == b;
      NoneEncoded();
    } else {
      var first, rest := Encode(a[0]), a[1..];
      EncodeAllConcat(rest, b);
      assert (a + b)[1..] == rest + b;
      EncodeFirst(a);
      EncodeFirst(a + b);
      Associate(first, EncodeAll(rest), EncodeAll(b));
    }
  }

  lemma Associate(a: Bytes, b: Bytes, c: Bytes)
    ensures a + (b + c) == a + b + c
  {
  }

  lemma NoneEncoded()
    ensures EncodeAll([]) == []
  {
  }

  lemma EncodeFirst(es: seq<Entry>)
    requires AllFit(es) && es != []
    ensures EncodeAll(es) == Encode(es[0]) + EncodeAll(es[1..])
  {
    hide Encode;
  }

  lemma EncodeAllPrefix(es: seq<Entry>, m: nat)
    requires AllFit(es) && m <= |es|
    ensures |EncodeAll(es[..m])| <= |EncodeAll(es)|
  {
    EncodeAllConcat(es[..m], es[m..]);
    assert es[..m] + es[m..] == es;
  }
}

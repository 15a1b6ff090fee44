/**
 Chunked fragment replication (broker/server.go): the sender's chunk loop, the receiver's
 reassembly loop, and their round trip.
 */
module Replication {
  import opened Codec
  import opened Common
  import opened FragmentSpec

  datatype Chunk = Chunk(topic: Bytes, fragmentId: nat, index: nat, data: Bytes, isLast: bool)

  function Concat(chunks: seq<Chunk>): Bytes {
    if chunks == [] then [] else Concat(chunks[..|chunks| - 1]) + chunks[|chunks| - 1].data
  }

  /** Consecutive 32-bit indices, every chunk but the final one full, and the final one
      marked last once the data ended. */
  ghost predicate InOrder(chunks: seq<Chunk>, topic: Bytes, id: nat, size: nat, ended: bool) {
    forall i :: 0 <= i < |chunks| ==>
      && chunks[i].topic == topic && chunks[i].fragmentId == id && chunks[i].index == i % U32
      && (chunks[i].isLast <==> i == |chunks| - 1 && ended)
      && 0 < |chunks[i].data| <= size
      && (i < |chunks| - 1 || !ended ==> |chunks[i].data| == size)
  }

  /** The chunks carry the data in order, cut every `size` bytes. */
  ghost predicate IsSplit(chunks: seq<Chunk>, topic: Bytes, id: nat, data: Bytes, size: nat) {
    Concat(chunks) == data && InOrder(chunks, topic, id, size, true)
  }

  lemma OneMore(chunks: seq<Chunk>, c: Chunk, topic: Bytes, id: nat, size: nat, ended: bool)
    requires InOrder(chunks, topic, id, size, false)
    requires c.topic == topic && c.fragmentId == id && c.index == |chunks| % U32 && c.isLast == ended
    requires 0 < |c.data| <= size && (!ended ==> |c.data| == size)
    ensures InOrder(chunks + [c], topic, id, size, ended) && Concat(chunks + [c]) == Concat(chunks) + c.data
  {
    assert (chunks + [c])[..|chunks|] == chunks;
  }

  lemma NoChunks(topic: Bytes, id: nat, size: nat, ended: bool)
    ensures InOrder([], topic, id, size, ended) && Concat([]) == []
  {
  }

  /** The chunk loop, for any chunk size; the source's is 1 MiB. */
  method SendFragment(topic: Bytes, id: nat, data: Bytes, size: nat) returns (chunks: seq<Chunk>)
    requires size > 0
    ensures IsSplit(chunks, topic, id, data, size)
  {
    hide InOrder, Concat;
    chunks := [];
    NoChunks(topic, id, size, data == []);
    var chunkIndex, i := 0, 0;
    while i < |data|
      invariant chunkIndex == |chunks| % U32
      invariant Concat(chunks) == data[..if i < |data| then i else |data|]
      invariant InOrder(chunks, topic, id, size, i >= |data|)
    {
      var end := i + size;
      if end > |data| {
        end := |data|;
      }
      OneMore(chunks, Chunk(topic, id, chunkIndex, data[i..end], end == |data|), topic, id, size, end == |data|);
      chunks := chunks + [Chunk(topic, id, chunkIndex, data[i..end], end == |data|)];
      chunkIndex := (chunkIndex + 1) % U32;
      i := i + size;
    }
  }

  /** How many chunks of a stream the receiver reads: the first, then up to one marked last. */
  function ReadUpTo(stream: seq<Chunk>, from: nat): (n: nat)
    requires from <= |stream|
    ensures from <= n <= |stream|
    decreases |stream| - from
  {
    if from == |stream| then from
    else if stream[from].isLast then from + 1
    else ReadUpTo(stream, from + 1)
  }

  /** The receiver saw a chunk marked last, behind the first. */
  predicate SawLast(stream: seq<Chunk>)
    requires stream != []
  {
    var n := ReadUpTo(stream, 1);
    n > 1 && stream[n - 1].isLast
  }

  /** The reassembled bytes. A stream that breaks before the first chunk, or before one marked
      last, is an error; one that just ends there is not, except before the first chunk. */
  method ReceiveFragment(stream: seq<Chunk>, broken: bool) returns (r: Option<Bytes>)
    ensures r == if stream == [] || (broken && !SawLast(stream)) then None
                 else Some(Concat(stream[..ReadUpTo(stream, 1)]))
  {
    if |stream| == 0 {
      return None;
    }
    var buffer := stream[0].data;
    var at := 1;
    assert stream[..1][..0] == [];
    while at < |stream|
      invariant 1 <= at <= |stream| && buffer == Concat(stream[..at]) && ReadUpTo(stream, 1) == ReadUpTo(stream, at)
      invariant at > 1 ==> !stream[at - 1].isLast
    {
      var chunk := stream[at];
      buffer := buffer + chunk.data;
      at := at + 1;
      assert stream[..at][..at - 1] == stream[..at - 1];
      if chunk.isLast {
        return Some(buffer);
      }
    }
    if broken {
      return None;
    }
    return Some(buffer);
  }

  lemma {:induction false} ReadsAll(stream: seq<Chunk>, from: nat)
    requires from <= |stream| && forall i :: from <= i < |stream| - 1 ==> !stream[i].isLast
    ensures ReadUpTo(stream, from) == |stream|
    decreases |stream| - from
  {
    if from < |stream| - 1 {
      ReadsAll(stream, from + 1);
    }
  }

  /** Replication round trip: whatever non-empty file a split was made of, the receiver's
      bytes are that file, and hold the same messages in the receiver's fragment. An empty
      file sends no chunk and the receiver gets nothing. */
  lemma ReplicaIsSource(chunks: seq<Chunk>, topic: Bytes, id: nat, source: Disk, target: Disk, size: nat)
    requires (topic, id) in source && IsSplit(chunks, topic, id, source[(topic, id)], size)
    ensures chunks == [] <==> source[(topic, id)] == []
    ensures chunks != [] ==> Concat(chunks[..ReadUpTo(chunks, 1)]) == source[(topic, id)]
    ensures chunks != [] ==>
      Decode(Tail(target[(topic, id) := Concat(chunks[..ReadUpTo(chunks, 1)])], topic, id))
        == Decode(Tail(source, topic, id))
  {
    if chunks != [] {
      ReadsAll(chunks, 1);
      assert chunks[..|chunks|] == chunks;
      assert chunks[|chunks| - 1].data != [];
    }
  }
}

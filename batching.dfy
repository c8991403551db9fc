/** `updatePages`: the instructions are cut into consecutive chunks of
    `OPERATION_BATCH_SIZE` (lodash `_.chunk`) and the chunks are sent one after
    another, every write of a chunk at once (`Promise.all`). */
module Batching {
  import opened Reconcile

  /** `OPERATION_BATCH_SIZE` */
  const OperationBatchSize: nat := 10

  function Flatten<T>(chunks: seq<seq<T>>): seq<T> {
    if chunks == [] then [] else chunks[0] + Flatten(chunks[1..])
  }

  /** lodash `_.chunk(s, size)`: consecutive slices of `size` elements, the
      last one possibly shorter; a size below 1 gives no chunks. */
  function Chunk<T>(s: seq<T>, size: nat): (r: seq<seq<T>>)
    ensures size == 0 ==> r == []
    ensures size > 0 ==> Flatten(r) == s
    ensures forall i :: 0 <= i < |r| ==> 0 < |r[i]| <= size
    ensures forall i :: 0 <= i < |r| - 1 ==> |r[i]| == size
    decreases |s|
  {
    if size == 0 || s == [] then []
    else if |s| <= size then [s]
    else
      var rest := Chunk(s[size..], size);
      assert forall i :: 1 <= i < |rest| + 1 ==> ([s[..size]] + rest)[i] == rest[i - 1];
      assert s == s[..size] + s[size..];
      [s[..size]] + rest
  }

  /** A list of `L` instructions makes `ceil(L / 10)` batches. */
  lemma {:induction false} ChunkCount<T>(s: seq<T>)
    ensures |Chunk(s, OperationBatchSize)| == (|s| + OperationBatchSize - 1) / OperationBatchSize
    decreases |s|
  {
    if |s| > OperationBatchSize {
      ChunkCount(s[OperationBatchSize..]);
    }
  }

  /** Every write of the batch is to a page the store accepts. */
  predicate Accepted(batch: seq<Instruction>, rejected: set<string>) {
    forall w :: w in batch ==> w.pageId !in rejected
  }

  /** The chunks actually sent: all of them, or those up to and including the
      first chunk in which some write is rejected (`Promise.all` rejects, the
      `await` throws and no later chunk is sent). */
  function Issued(chunks: seq<seq<Instruction>>, rejected: set<string>): (r: seq<seq<Instruction>>)
    ensures r <= chunks
    ensures (forall i :: 0 <= i < |chunks| ==> Accepted(chunks[i], rejected)) ==> r == chunks
    ensures (exists i :: 0 <= i < |chunks| && !Accepted(chunks[i], rejected)) ==> 0 < |r| && !Accepted(r[|r| - 1], rejected)
    ensures forall i :: 0 <= i < |r| - 1 ==> Accepted(r[i], rejected)
  {
    if chunks == [] then []
    else if !Accepted(chunks[0], rejected) then [chunks[0]]
    else
      var rest := Issued(chunks[1..], rejected);
      assert forall i :: 1 <= i < |chunks| ==> chunks[i] == chunks[1..][i - 1];
      [chunks[0]] + rest
  }

  /** Issued stops at the first rejected chunk, whichever it is. */
  lemma IssuedUpTo(chunks: seq<seq<Instruction>>, rejected: set<string>, i: int)
    requires 0 <= i < |chunks| && !Accepted(chunks[i], rejected)
    requires forall j :: 0 <= j < i ==> Accepted(chunks[j], rejected)
    ensures Issued(chunks, rejected) == chunks[..i + 1]
  {
    var r := Issued(chunks, rejected);
    assert forall j :: 0 <= j < |r| ==> r[j] == chunks[j];
    assert |r| == i + 1;
  }

  /** The writes of all chunks are accepted exactly when every write of the
      whole list is. */
  lemma {:induction false} AcceptedFlatten(chunks: seq<seq<Instruction>>, rejected: set<string>)
    ensures Accepted(Flatten(chunks), rejected) <==> forall i :: 0 <= i < |chunks| ==> Accepted(chunks[i], rejected)
  {
    if chunks != [] {
      AcceptedFlatten(chunks[1..], rejected);
      assert forall i :: 1 <= i < |chunks| ==> chunks[i] == chunks[1..][i - 1];
      assert forall w :: w in Flatten(chunks) <==> w in chunks[0] || w in Flatten(chunks[1..]);
    }
  }

  /** Twenty-five instructions go out as three batches of 10, 10 and 5. */
  lemma TwentyFiveInThreeBatches(s: seq<Instruction>)
    requires |s| == 25
    ensures |Chunk(s, OperationBatchSize)| == 3
    ensures Chunk(s, OperationBatchSize) == [s[..10], s[10..20], s[20..]]
  {
    var r := Chunk(s, OperationBatchSize);
    var r1 := Chunk(s[10..], OperationBatchSize);
    var r2 := Chunk(s[10..][10..], OperationBatchSize);
    assert r2 == [s[10..][10..]];
    assert r1 == [s[10..][..10]] + r2;
    assert r == [s[..10]] + r1;
    assert s[10..][..10] == s[10..20];
    assert s[10..][10..] == s[20..];
  }

  /** The external page store as the model sees it: the write log, one
      entry per batch sent, and the set of page ids whose update the store
      refuses. Writes inside one logged batch are concurrent; their order in
      the batch carries no meaning. */
  class PageStore {
    var batches: seq<seq<Instruction>>
    const rejected: set<string>

    constructor (rejected: set<string>)
      ensures batches == [] && this.rejected == rejected
    {
      batches := [];
      this.rejected := rejected;
    }

    /** `await Promise.all(batch.map(w => notion.pages.update(w)))`: every
        write of the batch is sent; the batch fails if any write is
        rejected. */
    method UpdateBatch(batch: seq<Instruction>) returns (ok: bool)
      modifies this
      ensures batches == old(batches) + [batch]
      ensures ok <==> Accepted(batch, rejected)
    {
      batches := batches + [batch];
      ok := forall w | w in batch :: w.pageId !in rejected;
    }

    /** The loop of `updatePages`: sends the chunks in order and stops after
        the first failing one. */
    method SendChunks(chunks: seq<seq<Instruction>>) returns (ok: bool)
      modifies this
      ensures batches == old(batches) + Issued(chunks, rejected)
      ensures ok <==> forall i :: 0 <= i < |chunks| ==> Accepted(chunks[i], rejected)
    {
      var i := 0;
      while i < |chunks|
        invariant 0 <= i <= |chunks|
        invariant batches == old(batches) + chunks[..i]
        invariant forall j :: 0 <= j < i ==> Accepted(chunks[j], rejected)
      {
        ok := UpdateBatch(chunks[i]);
        if !ok {
          IssuedUpTo(chunks, rejected, i);
          assert chunks[..i] + [chunks[i]] == chunks[..i + 1];
          return;
        }
        i := i + 1;
      }
      assert chunks[..i] == chunks;
      ok := true;
    }

    /** `updatePages`: the instructions go out in batches of
        `OPERATION_BATCH_SIZE`, and `ok` is false exactly when some write is
        rejected. */
    method UpdatePages(pageUpdates: seq<Instruction>) returns (ok: bool)
      modifies this
      ensures batches == old(batches) + Issued(Chunk(pageUpdates, OperationBatchSize), rejected)
      ensures ok <==> Accepted(pageUpdates, rejected)
    {
      var chunks := Chunk(pageUpdates, OperationBatchSize);
      AcceptedFlatten(chunks, rejected);
      ok := SendChunks(chunks);
    }
  }
}

/** Chunking a list for submission and aggregating its chunks' progress. */
module ScrubBatching {
  import opened Picking
  import opened ScrubModel

  function Flatten<T>(chunks: seq<seq<T>>): seq<T> {
    if chunks == [] then [] else Flatten(chunks[..|chunks| - 1]) + chunks[|chunks| - 1]
  }

  lemma FlattenAppend<T>(chunks: seq<seq<T>>, chunk: seq<T>)
    ensures Flatten(chunks + [chunk]) == Flatten(chunks) + chunk
  {
  }

  function Chunks(emails: seq<Email>, size: nat): seq<seq<Email>>
    requires size > 0
    decreases |emails|
  {
    if emails == [] then []
    else if |emails| <= size then [emails]
    else [emails[..size]] + Chunks(emails[size..], size)
  }

  /** Splits emails into groups of at most size, preserving order. */
  method ChunkEmails(emails: seq<Email>, size: nat) returns (chunks: seq<seq<Email>>)
    requires size > 0
    ensures chunks == Chunks(emails, size)
  {
    chunks := [];
    var start := 0;
    while start < |emails|
      invariant 0 <= start <= |emails|
      invariant chunks + Chunks(emails[start..], size) == Chunks(emails, size)
    {
      var end := start + size;
      if end > |emails| {
        end := |emails|;
      }
      ChunksStep(emails[start..], end - start, size);
      assert emails[start..end] == emails[start..][..end - start];
      assert emails[start..][end - start..] == emails[end..];
      assert chunks + ([emails[start..end]] + Chunks(emails[end..], size)) == Chunks(emails, size);
      chunks := chunks + [emails[start..end]];
      start := end;
    }
  }

  lemma ChunksStep(emails: seq<Email>, first: nat, size: nat)
    requires size > 0 && emails != [] && first == if |emails| <= size then |emails| else size
    ensures Chunks(emails, size) == [emails[..first]] + Chunks(emails[first..], size)
  {
    if |emails| <= size {
      assert emails[..first] == emails && emails[first..] == [];
    }
  }

  lemma {:induction false} FlattenPrepend<T>(chunk: seq<T>, chunks: seq<seq<T>>)
    ensures Flatten([chunk] + chunks) == chunk + Flatten(chunks)
    decreases |chunks|
  {
    if chunks == [] {
      assert ([chunk] + chunks)[..0] == [];
    } else {
      var n := |chunks| - 1;
      FlattenPrepend(chunk, chunks[..n]);
      assert [chunk] + chunks == ([chunk] + chunks[..n]) + [chunks[n]];
      FlattenAppend([chunk] + chunks[..n], chunks[n]);
    }
  }

  /** Chunking loses and repeats nothing, keeps the order, and leaves only the last chunk short. */
  lemma {:induction false} ChunksCover(emails: seq<Email>, size: nat)
    requires size > 0
    ensures var chunks := Chunks(emails, size);
            && Flatten(chunks) == emails
            && (forall k :: 0 <= k < |chunks| ==> 0 < |chunks[k]| <= size)
            && (forall k :: 0 <= k < |chunks| - 1 ==> |chunks[k]| == size)
    ensures forall k: nat :: k < |Chunks(emails, size)| <==> k * size < |emails|
    decreases |emails|
  {
    if |emails| > size {
      ChunksCover(emails[size..], size);
      FlattenPrepend(emails[..size], Chunks(emails[size..], size));
      CountShift(|emails|, |Chunks(emails[size..], size)|, size);
    } else if emails != [] {
      assert [emails][..0] == [];
      forall k: nat | k > 0 ensures k * size >= size {}
    }
  }

  lemma CountShift(length: nat, chunks: nat, size: nat)
    requires length > size > 0
    requires forall k: nat :: k < chunks <==> k * size < length - size
    ensures forall k: nat :: k < 1 + chunks <==> k * size < length
  {
    forall k: nat ensures k < 1 + chunks <==> k * size < length {
      if k > 0 {
        assert k - 1 < chunks <==> (k - 1) * size < length - size;
        assert k * size == (k - 1) * size + size;
      }
    }
  }

  datatype Progress = Progress(completed: int, submitted: int, validated: int, invalid: int, done: bool)

  function Totals(batches: seq<BatchRow>): (int, int, int, int) {
    if batches == [] then (0, 0, 0, 0)
    else
      var t, b := Totals(batches[..|batches| - 1]), batches[|batches| - 1];
      (t.0 + (if Terminal(b.status) then 1 else 0), t.1 + b.submitted, t.2 + b.validated, t.3 + b.invalid)
  }

  function Aggregate(total: int, batches: seq<BatchRow>): Progress {
    var t := Totals(batches);
    Progress(t.0, t.1, t.2, t.3, t.0 == total)
  }

  ghost function SumOf(batches: seq<BatchRow>, f: BatchRow -> int): int {
    if batches == [] then 0 else SumOf(batches[..|batches| - 1], f) + f(batches[|batches| - 1])
  }

  /** The totals count the terminal rows and sum each figure over all of them. */
  lemma {:induction false} TotalsExact(batches: seq<BatchRow>, over: BatchRow -> bool,
                                       submitted: BatchRow -> int, validated: BatchRow -> int, invalid: BatchRow -> int)
    requires forall b :: over(b) <==> b.status == Completed || b.status == Failed
    requires forall b :: submitted(b) == b.submitted && validated(b) == b.validated && invalid(b) == b.invalid
    ensures Totals(batches) == (Picked(batches, over, |batches|), SumOf(batches, submitted),
                                SumOf(batches, validated), SumOf(batches, invalid))
  {
    if batches != [] {
      var n := |batches| - 1;
      TotalsExact(batches[..n], over, submitted, validated, invalid);
      assert batches == batches[..n] + [batches[n]];
      PickedAgree(batches[..n], batches[n], over, n);
    }
  }

  method AggregateBatches(total: int, batches: seq<BatchRow>) returns (p: Progress)
    ensures p == Aggregate(total, batches)
    ensures (p.completed, p.submitted, p.validated, p.invalid) == Totals(batches)
    ensures p.done <==> p.completed == total
  {
    var completed, submitted, validated, invalid := 0, 0, 0, 0;
    for i := 0 to |batches|
      invariant (completed, submitted, validated, invalid) == Totals(batches[..i])
    {
      assert batches[..i + 1][..i] == batches[..i];
      var b := batches[i];
      if b.status == Completed || b.status == Failed {
        completed := completed + 1;
      }
      submitted := submitted + b.submitted;
      validated := validated + b.validated;
      invalid := invalid + b.invalid;
    }
    assert batches[..|batches|] == batches;
    p := Progress(completed, submitted, validated, invalid, completed == total);
  }

  ghost predicate AllTerminal(batches: seq<BatchRow>) {
    forall k :: 0 <= k < |batches| ==> Terminal(batches[k].status)
  }

  /** The number of finished chunks never exceeds the rows read, and equals it only when all are terminal. */
  lemma {:induction false} CompletedBound(batches: seq<BatchRow>)
    ensures 0 <= Totals(batches).0 <= |batches|
    ensures Totals(batches).0 == |batches| <==> AllTerminal(batches)
  {
    if batches != [] {
      var n := |batches| - 1;
      CompletedBound(batches[..n]);
      assert AllTerminal(batches) <==> AllTerminal(batches[..n]) && Terminal(batches[n].status) by {
        if AllTerminal(batches[..n]) && Terminal(batches[n].status) {
          forall k | 0 <= k < |batches| ensures Terminal(batches[k].status) {
            if k < n { assert batches[k] == batches[..n][k]; }
          }
        }
      }
    }
  }

  /** As long as no more rows than planned exist, "done" means: all planned rows were read, all terminal. */
  lemma DoneMeansAllTerminal(total: int, batches: seq<BatchRow>)
    requires |batches| <= total
    ensures Aggregate(total, batches).done <==> |batches| == total && AllTerminal(batches)
  {
    CompletedBound(batches);
  }
}

/** Splitting a list into batches, the two ways the repository does it. */
module Batches {
  import opened Wrappers
  import opened Arithmetic
  import opened Lists

  function InBatches<T>(items: seq<T>, size: nat): seq<seq<T>>
    requires size > 0
    decreases |items|
  {
    if items == [] then []
    else [items[..Min(size, |items|)]] + InBatches(items[Min(size, |items|)..], size)
  }

  /** The batches concatenate back to the input; each but the last is full. */
  lemma {:induction false} BatchesPartition<T>(items: seq<T>, size: nat)
    requires size > 0
    ensures Flatten(InBatches(items, size)) == items
    ensures forall i :: 0 <= i < |InBatches(items, size)| ==>
              0 < |InBatches(items, size)[i]| <= size
              && (i < |InBatches(items, size)| - 1 ==> |InBatches(items, size)[i]| == size)
    decreases |items|
  {
    if items != [] {
      BatchesPartition(items[Min(size, |items|)..], size);
    }
  }

  method SplitToBatches<T>(items: seq<T>, size: nat) returns (result: seq<seq<T>>)
    requires size > 0
    ensures result == InBatches(items, size)
  {
    result := [];
    var i := 0;
    assert items[0..] == items;
    while i < |items|
      invariant result + InBatches(items[Min(i, |items|)..], size) == InBatches(items, size)
    {
      var end := Min(i + size, |items|);
      assert items[i..][..Min(size, |items[i..]|)] == items[i..end];
      assert items[i..][Min(size, |items[i..]|)..] == items[end..];
      assert InBatches(items[i..], size) == [items[i..end]] + InBatches(items[end..], size);
      assert result + ([items[i..end]] + InBatches(items[end..], size)) ==
          (result + [items[i..end]]) + InBatches(items[end..], size);
      result := result + [items[i..end]];
      i := i + size;
    }
  }

  function Mapped<T, R>(f: T -> R, items: seq<T>): (r: seq<R>)
    ensures |r| == |items|
  {
    seq(|items|, i requires 0 <= i < |items| => f(items[i]))
  }

  /** Batches of parallel lists stay parallel. */
  lemma {:induction false} BatchesAligned<T, R>(f: T -> R, items: seq<T>, size: nat)
    requires size > 0
    ensures |InBatches(Mapped(f, items), size)| == |InBatches(items, size)|
    ensures forall i :: 0 <= i < |InBatches(items, size)| ==>
              InBatches(Mapped(f, items), size)[i] == Mapped(f, InBatches(items, size)[i])
    decreases |items|
  {
    if items != [] {
      var n := Min(size, |items|);
      BatchesAligned(f, items[n..], size);
      assert Mapped(f, items)[..n] == Mapped(f, items[..n]);
      assert Mapped(f, items)[n..] == Mapped(f, items[n..]);
    }
  }

  /** The results of a processor that may reject: all of them, or a rejection. */
  function Processed<T, R>(processor: T -> Result<R>, inputs: seq<T>): (r: Result<seq<R>>)
    ensures r.Success? <==> forall x | x in inputs :: processor(x).Success?
    ensures r.Success? ==>
              |r.value| == |inputs| && forall i :: 0 <= i < |inputs| ==> processor(inputs[i]) == Success(r.value[i])
  {
    if inputs == [] then Success([])
    else
      var last := |inputs| - 1;
      assert inputs == inputs[..last] + [inputs[last]];
      var first :- Processed(processor, inputs[..last]);
      var result :- processor(inputs[last]);
      Success(first + [result])
  }

  /** Processing in batches gives one result per input, in the order of the inputs, and is
      rejected exactly when some input is. */
  method BatchProcessing<T, R>(inputs: seq<T>, size: nat, processor: T -> Result<R>) returns (result: Result<seq<R>>)
    requires size > 0
    ensures result.Success? <==> forall x | x in inputs :: processor(x).Success?
    ensures result.Success? ==>
              |result.value| == |inputs| && forall i :: 0 <= i < |inputs| ==>
                  processor(inputs[i]) == Success(result.value[i])
  {
    var results: seq<R> := [];
    var i := 0;
    while i < |inputs|
      invariant |results| == Min(i, |inputs|)
      invariant forall k :: 0 <= k < |results| ==> processor(inputs[k]) == Success(results[k])
    {
      var end := Min(i + size, |inputs|);
      var batchResult :- Processed(processor, inputs[i..end]);
      assert forall k :: i <= k < end ==> inputs[k] == inputs[i..end][k - i];
      results := results + batchResult;
      i := i + size;
    }
    return Success(results);
  }

  /** The reducer behind `chunk`, from position i on: a slice starts at each multiple of the size. */
  function ChunkFrom<T>(items: seq<T>, size: nat, i: nat, sofar: seq<seq<T>>): seq<seq<T>>
    requires size > 0 && i <= |items|
    decreases |items| - i
  {
    if i == |items| then sofar
    else ChunkFrom(items, size, i + 1, if i % size == 0 then sofar + [items[i..Min(i + size, |items|)]] else sofar)
  }

  function Chunk<T>(items: seq<T>, size: nat): seq<seq<T>>
    requires size > 0
  {
    ChunkFrom(items, size, 0, [])
  }

  /** Between two multiples of the size the reducer adds nothing. */
  lemma {:induction false} ChunkSkips<T>(items: seq<T>, size: nat, start: nat, i: nat, sofar: seq<seq<T>>)
    requires size > 0 && start % size == 0 && start < i <= |items| && i <= start + size
    ensures ChunkFrom(items, size, i, sofar) == ChunkFrom(items, size, Min(start + size, |items|), sofar)
    decreases |items| - i
  {
    if i < |items| && i < start + size {
      OffMultiple(size, start, i);
      ChunkSkips(items, size, start, i + 1, sofar);
    }
  }

  lemma OffMultiple(size: nat, start: nat, i: nat)
    requires size > 0 && start % size == 0 && start < i < start + size
    ensures i % size == i - start
  {
    DivModUnique(i, size, start / size, i - start);
  }

  lemma FirstBatch<T>(items: seq<T>, size: nat, i: nat)
    requires size > 0 && i < |items|
    ensures var end := Min(i + size, |items|);
            InBatches(items[i..], size) == [items[i..end]] + InBatches(items[end..], size)
  {
    var rest := items[i..];
    var n := Min(size, |rest|);
    assert rest[..n] == items[i..i + n] && rest[n..] == items[i + n..];
  }

  lemma {:induction false} ChunkFromMultiple<T>(items: seq<T>, size: nat, i: nat, sofar: seq<seq<T>>)
    requires size > 0 && i <= |items| && (i % size == 0 || i == |items|)
    ensures ChunkFrom(items, size, i, sofar) == sofar + InBatches(items[i..], size)
    decreases |items| - i
  {
    if i < |items| {
      var end := Min(i + size, |items|);
      var more := sofar + [items[i..end]];
      ChunkSkips(items, size, i, i + 1, more);
      DivModUnique(i + size, size, i / size + 1, 0);
      ChunkFromMultiple(items, size, end, more);
      FirstBatch(items, size, i);
      assert more + InBatches(items[end..], size) == sofar + ([items[i..end]] + InBatches(items[end..], size));
    } else {
      assert items[i..] == [];
    }
  }

  /** Chunking by index arithmetic and splitting by slices are the same. */
  lemma ChunkIsSplit<T>(items: seq<T>, size: nat)
    requires size > 0
    ensures Chunk(items, size) == InBatches(items, size)
  {
    ChunkFromMultiple(items, size, 0, []);
    assert items[0..] == items && [] + InBatches(items, size) == InBatches(items, size);
  }
}

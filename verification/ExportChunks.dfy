/**
  Splitting an export into requests of bounded size (server/lib/events/otlpstorage.go). The
  estimated size of a record is part of the input.
*/
module ExportChunks {

  datatype Record = Record(payload: nat, bytes: nat)

  function Size(records: seq<Record>): nat {
    if records == [] then 0 else records[0].bytes + Size(records[1..])
  }

  function Flatten(chunks: seq<seq<Record>>): seq<Record> {
    if chunks == [] then [] else chunks[0] + Flatten(chunks[1..])
  }

  /** A chunk holds one record or stays within the limit. */
  predicate IsLegal(chunk: seq<Record>, maxBytes: int) {
    chunk != [] && (|chunk| == 1 || Size(chunk) <= maxBytes)
  }

  /** Consecutive legal chunks that hold all the records in order. */
  predicate IsSplit(chunks: seq<seq<Record>>, records: seq<Record>, maxBytes: int) {
    Flatten(chunks) == records && forall k :: 0 <= k < |chunks| ==> IsLegal(chunks[k], maxBytes)
  }

  /** No chunk could have taken the record that follows it. */
  predicate IsFull(chunks: seq<seq<Record>>, maxBytes: int)
  {
    forall k :: 0 < k < |chunks| ==> chunks[k] != [] && Size(chunks[k - 1]) + chunks[k][0].bytes > maxBytes
  }

  lemma {:induction false} SizeJoins(a: seq<Record>, b: seq<Record>)
    ensures Size(a + b) == Size(a) + Size(b)
  {
    if a == [] {
      assert a + b == b;
    } else {
      assert (a + b)[1..] == a[1..] + b;
      SizeJoins(a[1..], b);
    }
  }

  lemma {:induction false} FlattenJoins(a: seq<seq<Record>>, b: seq<seq<Record>>)
    ensures Flatten(a + b) == Flatten(a) + Flatten(b)
  {
    if a == [] {
      assert a + b == b;
    } else {
      assert (a + b)[1..] == a[1..] + b;
      FlattenJoins(a[1..], b);
    }
  }

  lemma FlattenOne(chunk: seq<Record>)
    ensures Flatten([chunk]) == chunk
  {
    assert [chunk][1..] == [] && chunk + [] == chunk;
  }

  /** A legal chunk that starts no later than a full one ends no later than it. */
  lemma NoFurther(before: seq<Record>, full: seq<Record>, after: seq<Record>, chunk: seq<Record>, maxBytes: int)
    requires IsLegal(chunk, maxBytes) && full != [] && after != [] && Size(full) + after[0].bytes > maxBytes
    requires chunk <= before + full + after
    ensures |chunk| <= |before| + |full|
  {
    if |chunk| > |before| + |full| {
      var rest := chunk[|before| + |full|..];
      PrefixSplits(before + full, after, chunk);
      SizeOfFirst(rest);
      SizeJoins(before + full, rest);
      SizeJoins(before, full);
    }
  }

  lemma PrefixSplits(lead: seq<Record>, after: seq<Record>, chunk: seq<Record>)
    requires chunk <= lead + after && |chunk| > |lead|
    ensures chunk == lead + chunk[|lead|..] && chunk[|lead|] == after[0]
  {
    assert chunk[..|lead|] == (lead + after)[..|lead|] == lead;
    assert (lead + after)[|lead|] == after[0];
  }

  lemma SizeOfFirst(records: seq<Record>)
    requires records != []
    ensures Size(records) >= records[0].bytes
  {}

  /** Full chunks that end where other legal chunks end, and start no earlier, are no more. */
  lemma {:induction false} FullIsFewer(chunks: seq<seq<Record>>, other: seq<seq<Record>>, before: seq<Record>,
      maxBytes: int)
    requires forall k :: 0 <= k < |chunks| ==> IsLegal(chunks[k], maxBytes)
    requires forall k :: 0 <= k < |other| ==> IsLegal(other[k], maxBytes)
    requires IsFull(chunks, maxBytes) && Flatten(other) == before + Flatten(chunks)
    ensures |chunks| <= |other|
    decreases |chunks|
  {
    if chunks != [] {
      var first, rest := chunks[0], Flatten(chunks[1..]);
      assert before + (first + rest) == before + first + rest;
      assert Flatten(chunks) == first + rest && IsLegal(first, maxBytes);
      assert |Flatten(other)| == |before| + |first| + |rest|;
      assert other[0] <= Flatten(other);
      if |chunks| > 1 {
        assert rest[0] == chunks[1][0];
        NoFurther(before, first, rest, other[0], maxBytes);
      }
      var left := (before + first)[|other[0]|..];
      assert Flatten(other) == before + first + rest;
      assert Flatten(other[1..]) == Flatten(other)[|other[0]|..];
      assert (before + first + rest)[|other[0]|..] == left + rest;
      forall k | 0 < k < |chunks[1..]|
        ensures chunks[1..][k] != [] && Size(chunks[1..][k - 1]) + chunks[1..][k][0].bytes > maxBytes
      {
        assert chunks[1..][k] == chunks[k + 1] && chunks[1..][k - 1] == chunks[k + 1 - 1];
      }
      FullIsFewer(chunks[1..], other[1..], left, maxBytes);
    }
  }

  /** Closing a chunk that could not take the next record. */
  lemma FullGrows(chunks: seq<seq<Record>>, chunk: seq<Record>, maxBytes: int)
    requires IsFull(chunks, maxBytes) && chunk != []
    requires chunks != [] ==> Size(chunks[|chunks| - 1]) + chunk[0].bytes > maxBytes
    ensures IsFull(chunks + [chunk], maxBytes)
  {}

  lemma CloseChunk(chunks: seq<seq<Record>>, records: seq<Record>, start: nat, i: nat)
    requires start <= i <= |records| && Flatten(chunks) == records[..start]
    ensures Flatten(chunks + [records[start..i]]) == records[..i]
  {
    FlattenJoins(chunks, [records[start..i]]);
    FlattenOne(records[start..i]);
    assert records[..start] + records[start..i] == records[..i];
  }

  lemma OneMore(records: seq<Record>, start: nat, i: nat, maxBytes: int)
    requires start <= i < |records|
    ensures Size(records[start..i + 1]) == Size(records[start..i]) + records[i].bytes
    ensures start == i || Size(records[start..i + 1]) <= maxBytes ==> IsLegal(records[start..i + 1], maxBytes)
  {
    assert records[start..i + 1] == records[start..i] + [records[i]];
    SizeJoins(records[start..i], [records[i]]);
    assert Size([records[i]]) == records[i].bytes;
  }

  /** What the loop knows: the chunks closed so far, and the one being filled. */
  ghost predicate Cut(chunks: seq<seq<Record>>, records: seq<Record>, start: nat, i: nat, maxBytes: int) {
    && start <= i <= |records| && (start < i || (i == 0 && chunks == []))
    && Flatten(chunks) == records[..start] && (start < i ==> IsLegal(records[start..i], maxBytes))
    && (forall k :: 0 <= k < |chunks| ==> IsLegal(chunks[k], maxBytes)) && IsFull(chunks, maxBytes)
    && (chunks != [] ==> Size(chunks[|chunks| - 1]) + records[start].bytes > maxBytes)
  }

  lemma CutTakes(chunks: seq<seq<Record>>, records: seq<Record>, start: nat, i: nat, maxBytes: int)
    requires Cut(chunks, records, start, i, maxBytes) && i < |records|
    requires start == i || Size(records[start..i]) + records[i].bytes <= maxBytes
    ensures Cut(chunks, records, start, i + 1, maxBytes)
  {
    OneMore(records, start, i, maxBytes);
    hide Size, Flatten, IsFull, IsLegal;
  }

  /** The chunk being filled is closed; the next record starts another. */
  lemma CutCloses(chunks: seq<seq<Record>>, records: seq<Record>, start: nat, i: nat, maxBytes: int)
    requires Cut(chunks, records, start, i, maxBytes) && start < i < |records|
    requires Size(records[start..i]) + records[i].bytes > maxBytes
    ensures Cut(chunks + [records[start..i]], records, i, i + 1, maxBytes)
  {
    CloseChunk(chunks, records, start, i);
    FullGrows(chunks, records[start..i], maxBytes);
    OneMore(records, i, i, maxBytes);
    hide Size, Flatten, IsFull, IsLegal;
  }

  lemma CutEnds(chunks: seq<seq<Record>>, records: seq<Record>, start: nat, maxBytes: int)
    requires Cut(chunks, records, start, |records|, maxBytes) && records != []
    ensures IsSplit(chunks + [records[start..]], records, maxBytes) && IsFull(chunks + [records[start..]], maxBytes)
  {
    var i := |records|;
    CloseChunk(chunks, records, start, i);
    FullGrows(chunks, records[start..i], maxBytes);
    assert records[start..i] == records[start..] && records[..i] == records;
    hide Size, Flatten, IsFull, IsLegal;
  }

  /** A full split has no more chunks than any other. */
  lemma FullIsLeast(chunks: seq<seq<Record>>, records: seq<Record>, maxBytes: int)
    requires IsSplit(chunks, records, maxBytes) && IsFull(chunks, maxBytes)
    ensures forall other :: IsSplit(other, records, maxBytes) ==> |chunks| <= |other|
  {
    forall other | IsSplit(other, records, maxBytes) ensures |chunks| <= |other| {
      assert [] + records == records;
      FullIsFewer(chunks, other, [], maxBytes);
    }
  }

  /** The greedy split: in order, legal, and with no more chunks than any other. */
  method ChunkBySize(records: seq<Record>, maxBytes: int) returns (chunks: seq<seq<Record>>)
    ensures IsSplit(chunks, records, maxBytes)
    ensures forall other :: IsSplit(other, records, maxBytes) ==> |chunks| <= |other|
  {
    if |records| == 0 { return []; }
    chunks := [];
    var start, size, i := 0, 0, 0;
    while i < |records|
      invariant Cut(chunks, records, start, i, maxBytes) && size == Size(records[start..i])
    {
      var bytes := records[i].bytes;
      OneMore(records, start, i, maxBytes);
      OneMore(records, i, i, maxBytes);
      EmptySize(records, i);
      if i > start && size + bytes > maxBytes {
        CutCloses(chunks, records, start, i, maxBytes);
        chunks := chunks + [records[start..i]];
        start, size := i, 0;
      } else {
        CutTakes(chunks, records, start, i, maxBytes);
      }
      hide Cut, Size;
      size := size + bytes;
      i := i + 1;
    }
    CutEnds(chunks, records, start, maxBytes);
    chunks := chunks + [records[start..]];
    FullIsLeast(chunks, records, maxBytes);
  }

  lemma EmptySize(records: seq<Record>, i: nat)
    requires i <= |records|
    ensures Size(records[i..i]) == 0
  {}
}

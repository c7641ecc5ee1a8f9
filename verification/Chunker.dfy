/** Splitting a transcript into overlapping windows, and the calls made to summarise it. */
module Chunker {
  import opened Arith
  import Jobs

  const MAX_CHUNK_RUNES: nat := 80_000
  const CHUNK_OVERLAP: nat := 500

  /** How far the window moves: an overlap that leaves no progress counts as none. */
  function Stride(maxSize: int, overlap: int): int {
    if maxSize - overlap <= 0 then maxSize else maxSize - overlap
  }

  /** The windows from a starting position on. */
  function Chunks(runes: string, start: nat, maxSize: int, overlap: int): seq<string>
    requires maxSize > 0
    decreases |runes| - start
  {
    if start >= |runes| then []
    else if start + maxSize >= |runes| then [runes[start..]]
    else [runes[start..start + maxSize]] + Chunks(runes, start + Stride(maxSize, overlap), maxSize, overlap)
  }

  /** The loop terminates for every positive size and any overlap, even a negative one. */
  method SplitIntoChunks(runes: string, maxSize: int, overlap: int) returns (chunks: seq<string>)
    requires maxSize > 0
    ensures chunks == Chunks(runes, 0, maxSize, overlap)
  {
    chunks := [];
    var step := maxSize - overlap;
    if step <= 0 {
      step := maxSize;
    }
    var start := 0;
    while start < |runes|
      invariant 0 <= start && step > 0
      invariant chunks + Chunks(runes, start, maxSize, overlap) == Chunks(runes, 0, maxSize, overlap)
      decreases |runes| - start
    {
      var end := start + maxSize;
      if end > |runes| {
        end := |runes|;
      }
      ghost var before := chunks;
      chunks := chunks + [runes[start..end]];
      if end == |runes| {
        assert runes[start..end] == runes[start..];
        return;
      }
      assert before + ([runes[start..end]] + Chunks(runes, start + step, maxSize, overlap)) ==
             chunks + Chunks(runes, start + step, maxSize, overlap);
      start := start + step;
    }
  }

  // ---- where the windows are ----

  /** The k-th window starts k strides in, and only the last one reaches the end or starts beyond
      what a full window leaves. */
  lemma {:induction false} WindowAt(runes: string, start: nat, maxSize: int, overlap: int, k: nat)
    requires maxSize > 0 && k < |Chunks(runes, start, maxSize, overlap)|
    ensures var from := start + Times(k, Stride(maxSize, overlap));
      && 0 <= from < |runes|
      && Chunks(runes, start, maxSize, overlap)[k] ==
          runes[from..if from + maxSize <= |runes| then from + maxSize else |runes|]
      && (k + 1 < |Chunks(runes, start, maxSize, overlap)| ==> from + maxSize < |runes|)
    decreases k
  {
    hide Times;
    Multiply(k, Stride(maxSize, overlap));
    if k > 0 {
      var step := Stride(maxSize, overlap);
      WindowAt(runes, start + step, maxSize, overlap, k - 1);
      Multiply(k, step);
    }
  }

  /** The last window reaches the end, unless a negative overlap skips over it. */
  lemma {:induction false} LastWindow(runes: string, start: nat, maxSize: int, overlap: int)
    requires maxSize > 0 && start < |runes|
    ensures |Chunks(runes, start, maxSize, overlap)| > 0
    ensures var from := start + Times(|Chunks(runes, start, maxSize, overlap)| - 1, Stride(maxSize, overlap));
      from + maxSize >= |runes| || from + Stride(maxSize, overlap) >= |runes|
    decreases |runes| - start
  {
    hide Times;
    Multiply(0, Stride(maxSize, overlap));
    var step := Stride(maxSize, overlap);
    if start + maxSize < |runes| && start + step < |runes| {
      LastWindow(runes, start + step, maxSize, overlap);
      Multiply(|Chunks(runes, start, maxSize, overlap)| - 1, step);
    }
  }

  /** Every window is non-empty and at most maxSize, and all but the last are exactly that. */
  lemma WindowSizes(runes: string, maxSize: int, overlap: int, k: nat)
    requires maxSize > 0 && k < |Chunks(runes, 0, maxSize, overlap)|
    ensures var c := Chunks(runes, 0, maxSize, overlap);
      0 < |c[k]| <= maxSize && (k + 1 < |c| ==> |c[k]| == maxSize)
  {
    hide Times;
    Multiply(k, Stride(maxSize, overlap));
    WindowAt(runes, 0, maxSize, overlap, k);
  }

  /** How many windows there are, for every overlap that is not negative. */
  lemma WindowCount(runes: string, maxSize: int, overlap: int)
    requires maxSize > 0 && overlap >= 0
    ensures var n := |runes|;
      |Chunks(runes, 0, maxSize, overlap)| ==
        if n == 0 then 0 else if n <= maxSize then 1 else 1 + CeilDiv(n - maxSize, Stride(maxSize, overlap))
  {
    hide Times;
    Multiply(0, Stride(maxSize, overlap));
    var c := Chunks(runes, 0, maxSize, overlap);
    if |runes| > maxSize {
      var step := Stride(maxSize, overlap);
      LastWindow(runes, 0, maxSize, overlap);
      assert |c| >= 2;
      WindowAt(runes, 0, maxSize, overlap, |c| - 2);
      CeilDivUnique(|runes| - maxSize, step, |c| - 1);
    }
  }

  // ---- rebuilding the text ----

  /** What neighbours share. */
  function Shared(maxSize: int, overlap: int): int {
    maxSize - Stride(maxSize, overlap)
  }

  /** Each window after the first without its first runes. */
  function Rebuild(chunks: seq<string>, shared: nat): string
    requires forall k | 0 < k < |chunks| :: shared <= |chunks[k]|
  {
    if chunks == [] then []
    else if |chunks| == 1 then chunks[0]
    else Rebuild(chunks[..|chunks| - 1], shared) + chunks[|chunks| - 1][shared..]
  }

  /** Neighbours share exactly the overlap, as the end of one and the start of the other. */
  lemma NeighboursShare(runes: string, maxSize: int, overlap: int, k: nat)
    requires maxSize > 0 && overlap >= 0 && k + 1 < |Chunks(runes, 0, maxSize, overlap)|
    ensures var c := Chunks(runes, 0, maxSize, overlap);
      var shared := if overlap < maxSize then overlap else 0;
      && shared == Shared(maxSize, overlap)
      && shared < |c[k + 1]| && shared <= |c[k]|
      && c[k][|c[k]| - shared..] == c[k + 1][..shared]
  {
    hide Times, Chunks;
    Multiply(k, Stride(maxSize, overlap));
    var c := Chunks(runes, 0, maxSize, overlap);
    var step := Stride(maxSize, overlap);
    WindowAt(runes, 0, maxSize, overlap, k);
    WindowAt(runes, 0, maxSize, overlap, k + 1);
    Multiply(k + 1, step);
    var from := Times(k, step);
    var next := from + step;
    assert Times(k + 1, step) == next;
    var end := if next + maxSize <= |runes| then next + maxSize else |runes|;
    assert c[k] == runes[from..from + maxSize] && c[k + 1] == runes[next..end];
    SliceOfSlice(runes, from, from + maxSize, step, maxSize);
    SliceOfSlice(runes, next, end, 0, maxSize - step);
  }

  lemma SliceOfSlice(s: string, a: nat, b: nat, c: nat, d: nat)
    requires a <= b <= |s| && c <= d <= b - a
    ensures s[a..b][c..d] == s[a + c..a + d]
  {
    forall i | 0 <= i < d - c ensures s[a..b][c..d][i] == s[a + c..a + d][i] {
      assert s[a..b][c + i] == s[a + c + i];
    }
  }

  lemma {:induction false} RebuildPrefix(runes: string, maxSize: int, overlap: int, k: nat)
    requires maxSize > 0 && overlap >= 0 && k < |Chunks(runes, 0, maxSize, overlap)|
    requires forall i | 0 < i < |Chunks(runes, 0, maxSize, overlap)| ::
        Shared(maxSize, overlap) <= |Chunks(runes, 0, maxSize, overlap)[i]|
    ensures var from := Times(k, Stride(maxSize, overlap));
      && 0 <= from < |runes|
      && Rebuild(Chunks(runes, 0, maxSize, overlap)[..k + 1], Shared(maxSize, overlap)) ==
           runes[..if from + maxSize <= |runes| then from + maxSize else |runes|]
    decreases k
  {
    hide Times;
    Multiply(k, Stride(maxSize, overlap));
    var c := Chunks(runes, 0, maxSize, overlap);
    WindowAt(runes, 0, maxSize, overlap, k);
    if k > 0 {
      RebuildPrefix(runes, maxSize, overlap, k - 1);
      WindowAt(runes, 0, maxSize, overlap, k - 1);
      Multiply(k, Stride(maxSize, overlap));
      assert c[..k + 1][..k] == c[..k];
    }
  }

  /** Dropping the shared prefix of every window but the first gives back the text. With an overlap
      of maxSize or more nothing is shared and the windows are an exact partition. */
  lemma WindowsRebuildTheText(runes: string, maxSize: int, overlap: int)
    requires maxSize > 0 && overlap >= 0
    ensures var c := Chunks(runes, 0, maxSize, overlap);
      var shared := if overlap < maxSize then overlap else 0;
      && (forall k | 0 < k < |c| :: shared <= |c[k]|)
      && Rebuild(c, shared) == runes
  {
    hide Times;
    Multiply(0, Stride(maxSize, overlap));
    var c := Chunks(runes, 0, maxSize, overlap);
    forall k | 0 < k < |c| ensures Shared(maxSize, overlap) <= |c[k]| {
      NeighboursShare(runes, maxSize, overlap, k - 1);
    }
    if runes != [] {
      LastWindow(runes, 0, maxSize, overlap);
      RebuildPrefix(runes, maxSize, overlap, |c| - 1);
      assert c[..|c|] == c;
    }
  }

  // ---- who sees a rune ----

  /** Is position i inside the k-th window? */
  predicate Sees(runes: string, maxSize: int, overlap: int, k: nat, i: nat)
    requires maxSize > 0
  {
    && k < |Chunks(runes, 0, maxSize, overlap)|
    && Times(k, Stride(maxSize, overlap)) <= i
    && i < Times(k, Stride(maxSize, overlap)) + |Chunks(runes, 0, maxSize, overlap)[k]|
  }

  predicate InThree(runes: string, maxSize: int, overlap: int, i: nat, j: nat, k: nat, l: nat)
    requires maxSize > 0
  {
    j < k < l && Sees(runes, maxSize, overlap, j, i) && Sees(runes, maxSize, overlap, k, i)
        && Sees(runes, maxSize, overlap, l, i)
  }

  lemma ThreeNeedsAShortStride(runes: string, maxSize: int, overlap: int, i: nat, j: nat, k: nat, l: nat)
    requires maxSize > 0 && InThree(runes, maxSize, overlap, i, j, k, l)
    ensures |Chunks(runes, 0, maxSize, overlap)| >= 3 && 2 * Stride(maxSize, overlap) < maxSize
  {
    hide Times;
    var step := Stride(maxSize, overlap);
    WindowSizes(runes, maxSize, overlap, j);
    MulMonotone(j + 2, l, step);
    Multiply(j + 2, step);
    Multiply(j + 1, step);
  }

  /** Some rune is in three windows exactly if there are three and the stride is below half a window. */
  lemma ThreeWindowsExactlyWhen(runes: string, maxSize: int, overlap: int)
    requires maxSize > 0
    ensures (exists i: nat, j: nat, k: nat, l: nat :: InThree(runes, maxSize, overlap, i, j, k, l))
      <==> (|Chunks(runes, 0, maxSize, overlap)| >= 3 && 2 * Stride(maxSize, overlap) < maxSize)
  {
    hide Times;
    Multiply(0, Stride(maxSize, overlap));
    var c := Chunks(runes, 0, maxSize, overlap);
    var step := Stride(maxSize, overlap);
    if i: nat, j: nat, k: nat, l: nat :| InThree(runes, maxSize, overlap, i, j, k, l) {
      ThreeNeedsAShortStride(runes, maxSize, overlap, i, j, k, l);
    }
    if |c| >= 3 && 2 * step < maxSize {
      WindowAt(runes, 0, maxSize, overlap, 0);
      WindowAt(runes, 0, maxSize, overlap, 1);
      WindowAt(runes, 0, maxSize, overlap, 2);
      assert InThree(runes, maxSize, overlap, 2 * step, 0, 1, 2);
    }
  }

  /** So with an overlap of at most half a window, no rune is in three. */
  lemma HalfOverlapIsEnough(runes: string, maxSize: int, overlap: int, i: nat, j: nat, k: nat, l: nat)
    requires maxSize > 0 && 2 * overlap <= maxSize
    ensures !InThree(runes, maxSize, overlap, i, j, k, l)
  {
    if InThree(runes, maxSize, overlap, i, j, k, l) {
      ThreeNeedsAShortStride(runes, maxSize, overlap, i, j, k, l);
    }
  }

  predicate Seen(runes: string, maxSize: int, overlap: int, i: nat)
    requires maxSize > 0
  {
    exists k | 0 <= k < |Chunks(runes, 0, maxSize, overlap)| :: Sees(runes, maxSize, overlap, k, i)
  }

  predicate Covered(runes: string, maxSize: int, overlap: int)
    requires maxSize > 0
  {
    forall i | 0 <= i < |runes| :: Seen(runes, maxSize, overlap, i)
  }

  lemma {:induction false} SeenUpTo(runes: string, maxSize: int, overlap: int, k: nat, i: nat)
    requires maxSize > 0 && overlap >= 0 && k < |Chunks(runes, 0, maxSize, overlap)|
    requires i < Times(k, Stride(maxSize, overlap)) + |Chunks(runes, 0, maxSize, overlap)[k]|
    ensures Seen(runes, maxSize, overlap, i)
    decreases k
  {
    hide Times;
    Multiply(k, Stride(maxSize, overlap));
    WindowAt(runes, 0, maxSize, overlap, k);
    if i >= Times(k, Stride(maxSize, overlap)) {
      assert Sees(runes, maxSize, overlap, k, i);
    } else {
      WindowSizes(runes, maxSize, overlap, k - 1);
      Multiply(k, Stride(maxSize, overlap));
      SeenUpTo(runes, maxSize, overlap, k - 1, i);
    }
  }

  lemma GapAfterTheFirst(runes: string, maxSize: int, overlap: int)
    requires maxSize > 0 && overlap < 0
    ensures !Seen(runes, maxSize, overlap, maxSize)
  {
    hide Times;
    Multiply(0, Stride(maxSize, overlap));
    forall k | 0 <= k < |Chunks(runes, 0, maxSize, overlap)| ensures !Sees(runes, maxSize, overlap, k, maxSize) {
      if k == 0 {
        WindowSizes(runes, maxSize, overlap, 0);
      } else {
        MulMonotone(1, k, Stride(maxSize, overlap));
      }
    }
  }

  /** The windows cover the text exactly if the overlap is not negative or one window is enough. */
  lemma CoveredExactlyWhen(runes: string, maxSize: int, overlap: int)
    requires maxSize > 0
    ensures Covered(runes, maxSize, overlap) <==> overlap >= 0 || |runes| <= maxSize
  {
    hide Times;
    Multiply(0, Stride(maxSize, overlap));
    var c := Chunks(runes, 0, maxSize, overlap);
    if overlap >= 0 && runes != [] {
      LastWindow(runes, 0, maxSize, overlap);
      WindowAt(runes, 0, maxSize, overlap, |c| - 1);
      forall i | 0 <= i < |runes| ensures Seen(runes, maxSize, overlap, i) {
        SeenUpTo(runes, maxSize, overlap, |c| - 1, i);
      }
    } else if |runes| <= maxSize {
      forall i | 0 <= i < |runes| ensures Seen(runes, maxSize, overlap, i) {
        assert Sees(runes, maxSize, overlap, 0, i);
      }
    } else {
      GapAfterTheFirst(runes, maxSize, overlap);
      assert !Seen(runes, maxSize, overlap, maxSize);
    }
  }

  // ---- the calls to the model ----

  /** What is asked: the whole transcript, one labelled part of it, or the merge of partial outputs. */
  datatype Ask<Output> =
    | Whole(text: string)
    | Part(number: nat, count: nat, text: string)
    | Merge(partials: seq<Output>)

  /** Summarize and mapReduce. The model's answers are arbitrary, one per call; None is a failure. */
  method Summarize<Output>(transcript: string, answers: nat -> Jobs.Option<Output>)
      returns (calls: seq<Ask<Output>>, result: Jobs.Option<Output>)
    ensures |transcript| <= MAX_CHUNK_RUNES ==> calls == [Whole(transcript)] && result == answers(0)
    ensures |transcript| > MAX_CHUNK_RUNES ==>
      var parts := Chunks(transcript, 0, MAX_CHUNK_RUNES, CHUNK_OVERLAP);
      && 0 < |calls| <= |parts| + 1
      && (forall i | 0 <= i < |calls| && i < |parts| :: calls[i] == Part(i + 1, |parts|, parts[i]))
      && (forall i | 0 <= i < |calls| - 1 :: answers(i).Some?)
      && (|calls| <= |parts| ==> answers(|calls| - 1) == Jobs.None && result == Jobs.None)
      && (|calls| == |parts| + 1 ==>
            && calls[|parts|].Merge? && |calls[|parts|].partials| == |parts|
            && (forall i | 0 <= i < |parts| :: answers(i) == Jobs.Some(calls[|parts|].partials[i]))
            && result == answers(|parts|))
  {
    if |transcript| <= MAX_CHUNK_RUNES {
      return [Whole(transcript)], answers(0);
    }
    var chunks := SplitIntoChunks(transcript, MAX_CHUNK_RUNES, CHUNK_OVERLAP);
    var partials: seq<Output> := [];
    calls := [];
    for i := 0 to |chunks|
      invariant |calls| == |partials| == i
      invariant forall k | 0 <= k < i :: calls[k] == Part(k + 1, |chunks|, chunks[k])
      invariant forall k | 0 <= k < i :: answers(k) == Jobs.Some(partials[k])
    {
      calls := calls + [Part(i + 1, |chunks|, chunks[i])];
      var partial := answers(i);
      if partial.None? {
        return calls, Jobs.None;
      }
      partials := partials + [partial.value];
    }
    calls := calls + [Merge(partials)];
    result := answers(|chunks|);
  }

  /** How many calls a transcript takes when none fails. */
  function CallsFor(n: nat): nat {
    if n <= MAX_CHUNK_RUNES then 1 else 2 + (n - MAX_CHUNK_RUNES + 79_499) / 79_500
  }

  /** The last n runes of part k are the first n of the next. */
  predicate EndIsStart(parts: seq<string>, k: nat, n: nat)
    requires k + 1 < |parts|
  {
    n <= |parts[k]| && n <= |parts[k + 1]| && parts[k][|parts[k]| - n..] == parts[k + 1][..n]
  }

  /** The parts that are sent for a long transcript: their number is known from its length, neighbours
      share exactly 500 runes, dropping these gives back the transcript, and no rune is in three parts. */
  lemma PartsOfATranscript(transcript: string)
    requires |transcript| > MAX_CHUNK_RUNES
    ensures var parts := Chunks(transcript, 0, MAX_CHUNK_RUNES, CHUNK_OVERLAP);
      && |parts| + 1 == CallsFor(|transcript|)
      && (forall k | 0 < k < |parts| :: CHUNK_OVERLAP <= |parts[k]|)
      && (forall k | 0 <= k < |parts| - 1 :: EndIsStart(parts, k, CHUNK_OVERLAP))
      && Rebuild(parts, CHUNK_OVERLAP) == transcript
    ensures forall i: nat, j: nat, k: nat, l: nat :: !InThree(transcript, MAX_CHUNK_RUNES, CHUNK_OVERLAP, i, j, k, l)
  {
    var parts := Chunks(transcript, 0, MAX_CHUNK_RUNES, CHUNK_OVERLAP);
    WindowCount(transcript, MAX_CHUNK_RUNES, CHUNK_OVERLAP);
    forall k | 0 <= k < |parts| - 1 ensures EndIsStart(parts, k, CHUNK_OVERLAP) {
      NeighboursShare(transcript, MAX_CHUNK_RUNES, CHUNK_OVERLAP, k);
    }
    WindowsRebuildTheText(transcript, MAX_CHUNK_RUNES, CHUNK_OVERLAP);
    forall i: nat, j: nat, k: nat, l: nat ensures !InThree(transcript, MAX_CHUNK_RUNES, CHUNK_OVERLAP, i, j, k, l) {
      HalfOverlapIsEnough(transcript, MAX_CHUNK_RUNES, CHUNK_OVERLAP, i, j, k, l);
    }
  }
}

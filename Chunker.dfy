/** The sliding-window text chunker of `backend/services/chunker.py`:
    windows of `chunkSize` characters whose starts advance by
    `chunkSize - overlap`. */
module Chunker {
  import opened Common

  const DefaultChunkSize: int := 500
  const DefaultOverlap: int := 50

  /** ceil(len / stride): how many windows start inside a text of length `len`. */
  function ChunkCount(len: nat, stride: nat): nat
    requires stride > 0
  {
    (len + stride - 1) / stride
  }

  /** The k-th window: `text[k*stride : min(k*stride + chunkSize, len)]`. */
  function Window(text: string, chunkSize: nat, stride: nat, k: nat): string
    requires k * stride <= |text|
  {
    text[k * stride .. Min(k * stride + chunkSize, |text|)]
  }

  /** What `chunk_text` returns: the text itself when it fits in one chunk,
      otherwise every window that starts inside the text, in order. */
  function Chunks(text: string, chunkSize: nat, overlap: int): (r: seq<string>)
    requires |text| <= chunkSize || overlap < chunkSize
  {
    var stride := chunkSize - overlap;
    if |text| <= chunkSize then [text]
    else
      var n := ChunkCount(|text|, stride);
      assert forall k :: 0 <= k < n ==> k * stride < |text| by {
        forall k | 0 <= k < n ensures k * stride < |text| { CountBounds(|text|, stride, k); }
      }
      seq(n, k requires 0 <= k < n => Window(text, chunkSize, stride, k))
  }

  lemma MulMono(a: nat, b: nat, s: nat)
    requires a <= b
    ensures a * s <= b * s
  {
  }

  /** The windows that start inside the text are exactly the first ChunkCount. */
  lemma CountBounds(len: nat, stride: nat, m: nat)
    requires stride > 0
    ensures m < ChunkCount(len, stride) <==> m * stride < len
  {
    var c := ChunkCount(len, stride);
    var x := len + stride - 1;
    assert c * stride <= x < c * stride + stride by {
      assert c * stride + x % stride == x;
    }
    if m < c {
      MulMono(m + 1, c, stride);
      assert m * stride + stride == (m + 1) * stride;
    } else {
      MulMono(c, m, stride);
    }
  }

  /** `chunk_text`: a text no longer than `chunkSize` is its own single
      chunk; a longer one is cut into windows until a start reaches the end.
      The loop is only reached for a longer text, and it only ends when
      `chunkSize > overlap`. */
  method ChunkText(text: string, chunkSize: int, overlap: int) returns (chunks: seq<string>)
    requires 0 <= chunkSize && (|text| <= chunkSize || overlap < chunkSize)
    ensures chunks == Chunks(text, chunkSize, overlap)
    ensures |text| <= chunkSize ==> chunks == [text]
    ensures |text| > chunkSize ==>
      |chunks| == ChunkCount(|text|, chunkSize - overlap)
      && forall k :: 0 <= k < |chunks| ==>
           k * (chunkSize - overlap) < |text|
           && chunks[k] == Window(text, chunkSize, chunkSize - overlap, k)
    ensures forall k :: 0 <= k < |chunks| ==>
      |chunks[k]| <= chunkSize && (chunks[k] == [] ==> text == [] || chunkSize == 0)
  {
    var textLen := |text|;
    if textLen <= chunkSize {
      return [text];
    }
    var stride := chunkSize - overlap;
    chunks := [];
    var start := 0;
    while start < textLen
      invariant start == |chunks| * stride
      invariant chunks != [] ==> (|chunks| - 1) * stride < textLen
      invariant WindowsSoFar(text, chunkSize, stride, chunks)
      decreases textLen - start
    {
      var end := Min(start + chunkSize, textLen);
      NextWindow(text, chunkSize, stride, chunks, start);
      chunks := chunks + [text[start..end]];
      start := start + stride;
      if start >= textLen {
        break;
      }
    }
    CountExact(textLen, stride, |chunks|);
    assert chunks == Chunks(text, chunkSize, overlap);
  }

  /** The chunks collected so far are the first windows, in order. */
  ghost predicate WindowsSoFar(text: string, chunkSize: nat, stride: nat, chunks: seq<string>) {
    forall k :: 0 <= k < |chunks| ==>
      k * stride < |text| && chunks[k] == Window(text, chunkSize, stride, k)
      && |chunks[k]| <= chunkSize && (chunkSize > 0 ==> chunks[k] != [])
  }

  /** One loop step: the slice at `start` is the next window. */
  lemma NextWindow(text: string, chunkSize: nat, stride: nat, chunks: seq<string>, start: nat)
    requires start == |chunks| * stride && start < |text|
    requires WindowsSoFar(text, chunkSize, stride, chunks)
    ensures WindowsSoFar(text, chunkSize, stride, chunks + [text[start..Min(start + chunkSize, |text|)]])
    ensures start + stride == (|chunks| + 1) * stride
  {
  }

  lemma CountExact(len: nat, stride: nat, m: nat)
    requires stride > 0 && 0 < m
    requires (m - 1) * stride < len <= m * stride
    ensures m == ChunkCount(len, stride)
  {
    CountBounds(len, stride, m);
    CountBounds(len, stride, m - 1);
  }

  lemma WindowLength(text: string, chunkSize: nat, stride: nat, k: nat)
    requires k * stride < |text|
    ensures |Window(text, chunkSize, stride, k)| <= chunkSize
    ensures chunkSize > 0 ==> Window(text, chunkSize, stride, k) != []
  {
  }

  /** With a non-negative overlap, every character of a text longer than one
      chunk lies in some window, and the last window ends at the end of the
      text. */
  lemma {:induction false} WindowsCoverText(text: string, chunkSize: nat, overlap: int, i: nat)
    requires 0 <= overlap < chunkSize < |text|
    requires i < |text|
    ensures var stride := chunkSize - overlap;
      var n := ChunkCount(|text|, stride);
      var k := i / stride;
      k < n && k * stride <= i < Min(k * stride + chunkSize, |text|)
      && (n - 1) * stride < |text| <= (n - 1) * stride + chunkSize
  {
    var stride := chunkSize - overlap;
    var n := ChunkCount(|text|, stride);
    var k := i / stride;
    assert k * stride + i % stride == i;
    CountBounds(|text|, stride, k);
    CountBounds(|text|, stride, n);
    CountBounds(|text|, stride, n - 1);
    assert n * stride == (n - 1) * stride + stride;
  }

  /** Consecutive windows overlap: what follows the first `stride`
      characters of window k is a prefix of window k+1 (with full windows,
      the shared part is exactly `overlap` characters long). */
  lemma ConsecutiveWindowsOverlap(text: string, chunkSize: nat, overlap: int, k: nat)
    requires 0 <= overlap < chunkSize
    requires (k + 1) * (chunkSize - overlap) < |text|
    ensures var stride := chunkSize - overlap;
      var w := Window(text, chunkSize, stride, k);
      var next := Window(text, chunkSize, stride, k + 1);
      stride <= |w| && w[stride..] <= next
      && (k * stride + chunkSize <= |text| ==> |w[stride..]| == overlap)
  {
    var stride := chunkSize - overlap;
    var start := k * stride;
    assert (k + 1) * stride == start + stride;
    var w := Window(text, chunkSize, stride, k);
    var next := Window(text, chunkSize, stride, k + 1);
    var end := Min(start + chunkSize, |text|);
    assert w == text[start..end];
    assert next == text[start + stride .. Min(start + stride + chunkSize, |text|)];
    assert w[stride..] == text[start + stride .. end];
  }

  /** With the defaults (500 and 50) the starts are 450 apart and a text of
      n > 500 characters gives ceil(n / 450) chunks. */
  lemma DefaultStride(text: string, k: nat)
    requires |text| > DefaultChunkSize
    requires k * 450 < |text|
    ensures ChunkCount(|text|, DefaultChunkSize - DefaultOverlap) == (|text| + 449) / 450
    ensures Window(text, DefaultChunkSize, DefaultChunkSize - DefaultOverlap, k)
         == text[450 * k .. Min(450 * k + 500, |text|)]
  {
  }
}

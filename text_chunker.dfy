/**
  The character chunker used by ingestion: a window of `chunkSize`
  characters slides over the text, each window starting
  `chunkSize - effectiveOverlap` characters after the previous one, until a
  window reaches the end of the text.
*/
module TextChunker {
  import opened Wrappers
  import opened JavaText

  function Min(a: int, b: int): int { if a <= b then a else b }

  /** `Math.max(0, Math.min(overlap, chunkSize))`. */
  function EffectiveOverlap(chunkSize: int, overlap: int): (e: int)
    ensures 0 <= e
    ensures e <= chunkSize || e == 0
    ensures e <= overlap || e == 0
    ensures 0 <= overlap <= chunkSize ==> e == overlap
    ensures overlap >= chunkSize >= 0 ==> e == chunkSize
  {
    if Min(overlap, chunkSize) < 0 then 0 else Min(overlap, chunkSize)
  }

  /** Null or blank text: the chunker returns at once. */
  predicate NothingToChunk(text: Option<string>) {
    text.None? || IsBlank(text.value)
  }

  /** The inputs on which `chunk` returns. With a positive `chunkSize`,
      either one window covers the whole text or each window starts
      strictly after the previous one. (A negative `chunkSize` makes the
      first `substring` throw; a zero `chunkSize`, or an overlap as large as
      `chunkSize` on a longer text, makes the loop run forever.) */
  predicate Terminates(text: Option<string>, chunkSize: int, overlap: int) {
    NothingToChunk(text)
    || (1 <= chunkSize && (|text.value| <= chunkSize || EffectiveOverlap(chunkSize, overlap) < chunkSize))
  }

  /** The windows from `start` on, as the loop emits them. */
  function ChunksFrom(text: string, start: nat, size: nat, overlap: nat): (chunks: seq<string>)
    requires 1 <= size && overlap <= size && start < |text|
    requires start + size < |text| ==> overlap < size
    ensures |chunks| >= 1
    ensures chunks[0] == text[start..Min(start + size, |text|)]
    decreases |text| - start
  {
    var end := Min(start + size, |text|);
    if end == |text| then [text[start..end]]
    else [text[start..end]] + ChunksFrom(text, end - overlap, size, overlap)
  }

  /** What `chunk(text, chunkSize, overlap)` returns. */
  function Chunks(text: Option<string>, chunkSize: int, overlap: int): seq<string>
    requires Terminates(text, chunkSize, overlap)
  {
    if NothingToChunk(text) then []
    else ChunksFrom(text.value, 0, chunkSize, EffectiveOverlap(chunkSize, overlap))
  }

  /** `TextChunker.chunk`. */
  method Chunk(text: Option<string>, chunkSize: int, overlap: int) returns (chunks: seq<string>)
    requires Terminates(text, chunkSize, overlap)
    ensures chunks == Chunks(text, chunkSize, overlap)
  {
    chunks := [];
    if text.None? || IsBlank(text.value) {
      return;
    }
    var t := text.value;
    var start := 0;
    var length := |t|;
    var effectiveOverlap := EffectiveOverlap(chunkSize, overlap);
    while start < length
      invariant 0 <= start < length
      invariant start + chunkSize < length ==> effectiveOverlap < chunkSize
      invariant Emitted(t, start, chunkSize, effectiveOverlap, chunks) == Emitted(t, 0, chunkSize, effectiveOverlap, [])
      decreases length - start
    {
      var end := Min(start + chunkSize, length);
      chunks := chunks + [t[start..end]];
      if end == length {
        break;
      }
      start := end - effectiveOverlap;
    }
    assert chunks == ChunksFrom(t, 0, chunkSize, effectiveOverlap) by {
      EmittedIsChunksFrom(t, 0, chunkSize, effectiveOverlap, []);
      assert [] + ChunksFrom(t, 0, chunkSize, effectiveOverlap) == ChunksFrom(t, 0, chunkSize, effectiveOverlap);
    }
  }

  /** The loop of `chunk` from `start` on, with `done` already emitted: what
      the list holds when the loop stops. */
  function Emitted(text: string, start: nat, size: nat, overlap: nat, done: seq<string>): seq<string>
    requires 1 <= size && overlap <= size && start < |text|
    requires start + size < |text| ==> overlap < size
    decreases |text| - start
  {
    var end := Min(start + size, |text|);
    if end == |text| then done + [text[start..end]]
    else Emitted(text, end - overlap, size, overlap, done + [text[start..end]])
  }

  /** The loop appends exactly the windows from `start` on. */
  lemma {:induction false} EmittedIsChunksFrom(text: string, start: nat, size: nat, overlap: nat, done: seq<string>)
    requires 1 <= size && overlap <= size && start < |text|
    requires start + size < |text| ==> overlap < size
    ensures Emitted(text, start, size, overlap, done) == done + ChunksFrom(text, start, size, overlap)
    decreases |text| - start
  {
    var end := Min(start + size, |text|);
    if end < |text| {
      var window := text[start..end];
      var rest := ChunksFrom(text, end - overlap, size, overlap);
      EmittedIsChunksFrom(text, end - overlap, size, overlap, done + [window]);
      assert (done + [window]) + rest == done + ([window] + rest);
    }
  }

  /** One turn of the loop: the window at `start`, then the windows after it. */
  lemma ChunksFromStep(text: string, start: nat, size: nat, overlap: nat)
    requires 1 <= size && overlap <= size && start < |text|
    requires start + size < |text| ==> overlap < size
    ensures var end := Min(start + size, |text|);
      && (end == |text| ==> ChunksFrom(text, start, size, overlap) == [text[start..end]])
      && (end < |text| ==>
            ChunksFrom(text, start, size, overlap)
            == [text[start..end]] + ChunksFrom(text, end - overlap, size, overlap))
  {
  }

  // ---------------------------------------------------------------------------
  // Properties of the windows

  /** Where the `i`-th window starts. */
  function WindowStart(start: nat, size: nat, overlap: nat, i: nat): nat
    requires overlap <= size
  {
    start + i * (size - overlap)
  }

  /** Window `i` is the text from `start + i * (size - overlap)`, at most
      `size` characters long and never empty. */
  lemma {:induction false} ChunkFromWindow(text: string, start: nat, size: nat, overlap: nat, i: nat)
    requires 1 <= size && overlap <= size && start < |text|
    requires start + size < |text| ==> overlap < size
    requires i < |ChunksFrom(text, start, size, overlap)|
    ensures WindowStart(start, size, overlap, i) < |text|
    ensures ChunksFrom(text, start, size, overlap)[i]
         == text[WindowStart(start, size, overlap, i)..Min(WindowStart(start, size, overlap, i) + size, |text|)]
    decreases i
  {
    var chunks := ChunksFrom(text, start, size, overlap);
    var end := Min(start + size, |text|);
    if i == 0 {
      assert WindowStart(start, size, overlap, 0) == start;
    } else {
      var next := end - overlap;
      var rest := ChunksFrom(text, next, size, overlap);
      assert chunks == [text[start..end]] + rest;
      assert chunks[i] == rest[i - 1];
      ChunkFromWindow(text, next, size, overlap, i - 1);
      WindowShift(start, size, overlap, i);
    }
  }

  /** The `i`-th window from `start` is the `(i - 1)`-th from the next start. */
  lemma WindowShift(start: nat, size: nat, overlap: nat, i: nat)
    requires overlap <= size && 1 <= i
    ensures WindowStart(start, size, overlap, i) == WindowStart(start + size - overlap, size, overlap, i - 1)
  {
    assert i * (size - overlap) == (size - overlap) + (i - 1) * (size - overlap);
  }

  /** Every chunk is non-empty and at most `chunkSize` characters long. */
  lemma ChunkLengths(text: Option<string>, chunkSize: int, overlap: int)
    requires Terminates(text, chunkSize, overlap)
    ensures forall c :: c in Chunks(text, chunkSize, overlap) ==> 1 <= |c| <= chunkSize
  {
    if !NothingToChunk(text) {
      var t, e := text.value, EffectiveOverlap(chunkSize, overlap);
      var chunks := ChunksFrom(t, 0, chunkSize, e);
      forall c | c in chunks
        ensures 1 <= |c| <= chunkSize
      {
        var i :| 0 <= i < |chunks| && chunks[i] == c;
        ChunkFromWindow(t, 0, chunkSize, e, i);
      }
    }
  }

  /** The `i`-th chunk is the text from `i * (chunkSize - effectiveOverlap)`
      for `chunkSize` characters, or to the end of the text. */
  lemma ChunkPositions(text: Option<string>, chunkSize: int, overlap: int, i: nat)
    requires Terminates(text, chunkSize, overlap)
    requires i < |Chunks(text, chunkSize, overlap)|
    ensures var t, step := text.value, chunkSize - EffectiveOverlap(chunkSize, overlap);
      && i * step < |t|
      && Chunks(text, chunkSize, overlap)[i] == t[i * step..Min(i * step + chunkSize, |t|)]
  {
    var t, e := text.value, EffectiveOverlap(chunkSize, overlap);
    var chunks := ChunksFrom(t, 0, chunkSize, e);
    assert Chunks(text, chunkSize, overlap) == chunks;
    var w := WindowStart(0, chunkSize, e, i);
    assert w < |t| && chunks[i] == t[w..Min(w + chunkSize, |t|)] by {
      ChunkFromWindow(t, 0, chunkSize, e, i);
    }
    assert w == i * (chunkSize - e);
  }

  /** The last window ends exactly at the end of the text. */
  lemma {:induction false} LastChunkFrom(text: string, start: nat, size: nat, overlap: nat)
    requires 1 <= size && overlap <= size && start < |text|
    requires start + size < |text| ==> overlap < size
    ensures var chunks := ChunksFrom(text, start, size, overlap);
      var last := chunks[|chunks| - 1];
      |last| <= |text| && last == text[|text| - |last|..]
    decreases |text| - start
  {
    var chunks := ChunksFrom(text, start, size, overlap);
    var end := Min(start + size, |text|);
    if end < |text| {
      var rest := ChunksFrom(text, end - overlap, size, overlap);
      assert chunks == [text[start..end]] + rest;
      LastChunkFrom(text, end - overlap, size, overlap);
      assert chunks[|chunks| - 1] == rest[|rest| - 1];
    } else {
      assert chunks == [text[start..end]];
    }
  }

  /** The first chunk starts at index 0 and the last one ends at the end of the text. */
  lemma FirstAndLastChunk(text: Option<string>, chunkSize: int, overlap: int)
    requires Terminates(text, chunkSize, overlap) && !NothingToChunk(text)
    ensures var chunks, t := Chunks(text, chunkSize, overlap), text.value;
      && |chunks| >= 1
      && chunks[0] == t[..Min(chunkSize, |t|)]
      && |chunks[|chunks| - 1]| <= |t|
      && chunks[|chunks| - 1] == t[|t| - |chunks[|chunks| - 1]|..]
  {
    LastChunkFrom(text.value, 0, chunkSize, EffectiveOverlap(chunkSize, overlap));
  }

  lemma {:induction false} OverlapFrom(text: string, start: nat, size: nat, overlap: nat, i: nat)
    requires 1 <= size && overlap <= size && start < |text|
    requires start + size < |text| ==> overlap < size
    requires i + 1 < |ChunksFrom(text, start, size, overlap)|
    ensures var chunks := ChunksFrom(text, start, size, overlap);
      && |chunks[i]| == size && overlap <= |chunks[i + 1]|
      && chunks[i][size - overlap..] == chunks[i + 1][..overlap]
    decreases |text| - start
  {
    var end := Min(start + size, |text|);
    assert end < |text|;
    var next := end - overlap;
    if i > 0 {
      OverlapFrom(text, next, size, overlap, i - 1);
    }
  }

  /** Consecutive chunks share `effectiveOverlap` characters: the end of one
      is the beginning of the next, and every chunk but the last is
      `chunkSize` characters long. */
  lemma ChunkOverlap(text: Option<string>, chunkSize: int, overlap: int, i: nat)
    requires Terminates(text, chunkSize, overlap)
    requires i + 1 < |Chunks(text, chunkSize, overlap)|
    ensures var chunks, e := Chunks(text, chunkSize, overlap), EffectiveOverlap(chunkSize, overlap);
      && |chunks[i]| == chunkSize && e <= |chunks[i + 1]|
      && chunks[i][chunkSize - e..] == chunks[i + 1][..e]
  {
    OverlapFrom(text.value, 0, chunkSize, EffectiveOverlap(chunkSize, overlap), i);
  }

  // ---------------------------------------------------------------------------
  // Reassembly

  /** Each chunk with its first `overlap` characters dropped, concatenated. */
  function DropOverlaps(chunks: seq<string>, overlap: nat): string {
    if chunks == [] then ""
    else
      var first := if overlap <= |chunks[0]| then chunks[0][overlap..] else "";
      first + DropOverlaps(chunks[1..], overlap)
  }

  /** The first chunk followed by the later ones without their overlap. */
  function Reassemble(chunks: seq<string>, overlap: nat): string {
    if chunks == [] then "" else chunks[0] + DropOverlaps(chunks[1..], overlap)
  }

  lemma {:induction false} ReassembleFrom(text: string, start: nat, size: nat, overlap: nat)
    requires 1 <= size && overlap <= size && start < |text|
    requires start + size < |text| ==> overlap < size
    ensures Reassemble(ChunksFrom(text, start, size, overlap), overlap) == text[start..]
    decreases |text| - start
  {
    if start + size < |text| {
      ReassembleFrom(text, start + size - overlap, size, overlap);
      ReassembleStep(text, start, size, overlap);
    } else {
      ReassembleLast(text, start, size, overlap);
    }
  }

  /** A window that reaches the end is the whole rest of the text. */
  lemma ReassembleLast(text: string, start: nat, size: nat, overlap: nat)
    requires 1 <= size && overlap <= size && start < |text| <= start + size
    ensures Reassemble(ChunksFrom(text, start, size, overlap), overlap) == text[start..]
  {
    var chunks := ChunksFrom(text, start, size, overlap);
    assert chunks == [text[start..]] by {
      assert text[start..Min(start + size, |text|)] == text[start..];
    }
    assert Reassemble(chunks, overlap) == text[start..] + DropOverlaps([], overlap);
  }

  /** A window that does not reach the end, in front of the later ones. */
  lemma ReassembleStep(text: string, start: nat, size: nat, overlap: nat)
    requires 1 <= size && overlap < size && start + size < |text|
    requires Reassemble(ChunksFrom(text, start + size - overlap, size, overlap), overlap) == text[start + size - overlap..]
    ensures Reassemble(ChunksFrom(text, start, size, overlap), overlap) == text[start..]
  {
    var end, next := start + size, start + size - overlap;
    var first, rest := text[start..end], ChunksFrom(text, next, size, overlap);
    var glued := Reassemble(rest, overlap);
    assert ChunksFrom(text, start, size, overlap) == [first] + rest by { }
    assert Reassemble([first] + rest, overlap) == first + glued[overlap..] by {
      assert |rest[0]| >= overlap;
      ReassembleCons(first, rest, overlap);
    }
    assert glued[overlap..] == text[end..] by { }
    assert text[start..] == first + text[end..] by { }
  }

  /** A chunk in front of a non-empty run adds itself and the run less its
      first `overlap` characters. */
  lemma ReassembleCons(first: string, rest: seq<string>, overlap: nat)
    requires rest != [] && overlap <= |rest[0]|
    ensures Reassemble([first] + rest, overlap) == first + Reassemble(rest, overlap)[overlap..]
  {
    var tail := DropOverlaps(rest[1..], overlap);
    assert ([first] + rest)[1..] == rest;
    assert (rest[0] + tail)[overlap..] == rest[0][overlap..] + tail;
  }

  /** Chunking loses and invents nothing: gluing the chunks back together,
      without the overlaps, gives the text. */
  lemma ReassembleChunks(text: Option<string>, chunkSize: int, overlap: int)
    requires Terminates(text, chunkSize, overlap) && !NothingToChunk(text)
    ensures Reassemble(Chunks(text, chunkSize, overlap), EffectiveOverlap(chunkSize, overlap)) == text.value
  {
    ReassembleFrom(text.value, 0, chunkSize, EffectiveOverlap(chunkSize, overlap));
  }

  /** Null or blank text gives no chunks; any other text at least one. */
  lemma ChunksEmptyIff(text: Option<string>, chunkSize: int, overlap: int)
    requires Terminates(text, chunkSize, overlap)
    ensures Chunks(text, chunkSize, overlap) == [] <==> NothingToChunk(text)
  {
  }

  /** Any 26 characters in windows of 10 overlapping by 3. */
  lemma TwentySixInTens(t: string)
    requires |t| == 26
    ensures ChunksFrom(t, 0, 10, 3) == [t[0..10], t[7..17], t[14..24], t[21..26]]
  {
    var last := ChunksFrom(t, 21, 10, 3);
    assert last == [t[21..26]] by {
      ChunksFromStep(t, 21, 10, 3);
    }
    var third := ChunksFrom(t, 14, 10, 3);
    assert third == [t[14..24]] + last by {
      ChunksFromStep(t, 14, 10, 3);
    }
    var second := ChunksFrom(t, 7, 10, 3);
    assert second == [t[7..17]] + third by {
      ChunksFromStep(t, 7, 10, 3);
    }
    assert ChunksFrom(t, 0, 10, 3) == [t[0..10]] + second by {
      ChunksFromStep(t, 0, 10, 3);
    }
  }

  /** The alphabet in windows of 10 overlapping by 3. */
  lemma AlphabetExample()
    ensures Terminates(Some("abcdefghijklmnopqrstuvwxyz"), 10, 3)
    ensures Chunks(Some("abcdefghijklmnopqrstuvwxyz"), 10, 3)
         == ["abcdefghij", "hijklmnopq", "opqrstuvwx", "vwxyz"]
  {
    var t := "abcdefghijklmnopqrstuvwxyz";
    assert !IsBlank(t) by { assert !IsWhitespace(t[0]); }
    assert Chunks(Some(t), 10, 3) == ChunksFrom(t, 0, 10, 3);
    TwentySixInTens(t);
    AlphabetWindows();
  }

  lemma AlphabetWindows()
    ensures "abcdefghijklmnopqrstuvwxyz"[0..10] == "abcdefghij"
    ensures "abcdefghijklmnopqrstuvwxyz"[7..17] == "hijklmnopq"
    ensures "abcdefghijklmnopqrstuvwxyz"[14..24] == "opqrstuvwx"
    ensures "abcdefghijklmnopqrstuvwxyz"[21..26] == "vwxyz"
  {
  }
}

/**
 * `chunk_text(text, chunk_size=500)`: the words of `text.split()` grouped into
 * consecutive, non-overlapping windows of `chunk_size` words (the last window may
 * be shorter), each window joined back with single spaces.
 */
module Chunker {
  import opened Text

  /** The default window, the only one the pipeline uses. */
  const ChunkSize: nat := 500

  /** `[xs[i:i+size] for i in range(0, len(xs), size)]`, written as a recursion over the remaining items. */
  function Windows<T>(xs: seq<T>, size: nat): seq<seq<T>>
    requires size > 0
    decreases |xs|
  {
    if xs == [] then []
    else if |xs| <= size then [xs]
    else [xs[..size]] + Windows(xs[size..], size)
  }

  /** `" ".join(window)` for every window, in order. */
  function JoinEach(windows: seq<seq<string>>): (chunks: seq<string>)
    ensures |chunks| == |windows|
  {
    if windows == [] then [] else [Join(" ", windows[0])] + JoinEach(windows[1..])
  }

  /** The chunks of a text. */
  function ChunkText(text: string, size: nat): seq<string>
    requires size > 0
  {
    JoinEach(Windows(Split(text), size))
  }

  /** The words of every chunk, re-split and concatenated in order. */
  function ChunkWords(chunks: seq<string>): seq<string> {
    if chunks == [] then [] else Split(chunks[0]) + ChunkWords(chunks[1..])
  }

  /** Every window but the last is full and the last holds between one and `size` items; their number is the ceiling of `|xs| / size`. */
  lemma {:induction false} WindowSizes<T>(xs: seq<T>, size: nat)
    requires size > 0
    ensures var ws := Windows(xs, size);
      && (forall j :: 0 <= j < |ws| - 1 ==> |ws[j]| == size)
      && (ws != [] ==> 1 <= |ws[|ws| - 1]| <= size)
      && (ws == [] <==> xs == [])
      && (|ws| - 1) * size < |xs| <= |ws| * size
    decreases |xs|
  {
    var ws := Windows(xs, size);
    if |xs| > size {
      var rest := Windows(xs[size..], size);
      WindowSizes(xs[size..], size);
      assert ws == [xs[..size]] + rest;
      assert |ws| * size == size + |rest| * size;
    }
  }

  lemma MulSucc(j: nat, size: nat)
    ensures (j + 1) * size == j * size + size
  {
  }

  /** Window `j` holds items `[j * size, (j + 1) * size)` of `xs`, cut at the end of `xs`. */
  lemma {:induction false} WindowAt<T>(xs: seq<T>, size: nat, j: nat)
    requires size > 0 && j < |Windows(xs, size)|
    ensures j * size < |xs|
    ensures Windows(xs, size)[j] == xs[j * size .. Min((j + 1) * size, |xs|)]
    decreases |xs|
  {
    if j > 0 {
      var tail := xs[size..];
      assert Windows(xs, size)[j] == Windows(tail, size)[j - 1];
      WindowAt(tail, size, j - 1);
      MulSucc(j - 1, size);
      MulSucc(j, size);
      var lo, hi := (j - 1) * size, Min(j * size, |tail|);
      assert lo + size == j * size && hi + size == Min((j + 1) * size, |xs|);
      assert tail[lo..hi] == xs[lo + size .. hi + size];
    }
  }

  /** Round trip on words: concatenating the windows gives back every item, in order. */
  lemma {:induction false} WindowsConcat<T>(xs: seq<T>, size: nat)
    requires size > 0
    ensures Concat(Windows(xs, size)) == xs
    decreases |xs|
  {
    if xs != [] {
      if |xs| <= size {
        assert Concat([xs]) == xs + Concat([]);
      } else {
        WindowsConcat(xs[size..], size);
        ConcatAppend(xs[..size], Windows(xs[size..], size));
        assert xs == xs[..size] + xs[size..];
      }
    }
  }

  lemma {:induction false} WindowsAreWords(xs: seq<string>, size: nat)
    requires size > 0 && AllWords(xs)
    ensures forall j :: 0 <= j < |Windows(xs, size)| ==> AllWords(Windows(xs, size)[j]) && Windows(xs, size)[j] != []
    decreases |xs|
  {
    if |xs| > size {
      WindowsAreWords(xs[size..], size);
      assert forall j :: 1 <= j < |Windows(xs, size)| ==> Windows(xs, size)[j] == Windows(xs[size..], size)[j - 1];
    }
  }

  lemma {:induction false} ChunkWordsOfJoinEach(windows: seq<seq<string>>)
    requires forall j :: 0 <= j < |windows| ==> AllWords(windows[j])
    ensures ChunkWords(JoinEach(windows)) == Concat(windows)
    decreases |windows|
  {
    if windows != [] {
      SplitJoin(windows[0]);
      ChunkWordsOfJoinEach(windows[1..]);
      assert JoinEach(windows)[1..] == JoinEach(windows[1..]);
    }
  }

  lemma {:induction false} JoinEachAt(windows: seq<seq<string>>, j: nat)
    requires j < |windows|
    ensures JoinEach(windows)[j] == Join(" ", windows[j])
    decreases j
  {
    if j > 0 {
      JoinEachAt(windows[1..], j - 1);
    }
  }

  /** Round trip: re-splitting the chunks and concatenating their words gives exactly `text.split()`. */
  lemma ChunkTextRoundTrip(text: string, size: nat)
    requires size > 0
    ensures ChunkWords(ChunkText(text, size)) == Split(text)
  {
    var words := Split(text);
    WindowsAreWords(words, size);
    ChunkWordsOfJoinEach(Windows(words, size));
    WindowsConcat(words, size);
  }

  /** Chunk `j`, split again, is exactly words `[j * size, (j + 1) * size)` of the text (cut at its end). */
  lemma ChunkWordsAt(text: string, size: nat, j: nat)
    requires size > 0 && j < |ChunkText(text, size)|
    ensures var words := Split(text);
      && j * size < |words|
      && Split(ChunkText(text, size)[j]) == words[j * size .. Min((j + 1) * size, |words|)]
  {
    var words := Split(text);
    var ws := Windows(words, size);
    WindowsAreWords(words, size);
    JoinEachAt(ws, j);
    SplitJoin(ws[j]);
    WindowAt(words, size, j);
  }

  /**
   * With the default window of 500: there are ceil(W / 500) chunks for a text of W words;
   * every chunk but the last has exactly 500 words and the last has between 1 and 500.
   */
  lemma ChunkCounts(text: string)
    ensures var chunks, w := ChunkText(text, ChunkSize), |Split(text)|;
      && |chunks| == (w + ChunkSize - 1) / ChunkSize
      && (forall j :: 0 <= j < |chunks| - 1 ==> |Split(chunks[j])| == ChunkSize)
      && (chunks != [] ==> 1 <= |Split(chunks[|chunks| - 1])| <= ChunkSize)
  {
    var words := Split(text);
    var ws := Windows(words, ChunkSize);
    var chunks := ChunkText(text, ChunkSize);
    WindowSizes(words, ChunkSize);
    WindowsAreWords(words, ChunkSize);
    forall j | 0 <= j < |chunks| ensures |Split(chunks[j])| == |ws[j]| {
      JoinEachAt(ws, j);
      SplitJoin(ws[j]);
    }
  }

  /** Whitespace-only text (including the empty text) gives no chunk, and any other text gives at least one. */
  lemma BlankTextNoChunks(text: string, size: nat)
    requires size > 0
    ensures ChunkText(text, size) == [] <==> IsBlank(text)
  {
    SplitEmptyIffBlank(text);
    WindowSizes(Split(text), size);
  }

  /** No chunk is blank, so the pipeline's per-chunk `strip()` test never skips one. */
  lemma ChunksNotBlank(text: string, size: nat)
    requires size > 0
    ensures forall j :: 0 <= j < |ChunkText(text, size)| ==> !IsBlank(ChunkText(text, size)[j])
  {
    var ws := Windows(Split(text), size);
    WindowsAreWords(Split(text), size);
    forall j | 0 <= j < |ws| ensures !IsBlank(ChunkText(text, size)[j]) {
      JoinEachAt(ws, j);
      JoinStartsWithFirstWord(" ", ws[j]);
      assert IsWord(ws[j][0]);
    }
  }

  /** A page of 1200 words gives three chunks of 500, 500 and 200 words, in that order. */
  lemma TwelveHundredWords(text: string)
    requires |Split(text)| == 1200
    ensures var chunks := ChunkText(text, ChunkSize);
      && |chunks| == 3
      && |Split(chunks[0])| == 500 && |Split(chunks[1])| == 500 && |Split(chunks[2])| == 200
  {
    ChunkCounts(text);
    var chunks := ChunkText(text, ChunkSize);
    ChunkWordsAt(text, ChunkSize, 2);
  }
}

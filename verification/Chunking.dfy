/** Knowledge chunking (app/agent/knowledge.py): overlapping windows over the sections of a document. */
module Chunking {
  import opened PyText

  datatype Section = Section(title: string, body: string)

  datatype Chunk = Chunk(title: string, text: string)

  function SizeOf(chunkSize: int): (n: nat)
    ensures n >= 200
  {
    if chunkSize < 200 then 200 else chunkSize
  }

  function OverlapOf(chunkSize: int, overlap: int): (n: nat)
    ensures n < SizeOf(chunkSize)
  {
    var size := SizeOf(chunkSize);
    if overlap < 0 || overlap >= size then (if size / 4 < 100 then size / 4 else 100) else overlap
  }

  /** A size and an overlap that make sense are used as given. */
  lemma AskedForIsUsed(chunkSize: int, overlap: int)
    ensures chunkSize >= 200 ==> SizeOf(chunkSize) == chunkSize
    ensures chunkSize < 200 ==> SizeOf(chunkSize) == 200
    ensures 0 <= overlap < SizeOf(chunkSize) ==> OverlapOf(chunkSize, overlap) == overlap
    ensures overlap < 0 || overlap >= SizeOf(chunkSize) ==>
              OverlapOf(chunkSize, overlap) == if SizeOf(chunkSize) >= 400 then 100 else SizeOf(chunkSize) / 4
  {}

  // ------------------------------------------------------------------ windows

  /** The raw windows of `body` from `start` on: `size` characters every `step`, up to the first that
      reaches the end. */
  function Windows(body: string, start: nat, size: nat, step: nat): (ws: seq<string>)
    requires start <= |body| && 0 < step <= size
    ensures |ws| > 0
    decreases |body| - start
  {
    if start + size >= |body| then [body[start..]] else [body[start..start + size]] + Windows(body, start + step, size, step)
  }

  /** Every window but the first without the characters it shares with the one before. */
  function Joined(ws: seq<string>, overlap: nat): (s: string)
    requires forall k :: 0 < k < |ws| ==> overlap <= |ws[k]|
  {
    if ws == [] then "" else if |ws| == 1 then ws[0]
    else Joined(ws[..|ws| - 1], overlap) + ws[|ws| - 1][overlap..]
  }

  /** Every window after the first adds at least one character of its own. */
  lemma {:induction false} WindowsProgress(body: string, start: nat, size: nat, step: nat)
    requires start <= |body| && 0 < step <= size
    ensures forall k :: 0 < k < |Windows(body, start, size, step)| ==> |Windows(body, start, size, step)[k]| > size - step
    ensures start > 0 && start + (size - step) < |body| ==> |Windows(body, start, size, step)[0]| > size - step
    decreases |body| - start
  {
    if start + size < |body| { WindowsProgress(body, start + step, size, step); }
  }

  lemma {:induction false} JoinedFront(w: string, ws: seq<string>, overlap: nat)
    requires |ws| > 0 && forall k :: 0 <= k < |ws| ==> overlap <= |ws[k]|
    ensures forall k :: 0 < k < |[w] + ws| ==> overlap <= |([w] + ws)[k]|
    ensures overlap <= |Joined(ws, overlap)| && Joined([w] + ws, overlap) == w + Joined(ws, overlap)[overlap..]
  {
    var all := [w] + ws;
    if |ws| == 1 {
      assert all[..1] == [w];
    } else {
      JoinedFront(w, ws[..|ws| - 1], overlap);
      assert all[..|all| - 1] == [w] + ws[..|ws| - 1];
    }
  }

  lemma Stretch(s: string, a: nat, b: nat, lo: nat, hi: nat)
    requires a <= b <= |s| && lo <= hi <= b - a
    ensures s[a..b][lo..hi] == s[a + lo..a + hi]
  {
    forall k | 0 <= k < hi - lo ensures s[a..b][lo..hi][k] == s[a + lo..a + hi][k] { assert s[a..b][lo + k] == s[a + lo + k]; }
  }

  lemma Continues(body: string, start: nat, size: nat, step: nat)
    requires step <= size && start + size <= |body|
    ensures body[start..start + size] + body[start + step..][size - step..] == body[start..]
  {
    assert body[start + step..][size - step..] == body[start + size..];
  }

  /** Nothing is lost: the windows, with the overlap dropped from all but the first, are the text. */
  lemma {:induction false} WindowsLossless(body: string, start: nat, size: nat, step: nat)
    requires start <= |body| && 0 < step <= size
    ensures forall k :: 0 < k < |Windows(body, start, size, step)| ==> size - step <= |Windows(body, start, size, step)[k]|
    ensures Joined(Windows(body, start, size, step), size - step) == body[start..]
    decreases |body| - start
  {
    if start + size < |body| {
      WindowsLossless(body, start + step, size, step);
      WindowsProgress(body, start + step, size, step);
      JoinedFront(body[start..start + size], Windows(body, start + step, size, step), size - step);
      Continues(body, start, size, step);
    }
  }

  // ------------------------------------------------------------------ chunks

  /** Whitespace removal, as a parameter of the functions below; `Strip` is the one the program uses. */
  type Stripper = string -> string

  function Piece(strip: Stripper, title: string, w: string): (cs: seq<Chunk>) {
    if strip(w) == "" then [] else [Chunk(title, strip(w))]
  }

  function Pieces(strip: Stripper, title: string, ws: seq<string>): (cs: seq<Chunk>) {
    if ws == [] then [] else Piece(strip, title, ws[0]) + Pieces(strip, title, ws[1..])
  }

  function BodyChunks(strip: Stripper, title: string, body: string, size: nat, overlap: nat): (cs: seq<Chunk>)
    requires overlap < size
  {
    if body == "" then []
    else if |body| <= size then [Chunk(title, body)]
    else Pieces(strip, title, Windows(body, 0, size, size - overlap))
  }

  function AllChunks(strip: Stripper, sections: seq<Section>, size: nat, overlap: nat): (cs: seq<Chunk>)
    requires overlap < size
  {
    if sections == [] then [] else
    var last := sections[|sections| - 1];
    AllChunks(strip, sections[..|sections| - 1], size, overlap) + BodyChunks(strip, last.title, strip(last.body), size, overlap)
  }

  /** Window `k` starts `k` steps in and has the full size, up to the end of the body; the last window is
      the first that reaches it. */
  lemma {:induction false} WindowAt(body: string, start: nat, size: nat, step: nat, k: nat)
    requires start <= |body| && 0 < step <= size && k < |Windows(body, start, size, step)|
    ensures start + k * step <= |body|
    ensures Windows(body, start, size, step)[k] ==
            if start + k * step + size >= |body| then body[start + k * step..] else body[start + k * step..start + k * step + size]
    ensures k == |Windows(body, start, size, step)| - 1 <==> start + k * step + size >= |body|
    decreases |body| - start
  {
    if k > 0 {
      assert start + size < |body|;
      WindowAt(body, start + step, size, step, k - 1);
      assert start + step + (k - 1) * step == start + k * step;
    }
  }

  /** When no window is blank, the chunks of a long body are its windows, stripped, in order. */
  lemma {:induction false} PiecesInOrder(strip: Stripper, title: string, ws: seq<string>)
    requires forall k :: 0 <= k < |ws| ==> strip(ws[k]) != ""
    ensures |Pieces(strip, title, ws)| == |ws|
    ensures forall k :: 0 <= k < |ws| ==> Pieces(strip, title, ws)[k] == Chunk(title, strip(ws[k]))
  {
    if ws != [] {
      PiecesInOrder(strip, title, ws[1..]);
      assert forall k :: 1 <= k < |ws| ==> ws[k] == ws[1..][k - 1];
    }
  }

  /** A long body without blank windows gives one chunk per window of the size asked for, each a size less
      an overlap after the one before. */
  lemma LongBodyChunks(strip: Stripper, title: string, body: string, size: nat, overlap: nat, ws: seq<string>, k: nat)
    requires overlap < size < |body| && ws == Windows(body, 0, size, size - overlap) && k < |ws|
    requires forall j :: 0 <= j < |ws| ==> strip(ws[j]) != ""
    ensures var chunks := BodyChunks(strip, title, body, size, overlap); |chunks| == |ws| && chunks[k] == Chunk(title, strip(ws[k]))
  {
    PiecesInOrder(strip, title, ws);
  }

  /** Chunks come in document order: those of the first sections, then those of the rest. */
  lemma {:induction false} DocumentOrder(strip: Stripper, first: seq<Section>, rest: seq<Section>, size: nat, overlap: nat)
    requires overlap < size
    ensures AllChunks(strip, first + rest, size, overlap) == AllChunks(strip, first, size, overlap) + AllChunks(strip, rest, size, overlap)
  {
    if rest == [] {
      assert first + rest == first;
    } else {
      var init := rest[..|rest| - 1];
      DocumentOrder(strip, first, init, size, overlap);
      assert (first + rest)[..|first + rest| - 1] == first + init;
      LastSection(strip, first + rest, size, overlap);
      LastSection(strip, rest, size, overlap);
      var last := rest[|rest| - 1];
      Advance(AllChunks(strip, first, size, overlap) + (AllChunks(strip, init, size, overlap) + BodyChunks(strip, last.title, strip(last.body), size, overlap)),
              AllChunks(strip, first, size, overlap), AllChunks(strip, init, size, overlap), BodyChunks(strip, last.title, strip(last.body), size, overlap));
    }
  }

  lemma LastSection(strip: Stripper, sections: seq<Section>, size: nat, overlap: nat)
    requires overlap < size && sections != []
    ensures var last := sections[|sections| - 1];
            AllChunks(strip, sections, size, overlap) ==
            AllChunks(strip, sections[..|sections| - 1], size, overlap) + BodyChunks(strip, last.title, strip(last.body), size, overlap)
  {}

  /** Each window is a stretch of the body. */
  lemma {:induction false} WindowIsStretch(body: string, start: nat, size: nat, step: nat, k: nat) returns (from: nat, to: nat)
    requires start <= |body| && 0 < step <= size && k < |Windows(body, start, size, step)|
    ensures from <= to <= |body| && to - from <= size && Windows(body, start, size, step)[k] == body[from..to]
    decreases |body| - start
  {
    if k > 0 {
      from, to := WindowIsStretch(body, start + step, size, step, k - 1);
    } else {
      from, to := start, if start + size >= |body| then |body| else start + size;
    }
  }

  /** The pieces of the windows, one window after the other. */
  function Slide(strip: Stripper, title: string, body: string, start: nat, size: nat, step: nat): (cs: seq<Chunk>)
    requires start <= |body| && 0 < step <= size
    decreases |body| - start
  {
    if start + size >= |body| then Piece(strip, title, body[start..])
    else Piece(strip, title, body[start..start + size]) + Slide(strip, title, body, start + step, size, step)
  }

  lemma {:induction false} SlideIsPieces(strip: Stripper, title: string, body: string, start: nat, size: nat, step: nat)
    requires start <= |body| && 0 < step <= size
    ensures Slide(strip, title, body, start, size, step) == Pieces(strip, title, Windows(body, start, size, step))
    decreases |body| - start
  {
    if start + size >= |body| {
      assert [body[start..]][1..] == [];
    } else {
      SlideIsPieces(strip, title, body, start + step, size, step);
      var w, rest := body[start..start + size], Windows(body, start + step, size, step);
      assert ([w] + rest)[1..] == rest;
    }
  }

  lemma SlideStep(strip: Stripper, title: string, body: string, start: nat, size: nat, step: nat)
    requires start < |body| && 0 < step <= size
    ensures Slide(strip, title, body, start, size, step) ==
            if start + size >= |body| then Piece(strip, title, body[start..])
            else Piece(strip, title, body[start..start + size]) + Slide(strip, title, body, start + step, size, step)
  {}

  method AddPiece(strip: Stripper, chunks: seq<Chunk>, title: string, window: string) returns (r: seq<Chunk>)
    ensures r == chunks + Piece(strip, title, window)
  {
    var piece := strip(window);
    r := chunks;
    if piece != "" { r := r + [Chunk(title, piece)]; }
  }

  lemma Advance(all: seq<Chunk>, done: seq<Chunk>, piece: seq<Chunk>, next: seq<Chunk>)
    requires all == done + (piece + next)
    ensures all == (done + piece) + next
  {}

  /** The section loop of one long body: windows until one reaches the end. */
  method SlideWindows(strip: Stripper, title: string, body: string, size: nat, step: nat) returns (chunks: seq<Chunk>)
    requires 0 < step <= size < |body|
    ensures chunks == Slide(strip, title, body, 0, size, step)
  {
    chunks := [];
    var start := 0;
    ghost var all := Slide(strip, title, body, 0, size, step);
    while start < |body|
      invariant start < |body|
      invariant all == chunks + Slide(strip, title, body, start, size, step)
      decreases |body| - start
    {
      SlideStep(strip, title, body, start, size, step);
      if start + size >= |body| {
        chunks := AddPiece(strip, chunks, title, body[start..]);
        return;
      }
      Advance(all, chunks, Piece(strip, title, body[start..start + size]), Slide(strip, title, body, start + step, size, step));
      chunks := AddPiece(strip, chunks, title, body[start..start + size]);
      start := start + step;
    }
  }

  method ChunkBody(strip: Stripper, title: string, body: string, size: nat, overlap: nat) returns (chunks: seq<Chunk>)
    requires overlap < size
    ensures chunks == BodyChunks(strip, title, body, size, overlap)
  {
    if body == "" { return []; }
    if |body| <= size { return [Chunk(title, body)]; }
    SlideIsPieces(strip, title, body, 0, size, size - overlap);
    chunks := SlideWindows(strip, title, body, size, size - overlap);
  }

  lemma NextSection(strip: Stripper, sections: seq<Section>, i: nat, size: nat, overlap: nat)
    requires overlap < size && i < |sections|
    ensures AllChunks(strip, sections[..i + 1], size, overlap) ==
            AllChunks(strip, sections[..i], size, overlap) + BodyChunks(strip, sections[i].title, strip(sections[i].body), size, overlap)
  {
    assert sections[..i + 1][..i] == sections[..i];
  }

  /** `chunk_text`, over the sections of the text. */
  method ChunkText(strip: Stripper, sections: seq<Section>, chunkSize: int, overlap: int) returns (chunks: seq<Chunk>)
    ensures chunks == AllChunks(strip, sections, SizeOf(chunkSize), OverlapOf(chunkSize, overlap))
  {
    var size, shared := SizeOf(chunkSize), OverlapOf(chunkSize, overlap);
    chunks := [];
    for i := 0 to |sections|
      invariant chunks == AllChunks(strip, sections[..i], size, shared)
    {
      NextSection(strip, sections, i, size, shared);
      var more := ChunkBody(strip, sections[i].title, strip(sections[i].body), size, shared);
      chunks := chunks + more;
    }
    assert sections[..|sections|] == sections;
  }

  // ------------------------------------------------------------------ every character survives

  /** The chunk is a stretch of `body` that holds position `i`. */
  ghost predicate Covers(c: Chunk, title: string, body: string, i: nat) {
    c.title == title && exists lo, hi :: 0 <= lo <= i < hi <= |body| && c.text == body[lo..hi]
  }

  /** Stripping a stretch of text keeps each of its characters that is not whitespace. */
  lemma StripCovers(title: string, body: string, from: nat, to: nat, i: nat)
    requires from <= i < to <= |body| && !IsSpace(body[i])
    ensures Strip(body[from..to]) != "" && Covers(Chunk(title, Strip(body[from..to])), title, body, i)
  {
    var w := body[from..to];
    var lo, hi := StripCut(w);
    assert w[i - from] == body[i];
    assert lo <= i - from < hi;
    Stretch(body, from, to, lo, hi);
  }

  lemma {:induction false} SomeWindow(body: string, start: nat, size: nat, step: nat, i: nat) returns (k: nat, from: nat, to: nat)
    requires 0 < step <= size && start <= i < |body|
    ensures k < |Windows(body, start, size, step)| && from <= i < to <= |body| && Windows(body, start, size, step)[k] == body[from..to]
    decreases |body| - start
  {
    if start + size >= |body| {
      k, from, to := 0, start, |body|;
    } else if i < start + size {
      k, from, to := 0, start, start + size;
    } else {
      var j;
      j, from, to := SomeWindow(body, start + step, size, step, i);
      k := j + 1;
    }
  }

  lemma {:induction false} PieceOf(title: string, ws: seq<string>, k: nat)
    requires k < |ws| && Strip(ws[k]) != ""
    ensures Chunk(title, Strip(ws[k])) in Pieces(Strip, title, ws)
  {
    if k > 0 { PieceOf(title, ws[1..], k - 1); }
  }

  /** A chunk of a stretch of `text` is as good as a chunk of `text`. */
  lemma CoversWider(c: Chunk, title: string, text: string, lo: nat, hi: nat, i: nat)
    requires lo <= hi <= |text| && i < hi - lo && Covers(c, title, text[lo..hi], i)
    ensures Covers(c, title, text, lo + i)
  {
    var a, b :| 0 <= a <= i < b <= hi - lo && c.text == text[lo..hi][a..b];
    Stretch(text, lo, hi, a, b);
  }

  lemma BodySurvives(title: string, body: string, size: nat, overlap: nat, i: nat) returns (c: Chunk)
    requires overlap < size && i < |body| && !IsSpace(body[i])
    ensures c in BodyChunks(Strip, title, body, size, overlap) && Covers(c, title, body, i)
  {
    if |body| <= size {
      c := Chunk(title, body);
      assert body[0..|body|] == body;
    } else {
      var k, from, to := SomeWindow(body, 0, size, size - overlap, i);
      c := Chunk(title, Strip(body[from..to]));
      StripCovers(title, body, from, to, i);
      PieceOf(title, Windows(body, 0, size, size - overlap), k);
    }
  }

  lemma SectionSurvives(s: Section, size: nat, overlap: nat, i: nat) returns (c: Chunk)
    requires overlap < size && i < |s.body| && !IsSpace(s.body[i])
    ensures c in BodyChunks(Strip, s.title, Strip(s.body), size, overlap) && Covers(c, s.title, s.body, i)
  {
    var lo, hi := StripCut(s.body);
    c := BodySurvives(s.title, Strip(s.body), size, overlap, i - lo);
    CoversWider(c, s.title, s.body, lo, hi, i - lo);
  }

  lemma {:induction false} ChunkOfSection(sections: seq<Section>, size: nat, overlap: nat, k: nat, c: Chunk)
    requires overlap < size && k < |sections| && c in BodyChunks(Strip, sections[k].title, Strip(sections[k].body), size, overlap)
    ensures c in AllChunks(Strip, sections, size, overlap)
  {
    if k < |sections| - 1 { ChunkOfSection(sections[..|sections| - 1], size, overlap, k, c); }
  }

  /** Every character that is not whitespace survives into some chunk of its section, for every chunk
      size and overlap asked for. */
  lemma EveryCharacterSurvives(sections: seq<Section>, chunkSize: int, overlap: int, k: nat, i: nat)
    requires k < |sections| && i < |sections[k].body| && !IsSpace(sections[k].body[i])
    ensures exists c :: c in AllChunks(Strip, sections, SizeOf(chunkSize), OverlapOf(chunkSize, overlap)) && Covers(c, sections[k].title, sections[k].body, i)
  {
    var size, shared := SizeOf(chunkSize), OverlapOf(chunkSize, overlap);
    var c := SectionSurvives(sections[k], size, shared, i);
    ChunkOfSection(sections, size, shared, k, c);
  }

  /** And nothing else gets in: every chunk is a stretch of one section, no longer than the window and
      without whitespace at its ends. */
  lemma {:induction false} ChunksAreStretches(sections: seq<Section>, size: nat, overlap: nat, c: Chunk)
    requires overlap < size && c in AllChunks(Strip, sections, size, overlap)
    ensures 0 < |c.text| <= size && NoEdgeSpace(c.text)
    ensures exists k, lo, hi :: 0 <= k < |sections| && sections[k].title == c.title && 0 <= lo <= hi <= |sections[k].body| && c.text == sections[k].body[lo..hi]
  {
    var init := sections[..|sections| - 1];
    if c in AllChunks(Strip, init, size, overlap) {
      ChunksAreStretches(init, size, overlap, c);
      var k, lo, hi :| 0 <= k < |init| && init[k].title == c.title && 0 <= lo <= hi <= |init[k].body| && c.text == init[k].body[lo..hi];
      assert sections[k] == init[k];
    } else {
      var last := sections[|sections| - 1];
      var lo, hi := SectionStretch(last, size, overlap, c);
      assert c.text == sections[|sections| - 1].body[lo..hi];
    }
  }

  lemma SectionStretch(s: Section, size: nat, overlap: nat, c: Chunk) returns (lo: nat, hi: nat)
    requires overlap < size && c in BodyChunks(Strip, s.title, Strip(s.body), size, overlap)
    ensures 0 < |c.text| <= size && NoEdgeSpace(c.text) && c.title == s.title
    ensures lo <= hi <= |s.body| && c.text == s.body[lo..hi]
  {
    var from, to := StripCut(s.body);
    StripEdges(s.body);
    var start, end := BodyStretch(s.title, Strip(s.body), size, overlap, c);
    lo, hi := from + start, from + end;
    Stretch(s.body, from, to, start, end);
  }

  lemma BodyStretch(title: string, body: string, size: nat, overlap: nat, c: Chunk) returns (lo: nat, hi: nat)
    requires overlap < size && NoEdgeSpace(body) && c in BodyChunks(Strip, title, body, size, overlap)
    ensures 0 < |c.text| <= size && NoEdgeSpace(c.text) && c.title == title
    ensures lo <= hi <= |body| && c.text == body[lo..hi]
  {
    if |body| <= size { lo, hi := 0, |body|; }
    else { lo, hi := LongChunk(title, body, size, overlap, c); }
  }

  lemma LongChunk(title: string, body: string, size: nat, overlap: nat, c: Chunk) returns (lo: nat, hi: nat)
    requires overlap < size && c in Pieces(Strip, title, Windows(body, 0, size, size - overlap))
    ensures 0 < |c.text| <= size && NoEdgeSpace(c.text) && c.title == title
    ensures lo <= hi <= |body| && c.text == body[lo..hi]
  {
    var k := PieceFrom(title, Windows(body, 0, size, size - overlap), c);
    lo, hi := WindowStretch(body, size, overlap, k);
  }

  lemma WindowStretch(body: string, size: nat, overlap: nat, k: nat) returns (lo: nat, hi: nat)
    requires overlap < size && k < |Windows(body, 0, size, size - overlap)|
    ensures var w := Windows(body, 0, size, size - overlap)[k];
            lo <= hi <= |body| && Strip(w) == body[lo..hi] && hi - lo <= size && NoEdgeSpace(Strip(w))
  {
    var start, end := WindowIsStretch(body, 0, size, size - overlap, k);
    var a, b := StripCut(body[start..end]);
    StripEdges(body[start..end]);
    Stretch(body, start, end, a, b);
    lo, hi := start + a, start + b;
  }

  lemma {:induction false} PieceFrom(title: string, ws: seq<string>, c: Chunk) returns (k: nat)
    requires c in Pieces(Strip, title, ws)
    ensures k < |ws| && c == Chunk(title, Strip(ws[k])) && Strip(ws[k]) != ""
  {
    if Strip(ws[0]) != "" && c == Chunk(title, Strip(ws[0])) {
      k := 0;
    } else {
      var j := PieceFrom(title, ws[1..], c);
      k := j + 1;
    }
  }
}

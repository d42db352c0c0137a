/** The punctuation segmenter that feeds speech synthesis (internal/app/bot/response_runtime.go). */
module Segmenter {
  import opened Text

  /** What one pass over `text` says, beginning with `buffer`: the segments and the new buffer. */
  function Scan(marks: set<char>, buffer: string, text: string): (seq<string>, string)
    decreases |text|
  {
    if text == "" then ([], buffer)
    else if text[0] in marks then
      var (segments, rest) := Scan(marks, "", text[1..]);
      (Trimmed(buffer + [text[0]]) + segments, rest)
    else Scan(marks, buffer + [text[0]], text[1..])
  }

  /** The trimmed piece, unless nothing is left of it. */
  function Trimmed(piece: string): seq<string> {
    if TrimSpace(piece) == "" then [] else [TrimSpace(piece)]
  }

  class PunctuationBoundarySegmenter {
    const punctuation: set<char>
    var buffer: string

    constructor (chars: string)
      ensures punctuation == (set c | c in chars) && buffer == ""
    {
      punctuation := set c | c in chars;
      buffer := "";
    }

    method Push(text: string) returns (segments: seq<string>)
      modifies this
      ensures segments == Scan(punctuation, old(buffer), text).0
      ensures buffer == Scan(punctuation, old(buffer), text).1
    {
      segments := [];
      assert text[0..] == text;
      for i := 0 to |text|
        invariant Scan(punctuation, old(buffer), text).0 == segments + Scan(punctuation, buffer, text[i..]).0
        invariant Scan(punctuation, old(buffer), text).1 == Scan(punctuation, buffer, text[i..]).1
      {
        assert text[i..][1..] == text[i + 1..];
        var c := text[i];
        buffer := buffer + [c];
        if c in punctuation {
          var segment := TrimSpace(buffer);
          buffer := "";
          if segment != "" {
            segments := segments + [segment];
          }
        }
      }
    }

    method Flush() returns (segment: string)
      modifies this
      ensures segment == TrimSpace(old(buffer)) && buffer == ""
    {
      segment := TrimSpace(buffer);
      buffer := "";
    }
  }

  // The batch meaning: cut the whole text behind every mark, trim the pieces, drop the blank ones.

  function FirstMark(marks: set<char>, text: string): (n: nat)
    ensures n <= |text|
    ensures n < |text| ==> text[n] in marks
    ensures forall i | 0 <= i < n :: text[i] !in marks
  {
    if text == "" || text[0] in marks then 0 else 1 + FirstMark(marks, text[1..])
  }

  function Pieces(marks: set<char>, text: string): seq<string> {
    var n := FirstMark(marks, text);
    if n == |text| then [text] else [text[..n + 1]] + Pieces(marks, text[n + 1..])
  }

  function TrimAll(pieces: seq<string>): seq<string> {
    if pieces == [] then [] else Trimmed(pieces[0]) + TrimAll(pieces[1..])
  }

  function Segments(marks: set<char>, text: string): seq<string> {
    TrimAll(Pieces(marks, text))
  }

  /** All that Push says of a list of chunks, and what Flush adds. */
  function Streamed(marks: set<char>, buffer: string, chunks: seq<string>): seq<string>
    decreases |chunks|
  {
    if chunks == [] then Trimmed(buffer)
    else
      var (segments, rest) := Scan(marks, buffer, chunks[0]);
      segments + Streamed(marks, rest, chunks[1..])
  }

  function Join(chunks: seq<string>): string {
    if chunks == [] then "" else chunks[0] + Join(chunks[1..])
  }

  predicate Unmarked(marks: set<char>, text: string) {
    forall i | 0 <= i < |text| :: text[i] !in marks
  }

  lemma {:induction false} ScanConcat(marks: set<char>, buffer: string, a: string, b: string)
    ensures Scan(marks, buffer, a + b).0 == Scan(marks, buffer, a).0 + Scan(marks, Scan(marks, buffer, a).1, b).0
    ensures Scan(marks, buffer, a + b).1 == Scan(marks, Scan(marks, buffer, a).1, b).1
    decreases |a|
  {
    if a == "" {
      assert a + b == b;
    } else {
      assert (a + b)[1..] == a[1..] + b;
      ScanConcat(marks, if a[0] in marks then "" else buffer + [a[0]], a[1..], b);
    }
  }

  lemma FirstMarkIs(marks: set<char>, text: string, n: nat)
    requires n < |text| && text[n] in marks && Unmarked(marks, text[..n])
    ensures FirstMark(marks, text) == n
  {
    assert forall i | 0 <= i < n :: text[..n][i] == text[i];
  }

  lemma SegmentsAtMark(marks: set<char>, buffer: string, text: string)
    requires Unmarked(marks, buffer) && text != "" && text[0] in marks
    ensures Segments(marks, buffer + text) == Trimmed(buffer + [text[0]]) + Segments(marks, text[1..])
  {
    var whole, n := buffer + text, |buffer|;
    assert whole[..n] == buffer;
    FirstMarkIs(marks, whole, n);
    assert whole[..n + 1] == buffer + [text[0]] && whole[n + 1..] == text[1..];
    assert Pieces(marks, whole) == [whole[..n + 1]] + Pieces(marks, whole[n + 1..]);
    assert Pieces(marks, whole)[1..] == Pieces(marks, whole[n + 1..]);
  }

  lemma SegmentsOfUnmarked(marks: set<char>, text: string)
    requires Unmarked(marks, text)
    ensures Segments(marks, text) == Trimmed(text)
  {
    assert FirstMark(marks, text) == |text|;
    assert TrimAll([text]) == Trimmed(text) + TrimAll([]);
  }

  /** Everything said of a text: what the scan says, and what flushing it would add. */
  function Said(marks: set<char>, buffer: string, text: string): seq<string> {
    Scan(marks, buffer, text).0 + Trimmed(Scan(marks, buffer, text).1)
  }

  lemma SaidAtMark(marks: set<char>, buffer: string, text: string)
    requires text != "" && text[0] in marks
    ensures Said(marks, buffer, text) == Trimmed(buffer + [text[0]]) + Said(marks, "", text[1..])
  {
  }

  lemma SaidElsewhere(marks: set<char>, buffer: string, text: string)
    requires text != "" && text[0] !in marks
    ensures Said(marks, buffer, text) == Said(marks, buffer + [text[0]], text[1..])
    ensures buffer + text == (buffer + [text[0]]) + text[1..]
  {
  }

  lemma {:induction false} ScanIsBatch(marks: set<char>, buffer: string, text: string)
    requires Unmarked(marks, buffer)
    ensures Said(marks, buffer, text) == Segments(marks, buffer + text)
    decreases |text|
  {
    if text == "" {
      assert buffer + text == buffer;
      SegmentsOfUnmarked(marks, buffer);
    } else if text[0] in marks {
      ScanIsBatch(marks, "", text[1..]);
      assert "" + text[1..] == text[1..];
      SegmentsAtMark(marks, buffer, text);
      SaidAtMark(marks, buffer, text);
    } else {
      ScanIsBatch(marks, buffer + [text[0]], text[1..]);
      SaidElsewhere(marks, buffer, text);
    }
  }

  lemma {:induction false} StreamedIsOneScan(marks: set<char>, buffer: string, chunks: seq<string>)
    ensures Streamed(marks, buffer, chunks) ==
      Scan(marks, buffer, Join(chunks)).0 + Trimmed(Scan(marks, buffer, Join(chunks)).1)
    decreases |chunks|
  {
    if chunks != [] {
      ScanConcat(marks, buffer, chunks[0], Join(chunks[1..]));
      StreamedIsOneScan(marks, Scan(marks, buffer, chunks[0]).1, chunks[1..]);
    }
  }

  /** However the model cuts its reply into chunks, speech synthesis is given the same segments: the
      trimmed, non-blank pieces of the whole reply cut behind its punctuation. */
  lemma ChunkingDoesNotMatter(marks: set<char>, chunks: seq<string>)
    ensures Streamed(marks, "", chunks) == Segments(marks, Join(chunks))
  {
    StreamedIsOneScan(marks, "", chunks);
    ScanIsBatch(marks, "", Join(chunks));
    assert "" + Join(chunks) == Join(chunks);
  }

  // What the segments are.

  lemma {:induction false} JoinPieces(marks: set<char>, text: string)
    ensures Join(Pieces(marks, text)) == text
    ensures forall i | 0 <= i < |Pieces(marks, text)| :: MarkedAtEndOnly(marks, Pieces(marks, text)[i])
    decreases |text|
  {
    var n := FirstMark(marks, text);
    if n < |text| {
      JoinPieces(marks, text[n + 1..]);
      assert text == text[..n + 1] + text[n + 1..];
      assert Pieces(marks, text)[1..] == Pieces(marks, text[n + 1..]);
    } else {
      assert Join([text]) == text + "";
    }
  }

  /** The pieces make up the text; each but the last ends with a mark and has none before, and the last has none. */
  ghost predicate IsCut(marks: set<char>, pieces: seq<string>, text: string) {
    && pieces != [] && Join(pieces) == text && Unmarked(marks, pieces[|pieces| - 1])
    && forall i | 0 <= i < |pieces| - 1 :: EndsWithMark(marks, pieces[i])
  }

  predicate EndsWithMark(marks: set<char>, piece: string) {
    piece != "" && piece[|piece| - 1] in marks && Unmarked(marks, piece[..|piece| - 1])
  }

  lemma {:induction false} PiecesAreCut(marks: set<char>, text: string)
    ensures IsCut(marks, Pieces(marks, text), text)
    decreases |text|
  {
    JoinPieces(marks, text);
    var n := FirstMark(marks, text);
    if n < |text| {
      PiecesAreCut(marks, text[n + 1..]);
      var pieces, rest := Pieces(marks, text), Pieces(marks, text[n + 1..]);
      assert pieces == [text[..n + 1]] + rest;
      assert text[..n + 1][..n] == text[..n];
      forall i | 0 <= i < |pieces| - 1 ensures EndsWithMark(marks, pieces[i]) {
        if i > 0 {
          assert pieces[i] == rest[i - 1] && EndsWithMark(marks, rest[i - 1]);
        }
      }
      assert pieces[|pieces| - 1] == rest[|rest| - 1];
    }
  }

  /** There is only one such cut. */
  lemma {:induction false} CutIsUnique(marks: set<char>, pieces: seq<string>, text: string)
    requires IsCut(marks, pieces, text)
    ensures pieces == Pieces(marks, text)
    decreases |pieces|
  {
    var first, rest := pieces[0], pieces[1..];
    if rest == [] {
      OnlyPiece(marks, pieces, text);
    } else {
      FirstPiece(marks, pieces, text);
      assert forall i | 0 <= i < |rest| - 1 :: rest[i] == pieces[i + 1];
      CutIsUnique(marks, rest, text[|first|..]);
    }
  }

  lemma OnlyPiece(marks: set<char>, pieces: seq<string>, text: string)
    requires IsCut(marks, pieces, text) && |pieces| == 1
    ensures pieces == Pieces(marks, text)
  {
    assert pieces == [pieces[0]];
    JoinOne(pieces[0]);
  }

  lemma FirstPiece(marks: set<char>, pieces: seq<string>, text: string)
    requires IsCut(marks, pieces, text) && |pieces| > 1
    ensures |pieces[0]| <= |text| && text[|pieces[0]|..] == Join(pieces[1..])
    ensures Pieces(marks, text) == [pieces[0]] + Pieces(marks, text[|pieces[0]|..])
  {
    var first := pieces[0];
    var n := |first| - 1;
    assert EndsWithMark(marks, first);
    assert text == first + Join(pieces[1..]);
    assert text[..n] == first[..n] && text[..n + 1] == first;
    FirstMarkIs(marks, text, n);
  }

  predicate MarkedAtEndOnly(marks: set<char>, piece: string) {
    forall i | 0 <= i < |piece| - 1 :: piece[i] !in marks
  }

  lemma TrimmedProperties(marks: set<char>, piece: string)
    requires MarkedAtEndOnly(marks, piece)
    ensures Squeeze(Join(Trimmed(piece))) == Squeeze(piece)
    ensures forall t | t in Trimmed(piece) :: t != "" && MarkedAtEndOnly(marks, t)
  {
    TrimSpaceKeeps(piece);
    TrimmedMarkedAtEndOnly(marks, piece);
    JoinOne(TrimSpace(piece));
  }

  lemma JoinOne(t: string)
    ensures Join([t]) == t && Join([]) == ""
  {
    assert [t][1..] == [];
  }

  lemma TrimmedMarkedAtEndOnly(marks: set<char>, piece: string)
    requires MarkedAtEndOnly(marks, piece)
    ensures MarkedAtEndOnly(marks, TrimSpace(piece))
  {
    var a, b := TrimSpaceSlices(piece);
    var t := piece[a..b];
    assert forall i | 0 <= i < |t| :: t[i] == piece[a + i];
  }

  lemma {:induction false} JoinConcat(a: seq<string>, b: seq<string>)
    ensures Join(a + b) == Join(a) + Join(b)
  {
    if a == [] {
      assert a + b == b;
    } else {
      JoinConcat(a[1..], b);
      assert (a + b)[1..] == a[1..] + b;
      assert (a[0] + Join(a[1..])) + Join(b) == a[0] + (Join(a[1..]) + Join(b));
    }
  }

  lemma {:induction false} TrimAllProperties(marks: set<char>, pieces: seq<string>)
    requires forall i | 0 <= i < |pieces| :: MarkedAtEndOnly(marks, pieces[i])
    ensures Squeeze(Join(TrimAll(pieces))) == Squeeze(Join(pieces))
    ensures forall t | t in TrimAll(pieces) :: t != "" && MarkedAtEndOnly(marks, t)
  {
    if pieces != [] {
      TrimAllProperties(marks, pieces[1..]);
      TrimmedProperties(marks, pieces[0]);
      JoinConcat(Trimmed(pieces[0]), TrimAll(pieces[1..]));
      SqueezeConcat(Join(Trimmed(pieces[0])), Join(TrimAll(pieces[1..])));
      SqueezeConcat(pieces[0], Join(pieces[1..]));
    }
  }

  /** No segment is empty, none has a mark before its end, and together they say the whole reply up
      to white space. */
  lemma SegmentsSayTheReply(marks: set<char>, text: string)
    ensures Squeeze(Join(Segments(marks, text))) == Squeeze(text)
    ensures forall t | t in Segments(marks, text) :: t != "" && MarkedAtEndOnly(marks, t)
  {
    JoinPieces(marks, text);
    TrimAllProperties(marks, Pieces(marks, text));
  }

  lemma {:induction false} PartOfJoin(parts: seq<string>, i: nat) returns (a: nat, b: nat)
    requires i < |parts|
    ensures a <= b <= |Join(parts)| && parts[i] == Join(parts)[a..b]
    decreases i
  {
    var whole, n := Join(parts), |parts[0]|;
    if i == 0 {
      a, b := 0, n;
      assert whole[0..n] == parts[0];
    } else {
      a, b := PartOfJoin(parts[1..], i - 1);
      assert whole[n..|whole|] == Join(parts[1..]);
      SliceOfSlice(whole, n, |whole|, a, b);
      a, b := n + a, n + b;
    }
  }

  lemma {:induction false} TrimmedFrom(pieces: seq<string>, t: string) returns (i: nat)
    requires t in TrimAll(pieces)
    ensures i < |pieces| && t == TrimSpace(pieces[i])
  {
    if t in Trimmed(pieces[0]) {
      i := 0;
    } else {
      var k := TrimmedFrom(pieces[1..], t);
      i := k + 1;
    }
  }

  /** Every segment is said in one piece by the reply. */
  lemma SegmentIsSlice(marks: set<char>, text: string, t: string) returns (a: nat, b: nat)
    requires t in Segments(marks, text)
    ensures a <= b <= |text| && t == text[a..b]
  {
    var i := TrimmedFrom(Pieces(marks, text), t);
    JoinPieces(marks, text);
    var c, d := PartOfJoin(Pieces(marks, text), i);
    a, b := TrimmedSlice(text, c, d);
  }

  lemma TrimmedSlice(text: string, c: nat, d: nat) returns (a: nat, b: nat)
    requires c <= d <= |text|
    ensures a <= b <= |text| && TrimSpace(text[c..d]) == text[a..b]
  {
    var x, y := TrimSpaceSlices(text[c..d]);
    a, b := c + x, c + y;
    SliceOfSlice(text, c, d, x, y);
  }
}

/**
 Deterministic text chunking. The tokenizer is any function from text to a token
 count that gives the empty text zero tokens; nothing else is assumed of it
 unless a statement says so.
*/
module Chunking {

  type Tokenizer = string -> nat

  datatype Span = Span(start: nat, end: nat)

  /** SHA-256 of the versioned chunk text and the uuid5 built on it, taken as injective. */
  datatype ContentHash = ContentHash(text: string)
  datatype ChunkId = ChunkId(documentId: string, generation: nat, ordinal: nat, contentHash: ContentHash)

  datatype TextChunk = TextChunk(
    id: ChunkId, ordinal: nat, text: string, contentHash: ContentHash, tokenCount: nat, startChar: nat, endChar: nat)

  datatype ChunkError = MaxTokensNotPositive | OverlapOutOfRange | MinTokensOutOfRange

  datatype ChunkResult = Chunks(chunks: seq<TextChunk>) | Refused(error: ChunkError)

  /* ----- what is assumed of a tokenizer, when it is ----- */

  /** The count never falls as a prefix starting at `start` grows, and one character fits. */
  ghost predicate Fits(text: string, start: nat, count: Tokenizer, maxTokens: nat) {
    && start < |text|
    && count(text[start..start + 1]) <= maxTokens
    && forall a, b :: start <= a <= b <= |text| ==> count(text[start..a]) <= count(text[start..b])
  }

  ghost predicate FitsEverywhere(text: string, count: Tokenizer, maxTokens: nat) {
    forall start :: 0 <= start < |text| ==> Fits(text, start, count, maxTokens)
  }

  /** The count never grows as a suffix ending at `end` shrinks. */
  ghost predicate SuffixesShrink(text: string, start: nat, end: nat, count: Tokenizer)
    requires start <= end <= |text|
  {
    forall a, b :: start <= a <= b <= end ==> count(text[b..end]) <= count(text[a..end])
  }

  /* ----- the searches ----- */

  predicate OccursAt(text: string, sub: string, p: int) {
    0 <= p && p + |sub| <= |text| && text[p..p + |sub|] == sub
  }

  /** str.rfind(sub, low, high): the last occurrence inside text[low:high], or -1. */
  function RFind(text: string, sub: string, low: nat, high: nat): (p: int)
    requires |sub| > 0 && high <= |text|
    ensures p == -1 || (low <= p && p + |sub| <= high && OccursAt(text, sub, p))
    ensures forall q :: low <= q && p < q && q + |sub| <= high ==> !OccursAt(text, sub, q)
    decreases high
  {
    if high < low + |sub| then -1
    else if OccursAt(text, sub, high - |sub|) then high - |sub|
    else RFind(text, sub, low, high - 1)
  }

  /**
   _max_end_for_token_limit: always makes progress; for a tokenizer whose counts never fall, the
   greatest end that fits.
  */
  method MaxEndForTokenLimit(text: string, start: nat, count: Tokenizer, maxTokens: nat) returns (best: nat)
    requires start < |text|
    ensures start < best <= |text|
    ensures best == start + 1 || count(text[start..best]) <= maxTokens
    ensures best == |text| || count(text[start..]) > maxTokens
    ensures Fits(text, start, count, maxTokens) ==>
              && count(text[start..best]) <= maxTokens
              && forall e :: best < e <= |text| ==> count(text[start..e]) > maxTokens
  {
    assert text[start..|text|] == text[start..];
    if count(text[start..]) <= maxTokens {
      return |text|;
    }
    var low, high := start + 1, |text|;
    best := low;
    while low <= high
      invariant start + 1 <= low <= high + 1 <= |text| + 1
      invariant start < best <= |text| && (best == start + 1 || count(text[start..best]) <= maxTokens)
      invariant best == low - 1 || best == low == start + 1
      invariant high == |text| ==> count(text[start..|text|]) > maxTokens
      invariant Fits(text, start, count, maxTokens) ==>
                  && count(text[start..best]) <= maxTokens
                  && forall e :: high < e <= |text| ==> count(text[start..e]) > maxTokens
    {
      var mid := (low + high) / 2;
      if count(text[start..mid]) <= maxTokens {
        best := mid;
        low := mid + 1;
      } else {
        high := mid - 1;
      }
    }
  }

  /**
   _preferred_cut: just after the last blank line inside the window, else after the last newline, else
   at `maxEnd`. The window reaches one character past `maxEnd`.
  */
  method PreferredCut(text: string, start: nat, maxEnd: nat) returns (end: nat)
    requires start < maxEnd < |text|
    ensures end == Cut(text, start, maxEnd) && IsCut(text, start, maxEnd, end)
  {
    CutIsCut(text, start, maxEnd);
    var position := RFind(text, "\n\n", start + 1, maxEnd + 1);
    if position > start { return position + 2; }
    position := RFind(text, "\n", start + 1, maxEnd + 1);
    if position > start { return position + 1; }
    end := maxEnd;
  }

  /**
   _overlap_start: what is repeated never exceeds the overlap; for a tokenizer whose suffixes shrink it
   is the longest such repetition, unless the whole span would qualify.
  */
  method OverlapStart(text: string, start: nat, end: nat, count: Tokenizer, overlapTokens: nat) returns (best: nat)
    requires start < end <= |text| && count("") == 0
    ensures start <= best <= end && count(text[best..end]) <= overlapTokens
    ensures overlapTokens == 0 || count(text[start..end]) <= overlapTokens ==> best == end
    ensures overlapTokens > 0 && count(text[start..end]) > overlapTokens && SuffixesShrink(text, start, end, count) ==>
              forall p :: start <= p < best ==> count(text[p..end]) > overlapTokens
  {
    assert text[end..end] == "";
    if overlapTokens == 0 { return end; }
    if count(text[start..end]) <= overlapTokens { return end; }
    var low: int, high: int := start, end;
    best := end;
    while low <= high
      invariant start <= low <= high + 1 <= end + 1 && start <= best <= end
      invariant best == high + 1 || best == high == end
      invariant count(text[best..end]) <= overlapTokens
      invariant SuffixesShrink(text, start, end, count) ==>
                  forall p :: start <= p < low ==> count(text[p..end]) > overlapTokens
    {
      var mid := (low + high) / 2;
      if count(text[mid..end]) <= overlapTokens {
        best := mid;
        high := mid - 1;
      } else {
        low := mid + 1;
      }
    }
  }

  /* ----- the spans ----- */

  /** Spans cover the text: they start at 0, move strictly forward, leave no gap and end at its end. */
  ghost predicate Covers(text: string, spans: seq<Span>) {
    && (|text| == 0 <==> |spans| == 0)
    && Advances(text, spans)
    && (|spans| > 0 ==> spans[|spans| - 1].end == |text|)
  }

  ghost predicate Advances(text: string, spans: seq<Span>) {
    && (|spans| > 0 ==> spans[0].start == 0)
    && (forall i :: 0 <= i < |spans| ==> spans[i].start < spans[i].end <= |text|)
    && (forall i, j :: 0 <= i < j < |spans| && j == i + 1 ==> spans[i].start < spans[j].start <= spans[i].end)
  }

  /** Neighbouring spans repeat at most `overlapTokens` tokens. */
  ghost predicate OverlapsBounded(text: string, spans: seq<Span>, count: Tokenizer, overlapTokens: nat)
    requires Advances(text, spans)
  {
    forall i, j :: 0 <= i < j < |spans| && j == i + 1 ==> count(text[spans[j].start..spans[i].end]) <= overlapTokens
  }

  /** The span fits, or it fits without the one newline at its end. */
  ghost predicate FitsOrEndsInNewline(text: string, span: Span, count: Tokenizer, maxTokens: nat)
    requires span.start < span.end <= |text|
  {
    || count(text[span.start..span.end]) <= maxTokens
    || (text[span.end - 1] == '\n' && span.start < span.end - 1 && count(text[span.start..span.end - 1]) <= maxTokens)
  }

  ghost predicate SizesBounded(text: string, spans: seq<Span>, count: Tokenizer, maxTokens: nat)
    requires Advances(text, spans)
  {
    forall i :: 0 <= i < |spans| ==> FitsOrEndsInNewline(text, spans[i], count, maxTokens)
  }

  /** The end _preferred_cut returns. */
  function Cut(text: string, start: nat, maxEnd: nat): (end: nat)
    requires start < maxEnd < |text|
    ensures start < end <= maxEnd + 1
    ensures end == maxEnd + 1 ==> text[maxEnd] == '\n'
  {
    var blank := RFind(text, "\n\n", start + 1, maxEnd + 1);
    var line := RFind(text, "\n", start + 1, maxEnd + 1);
    assert blank == maxEnd - 1 ==> text[maxEnd] == text[blank..blank + 2][1];
    assert line == maxEnd ==> text[maxEnd] == text[line..line + 1][0];
    if blank >= 0 then blank + 2 else if line >= 0 then line + 1 else maxEnd
  }

  /** `sub` occurs inside the window that ends one past `maxEnd`, after its first character. */
  predicate InWindow(text: string, start: nat, maxEnd: nat, sub: string, p: int) {
    start < p && p + |sub| <= maxEnd + 1 && OccursAt(text, sub, p)
  }

  /** `end` is just after the last occurrence of `sub` in the window. */
  ghost predicate AfterLast(text: string, start: nat, maxEnd: nat, sub: string, end: nat) {
    InWindow(text, start, maxEnd, sub, end - |sub|) && forall p: int :: p > end - |sub| ==>
        !InWindow(text, start, maxEnd, sub, p)
  }

  ghost predicate Absent(text: string, start: nat, maxEnd: nat, sub: string) {
    forall p: int :: !InWindow(text, start, maxEnd, sub, p)
  }

  /** After the last blank line of the window if there is one, else after its last newline, else at `maxEnd`. */
  ghost predicate IsCut(text: string, start: nat, maxEnd: nat, end: nat) {
    || AfterLast(text, start, maxEnd, "\n\n", end)
    || (Absent(text, start, maxEnd, "\n\n") && AfterLast(text, start, maxEnd, "\n", end))
    || (Absent(text, start, maxEnd, "\n\n") && Absent(text, start, maxEnd, "\n") && end == maxEnd)
  }

  lemma CutIsCut(text: string, start: nat, maxEnd: nat)
    requires start < maxEnd < |text|
    ensures IsCut(text, start, maxEnd, Cut(text, start, maxEnd))
  {
    var blank := RFind(text, "\n\n", start + 1, maxEnd + 1);
    var line := RFind(text, "\n", start + 1, maxEnd + 1);
    if blank >= 0 {
      assert InWindow(text, start, maxEnd, "\n\n", blank);
    } else if line >= 0 {
      assert InWindow(text, start, maxEnd, "\n", line);
    }
  }

  /** There is only one such end. */
  lemma CutIsUnique(text: string, start: nat, maxEnd: nat, a: nat, b: nat)
    requires IsCut(text, start, maxEnd, a) && IsCut(text, start, maxEnd, b)
    ensures a == b
  {
    assert AfterLast(text, start, maxEnd, "\n\n", a) ==> InWindow(text, start, maxEnd, "\n\n", a - 2);
    assert AfterLast(text, start, maxEnd, "\n\n", b) ==> InWindow(text, start, maxEnd, "\n\n", b - 2);
    assert AfterLast(text, start, maxEnd, "\n", a) ==> InWindow(text, start, maxEnd, "\n", a - 1);
    assert AfterLast(text, start, maxEnd, "\n", b) ==> InWindow(text, start, maxEnd, "\n", b - 1);
  }

  lemma CutTakesNewline(text: string, start: nat, maxEnd: nat)
    requires start < maxEnd < |text|
    ensures Cut(text, start, maxEnd) == maxEnd + 1 <==>
              text[maxEnd] == '\n'
              && (RFind(text, "\n\n", start + 1, maxEnd + 1) == -1
                  || RFind(text, "\n\n", start + 1, maxEnd + 1) == maxEnd - 1)
  {
    assert text[maxEnd] == '\n' ==> OccursAt(text, "\n", maxEnd);
  }

  /**
   When a cut oversteps: for a tokenizer whose counts never fall, the span up to the preferred cut is
   too large exactly when the cut took the newline one past the greatest end that fits.
  */
  lemma CutOverstepsOnlyByNewline(text: string, start: nat, maxEnd: nat, count: Tokenizer, maxTokens: nat)
    requires start < maxEnd < |text| && Fits(text, start, count, maxTokens)
    requires count(text[start..maxEnd]) <= maxTokens
    requires forall e :: maxEnd < e <= |text| ==> count(text[start..e]) > maxTokens
    ensures var end := Cut(text, start, maxEnd);
            && (count(text[start..end]) > maxTokens <==>
                  text[maxEnd] == '\n'
                  && (RFind(text, "\n\n", start + 1, maxEnd + 1) == -1
                      || RFind(text, "\n\n", start + 1, maxEnd + 1) == maxEnd - 1))
            && FitsOrEndsInNewline(text, Span(start, end), count, maxTokens)
  {
    CutTakesNewline(text, start, maxEnd);
    var end := Cut(text, start, maxEnd);
    if end <= maxEnd {
      assert count(text[start..end]) <= count(text[start..maxEnd]);
    }
  }

  /**
   One newline too many, concretely: with one token a character and room for one, "a\nb" is cut after
   its newline and the first span has two tokens.
  */
  lemma NewlineOversteps()
    ensures var count: Tokenizer := (s: string) => |s|; var text := "a\nb";
            && FitsEverywhere(text, count, 1)
            && count(text[0..1]) <= 1 && (forall e :: 1 < e <= |text| ==> count(text[0..e]) > 1)
            && Cut(text, 0, 1) == 2
  {
    var text := "a\nb";
    assert text[1..3][1] == 'b' && text[0..2][0] == 'a';
    assert OccursAt(text, "\n", 1);
  }

  /* ----- which spans they are ----- */

  /** The greatest end that fits. */
  ghost predicate Greatest(text: string, start: nat, e: nat, count: Tokenizer, maxTokens: nat) {
    && start < e <= |text| && count(text[start..e]) <= maxTokens
    && forall f :: e < f <= |text| ==> count(text[start..f]) > maxTokens
  }

  /** The span takes all the rest if it fits, and else ends at the cut at the greatest end that does. */
  ghost predicate EndsRight(text: string, span: Span, count: Tokenizer, maxTokens: nat)
    requires span.start < span.end <= |text|
  {
    && (count(text[span.start..]) <= maxTokens ==> span.end == |text|)
    && (count(text[span.start..]) > maxTokens && Fits(text, span.start, count, maxTokens) ==>
          exists e :: Greatest(text, span.start, e, count, maxTokens) && IsCut(text, span.start, e, span.end))
  }

  /** The next span repeats as much of this one as the overlap allows, and nothing if the whole span would do. */
  ghost predicate StartsRight(text: string, span: Span, next: nat, count: Tokenizer, overlapTokens: nat)
    requires span.start < span.end <= |text|
  {
    if overlapTokens == 0 || count(text[span.start..span.end]) <= overlapTokens then next == span.end
    else
      SuffixesShrink(text, span.start, span.end, count) ==>
        && span.start < next <= span.end && count(text[next..span.end]) <= overlapTokens
        && forall p :: span.start <= p < next ==> count(text[p..span.end]) > overlapTokens
  }

  /** Every span ends where it should, and every next one starts where it should. */
  ghost predicate Chosen(text: string, spans: seq<Span>, count: Tokenizer, maxTokens: nat, overlapTokens: nat)
    requires Advances(text, spans)
  {
    && (forall i :: 0 <= i < |spans| ==> EndsRight(text, spans[i], count, maxTokens))
    && (forall i, j :: 0 <= i < j < |spans| && j == i + 1 ==>
          spans[i].end < |text| && StartsRight(text, spans[i], spans[j].start, count, overlapTokens))
  }

  /** Under the usual assumptions on the tokenizer there is only one way to cut a text. */
  lemma SpansAreDetermined(
      text: string, a: seq<Span>, b: seq<Span>, count: Tokenizer, maxTokens: nat, overlapTokens: nat)
    requires Covers(text, a) && Chosen(text, a, count, maxTokens, overlapTokens)
    requires Covers(text, b) && Chosen(text, b, count, maxTokens, overlapTokens)
    requires FitsEverywhere(text, count, maxTokens)
    requires forall start, end :: 0 <= start <= end <= |text| ==> SuffixesShrink(text, start, end, count)
    ensures a == b
  {
    var n := if |a| <= |b| then |a| else |b|;
    SamePrefix(text, a, b, count, maxTokens, overlapTokens, n);
    if 0 < |a| < |b| {
      InnerEnd(text, b, count, maxTokens, overlapTokens, n - 1);
    } else if 0 < |b| < |a| {
      InnerEnd(text, a, count, maxTokens, overlapTokens, n - 1);
    }
  }

  lemma InnerEnd(text: string, spans: seq<Span>, count: Tokenizer, maxTokens: nat, overlapTokens: nat, i: nat)
    requires Advances(text, spans) && Chosen(text, spans, count, maxTokens, overlapTokens) && i + 1 < |spans|
    ensures spans[i].end < |text|
  {
    var j := i + 1;
    assert spans[j].start <= spans[i].end;
  }

  lemma {:induction false} SamePrefix(
      text: string, a: seq<Span>, b: seq<Span>, count: Tokenizer, maxTokens: nat, overlapTokens: nat, n: nat)
    requires Covers(text, a) && Chosen(text, a, count, maxTokens, overlapTokens)
    requires Covers(text, b) && Chosen(text, b, count, maxTokens, overlapTokens)
    requires FitsEverywhere(text, count, maxTokens) && n <= |a| && n <= |b|
    requires forall start, end :: 0 <= start <= end <= |text| ==> SuffixesShrink(text, start, end, count)
    ensures forall i :: 0 <= i < n ==> a[i] == b[i]
  {
    if n > 0 {
      SamePrefix(text, a, b, count, maxTokens, overlapTokens, n - 1);
      if n > 1 {
        assert a[n - 2] == b[n - 2];
        SameStart(text, a[n - 2], a[n - 1].start, b[n - 1].start, count, overlapTokens);
      }
      SameEnd(text, a[n - 1], b[n - 1], count, maxTokens);
    }
  }

  lemma SameStart(text: string, span: Span, a: nat, b: nat, count: Tokenizer, overlapTokens: nat)
    requires span.start < span.end <= |text| && SuffixesShrink(text, span.start, span.end, count)
    requires StartsRight(text, span, a, count, overlapTokens) && StartsRight(text, span, b, count, overlapTokens)
    ensures a == b
  {
  }

  lemma SameEnd(text: string, a: Span, b: Span, count: Tokenizer, maxTokens: nat)
    requires a.start == b.start && a.start < a.end <= |text| && b.start < b.end <= |text|
    requires Fits(text, a.start, count, maxTokens)
    requires EndsRight(text, a, count, maxTokens) && EndsRight(text, b, count, maxTokens)
    ensures a == b
  {
    if count(text[a.start..]) > maxTokens {
      var e :| Greatest(text, a.start, e, count, maxTokens) && IsCut(text, a.start, e, a.end);
      var f :| Greatest(text, a.start, f, count, maxTokens) && IsCut(text, a.start, f, b.end);
      assert e == f;
      CutIsUnique(text, a.start, e, a.end, b.end);
    }
  }

  /** The end of the span that starts at `start`. */
  method SpanEnd(text: string, start: nat, count: Tokenizer, maxTokens: nat) returns (end: nat)
    requires start < |text|
    ensures start < end <= |text| && EndsRight(text, Span(start, end), count, maxTokens)
    ensures Fits(text, start, count, maxTokens) ==> FitsOrEndsInNewline(text, Span(start, end), count, maxTokens)
  {
    var best := MaxEndForTokenLimit(text, start, count, maxTokens);
    end := best;
    if best < |text| {
      if Fits(text, start, count, maxTokens) {
        CutOverstepsOnlyByNewline(text, start, best, count, maxTokens);
        assert Greatest(text, start, best, count, maxTokens);
      }
      end := PreferredCut(text, start, best);
    } else {
      assert text[start..|text|] == text[start..];
      assert Fits(text, start, count, maxTokens) ==> count(text[start..]) <= maxTokens;
    }
  }

  /** The start of the span after [start, end): strictly forward, never past the end. */
  method NextStart(text: string, start: nat, end: nat, count: Tokenizer, overlapTokens: nat) returns (next: nat)
    requires start < end <= |text| && count("") == 0
    ensures start < next <= end && count(text[next..end]) <= overlapTokens
    ensures StartsRight(text, Span(start, end), next, count, overlapTokens)
  {
    next := OverlapStart(text, start, end, count, overlapTokens);
    if next <= start {
      assert text[end..end] == "";
      next := end;
    }
  }

  lemma AppendedChoice(
      text: string, spans: seq<Span>, span: Span, count: Tokenizer, maxTokens: nat, overlapTokens: nat)
    requires Advances(text, spans) && Advances(text, spans + [span])
    requires Chosen(text, spans, count, maxTokens, overlapTokens)
    requires span.start < span.end <= |text| && EndsRight(text, span, count, maxTokens)
    requires spans != [] ==>
               var last := spans[|spans| - 1];
               last.end < |text| && StartsRight(text, last, span.start, count, overlapTokens)
    ensures Chosen(text, spans + [span], count, maxTokens, overlapTokens)
  {
    var all := spans + [span];
    forall i | 0 <= i < |all| ensures EndsRight(text, all[i], count, maxTokens) {
      if i < |spans| { assert all[i] == spans[i]; } else { assert all[i] == span; }
    }
    forall i, j | 0 <= i < j < |all| && j == i + 1
      ensures all[i].end < |text| && StartsRight(text, all[i], all[j].start, count, overlapTokens)
    {
      if j < |spans| {
        assert all[i] == spans[i] && all[j] == spans[j] && spans[j].start <= spans[i].end;
      } else {
        assert all[i] == spans[|spans| - 1] && all[j] == span;
      }
    }
  }

  lemma AppendedSpan(text: string, spans: seq<Span>, span: Span, count: Tokenizer, overlapTokens: nat)
    requires Advances(text, spans) && OverlapsBounded(text, spans, count, overlapTokens)
    requires span.start < span.end <= |text|
    requires if spans == [] then span.start == 0 else
               var last := spans[|spans| - 1];
               last.start < span.start <= last.end && count(text[span.start..last.end]) <= overlapTokens
    ensures Advances(text, spans + [span]) && OverlapsBounded(text, spans + [span], count, overlapTokens)
  {
  }

  lemma AppendedSize(text: string, spans: seq<Span>, span: Span, count: Tokenizer, maxTokens: nat)
    requires Advances(text, spans) && Advances(text, spans + [span]) && SizesBounded(text, spans, count, maxTokens)
    requires span.start < span.end <= |text| && FitsOrEndsInNewline(text, span, count, maxTokens)
    ensures SizesBounded(text, spans + [span], count, maxTokens)
  {
  }

  /** _chunk_spans, for any tokenizer at all. */
  method ChunkSpans(text: string, count: Tokenizer, maxTokens: nat, overlapTokens: nat) returns (spans: seq<Span>)
    requires count("") == 0
    ensures Covers(text, spans)
    ensures Chosen(text, spans, count, maxTokens, overlapTokens)
    ensures OverlapsBounded(text, spans, count, overlapTokens)
    ensures FitsEverywhere(text, count, maxTokens) ==> SizesBounded(text, spans, count, maxTokens)
  {
    spans := [];
    var start := 0;
    while start < |text|
      invariant start <= |text| && Advances(text, spans)
      invariant if spans == [] then start == 0 else
                  var last := spans[|spans| - 1];
                  && last.start < start <= last.end < |text| && count(text[start..last.end]) <= overlapTokens
                  && StartsRight(text, last, start, count, overlapTokens)
      invariant Chosen(text, spans, count, maxTokens, overlapTokens)
      invariant OverlapsBounded(text, spans, count, overlapTokens)
      invariant FitsEverywhere(text, count, maxTokens) ==> SizesBounded(text, spans, count, maxTokens)
    {
      var end := SpanEnd(text, start, count, maxTokens);
      AppendedSpan(text, spans, Span(start, end), count, overlapTokens);
      AppendedChoice(text, spans, Span(start, end), count, maxTokens, overlapTokens);
      if FitsEverywhere(text, count, maxTokens) {
        AppendedSize(text, spans, Span(start, end), count, maxTokens);
      }
      spans := spans + [Span(start, end)];
      if end >= |text| { break; }
      start := NextStart(text, start, end, count, overlapTokens);
    }
  }

  /** A last span below the minimum has joined the one before it if the two fit together. */
  ghost predicate TailMerged(
      text: string, spans: seq<Span>, merged: seq<Span>, count: Tokenizer, maxTokens: nat, minTokens: nat)
    requires Advances(text, spans)
  {
    var n := |spans|;
    if n >= 2 && count(text[spans[n - 1].start..]) < minTokens && count(text[spans[n - 2].start..]) <= maxTokens
    then merged == spans[..n - 2] + [Span(spans[n - 2].start, |text|)]
    else merged == spans
  }

  /** _merge_small_tail: a last span below the minimum joins the one before it when both fit together. */
  method MergeSmallTail(
      text: string, spans: seq<Span>, count: Tokenizer, maxTokens: nat, overlapTokens: nat, minTokens: nat)
    returns (merged: seq<Span>)
    requires Covers(text, spans) && OverlapsBounded(text, spans, count, overlapTokens)
    ensures Covers(text, merged)
    ensures OverlapsBounded(text, merged, count, overlapTokens)
    ensures SizesBounded(text, spans, count, maxTokens) ==> SizesBounded(text, merged, count, maxTokens)
    ensures TailMerged(text, spans, merged, count, maxTokens, minTokens)
  {
    merged := spans;
    if |merged| < 2 { return; }
    var last := merged[|merged| - 1];
    assert text[last.start..last.end] == text[last.start..];
    if count(text[last.start..last.end]) >= minTokens { return; }
    var previousStart := merged[|merged| - 2].start;
    assert text[previousStart..last.end] == text[previousStart..];
    if count(text[previousStart..last.end]) <= maxTokens {
      merged := merged[..|merged| - 2] + [Span(previousStart, last.end)];
    }
  }

  /* ----- the chunks ----- */

  /** The chunks are the spans' slices of the text, numbered from 0. */
  ghost predicate Slices(text: string, chunks: seq<TextChunk>, spans: seq<Span>, count: Tokenizer)
    requires Covers(text, spans)
  {
    && |chunks| == |spans|
    && forall i :: 0 <= i < |chunks| ==>
         && chunks[i].ordinal == i && chunks[i].startChar == spans[i].start && chunks[i].endChar == spans[i].end
         && chunks[i].text == text[spans[i].start..spans[i].end] && chunks[i].tokenCount == count(chunks[i].text)
         && chunks[i].contentHash == ContentHash(chunks[i].text)
  }

  method MaterializeChunks(text: string, spans: seq<Span>, documentId: string, generation: nat, count: Tokenizer)
    returns (chunks: seq<TextChunk>)
    requires Covers(text, spans)
    ensures Slices(text, chunks, spans, count)
    ensures forall i :: 0 <= i < |chunks| ==>
            chunks[i].id == ChunkId(documentId, generation, i, ContentHash(chunks[i].text))
  {
    chunks := [];
    for ordinal := 0 to |spans|
      invariant |chunks| == ordinal
      invariant forall i :: 0 <= i < ordinal ==>
                  && chunks[i].ordinal == i && chunks[i].startChar == spans[i].start
                  && chunks[i].endChar == spans[i].end
                  && chunks[i].text == text[spans[i].start..spans[i].end]
                  && chunks[i].tokenCount == count(chunks[i].text)
                  && chunks[i].contentHash == ContentHash(chunks[i].text)
                  && chunks[i].id == ChunkId(documentId, generation, i, chunks[i].contentHash)
    {
      var chunkText := text[spans[ordinal].start..spans[ordinal].end];
      var hash := ContentHash(chunkText);
      chunks := chunks + [TextChunk(ChunkId(documentId, generation, ordinal, hash), ordinal, chunkText, hash,
                                    count(chunkText), spans[ordinal].start, spans[ordinal].end)];
    }
  }

  /** The document put back together from the chunks' texts and start offsets alone. */
  function Rebuild(chunks: seq<TextChunk>): string
    requires Contiguous(chunks)
  {
    if chunks == [] then ""
    else if |chunks| == 1 then chunks[0].text
    else chunks[0].text[..chunks[1].startChar - chunks[0].startChar] + Rebuild(chunks[1..])
  }

  ghost predicate Contiguous(chunks: seq<TextChunk>) {
    forall i, j :: 0 <= i < j < |chunks| && j == i + 1 ==>
      chunks[i].startChar <= chunks[j].startChar <= chunks[i].startChar + |chunks[i].text|
  }

  lemma {:induction false} RebuildTail(text: string, chunks: seq<TextChunk>)
    requires |chunks| > 0 && Contiguous(chunks)
    requires forall i :: 0 <= i < |chunks| ==>
               chunks[i].startChar <= chunks[i].endChar <= |text|
                   && chunks[i].text == text[chunks[i].startChar..chunks[i].endChar]
    requires chunks[|chunks| - 1].endChar == |text|
    ensures Rebuild(chunks) == text[chunks[0].startChar..]
  {
    if |chunks| == 1 {
      assert text[chunks[0].startChar..|text|] == text[chunks[0].startChar..];
    } else {
      var a, b := chunks[0].startChar, chunks[1].startChar;
      assert b <= a + |chunks[0].text|;
      RebuildTail(text, chunks[1..]);
      HeadThenTail(text, a, chunks[0].endChar, b);
      assert chunks[1..][0] == chunks[1];
    }
  }

  /** A slice cut short where the next one starts, then everything from there on. */
  lemma HeadThenTail(text: string, a: nat, end: nat, b: nat)
    requires a <= b <= end <= |text|
    ensures text[a..end][..b - a] + text[b..] == text[a..]
  {
  }

  /** Whatever the tokenizer, the chunks of a document rebuild it character for character. */
  lemma ChunksRebuildDocument(text: string, chunks: seq<TextChunk>, spans: seq<Span>, count: Tokenizer)
    requires Covers(text, spans) && Slices(text, chunks, spans, count)
    ensures Contiguous(chunks) && Rebuild(chunks) == text
  {
    if |chunks| > 0 {
      RebuildTail(text, chunks);
      assert text[0..] == text;
    }
  }

  /** A text that fits whole is one span, merged or not. */
  lemma WholeTextFits(
      text: string, cut: seq<Span>, merged: seq<Span>, count: Tokenizer, maxTokens: nat, overlapTokens: nat,
          minTokens: nat)
    requires Covers(text, cut) && Chosen(text, cut, count, maxTokens, overlapTokens)
    requires TailMerged(text, cut, merged, count, maxTokens, minTokens) && text != "" && count(text) <= maxTokens
    ensures merged == [Span(0, |text|)]
  {
    assert text[0..] == text;
    assert cut[0].end == |text|;
    assert |cut| == 1 by {
      if |cut| > 1 { InnerEnd(text, cut, count, maxTokens, overlapTokens, 0); }
    }
  }

  /**
   chunk_document_text. `cut` are the spans chosen one by one, `spans` the same with a small tail merged; a chunk's
   id depends on nothing but the document, the generation, the ordinal and the text.
  */
  method ChunkDocumentText(text: string, documentId: string, generation: nat, count: Tokenizer,
                           maxTokens: int, overlapTokens: int, minTokens: int)
    returns (result: ChunkResult, ghost cut: seq<Span>, ghost spans: seq<Span>)
    requires count("") == 0
    ensures result.Chunks? <==> maxTokens > 0 && 0 <= overlapTokens < maxTokens && 0 < minTokens <= maxTokens
    ensures result.Refused? ==>
              result.error == if maxTokens <= 0 then MaxTokensNotPositive
                              else if overlapTokens < 0 || overlapTokens >= maxTokens then OverlapOutOfRange
                              else MinTokensOutOfRange
    ensures result.Chunks? ==>
              && Covers(text, cut) && Chosen(text, cut, count, maxTokens, overlapTokens)
              && TailMerged(text, cut, spans, count, maxTokens, minTokens)
              && Covers(text, spans) && Slices(text, result.chunks, spans, count)
              && OverlapsBounded(text, spans, count, overlapTokens)
              && (FitsEverywhere(text, count, maxTokens) ==> SizesBounded(text, spans, count, maxTokens))
    ensures result.Chunks? ==>
              && Contiguous(result.chunks) && Rebuild(result.chunks) == text
              && (forall i :: 0 <= i < |result.chunks| ==>
                    result.chunks[i].id == ChunkId(documentId, generation, i, ContentHash(result.chunks[i].text)))
    ensures result.Chunks? && text != "" && count(text) <= maxTokens ==>
              |result.chunks| == 1 && result.chunks[0].text == text
  {
    cut, spans := [], [];
    if maxTokens <= 0 { return Refused(MaxTokensNotPositive), [], []; }
    if overlapTokens < 0 || overlapTokens >= maxTokens { return Refused(OverlapOutOfRange), [], []; }
    if minTokens <= 0 || minTokens > maxTokens { return Refused(MinTokensOutOfRange), [], []; }
    var chosen := ChunkSpans(text, count, maxTokens, overlapTokens);
    var merged := MergeSmallTail(text, chosen, count, maxTokens, overlapTokens, minTokens);
    var chunks := MaterializeChunks(text, merged, documentId, generation, count);
    ChunksRebuildDocument(text, chunks, merged, count);
    if text != "" && count(text) <= maxTokens {
      WholeTextFits(text, chosen, merged, count, maxTokens, overlapTokens, minTokens);
      assert text[0..|text|] == text;
    }
    result, cut, spans := Chunks(chunks), chosen, merged;
  }
}

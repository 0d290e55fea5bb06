/** What Enter, Tab and Shift+Tab do to a list in the composer (apps/web/src/composer-list-continuation.ts). */
module ListContinuation {
  import opened Options
  import opened Decimals
  import opened ListMarkers
  import opened ListRenumbering
  import CursorMaps

  /** Replaces part of the prompt and puts the caret at cursorAfter. */
  datatype Edit = Edit(start: nat, end: nat, replacement: string, cursorAfter: nat)

  function Applied(value: string, e: Edit): string
    requires e.start <= e.end <= |value|
  {
    value[..e.start] + e.replacement + value[e.end..]
  }

  // ---- Chips and lines

  /** The ranges that chips cover in the text of some segments. */
  function RangesOf(segments: seq<CursorMaps.Segment>): seq<Range> {
    if segments == [] then []
    else
      var n := |segments| - 1;
      var offset := |CursorMaps.Concat(segments[..n])|;
      RangesOf(segments[..n])
      + if segments[n].Chip? then [Range(offset, offset + |segments[n].source|)] else []
  }

  method InlineTokenRanges(value: string, tokens: seq<CursorMaps.Token>) returns (ranges: seq<Range>)
    requires CursorMaps.AreTokens(value, tokens)
    ensures ranges == RangesOf(CursorMaps.SegmentsOf(value, tokens)) && AreRanges(value, ranges)
  {
    var segments := CursorMaps.SplitPrompt(value, tokens);
    CursorMaps.SegmentsConcatenateToThePrompt(value, tokens);
    RangesAreRanges(segments);
    ranges := [];
    var offset := 0;
    for i := 0 to |segments|
      invariant offset == |CursorMaps.Concat(segments[..i])| && ranges == RangesOf(segments[..i])
    {
      var end := offset + |CursorMaps.SourceOf(segments[i])|;
      assert segments[..i + 1][..i] == segments[..i];
      if segments[i].Chip? {
        ranges := ranges + [Range(offset, end)];
      }
      offset := end;
    }
    assert segments[..|segments|] == segments;
  }

  lemma {:induction false} RangesAreRanges(segments: seq<CursorMaps.Segment>)
    requires forall i | 0 <= i < |segments| :: |CursorMaps.SourceOf(segments[i])| > 0
    ensures AreRanges(CursorMaps.Concat(segments), RangesOf(segments))
  {
    if |segments| > 0 {
      RangesAreRanges(segments[..|segments| - 1]);
    }
  }

  /** Every range begins where a token does. */
  ghost predicate BeginAtTokens(ranges: seq<Range>, tokens: seq<CursorMaps.Token>) {
    forall r <- ranges :: exists t <- tokens :: t.start == r.start
  }

  lemma TextAddsNoRange(segments: seq<CursorMaps.Segment>, text: string)
    ensures RangesOf(CursorMaps.WithText(segments, text)) == RangesOf(segments)
  {
    var filled := CursorMaps.WithText(segments, text);
    if |filled| > 0 {
      assert filled[..|filled| - 1] == if |filled| > |segments| then segments else segments[..|filled| - 1];
    }
  }

  lemma ChipAddsItsRange(segments: seq<CursorMaps.Segment>, chip: CursorMaps.Segment)
    requires chip.Chip?
    ensures var offset := |CursorMaps.Concat(segments)|;
      RangesOf(segments + [chip]) == RangesOf(segments) + [Range(offset, offset + |chip.source|)]
  {
    assert (segments + [chip])[..|segments|] == segments;
  }

  lemma OneMoreToken(ranges: seq<Range>, tokens: seq<CursorMaps.Token>, t: CursorMaps.Token, end: nat)
    requires BeginAtTokens(ranges, tokens)
    ensures BeginAtTokens(ranges, tokens + [t]) && BeginAtTokens(ranges + [Range(t.start, end)], tokens + [t])
  {
    forall r <- ranges ensures exists t' <- tokens + [t] :: t'.start == r.start {
      var t' :| t' in tokens && t'.start == r.start;
      assert t' in tokens + [t];
    }
    assert t in tokens + [t];
  }

  lemma VisitedBeginAtTokens(value: string, p: CursorMaps.Progress, tokens: seq<CursorMaps.Token>, t: CursorMaps.Token)
    requires p.cursor <= |value| && CursorMaps.IsToken(value, t) && CursorMaps.Concat(p.segments) == value[..p.cursor]
    requires BeginAtTokens(RangesOf(p.segments), tokens)
    ensures BeginAtTokens(RangesOf(CursorMaps.Visited(value, p, t).segments), tokens + [t])
  {
    hide CursorMaps.WithText, RangesOf, CursorMaps.Concat, BeginAtTokens;
    OneMoreToken(RangesOf(p.segments), tokens, t, t.start + |t.source|);
    if t.start >= p.cursor {
      var between := value[p.cursor..t.start];
      var filled := CursorMaps.WithText(p.segments, between);
      CursorMaps.WithTextAddsText(p.segments, between);
      assert |value[..p.cursor] + between| == t.start;
      TextAddsNoRange(p.segments, between);
      ChipAddsItsRange(filled, CursorMaps.ChipOf(t));
    }
  }

  lemma AfterOneMore(value: string, tokens: seq<CursorMaps.Token>)
    requires CursorMaps.AreTokens(value, tokens) && |tokens| > 0
    ensures
      var earlier, t := tokens[..|tokens| - 1], tokens[|tokens| - 1];
      && CursorMaps.AreTokens(value, earlier) && CursorMaps.IsToken(value, t) && earlier + [t] == tokens
      && CursorMaps.After(value, tokens) == CursorMaps.Visited(value, CursorMaps.After(value, earlier), t)
  {
    hide CursorMaps.Visited;
  }

  lemma {:induction false} RangesAfterBeginAtTokens(value: string, tokens: seq<CursorMaps.Token>)
    requires CursorMaps.AreTokens(value, tokens)
    ensures BeginAtTokens(RangesOf(CursorMaps.After(value, tokens).segments), tokens)
  {
    if |tokens| > 0 {
      hide *;
      AfterOneMore(value, tokens);
      var earlier, t := tokens[..|tokens| - 1], tokens[|tokens| - 1];
      RangesAfterBeginAtTokens(value, earlier);
      CursorMaps.AfterReadsThePrompt(value, earlier);
      VisitedBeginAtTokens(value, CursorMaps.After(value, earlier), earlier, t);
    }
  }

  /** The chips of a prompt begin where its tokens do. */
  lemma RangesBeginAtTokens(value: string, tokens: seq<CursorMaps.Token>)
    requires CursorMaps.AreTokens(value, tokens)
    ensures BeginAtTokens(RangesOf(CursorMaps.SegmentsOf(value, tokens)), tokens)
  {
    hide RangesOf, BeginAtTokens;
    RangesAfterBeginAtTokens(value, tokens);
    var p := CursorMaps.After(value, tokens);
    TextAddsNoRange(p.segments, value[p.cursor..]);
  }

  /** A position is inside one of the ranges exactly when the cursor maps count it as inside a chip. */
  lemma {:induction false} RangesAreChips(segments: seq<CursorMaps.Segment>, position: nat)
    ensures Covers(RangesOf(segments), position) <==> exists k: nat :: CursorMaps.Covers(segments, k, position)
    ensures Covers(RangesOf(segments), position) <==> CursorMaps.InsideChip(segments, position)
  {
    CursorMaps.InsideChipIsBetweenItsEnds(segments, position);
    RangesAreCovers(segments, position);
  }

  lemma PrefixCovers(segments: seq<CursorMaps.Segment>, n: nat, k: nat, position: nat)
    requires k < n <= |segments|
    ensures CursorMaps.Covers(segments[..n], k, position) == CursorMaps.Covers(segments, k, position)
  {
    assert segments[..n][..k] == segments[..k] && segments[..n][..k + 1] == segments[..k + 1];
  }

  lemma LastCovers(segments: seq<CursorMaps.Segment>, position: nat)
    requires |segments| > 0
    ensures var n := |segments| - 1; var before := |CursorMaps.Concat(segments[..n])|;
      CursorMaps.Covers(segments, n, position)
      <==> segments[n].Chip? && before < position < before + |segments[n].source|
  {
    var n := |segments| - 1;
    CursorMaps.SourceLengthIsLength(segments[..n]);
    CursorMaps.SourceLengthIsLength(segments);
    assert segments[..n + 1] == segments;
  }

  lemma {:induction false} RangesAreCovers(segments: seq<CursorMaps.Segment>, position: nat)
    ensures Covers(RangesOf(segments), position) <==> exists k: nat :: CursorMaps.Covers(segments, k, position)
  {
    if |segments| > 0 {
      var n := |segments| - 1;
      RangesAreCovers(segments[..n], position);
      LastCovers(segments, position);
      CoversOneMore(RangesOf(segments[..n]), RangesOf(segments), position);
      hide CursorMaps.Covers, Covers;
      forall k: nat | k < n
        ensures CursorMaps.Covers(segments[..n], k, position) == CursorMaps.Covers(segments, k, position)
      {
        PrefixCovers(segments, n, k, position);
      }
      CoversInBounds(segments, position);
      CoversInBounds(segments[..n], position);
      if Covers(RangesOf(segments[..n]), position) {
        var k: nat :| CursorMaps.Covers(segments[..n], k, position);
        assert CursorMaps.Covers(segments, k, position);
      }
    } else {
      CoversInBounds(segments, position);
    }
  }

  lemma CoversInBounds(segments: seq<CursorMaps.Segment>, position: nat)
    ensures forall k: nat | CursorMaps.Covers(segments, k, position) :: k < |segments|
  {
  }

  lemma CoversOneMore(ranges: seq<Range>, longer: seq<Range>, position: nat)
    requires ranges <= longer && |longer| <= |ranges| + 1
    ensures Covers(longer, position)
            <==> Covers(ranges, position)
                 || (|longer| > |ranges| && longer[|ranges|].start < position < longer[|ranges|].end)
  {
    if Covers(ranges, position) {
      var i :| 0 <= i < |ranges| && ranges[i].start < position < ranges[i].end;
      assert longer[i] == ranges[i];
    }
  }

  function LineStart(value: string, position: nat): (start: nat)
    requires position <= |value|
    ensures start <= position && (start > 0 ==> value[start - 1] == '\n')
    ensures forall k | start <= k < position :: value[k] != '\n'
  {
    if position == 0 || value[position - 1] == '\n' then position else LineStart(value, position - 1)
  }

  /** One past the last line break before a position; at the very start of the prompt a break right there counts too. */
  function StartAfterBreak(value: string, position: nat): nat
    requires position <= |value|
  {
    if position == 0 && |value| > 0 && value[0] == '\n' then 1 else LineStart(value, position)
  }

  method LastBreakPlusOne(value: string, position: nat) returns (start: nat)
    requires position <= |value|
    ensures start == StartAfterBreak(value, position)
  {
    if position == 0 {
      return if |value| > 0 && value[0] == '\n' then 1 else 0;
    }
    start := position;
    while start > 0 && value[start - 1] != '\n'
      invariant start <= position && LineStart(value, start) == LineStart(value, position)
    {
      start := start - 1;
    }
  }

  method CurrentLine(value: string, cursor: nat) returns (start: nat, end: nat, text: string)
    requires cursor <= |value|
    ensures end == LineEnd(value, cursor) && start == StartAfterBreak(value, cursor)
    ensures text == value[LineStart(value, cursor)..end]
  {
    start := LastBreakPlusOne(value, cursor);
    end := IndexOfBreak(value, cursor);
    text := if start <= end then value[start..end] else "";
  }

  lemma NoMarkerOnEmptyLine()
    ensures ParseListMarker("").None?
  {
  }

  // ---- The markers above

  /** No chip reaches over a line break at the very start of the prompt. */
  predicate IsWalkable(value: string, ranges: seq<Range>) {
    |value| > 0 && value[0] == '\n' ==> !Covers(ranges, 1)
  }

  function CoverStart(ranges: seq<Range>, position: nat): (start: Option<nat>)
    ensures start.Some? ==> start.value < position
    ensures start.Some? <==> Covers(ranges, position)
  {
    if ranges == [] then None
    else
      var last := ranges[|ranges| - 1];
      if last.start < position < last.end then Some(last.start)
      else
        var before := CoverStart(ranges[..|ranges| - 1], position);
        assert before.None? ==> !Covers(ranges, position);
        before
  }

  /** Where the item's line begins whose last line ends at a position: a line that starts inside a chip goes on from the
      line where the chip starts. */
  function ItemStart(value: string, position: nat, ranges: seq<Range>): (start: nat)
    requires position <= |value|
    ensures start <= position && (start > 0 ==> value[start - 1] == '\n')
    decreases position
  {
    var start := LineStart(value, position);
    var cover := CoverStart(ranges, start);
    if cover.Some? then ItemStart(value, cover.value, ranges) else start
  }

  /** The markers of the items above a line, nearest first, up to the first line without one or the first line from which
      the walk does not end. */
  function MarkersAbove(value: string, lineStart: nat, ranges: seq<Range>): seq<Parsed>
    requires lineStart <= |value|
    decreases lineStart
  {
    if lineStart == 0 || LineSticks(value, ranges, lineStart) then []
    else
      var start := ItemStart(value, lineStart - 1, ranges);
      var parsed := ParseListMarker(value[start..lineStart - 1]);
      if parsed.None? then [] else [parsed.value] + MarkersAbove(value, start, ranges)
  }

  /** The walk up comes to a line from which it does not end. */
  predicate WalkSticks(value: string, lineStart: nat, ranges: seq<Range>)
    requires lineStart <= |value|
    decreases lineStart
  {
    lineStart > 0
    && (LineSticks(value, ranges, lineStart)
        || (var start := ItemStart(value, lineStart - 1, ranges);
            ParseListMarker(value[start..lineStart - 1]).Some? && WalkSticks(value, start, ranges)))
  }

  /** The walk does not get past the line that ends just before. */
  predicate LineSticks(value: string, ranges: seq<Range>, lineStart: nat)
    requires 0 < lineStart <= |value|
  {
    StartAfterBreak(value, lineStart - 1) <= |value| && Sticks(value, ranges, StartAfterBreak(value, lineStart - 1))
  }

  function Settled(value: string, start: nat, ranges: seq<Range>): nat
    requires start <= |value|
  {
    var cover := CoverStart(ranges, start);
    if cover.Some? then ItemStart(value, cover.value, ranges) else start
  }

  lemma {:induction false} OnlyCoverIsFound(value: string, ranges: seq<Range>, i: nat, position: nat)
    requires AreRanges(value, ranges) && i < |ranges| && ranges[i].start < position < ranges[i].end
    ensures CoverStart(ranges, position) == Some(ranges[i].start)
  {
    var n := |ranges| - 1;
    if i < n {
      assert ranges[i].end <= ranges[n].start;
      OnlyCoverIsFound(value, ranges[..n], i, position);
    }
  }

  /** Ranges from a place in the list on start at or after a position. */
  ghost predicate StartFrom(ranges: seq<Range>, n: nat, position: nat) {
    n <= |ranges| && forall i | n <= i < |ranges| :: ranges[i].start >= position
  }

  lemma NothingCovers(value: string, ranges: seq<Range>, n: nat, position: nat)
    requires AreRanges(value, ranges) && StartFrom(ranges, n, position) && (n > 0 ==> ranges[n - 1].end <= position)
    ensures CoverStart(ranges, position).None?
  {
    assert forall i | 0 <= i < n - 1 :: ranges[i].end <= ranges[n - 1].start;
  }

  /** The line goes back to a chip that begins with the prompt's first line break; the walk does not get past that break. */
  predicate Sticks(value: string, ranges: seq<Range>, start: nat)
    requires start <= |value|
  {
    start > 0 && value[0] == '\n' && Settled(value, start, ranges) == 0
  }

  lemma SettlesAtCover(value: string, ranges: seq<Range>, i: nat, start: nat)
    requires AreRanges(value, ranges) && i < |ranges| && start <= |value| && ranges[i].start < start < ranges[i].end
    ensures var back := StartAfterBreak(value, ranges[i].start);
      back <= start && Sticks(value, ranges, back) == Sticks(value, ranges, start)
      && (!Sticks(value, ranges, start) ==>
            back < start && Settled(value, start, ranges) == Settled(value, back, ranges))
  {
    OnlyCoverIsFound(value, ranges, i, start);
    if ranges[i].start == 0 && value[0] == '\n' {
      OnlyCoverIsFound(value, ranges, i, 1);
      assert ItemStart(value, 0, ranges) == 0;
    }
  }

  lemma StartFromLower(ranges: seq<Range>, n: nat, position: nat, lower: nat)
    requires StartFrom(ranges, n, position) && lower <= position
    ensures n <= |ranges| && StartFrom(ranges, n, lower)
    ensures n > 0 && ranges[n - 1].start >= lower ==> StartFrom(ranges, n - 1, lower)
  {
  }

  lemma SettlesWhereNothingCovers(value: string, ranges: seq<Range>, n: nat, start: nat)
    requires AreRanges(value, ranges) && StartFrom(ranges, n, start) && start <= |value|
    requires n > 0 ==> ranges[n - 1].end <= start
    ensures Settled(value, start, ranges) == start
  {
    NothingCovers(value, ranges, n, start);
  }

  lemma SettlingBegins(value: string, ranges: seq<Range>, lineEnd: nat)
    requires AreRanges(value, ranges) && lineEnd < |value| && value[lineEnd] == '\n'
    ensures StartAfterBreak(value, lineEnd) <= lineEnd + 1
    ensures !LineSticks(value, ranges, lineEnd + 1) ==>
              Settled(value, StartAfterBreak(value, lineEnd), ranges)
              == if lineEnd == 0 then 1 else ItemStart(value, lineEnd, ranges)
  {
    if lineEnd == 0 {
      assert ItemStart(value, 0, ranges) == 0;
    }
  }

  // Whether the walk back ends

  datatype Turn = Stop | Continue(start: nat, next: nat)

  /** One turn of the loop that moves the start of a line back. */
  function TurnOf(value: string, ranges: seq<Range>, start: nat, next: nat): (turn: Turn)
    requires AreRanges(value, ranges) && start <= |value| && next <= |ranges|
    ensures turn.Continue? ==> turn.start <= |value| && turn.next <= |ranges|
  {
    if next == 0 then Stop
    else
      var token := ranges[next - 1];
      if token.start >= start then Continue(start, next - 1)
      else if token.end > start then Continue(StartAfterBreak(value, token.start), next)
      else Stop
  }

  function AfterTurns(value: string, ranges: seq<Range>, start: nat, next: nat, n: nat): Turn
    requires AreRanges(value, ranges) && start <= |value| && next <= |ranges|
    decreases n
  {
    if n == 0 then Continue(start, next)
    else
      match TurnOf(value, ranges, start, next)
      case Stop => Stop
      case Continue(s, k) => AfterTurns(value, ranges, s, k, n - 1)
  }

  lemma TurnKeepsSticking(value: string, ranges: seq<Range>, start: nat, next: nat)
    requires AreRanges(value, ranges) && start <= |value| && StartFrom(ranges, next, start)
    ensures var turn := TurnOf(value, ranges, start, next);
      (turn.Stop? ==> !Sticks(value, ranges, start))
      && (turn.Continue? ==>
            StartFrom(ranges, turn.next, turn.start)
            && Sticks(value, ranges, turn.start) == Sticks(value, ranges, start)
            && (!Sticks(value, ranges, start) ==>
                  turn.start < start || (turn.start == start && turn.next < next)))
  {
    if next > 0 && ranges[next - 1].start < start < ranges[next - 1].end {
      SettlesAtCover(value, ranges, next - 1, start);
    } else if next == 0 || ranges[next - 1].start < start {
      SettlesWhereNothingCovers(value, ranges, next, start);
    }
  }

  lemma {:induction false} StuckNeverStops(value: string, ranges: seq<Range>, start: nat, next: nat, n: nat)
    requires AreRanges(value, ranges) && start <= |value| && StartFrom(ranges, next, start) && Sticks(value, ranges, start)
    ensures AfterTurns(value, ranges, start, next, n).Continue?
    decreases n
  {
    if n > 0 {
      TurnKeepsSticking(value, ranges, start, next);
      var turn := TurnOf(value, ranges, start, next);
      StuckNeverStops(value, ranges, turn.start, turn.next, n - 1);
    }
  }

  lemma {:induction false} UnstuckStops(value: string, ranges: seq<Range>, start: nat, next: nat) returns (n: nat)
    requires AreRanges(value, ranges) && start <= |value| && StartFrom(ranges, next, start) && !Sticks(value, ranges, start)
    ensures AfterTurns(value, ranges, start, next, n).Stop?
    decreases start, next
  {
    TurnKeepsSticking(value, ranges, start, next);
    n := 0;
    var turn := TurnOf(value, ranges, start, next);
    if turn.Continue? {
      n := UnstuckStops(value, ranges, turn.start, turn.next);
    }
    n := n + 1;
  }

  /** The walk back from a line ends exactly unless the line goes back to a chip that begins with the prompt's first line
      break and reaches beyond it. */
  lemma WalkBackEndsExactlyUnlessStuck(value: string, ranges: seq<Range>, start: nat, next: nat)
    requires AreRanges(value, ranges) && start <= |value| && StartFrom(ranges, next, start)
    ensures (exists n: nat :: AfterTurns(value, ranges, start, next, n).Stop?) <==> !Sticks(value, ranges, start)
  {
    if Sticks(value, ranges, start) {
      forall n: nat ensures !AfterTurns(value, ranges, start, next, n).Stop? {
        StuckNeverStops(value, ranges, start, next, n);
      }
    } else {
      var n := UnstuckStops(value, ranges, start, next);
    }
  }

  lemma {:induction false} ItemStartsAfterTheBreak(value: string, position: nat, ranges: seq<Range>)
    requires AreRanges(value, ranges) && |value| > 0 && value[0] == '\n' && !Covers(ranges, 1) && 0 < position <= |value|
    ensures ItemStart(value, position, ranges) > 0
    decreases position
  {
    var start := LineStart(value, position);
    var cover := CoverStart(ranges, start);
    if cover.Some? {
      if cover.value == 0 {
        CoverAtTheStartCoversFirst(ranges, start);
      } else {
        ItemStartsAfterTheBreak(value, cover.value, ranges);
      }
    }
  }

  lemma {:induction false} CoverIsARange(ranges: seq<Range>, position: nat) returns (i: nat)
    requires CoverStart(ranges, position).Some?
    ensures i < |ranges| && ranges[i].start < position < ranges[i].end && CoverStart(ranges, position) == Some(ranges[i].start)
  {
    var n := |ranges| - 1;
    if ranges[n].start < position < ranges[n].end {
      i := n;
    } else {
      i := CoverIsARange(ranges[..n], position);
    }
  }

  lemma CoverAtTheStartCoversFirst(ranges: seq<Range>, start: nat)
    requires CoverStart(ranges, start) == Some(0)
    ensures Covers(ranges, 1)
  {
    var i := CoverIsARange(ranges, start);
    assert ranges[i].start < 1 < ranges[i].end;
  }

  /** So in a walkable prompt every walk ends, and in any other there is a line from which it does not. */
  lemma WalkableExactlyWhenNothingSticks(value: string, ranges: seq<Range>)
    requires AreRanges(value, ranges)
    ensures IsWalkable(value, ranges) <==> forall start | 0 <= start <= |value| :: !Sticks(value, ranges, start)
  {
    if IsWalkable(value, ranges) {
      forall start | 0 <= start <= |value| ensures !Sticks(value, ranges, start) {
        if start > 0 && value[0] == '\n' && CoverStart(ranges, start).Some? {
          if CoverStart(ranges, start).value == 0 {
            CoverAtTheStartCoversFirst(ranges, start);
          } else {
            ItemStartsAfterTheBreak(value, CoverStart(ranges, start).value, ranges);
          }
        }
      }
    } else {
      assert CoverStart(ranges, 1).Some? && CoverStart(ranges, 1).value == 0 && ItemStart(value, 0, ranges) == 0;
      assert Sticks(value, ranges, 1);
    }
  }

  /** Moves the start of a line back to where its item begins, stepping down the list of chips as it goes. A turn that moves
      nothing is repeated for ever: the walk hangs. */
  method SettleStart(value: string, lineEnd: nat, ranges: seq<Range>, from: nat)
    returns (start: nat, next: nat, hangs: bool)
    requires AreRanges(value, ranges) && lineEnd < |value| && value[lineEnd] == '\n'
    requires StartFrom(ranges, from, lineEnd + 1)
    ensures hangs <==> LineSticks(value, ranges, lineEnd + 1)
    ensures StartFrom(ranges, next, start)
    ensures !hangs ==> if lineEnd == 0 then start == 1 else start == ItemStart(value, lineEnd, ranges)
  {
    hide *;
    SettlingBegins(value, ranges, lineEnd);
    start := LastBreakPlusOne(value, lineEnd);
    next := from;
    hangs := false;
    ghost var item := Settled(value, start, ranges);
    ghost var stuck := Sticks(value, ranges, start);
    LineSticksWhereItBegins(value, ranges, lineEnd);
    StartFromLower(ranges, next, lineEnd + 1, start);
    while next > 0
      invariant start <= lineEnd + 1 && next <= |ranges| && StartFrom(ranges, next, start)
      invariant Sticks(value, ranges, start) == stuck && (!stuck ==> Settled(value, start, ranges) == item)
      decreases start, next
    {
      var token := ranges[next - 1];
      if token.start >= start {
        StartFromLower(ranges, next, start, start);
        next := next - 1;
      } else if token.end > start {
        SettlesAtCover(value, ranges, next - 1, start);
        StartFromLower(ranges, next, start, StartAfterBreak(value, token.start));
        var back := LastBreakPlusOne(value, token.start);
        if back == start {
          hangs := true;
          return;
        }
        start := back;
      } else {
        SettledDoesNotStick(value, ranges, next, start);
        return;
      }
    }
    SettledDoesNotStick(value, ranges, next, start);
  }

  lemma LineSticksWhereItBegins(value: string, ranges: seq<Range>, lineEnd: nat)
    requires lineEnd < |value| && StartAfterBreak(value, lineEnd) <= lineEnd + 1
    ensures LineSticks(value, ranges, lineEnd + 1) <==> Sticks(value, ranges, StartAfterBreak(value, lineEnd))
  {
  }

  lemma SettledDoesNotStick(value: string, ranges: seq<Range>, n: nat, start: nat)
    requires AreRanges(value, ranges) && StartFrom(ranges, n, start) && start <= |value|
    requires n > 0 ==> ranges[n - 1].end <= start
    ensures Settled(value, start, ranges) == start && !Sticks(value, ranges, start)
  {
    SettlesWhereNothingCovers(value, ranges, n, start);
  }

  lemma OneMarkerAbove(value: string, lineStart: nat, ranges: seq<Range>, start: nat, text: string)
    requires 0 < lineStart <= |value| && !LineSticks(value, ranges, lineStart)
    requires if lineStart == 1 then text == ""
             else start == ItemStart(value, lineStart - 1, ranges) && text == value[start..lineStart - 1]
    ensures ParseListMarker(text).None? ==>
              MarkersAbove(value, lineStart, ranges) == [] && !WalkSticks(value, lineStart, ranges)
    ensures ParseListMarker(text).Some? ==>
              start < lineStart && (start > 0 ==> value[start - 1] == '\n')
              && MarkersAbove(value, lineStart, ranges) == [ParseListMarker(text).value] + MarkersAbove(value, start, ranges)
              && WalkSticks(value, lineStart, ranges) == WalkSticks(value, start, ranges)
  {
    if lineStart == 1 {
      NoMarkerOnEmptyLine();
      assert value[0..0] == "";
    }
    hide ParseListMarker, LineSticks;
  }

  lemma StuckLineEndsTheList(value: string, lineStart: nat, ranges: seq<Range>)
    requires 0 < lineStart <= |value| && LineSticks(value, ranges, lineStart)
    ensures MarkersAbove(value, lineStart, ranges) == [] && WalkSticks(value, lineStart, ranges)
  {
  }

  /** Where no chip reaches over a line break at the very start, no walk hangs. */
  lemma {:induction false} WalkablePromptsNeverHang(value: string, lineStart: nat, ranges: seq<Range>)
    requires AreRanges(value, ranges) && IsWalkable(value, ranges) && lineStart <= |value|
    ensures !WalkSticks(value, lineStart, ranges)
    decreases lineStart
  {
    WalkableExactlyWhenNothingSticks(value, ranges);
    hide Sticks, ParseListMarker, AreRanges, IsWalkable;
    if lineStart > 0 {
      WalkablePromptsNeverHang(value, ItemStart(value, lineStart - 1, ranges), ranges);
    }
  }

  lemma MovedToTheFront(markers: seq<Parsed>, p: Parsed, rest: seq<Parsed>)
    ensures markers + [p] + rest == markers + ([p] + rest)
  {
  }

  lemma SearchBegins(value: string, below: nat, ranges: seq<Range>)
    ensures StartFrom(ranges, |ranges|, below)
    ensures MarkersAbove(value, 0, ranges) == [] && !WalkSticks(value, 0, ranges)
  {
  }

  /** The markers that the walk yields, and whether it then hangs instead of ending. */
  method ListMarkersAbove(value: string, below: nat, ranges: seq<Range>) returns (markers: seq<Parsed>, hangs: bool)
    requires AreRanges(value, ranges)
    requires below <= |value| && (below > 0 ==> value[below - 1] == '\n')
    ensures markers == MarkersAbove(value, below, ranges) && hangs == WalkSticks(value, below, ranges)
  {
    hide *;
    markers := [];
    var lineStart: nat, next: nat := below, |ranges|;
    SearchBegins(value, below, ranges);
    while lineStart > 0
      invariant lineStart <= below && (lineStart > 0 ==> value[lineStart - 1] == '\n')
      invariant StartFrom(ranges, next, lineStart)
      invariant markers + MarkersAbove(value, lineStart, ranges) == MarkersAbove(value, below, ranges)
      invariant WalkSticks(value, lineStart, ranges) == WalkSticks(value, below, ranges)
    {
      var lineEnd: nat := lineStart - 1;
      var start;
      start, next, hangs := SettleStart(value, lineEnd, ranges, next);
      if hangs {
        StuckLineEndsTheList(value, lineStart, ranges);
        return;
      }
      var text := if start <= lineEnd then value[start..lineEnd] else "";
      OneMarkerAbove(value, lineStart, ranges, start, text);
      var parsed := ParseListMarker(text);
      if parsed.None? {
        return markers, false;
      }
      MovedToTheFront(markers, parsed.value, MarkersAbove(value, start, ranges));
      markers := markers + [parsed.value];
      lineStart := start;
    }
    hangs := false;
  }

  /** The nearest marker above that is indented less. */
  function ParentOf(markers: seq<Parsed>, width: nat): Option<Marker> {
    if markers == [] then None
    else if Width(markers[0].marker.indent) < width then Some(markers[0].marker)
    else ParentOf(markers[1..], width)
  }

  lemma {:induction false} MarkersAreWritten(value: string, lineStart: nat, ranges: seq<Range>)
    requires lineStart <= |value|
    ensures forall p <- MarkersAbove(value, lineStart, ranges) :: IsWritten(p.marker)
    decreases lineStart
  {
    if lineStart > 0 {
      var start := ItemStart(value, lineStart - 1, ranges);
      var text := value[start..lineStart - 1];
      if ParseListMarker(text).Some? {
        MarkerStartsItsLine(text);
        MarkersAreWritten(value, start, ranges);
      }
      hide ParseListMarker;
    }
  }

  lemma {:induction false} ParentIsAbove(markers: seq<Parsed>, width: nat)
    requires forall p <- markers :: IsWritten(p.marker)
    ensures var parent := ParentOf(markers, width);
      parent.Some? ==> IsWritten(parent.value) && Width(parent.value.indent) < width
  {
    if |markers| > 0 {
      ParentIsAbove(markers[1..], width);
    }
  }

  /** Asks for markers only until it has found the parent, so it hangs only if there is none. */
  method ParentMarker(value: string, lineStart: nat, marker: Marker, ranges: seq<Range>)
    returns (parent: Option<Marker>, hangs: bool)
    requires AreRanges(value, ranges)
    requires lineStart <= |value| && (lineStart > 0 ==> value[lineStart - 1] == '\n')
    ensures parent == ParentOf(MarkersAbove(value, lineStart, ranges), Width(marker.indent))
    ensures parent.Some? ==> IsWritten(parent.value) && Width(parent.value.indent) < Width(marker.indent)
    ensures hangs <==> parent.None? && WalkSticks(value, lineStart, ranges)
  {
    hide MarkersAbove, WalkSticks;
    var width := IndentWidth(marker.indent, 0);
    var markers;
    markers, hangs := ListMarkersAbove(value, lineStart, ranges);
    MarkersAreWritten(value, lineStart, ranges);
    ParentIsAbove(markers, width);
    for i := 0 to |markers|
      invariant ParentOf(markers[i..], width) == ParentOf(markers, width)
    {
      assert markers[i..][0] == markers[i] && markers[i..][1..] == markers[i + 1..];
      var aboveWidth := IndentWidth(markers[i].marker.indent, 0);
      if aboveWidth < width {
        return Some(markers[i].marker), false;
      }
    }
    parent := None;
  }

  // ---- What each key makes of the prompt

  /** The prompt after an edit, before and after the caret. */
  datatype Result = Result(before: string, after: string)

  predicate Makes(value: string, e: Edit, r: Result) {
    e.start <= e.end <= |value| && Applied(value, e) == r.before + r.after && e.cursorAfter == |r.before|
  }

  function MarkerAt(value: string, cursor: nat): Option<Parsed>
    requires cursor <= |value|
  {
    ParseListMarker(value[LineStart(value, cursor)..LineEnd(value, cursor)])
  }

  lemma MarkerAtIsInLine(value: string, cursor: nat)
    requires cursor <= |value| && MarkerAt(value, cursor).Some?
    ensures var p := MarkerAt(value, cursor).value;
      LineStart(value, cursor) + p.markerEnd <= LineEnd(value, cursor) && IsWritten(p.marker)
      && |p.marker.indent| + MarkerLength(p.marker) <= p.markerEnd
      && (p.marker.Ordered? ==> |p.marker.numberText| + 1 == MarkerLength(p.marker))
  {
    MarkerStartsItsLine(value[LineStart(value, cursor)..LineEnd(value, cursor)]);
    hide ParseListMarker;
  }

  /** The lines after the edited one; if it became an ordered item, the items after it are renumbered. */
  function RestAfter(value: string, lineEnd: nat, ranges: seq<Range>, item: Option<Marker>): string
    requires lineEnd <= |value| && (item.Some? ==> IsWritten(item.value))
  {
    if item.Some? && item.value.Ordered? then RenumberedRest(value, lineEnd, ranges, item.value) else value[lineEnd..]
  }

  predicate CanContinue(value: string, cursor: int, ranges: seq<Range>) {
    0 <= cursor <= |value| && !Covers(ranges, cursor)
    && (var p := MarkerAt(value, cursor);
        p.Some? && p.value.marker.space != "" && LineStart(value, cursor) + p.value.markerEnd <= cursor)
  }

  /** Enter: an item with text is split and gets a successor; an empty item turns into its parent's successor, or into
      plain text. */
  function Continued(value: string, cursor: int, ranges: seq<Range>): Result
    requires CanContinue(value, cursor, ranges)
  {
    var start, end, p := LineStart(value, cursor), LineEnd(value, cursor), MarkerAt(value, cursor).value;
    MarkerAtIsInLine(value, cursor);
    if AllSpace(value[start + p.markerEnd..end]) then
      var markers := MarkersAbove(value, start, ranges);
      MarkersAreWritten(value, start, ranges);
      ParentIsAbove(markers, Width(p.marker.indent));
      var parent := ParentOf(markers, Width(p.marker.indent));
      Result(value[..start] + (if parent.Some? then NextMarkerText(parent.value) else ""),
             value[cursor..end] + RestAfter(value, end, ranges, parent))
    else
      Result(value[..cursor] + "\n" + NextMarkerText(p.marker),
             value[cursor..end] + RestAfter(value, end, ranges, Some(p.marker)))
  }

  /** An edit that replaces nothing after the line, and one that renumbers what follows. */
  lemma ShortEdit(value: string, start: nat, from: nat, end: nat, text: string, rest: string, caret: nat)
    requires start <= from <= end <= |value| && rest == value[end..]
    ensures Applied(value, Edit(start, from, text, caret)) == value[..start] + text + (value[from..end] + rest)
  {
    assert value[from..] == value[from..end] + value[end..];
  }

  lemma LongEdit(value: string, start: nat, from: nat, end: nat, text: string, r: Renumbering, rest: string, caret: nat)
    requires start <= from <= end <= r.end <= |value| && rest == r.text + value[r.end..]
    ensures Applied(value, Edit(start, r.end, text + value[from..end] + r.text, caret))
            == value[..start] + text + (value[from..end] + rest)
  {
  }

  /** Replaces a stretch of the line by a text, puts the caret after it, and renumbers the items that follow. */
  method ReplaceAndRenumber(value: string, start: nat, from: nat, end: nat, text: string, item: Option<Marker>,
                            ranges: seq<Range>, caret: nat)
    returns (edit: Edit)
    requires start <= from <= end && IsLineEnd(value, end) && AreRanges(value, ranges)
    requires item.Some? ==> IsWritten(item.value)
    ensures edit.start == start && edit.cursorAfter == caret
    ensures start <= edit.end <= |value|
    ensures Applied(value, edit) == value[..start] + text + (value[from..end] + RestAfter(value, end, ranges, item))
  {
    hide RenumberedRest, AreRanges;
    if item.Some? && item.value.Ordered? {
      var renumbered := RenumberFollowingItems(value, end, item.value, ranges);
      if renumbered.Some? {
        var r := renumbered.value;
        LongEdit(value, start, from, end, text, r, RestAfter(value, end, ranges, item), caret);
        return Edit(start, r.end, text + value[from..end] + r.text, caret);
      }
    }
    ShortEdit(value, start, from, end, text, RestAfter(value, end, ranges, item), caret);
    edit := Edit(start, from, text, caret);
  }

  /** Looking for the parent of an empty item, Enter does not come back from a walk that hangs. */
  predicate EnterHangs(value: string, cursor: int, ranges: seq<Range>) {
    CanContinue(value, cursor, ranges) && Preceding(value, cursor, ranges).None?
    && WalkSticks(value, LineStart(value, cursor), ranges)
  }

  method ListContinuationForEnter(value: string, cursor: int, tokens: seq<CursorMaps.Token>)
    returns (edit: Option<Edit>, hangs: bool)
    requires CursorMaps.AreTokens(value, tokens)
    ensures hangs <==> EnterHangs(value, cursor, RangesOf(CursorMaps.SegmentsOf(value, tokens)))
    ensures edit.Some? <==> CanContinue(value, cursor, RangesOf(CursorMaps.SegmentsOf(value, tokens))) && !hangs
    ensures edit.Some? ==> Makes(value, edit.value, Continued(value, cursor, RangesOf(CursorMaps.SegmentsOf(value, tokens))))
  {
    hide ParseListMarker, CursorMaps.AreTokens, CursorMaps.SegmentsOf, RangesOf, AreRanges, Covers, WalkSticks;
    hide MarkersAbove, ParentOf, NextMarkerText, RestAfter, Applied, IsWritten, AllSpace, ColumnAfter, LineStart, LineEnd;
    if cursor < 0 || cursor > |value| {
      return None, false;
    }
    var start, end, text := CurrentLine(value, cursor);
    var parsed := ParseListMarker(text);
    if parsed.None? || parsed.value.marker.space == "" {
      return None, false;
    }
    MarkerAtIsInLine(value, cursor);
    StartOfMarkedLine(value, cursor);
    var p := parsed.value;
    var ranges := InlineTokenRanges(value, tokens);
    if cursor < start + p.markerEnd || Covers(ranges, cursor) {
      return None, false;
    }
    hangs := false;
    var e;
    if AllSpace(value[start + p.markerEnd..end]) {
      var parent;
      parent, hangs := ParentMarker(value, start, p.marker, ranges);
      if hangs {
        return None, true;
      }
      var replacement := if parent.Some? then NextMarkerText(parent.value) else "";
      e := ReplaceAndRenumber(value, start, cursor, end, replacement, parent, ranges, start + |replacement|);
    } else {
      var insertion := "\n" + NextMarkerText(p.marker);
      e := ReplaceAndRenumber(value, cursor, cursor, end, insertion, Some(p.marker), ranges, cursor + |insertion|);
    }
    edit := Some(e);
  }

  lemma StartOfMarkedLine(value: string, cursor: nat)
    requires cursor <= |value| && MarkerAt(value, cursor).Some?
    ensures StartAfterBreak(value, cursor) == LineStart(value, cursor) && IsLineEnd(value, LineEnd(value, cursor))
  {
    NoMarkerOnEmptyLine();
    hide ParseListMarker;
    assert value[0..0] == "";
  }

  // ---- Tab and Shift+Tab

  /** What Tab nests an item under: the nearest item above with the same indent, and the least indented item between. */
  datatype Nesting = Nesting(above: Parsed, child: Option<Marker>)

  function NestingOf(markers: seq<Parsed>, width: nat, child: Option<Marker>): Option<Nesting> {
    if markers == [] then None
    else
      var above := markers[0].marker;
      var aboveWidth := Width(above.indent);
      if aboveWidth < width then None
      else if aboveWidth > width then
        NestingOf(markers[1..], width, if child.None? || aboveWidth < Width(child.value.indent) then Some(above) else child)
      else Some(Nesting(markers[0], child))
  }

  /** The indent and, for an ordered item, the number that a nested or outdented item takes on. */
  function NestedNumber(marker: Marker, previous: Option<Marker>): string
    requires previous.Some? ==> IsWritten(previous.value)
  {
    if !marker.Ordered? then ""
    else if previous.Some? && previous.value.Ordered? && previous.value.delimiter == marker.delimiter
    then NextNumberText(previous.value.numberText)
    else "1"
  }

  function NumberLength(marker: Marker): nat {
    if marker.Ordered? then |marker.numberText| else 0
  }

  /** Content always lies deeper than its marker's indent (ContentIsDeeper), so there is always a space to add. */
  function NestedIndent(nesting: Nesting): string {
    if nesting.child.Some? then nesting.child.value.indent
    else nesting.above.marker.indent
         + Repeat(' ', if nesting.above.contentColumn >= Width(nesting.above.marker.indent)
                       then nesting.above.contentColumn - Width(nesting.above.marker.indent) else 0)
  }

  predicate IsWrittenNesting(n: Nesting) {
    n.child.Some? ==> IsWritten(n.child.value)
  }

  predicate HasMarker(value: string, cursor: int, ranges: seq<Range>) {
    0 <= cursor <= |value| && MarkerAt(value, cursor).Some? && !Covers(ranges, cursor)
  }

  /** The line with its indent and number replaced; a caret within them moves behind the indent. */
  function Reindented(value: string, start: nat, cursor: nat, replaced: nat, indent: string, number: string, end: nat,
                      rest: string): Result
    requires start <= cursor <= end <= |value| && start <= replaced <= end
  {
    if cursor < replaced then Result(value[..start] + indent, number + value[replaced..end] + rest)
    else Result(value[..start] + indent + number + value[replaced..cursor], value[cursor..end] + rest)
  }

  function NestingAt(value: string, cursor: nat, ranges: seq<Range>): Option<Nesting>
    requires HasMarker(value, cursor, ranges)
  {
    NestingOf(MarkersAbove(value, LineStart(value, cursor), ranges),
              Width(MarkerAt(value, cursor).value.marker.indent), None)
  }

  lemma {:induction false} NestingIsDeeper(markers: seq<Parsed>, width: nat, child: Option<Marker>)
    requires forall p <- markers :: IsWritten(p.marker)
    requires child.Some? ==> IsWritten(child.value) && Width(child.value.indent) > width
    ensures var n := NestingOf(markers, width, child);
      n.Some? ==> IsWrittenNesting(n.value) && n.value.above in markers && Width(n.value.above.marker.indent) == width
                  && (n.value.child.Some? ==> Width(n.value.child.value.indent) > width)
  {
    if |markers| > 0 {
      var above := markers[0].marker;
      var w := Width(above.indent);
      if w > width {
        NestingIsDeeper(markers[1..], width, if child.None? || w < Width(child.value.indent) then Some(above) else child);
      }
    }
  }

  lemma NestingAtIsWritten(value: string, cursor: nat, ranges: seq<Range>)
    requires HasMarker(value, cursor, ranges)
    ensures var n := NestingAt(value, cursor, ranges); n.Some? ==> IsWrittenNesting(n.value)
  {
    MarkersAreWritten(value, LineStart(value, cursor), ranges);
    NestingIsDeeper(MarkersAbove(value, LineStart(value, cursor), ranges),
                    Width(MarkerAt(value, cursor).value.marker.indent), None);
  }

  function Indented(value: string, cursor: int, ranges: seq<Range>): Result
    requires HasMarker(value, cursor, ranges)
  {
    var start, end, marker := LineStart(value, cursor), LineEnd(value, cursor), MarkerAt(value, cursor).value.marker;
    var nesting := NestingAt(value, cursor, ranges);
    MarkerAtIsInLine(value, cursor);
    NestingAtIsWritten(value, cursor, ranges);
    if nesting.Some? then
      Reindented(value, start, cursor, start + |marker.indent| + NumberLength(marker), NestedIndent(nesting.value),
                 NestedNumber(marker, nesting.value.child), end, value[end..])
    else
      Result(value[..start] + "  " + value[start..cursor], value[cursor..])
  }

  /** No item above ends the search for one to nest under. */
  predicate SearchesOn(markers: seq<Parsed>, width: nat) {
    forall p <- markers :: Width(p.marker.indent) > width
  }

  method FindNesting(value: string, lineStart: nat, marker: Marker, ranges: seq<Range>)
    returns (nesting: Option<Nesting>, hangs: bool)
    requires AreRanges(value, ranges)
    requires lineStart <= |value| && (lineStart > 0 ==> value[lineStart - 1] == '\n')
    ensures nesting == NestingOf(MarkersAbove(value, lineStart, ranges), Width(marker.indent), None)
    ensures hangs <==> SearchesOn(MarkersAbove(value, lineStart, ranges), Width(marker.indent))
                       && WalkSticks(value, lineStart, ranges)
  {
    hide MarkersAbove, ColumnAfter, WalkSticks;
    var width := IndentWidth(marker.indent, 0);
    var markers;
    markers, hangs := ListMarkersAbove(value, lineStart, ranges);
    var child: Option<Marker> := None;
    for i := 0 to |markers|
      invariant NestingOf(markers[i..], width, child) == NestingOf(markers, width, None)
      invariant forall k | 0 <= k < i :: Width(markers[k].marker.indent) > width
    {
      assert markers[i..][0] == markers[i] && markers[i..][1..] == markers[i + 1..] && markers[i] in markers;
      var aboveWidth := IndentWidth(markers[i].marker.indent, 0);
      if aboveWidth < width {
        return None, false;
      }
      if aboveWidth > width {
        if child.None? || aboveWidth < Width(child.value.indent) {
          child := Some(markers[i].marker);
        }
      } else {
        return Some(Nesting(markers[i], child)), false;
      }
    }
    nesting := None;
  }

  /** Where the caret goes when a stretch at the start of the line is replaced. */
  function MovedCaret(start: nat, cursor: nat, replaced: nat, indent: string, number: string): nat
    requires start <= cursor
  {
    if cursor < replaced then start + |indent| else cursor - replaced + start + |indent + number|
  }

  lemma ReindentingMakes(value: string, e: Edit, start: nat, cursor: nat, replaced: nat, indent: string, number: string,
                         end: nat, rest: string)
    requires start <= cursor <= end <= |value| && start <= replaced <= end && e.start <= e.end <= |value|
    requires Applied(value, e) == value[..start] + (indent + number) + (value[replaced..end] + rest)
    requires e.cursorAfter == MovedCaret(start, cursor, replaced, indent, number)
    ensures Makes(value, e, Reindented(value, start, cursor, replaced, indent, number, end, rest))
  {
    if cursor < replaced {
      assert value[..start] + (indent + number) + (value[replaced..end] + rest)
             == value[..start] + indent + (number + value[replaced..end] + rest);
    } else {
      assert value[replaced..end] == value[replaced..cursor] + value[cursor..end];
      assert value[..start] + (indent + number) + (value[replaced..cursor] + value[cursor..end] + rest)
             == value[..start] + indent + number + value[replaced..cursor] + (value[cursor..end] + rest);
    }
  }

  /** Looking for an item to nest under, Tab does not come back from a walk that hangs. */
  predicate TabHangs(value: string, cursor: int, ranges: seq<Range>) {
    HasMarker(value, cursor, ranges) && WalkSticks(value, LineStart(value, cursor), ranges)
    && SearchesOn(MarkersAbove(value, LineStart(value, cursor), ranges), Width(MarkerAt(value, cursor).value.marker.indent))
  }

  method ListIndentForTab(value: string, cursor: int, selectionEnd: int, tokens: seq<CursorMaps.Token>)
    returns (edit: Option<Edit>, hangs: bool)
    requires CursorMaps.AreTokens(value, tokens)
    ensures hangs <==> cursor == selectionEnd && TabHangs(value, cursor, RangesOf(CursorMaps.SegmentsOf(value, tokens)))
    ensures edit.Some?
            <==> cursor == selectionEnd && HasMarker(value, cursor, RangesOf(CursorMaps.SegmentsOf(value, tokens))) && !hangs
    ensures edit.Some? ==> Makes(value, edit.value, Indented(value, cursor, RangesOf(CursorMaps.SegmentsOf(value, tokens))))
  {
    hide ParseListMarker, CursorMaps.AreTokens, CursorMaps.SegmentsOf, RangesOf, AreRanges, Covers, WalkSticks;
    hide MarkersAbove, NestingOf, NestedIndent, NestedNumber, Applied, Makes, Reindented, IsWritten, ColumnAfter;
    if cursor != selectionEnd || cursor < 0 || cursor > |value| {
      return None, false;
    }
    var start, end, text := CurrentLine(value, cursor);
    var parsed := ParseListMarker(text);
    if parsed.None? {
      return None, false;
    }
    MarkerAtIsInLine(value, cursor);
    StartOfMarkedLine(value, cursor);
    var ranges := InlineTokenRanges(value, tokens);
    if Covers(ranges, cursor) {
      return None, false;
    }
    var marker := parsed.value.marker;
    var nesting;
    nesting, hangs := FindNesting(value, start, marker, ranges);
    if hangs {
      return None, true;
    }
    NestingAtIsWritten(value, cursor, ranges);
    if nesting.None? {
      edit := Some(Edit(start, start, "  ", cursor + 2));
      TwoSpaces(value, start, cursor);
    } else {
      var indent, number := NestedIndent(nesting.value), NestedNumber(marker, nesting.value.child);
      var replaced := start + |marker.indent| + NumberLength(marker);
      var e := Edit(start, replaced, indent + number, MovedCaret(start, cursor, replaced, indent, number));
      ShortEdit(value, start, replaced, end, indent + number, value[end..], e.cursorAfter);
      ReindentingMakes(value, e, start, cursor, replaced, indent, number, end, value[end..]);
      edit := Some(e);
    }
  }

  lemma TwoSpaces(value: string, start: nat, cursor: nat)
    requires start <= cursor <= |value|
    ensures Makes(value, Edit(start, start, "  ", cursor + 2), Result(value[..start] + "  " + value[start..cursor], value[cursor..]))
  {
    assert value[start..] == value[start..cursor] + value[cursor..];
  }

  predicate CanOutdent(value: string, cursor: int, ranges: seq<Range>) {
    HasMarker(value, cursor, ranges) && MarkerAt(value, cursor).value.marker.indent != ""
  }

  /** Takes back one step of Tab's own two spaces, or one tab. */
  function Unindented(indent: string): string
    requires indent != ""
  {
    if indent[0] == '\t' then indent[1..]
    else if indent[0] != ' ' then indent
    else if |indent| > 1 && indent[1] == ' ' then indent[2..] else indent[1..]
  }

  function ParentAt(value: string, cursor: nat, ranges: seq<Range>): Option<Marker>
    requires HasMarker(value, cursor, ranges)
  {
    ParentOf(MarkersAbove(value, LineStart(value, cursor), ranges), Width(MarkerAt(value, cursor).value.marker.indent))
  }

  lemma ParentAtIsWritten(value: string, cursor: nat, ranges: seq<Range>)
    requires HasMarker(value, cursor, ranges)
    ensures var parent := ParentAt(value, cursor, ranges);
      parent.Some? ==> IsWritten(parent.value)
                       && Width(parent.value.indent) < Width(MarkerAt(value, cursor).value.marker.indent)
  {
    MarkersAreWritten(value, LineStart(value, cursor), ranges);
    ParentIsAbove(MarkersAbove(value, LineStart(value, cursor), ranges),
                  Width(MarkerAt(value, cursor).value.marker.indent));
  }

  /** An outdented ordered item goes on counting where its parent's list is. */
  predicate Continues(marker: Marker, parent: Option<Marker>) {
    parent.Some? && parent.value.Ordered? && marker.Ordered? && parent.value.delimiter == marker.delimiter
  }

  function OutdentedIndent(marker: Marker, parent: Option<Marker>): string
    requires marker.indent != ""
  {
    if parent.Some? then parent.value.indent else Unindented(marker.indent)
  }

  function Outdented(value: string, cursor: int, ranges: seq<Range>): Result
    requires CanOutdent(value, cursor, ranges)
  {
    var start, end, marker := LineStart(value, cursor), LineEnd(value, cursor), MarkerAt(value, cursor).value.marker;
    var parent := ParentAt(value, cursor, ranges);
    MarkerAtIsInLine(value, cursor);
    ParentAtIsWritten(value, cursor, ranges);
    var item := if Continues(marker, parent) then parent else None;
    Reindented(value, start, cursor, start + |marker.indent| + (if item.Some? then NumberLength(marker) else 0),
               OutdentedIndent(marker, parent), if item.Some? then NestedNumber(marker, item) else "", end,
               RestAfter(value, end, ranges, item))
  }

  /** Nor does Shift+Tab, looking for the item to move out to. */
  predicate OutdentHangs(value: string, cursor: int, ranges: seq<Range>) {
    CanOutdent(value, cursor, ranges) && WalkSticks(value, LineStart(value, cursor), ranges)
    && ParentAt(value, cursor, ranges).None?
  }

  method ListOutdentForTab(value: string, cursor: int, selectionEnd: int, tokens: seq<CursorMaps.Token>)
    returns (edit: Option<Edit>, hangs: bool)
    requires CursorMaps.AreTokens(value, tokens)
    ensures hangs <==> cursor == selectionEnd && OutdentHangs(value, cursor, RangesOf(CursorMaps.SegmentsOf(value, tokens)))
    ensures edit.Some?
            <==> cursor == selectionEnd && CanOutdent(value, cursor, RangesOf(CursorMaps.SegmentsOf(value, tokens))) && !hangs
    ensures edit.Some? ==> Makes(value, edit.value, Outdented(value, cursor, RangesOf(CursorMaps.SegmentsOf(value, tokens))))
  {
    hide ParseListMarker, CursorMaps.AreTokens, CursorMaps.SegmentsOf, RangesOf, AreRanges, Covers, WalkSticks;
    hide MarkersAbove, ParentOf, OutdentedIndent, NestedNumber, RestAfter, Applied, Makes, Reindented, IsWritten, ColumnAfter;
    if cursor != selectionEnd || cursor < 0 || cursor > |value| {
      return None, false;
    }
    var start, end, text := CurrentLine(value, cursor);
    var parsed := ParseListMarker(text);
    if parsed.None? || parsed.value.marker.indent == "" {
      return None, false;
    }
    MarkerAtIsInLine(value, cursor);
    StartOfMarkedLine(value, cursor);
    var ranges := InlineTokenRanges(value, tokens);
    if Covers(ranges, cursor) {
      return None, false;
    }
    var marker := parsed.value.marker;
    var parent;
    parent, hangs := ParentMarker(value, start, marker, ranges);
    if hangs {
      return None, true;
    }
    ParentAtIsWritten(value, cursor, ranges);
    var item := if Continues(marker, parent) then parent else None;
    var indent := OutdentedIndent(marker, parent);
    var number := if item.Some? then NestedNumber(marker, item) else "";
    var replaced := start + |marker.indent| + (if item.Some? then NumberLength(marker) else 0);
    var caret := MovedCaret(start, cursor, replaced, indent, number);
    var e := ReplaceAndRenumber(value, start, replaced, end, indent + number, item, ranges, caret);
    ReindentingMakes(value, e, start, cursor, replaced, indent, number, end, RestAfter(value, end, ranges, item));
    edit := Some(e);
  }

  // ---- No key hangs

  /** Tokens as the collectors find them begin with an at sign, a bracket, an exclamation mark or a currency sign. */
  predicate NoneBeginsWithBreak(value: string, tokens: seq<CursorMaps.Token>)
    requires CursorMaps.AreTokens(value, tokens)
  {
    forall i | 0 <= i < |tokens| :: value[tokens[i].start] != '\n'
  }

  lemma TokensLeaveThePromptWalkable(value: string, tokens: seq<CursorMaps.Token>)
    requires CursorMaps.AreTokens(value, tokens) && NoneBeginsWithBreak(value, tokens)
    ensures IsWalkable(value, RangesOf(CursorMaps.SegmentsOf(value, tokens)))
    ensures AreRanges(value, RangesOf(CursorMaps.SegmentsOf(value, tokens)))
  {
    hide CursorMaps.SegmentsOf, RangesOf, CursorMaps.Concat;
    var segments := CursorMaps.SegmentsOf(value, tokens);
    CursorMaps.SegmentsConcatenateToThePrompt(value, tokens);
    RangesAreRanges(segments);
    RangesBeginAtTokens(value, tokens);
    var ranges := RangesOf(segments);
    if Covers(ranges, 1) {
      var i :| 0 <= i < |ranges| && ranges[i].start < 1 < ranges[i].end;
      assert ranges[i] in ranges;
    }
  }

  /** No key hangs in a prompt whose tokens do not begin with a line break, wherever the caret is. */
  lemma KeysNeverHang(value: string, tokens: seq<CursorMaps.Token>, cursor: int)
    requires CursorMaps.AreTokens(value, tokens) && NoneBeginsWithBreak(value, tokens)
    ensures var ranges := RangesOf(CursorMaps.SegmentsOf(value, tokens));
      !EnterHangs(value, cursor, ranges) && !TabHangs(value, cursor, ranges) && !OutdentHangs(value, cursor, ranges)
  {
    TokensLeaveThePromptWalkable(value, tokens);
    hide WalkSticks, MarkersAbove, ParseListMarker, CursorMaps.SegmentsOf, RangesOf, AreRanges, IsWalkable, Covers;
    if 0 <= cursor <= |value| {
      WalkablePromptsNeverHang(value, LineStart(value, cursor), RangesOf(CursorMaps.SegmentsOf(value, tokens)));
    }
  }

  // ---- What the keys are for

  lemma {:induction false} SpacesWiden(indent: string, n: nat, column: nat)
    requires forall c <- indent :: IsBlank(c)
    ensures ColumnAfter(indent + Repeat(' ', n), column) == ColumnAfter(indent, column) + n
  {
    if |indent| > 0 {
      assert (indent + Repeat(' ', n))[1..] == indent[1..] + Repeat(' ', n);
      SpacesWiden(indent[1..], n, NextColumn(column, indent[0]));
    } else if n > 0 {
      assert indent + Repeat(' ', n) == Repeat(' ', n);
      assert Repeat(' ', n)[1..] == "" + Repeat(' ', n - 1);
      SpacesWiden("", n - 1, column + 1);
    }
  }

  lemma ContentIsDeeper(line: string)
    requires ParseListMarker(line).Some?
    ensures var p := ParseListMarker(line).value;
      p.contentColumn > Width(p.marker.indent) && forall c <- p.marker.indent :: IsBlank(c)
  {
  }

  lemma {:induction false} ContentsAreDeeper(value: string, lineStart: nat, ranges: seq<Range>)
    requires lineStart <= |value|
    ensures forall p <- MarkersAbove(value, lineStart, ranges) ::
      p.contentColumn > Width(p.marker.indent) && forall c <- p.marker.indent :: IsBlank(c)
    decreases lineStart
  {
    if lineStart > 0 {
      var start := ItemStart(value, lineStart - 1, ranges);
      var text := value[start..lineStart - 1];
      if ParseListMarker(text).Some? {
        ContentIsDeeper(text);
        ContentsAreDeeper(value, start, ranges);
      }
      hide ParseListMarker;
    }
  }

  /** Under an item above, Tab always moves the item deeper than it was. */
  lemma TabNestsDeeper(value: string, cursor: nat, ranges: seq<Range>)
    requires HasMarker(value, cursor, ranges) && NestingAt(value, cursor, ranges).Some?
    ensures Width(NestedIndent(NestingAt(value, cursor, ranges).value)) > Width(MarkerAt(value, cursor).value.marker.indent)
    ensures var nesting := NestingAt(value, cursor, ranges).value;
      nesting.child.None? ==> Width(NestedIndent(nesting)) == nesting.above.contentColumn
  {
    hide ParseListMarker, MarkersAbove, ColumnAfter, LineStart, LineEnd, Covers, NestingOf;
    var start, width := LineStart(value, cursor), Width(MarkerAt(value, cursor).value.marker.indent);
    var markers := MarkersAbove(value, start, ranges);
    var nesting := NestingAt(value, cursor, ranges).value;
    MarkersAreWritten(value, start, ranges);
    ContentsAreDeeper(value, start, ranges);
    NestingIsDeeper(markers, width, None);
    if nesting.child.None? {
      SpacesWiden(nesting.above.marker.indent, nesting.above.contentColumn - width, 0);
    }
  }

  // ---- After Enter

  /** The item that Enter continues: its own, or for an empty one its parent. */
  function Preceding(value: string, cursor: int, ranges: seq<Range>): Option<Marker>
    requires CanContinue(value, cursor, ranges)
  {
    var start, end, p := LineStart(value, cursor), LineEnd(value, cursor), MarkerAt(value, cursor).value;
    MarkerAtIsInLine(value, cursor);
    if AllSpace(value[start + p.markerEnd..end])
    then ParentOf(MarkersAbove(value, start, ranges), Width(p.marker.indent)) else Some(p.marker)
  }

  /** What stays before the new item's line. */
  function KeptBefore(value: string, cursor: int, ranges: seq<Range>): string
    requires CanContinue(value, cursor, ranges)
  {
    var start, end, p := LineStart(value, cursor), LineEnd(value, cursor), MarkerAt(value, cursor).value;
    MarkerAtIsInLine(value, cursor);
    if AllSpace(value[start + p.markerEnd..end]) then value[..start] else value[..cursor] + "\n"
  }

  /** A marker as it is recognised. */
  ghost predicate IsItem(m: Marker) {
    && (forall c <- m.indent :: IsBlank(c))
    && (m.Ordered? ==> |m.numberText| > 0 && AllDigits(m.numberText) && (m.delimiter == '.' || m.delimiter == ')'))
    && (m.Bullet? ==> IsBullet(m.bullet))
  }

  lemma ParsedIsItem(line: string)
    requires ParseListMarker(line).Some?
    ensures IsItem(ParseListMarker(line).value.marker)
  {
    MarkerStartsItsLine(line);
    hide ParseListMarker, PaddingEnd;
  }

  lemma {:induction false} MarkersAreItems(value: string, lineStart: nat, ranges: seq<Range>)
    requires lineStart <= |value|
    ensures forall p <- MarkersAbove(value, lineStart, ranges) :: IsItem(p.marker)
    decreases lineStart
  {
    hide ParseListMarker, IsItem;
    if lineStart > 0 {
      var start := ItemStart(value, lineStart - 1, ranges);
      var text := value[start..lineStart - 1];
      if ParseListMarker(text).Some? {
        ParsedIsItem(text);
        MarkersAreItems(value, start, ranges);
      }
    }
  }

  lemma {:induction false} ParentIsItem(markers: seq<Parsed>, width: nat)
    requires forall p <- markers :: IsItem(p.marker)
    ensures ParentOf(markers, width).Some? ==> IsItem(ParentOf(markers, width).value)
  {
    hide IsItem;
    if |markers| > 0 {
      ParentIsItem(markers[1..], width);
    }
  }

  lemma PrecedingIsItem(value: string, cursor: int, ranges: seq<Range>)
    requires CanContinue(value, cursor, ranges) && Preceding(value, cursor, ranges).Some?
    ensures IsItem(Preceding(value, cursor, ranges).value)
  {
    hide IsItem, ParseListMarker, MarkersAbove, ParentOf;
    MarkersAreItems(value, LineStart(value, cursor), ranges);
    ParentIsItem(MarkersAbove(value, LineStart(value, cursor), ranges), Width(MarkerAt(value, cursor).value.marker.indent));
    ParsedIsItem(value[LineStart(value, cursor)..LineEnd(value, cursor)]);
  }

  lemma NextNumberIsWritten(numberText: string)
    requires |numberText| > 0 && AllDigits(numberText)
    ensures |NextNumberText(numberText)| > 0 && AllDigits(NextNumberText(numberText))
  {
    if Parse(numberText) <= MAX_SAFE_INTEGER {
      NextNumberFollows(numberText);
    }
  }

  /** An ordered item of the same list, with the number after this one's as long as that is safe. */
  ghost predicate IsNextItem(item: Option<Parsed>, m: Marker) {
    && item.Some? && item.value.marker.Ordered? && AllDigits(item.value.marker.numberText) && IsWritten(m) && m.Ordered?
    && item.value.marker.indent == m.indent && item.value.marker.delimiter == m.delimiter
    && (Parse(m.numberText) <= MAX_SAFE_INTEGER ==> Parse(item.value.marker.numberText) == Parse(m.numberText) + 1)
  }

  /** The next number between an item's indent and its delimiter is recognised as the next item. */
  lemma NextNumberParses(m: Marker, rest: string)
    requires IsItem(m) && m.Ordered? && |rest| > 0 && rest[0] == m.delimiter && PaddingEnd(rest, 1).Some?
    ensures IsNextItem(ParseListMarker(m.indent + NextNumberText(m.numberText) + rest), m)
  {
    NextNumberIsWritten(m.numberText);
    if Parse(m.numberText) <= MAX_SAFE_INTEGER {
      NextNumberFollows(m.numberText);
    }
    hide ParseListMarker, NextNumberText, PaddingEnd;
    OrderedLineParses(m.indent, NextNumberText(m.numberText), rest);
  }

  /** The next marker, with anything behind it, is recognised as the next item. */
  lemma NextMarkerParses(m: Marker, tail: string)
    requires IsItem(m) && m.Ordered?
    ensures IsNextItem(ParseListMarker(NextMarkerText(m) + tail), m)
  {
    var rest := [m.delimiter] + (" " + tail);
    assert PaddingEnd(rest, 1).Some?;
    assert AllDigits(m.numberText);
    hide ParseListMarker, NextNumberText, PaddingEnd, IsItem, AllDigits, Parse, IsNextItem;
    NextNumberParses(m, rest);
    assert NextMarkerText(m) + tail == m.indent + NextNumberText(m.numberText) + rest;
  }

  lemma NextMarkerHasNoBreak(m: Marker, tail: string)
    requires IsItem(m) && m.Ordered? && NoBreak(tail)
    ensures NoBreak(NextMarkerText(m) + tail)
  {
    NextNumberIsWritten(m.numberText);
    NoBreakInDigits(NextNumberText(m.numberText));
    hide NextNumberText;
    NoBreakJoined(m.indent, NextNumberText(m.numberText), [m.delimiter] + " ");
    assert NextMarkerText(m) == m.indent + NextNumberText(m.numberText) + ([m.delimiter] + " ");
    NoBreakJoined(NextMarkerText(m), tail, "");
    assert NextMarkerText(m) + tail + "" == NextMarkerText(m) + tail;
  }

  lemma {:induction false} LineStartIs(value: string, position: nat, start: nat)
    requires start <= position <= |value| && (start > 0 ==> value[start - 1] == '\n')
    requires forall k | start <= k < position :: value[k] != '\n'
    ensures LineStart(value, position) == start
  {
    if start < position {
      LineStartIs(value, position - 1, start);
    }
  }

  lemma ThreeInTurn(before: string, line: string, rest: string)
    ensures var prompt := before + line + rest; var end := |before| + |line|;
      |prompt| == end + |rest| && prompt[|before|..end] == line && prompt[end..] == rest
      && (|before| > 0 ==> prompt[|before| - 1] == before[|before| - 1])
      && (|rest| > 0 ==> prompt[end] == rest[0])
  {
    assert before + line + rest == before + (line + rest);
  }

  lemma NoBreakWithin(prompt: string, start: nat, end: nat)
    requires start <= end <= |prompt| && NoBreak(prompt[start..end])
    ensures forall k | start <= k < end :: prompt[k] != '\n'
  {
    forall k | start <= k < end ensures prompt[k] != '\n' {
      assert prompt[start..end][k - start] == prompt[k] && prompt[start..end][k - start] in prompt[start..end];
    }
  }

  /** A line put between what ends and what begins with a line break is a line of its own. */
  lemma LineInPlace(before: string, line: string, rest: string, at: nat)
    requires NoBreak(line) && (before == "" || before[|before| - 1] == '\n') && (rest == "" || rest[0] == '\n')
    requires |before| <= at <= |before| + |line|
    ensures var prompt := before + line + rest; var end := |before| + |line|;
      LineStart(prompt, at) == |before| && LineEnd(prompt, at) == end
      && prompt[|before|..end] == line && prompt[end..] == rest
  {
    hide *;
    var prompt := before + line + rest;
    var end := |before| + |line|;
    ThreeInTurn(before, line, rest);
    NoBreakWithin(prompt, |before|, end);
    LineStartIs(prompt, at, |before|);
    LineEndIs(prompt, at, end);
  }

  lemma RestOfLineHasNoBreak(value: string, cursor: nat)
    requires cursor <= |value|
    ensures NoBreak(value[cursor..LineEnd(value, cursor)])
  {
    var rest := value[cursor..LineEnd(value, cursor)];
    forall c <- rest ensures c != '\n' {
      var i :| 0 <= i < |rest| && rest[i] == c;
      assert value[cursor + i] == c;
    }
  }

  lemma EnterMakes(value: string, cursor: int, ranges: seq<Range>)
    requires CanContinue(value, cursor, ranges)
    requires Preceding(value, cursor, ranges).Some? && Preceding(value, cursor, ranges).value.Ordered?
    ensures var m, before, end := Preceding(value, cursor, ranges).value, KeptBefore(value, cursor, ranges), LineEnd(value, cursor);
      var r := Continued(value, cursor, ranges);
      AllDigits(m.numberText) && IsWritten(m)
      && r.before == before + NextMarkerText(m) && r.after == value[cursor..end] + RenumberedRest(value, end, ranges, m)
      && (before == "" || before[|before| - 1] == '\n')
  {
    hide ParseListMarker, MarkersAbove, ParentOf, RenumberedRest, AllSpace, NextNumberText, NextMarkerText, LineStart, LineEnd,
         Covers, ColumnAfter, MarkerAt;
    PrecedingIsItem(value, cursor, ranges);
    MarkerAtIsInLine(value, cursor);
    var m := Preceding(value, cursor, ranges).value;
    assert value[..cursor] + "\n" + NextMarkerText(m) == value[..cursor] + ("\n" + NextMarkerText(m));
  }

  lemma RenumberedRestIsJoined(value: string, lineEnd: nat, ranges: seq<Range>, m: Marker)
    requires lineEnd <= |value| && m.Ordered? && AllDigits(m.numberText)
    ensures var lines := Renumbered(LinesFrom(value, lineEnd, ranges), Width(m.indent), m.delimiter, Parse(m.numberText) + 2);
      RenumberedRest(value, lineEnd, ranges, m) == Joined(lines) && NoBreaks(lines) && (Joined(lines) == "" || Joined(lines)[0] == '\n')
  {
    hide LinesFrom, Renumbered, Joined, NoBreaks, ColumnAfter, AllDigits, Parse;
    LinesHaveNoBreaks(value, lineEnd, ranges);
    RenumberingAddsNoBreaks(LinesFrom(value, lineEnd, ranges), Width(m.indent), m.delimiter, Parse(m.numberText) + 2);
    JoinedStartsWithBreak(Renumbered(LinesFrom(value, lineEnd, ranges), Width(m.indent), m.delimiter, Parse(m.numberText) + 2));
  }

  /** As many numbers as before, counting up from an expected one as far as numbers are safe. */
  predicate CountOn(numbers: seq<nat>, before: seq<nat>, expected: nat) {
    |numbers| == |before| && forall k | 0 <= k < |numbers| && expected + k <= MAX_SAFE_INTEGER :: numbers[k] == expected + k
  }

  /** The chips of a prompt cover the starts of the same lines as these. */
  ghost predicate SameChips(prompt: string, lineEnd: nat, newRanges: seq<Range>, lines: seq<Line>)
    requires lineEnd <= |prompt|
  {
    var again := LinesFrom(prompt, lineEnd, newRanges);
    forall k | 0 <= k < |again| && k < |lines| :: again[k].insideChip == lines[k].insideChip
  }

  /** A prompt that consists of what comes before, the next item's line, and the renumbered rest. */
  ghost predicate IsContinued(prompt: string, caret: nat, before: string, m: Marker, tail: string, lines: seq<Line>) {
    && IsItem(m) && m.Ordered? && NoBreak(NextMarkerText(m) + tail) && (before == "" || before[|before| - 1] == '\n')
    && prompt == before + (NextMarkerText(m) + tail) + Joined(lines) && caret == |before| + |NextMarkerText(m)|
    && NoBreaks(lines) && (Joined(lines) == "" || Joined(lines)[0] == '\n')
  }

  lemma EnterContinues(value: string, cursor: int, ranges: seq<Range>, e: Edit)
    requires CanContinue(value, cursor, ranges) && Makes(value, e, Continued(value, cursor, ranges))
    requires Preceding(value, cursor, ranges).Some? && Preceding(value, cursor, ranges).value.Ordered?
    ensures var m, end := Preceding(value, cursor, ranges).value, LineEnd(value, cursor);
      AllDigits(m.numberText)
      && IsContinued(Applied(value, e), e.cursorAfter, KeptBefore(value, cursor, ranges), m, value[cursor..end],
                     Renumbered(LinesFrom(value, end, ranges), Width(m.indent), m.delimiter, Parse(m.numberText) + 2))
  {
    hide Preceding, KeptBefore, CanContinue, Makes, Continued, IsItem, NoBreak, NoBreaks, Joined, Renumbered, LinesFrom;
    hide RenumberedRest, NextMarkerText, Applied, AllDigits, ColumnAfter, LineEnd, LineStart, Parse, Covers, IsWritten, MarkerAt;
    InBounds(value, cursor, ranges, e);
    PrecedingIsItem(value, cursor, ranges);
    EnterMakes(value, cursor, ranges);
    RestOfLineHasNoBreak(value, cursor);
    var m, before, end := Preceding(value, cursor, ranges).value, KeptBefore(value, cursor, ranges), LineEnd(value, cursor);
    var tail := value[cursor..end];
    NextMarkerHasNoBreak(m, tail);
    RenumberedRestIsJoined(value, end, ranges, m);
    PromptInParts(value, e, Continued(value, cursor, ranges), before, NextMarkerText(m), tail, RenumberedRest(value, end, ranges, m));
  }

  lemma ContinuedCountsOn(prompt: string, caret: nat, before: string, m: Marker, tail: string, was: seq<Line>,
                          newRanges: seq<Range>)
    requires m.Ordered? && AllDigits(m.numberText) && caret <= |prompt|
    requires var lines := Renumbered(was, Width(m.indent), m.delimiter, Parse(m.numberText) + 2);
      IsContinued(prompt, caret, before, m, tail, lines) && SameChips(prompt, LineEnd(prompt, caret), newRanges, lines)
    ensures IsNextItem(MarkerAt(prompt, caret), m)
    ensures CountOn(Numbers(LinesFrom(prompt, LineEnd(prompt, caret), newRanges), Width(m.indent), m.delimiter),
                    Numbers(was, Width(m.indent), m.delimiter), Parse(m.numberText) + 2)
  {
    hide ParseListMarker, NextMarkerText, Renumbered, LinesFrom, Joined, NoBreak, NoBreaks, LineEnd, LineStart, MarkerAt,
         SameChips, Numbers, CountOn, IsNextItem, ColumnAfter, AllDigits, Parse, IsItem;
    var lines := Renumbered(was, Width(m.indent), m.delimiter, Parse(m.numberText) + 2);
    NextMarkerParses(m, tail);
    NewItemInPlace(prompt, before, m, NextMarkerText(m) + tail, Joined(lines), caret);
    RestCountsOn(prompt, LineEnd(prompt, caret), m, was, newRanges);
  }

  /** In the prompt that Enter makes, the caret's line is an item of the same list with the next number, and the items after
      it count on from there, up to the list's end and as far as numbers are safe; provided the new prompt's chips cover
      the starts of the same lines. */
  lemma EnterCountsOn(value: string, cursor: int, ranges: seq<Range>, e: Edit, newRanges: seq<Range>)
    requires CanContinue(value, cursor, ranges) && Makes(value, e, Continued(value, cursor, ranges))
    requires Preceding(value, cursor, ranges).Some? && Preceding(value, cursor, ranges).value.Ordered?
    requires var m, prompt := Preceding(value, cursor, ranges).value, Applied(value, e);
      e.cursorAfter <= |prompt| && AllDigits(m.numberText)
      && SameChips(prompt, LineEnd(prompt, e.cursorAfter), newRanges,
                   Renumbered(LinesFrom(value, LineEnd(value, cursor), ranges), Width(m.indent), m.delimiter,
                              Parse(m.numberText) + 2))
    ensures var m, prompt := Preceding(value, cursor, ranges).value, Applied(value, e);
      IsNextItem(MarkerAt(prompt, e.cursorAfter), m)
      && CountOn(Numbers(LinesFrom(prompt, LineEnd(prompt, e.cursorAfter), newRanges), Width(m.indent), m.delimiter),
                 Numbers(LinesFrom(value, LineEnd(value, cursor), ranges), Width(m.indent), m.delimiter),
                 Parse(m.numberText) + 2)
  {
    hide *;
    InBounds(value, cursor, ranges, e);
    EnterContinues(value, cursor, ranges, e);
    var end := LineEnd(value, cursor);
    ContinuedCountsOn(Applied(value, e), e.cursorAfter, KeptBefore(value, cursor, ranges), Preceding(value, cursor, ranges).value,
                      value[cursor..end], LinesFrom(value, end, ranges), newRanges);
  }

  lemma InBounds(value: string, cursor: int, ranges: seq<Range>, e: Edit)
    requires CanContinue(value, cursor, ranges) && Makes(value, e, Continued(value, cursor, ranges))
    ensures 0 <= cursor <= |value| && e.start <= e.end <= |value|
  {
  }

  lemma PromptInParts(value: string, e: Edit, r: Result, before: string, marker: string, tail: string, rest: string)
    requires Makes(value, e, r) && r.before == before + marker && r.after == tail + rest
    ensures Applied(value, e) == before + (marker + tail) + rest && e.cursorAfter == |before| + |marker|
  {
    hide Applied;
    assert before + marker + (tail + rest) == before + (marker + tail) + rest;
  }

  lemma NewItemInPlace(prompt: string, before: string, m: Marker, line: string, rest: string, caret: nat)
    requires IsNextItem(ParseListMarker(line), m) && prompt == before + line + rest && |before| <= caret <= |before| + |line|
    requires NoBreak(line) && (before == "" || before[|before| - 1] == '\n') && (rest == "" || rest[0] == '\n')
    ensures caret <= |prompt| && prompt[LineEnd(prompt, caret)..] == rest && IsNextItem(MarkerAt(prompt, caret), m)
  {
    LineInPlace(before, line, rest, caret);
    hide ParseListMarker, LineStart, LineEnd, NoBreak, IsNextItem;
  }

  lemma RestCountsOn(prompt: string, lineEnd: nat, m: Marker, was: seq<Line>, newRanges: seq<Range>)
    requires m.Ordered? && AllDigits(m.numberText) && lineEnd <= |prompt|
    requires var lines := Renumbered(was, Width(m.indent), m.delimiter, Parse(m.numberText) + 2);
      prompt[lineEnd..] == Joined(lines) && NoBreaks(lines) && SameChips(prompt, lineEnd, newRanges, lines)
    ensures CountOn(Numbers(LinesFrom(prompt, lineEnd, newRanges), Width(m.indent), m.delimiter),
                    Numbers(was, Width(m.indent), m.delimiter), Parse(m.numberText) + 2)
  {
    hide *;
    var base, expected := Width(m.indent), Parse(m.numberText) + 2;
    var lines := Renumbered(was, base, m.delimiter, expected);
    JoinedLinesSplitBack(prompt, lineEnd, lines, newRanges);
    SameTextsAndChips(prompt, lineEnd, lines, newRanges);
    SameCount(was, base, m.delimiter, expected);
    assert CountOn(Numbers(lines, base, m.delimiter), Numbers(was, base, m.delimiter), expected) by {
      CountsOn(was, base, m.delimiter, expected);
    }
  }

  lemma SameTextsAndChips(prompt: string, lineEnd: nat, lines: seq<Line>, newRanges: seq<Range>)
    requires lineEnd <= |prompt| && SameTexts(LinesFrom(prompt, lineEnd, newRanges), lines)
    requires SameChips(prompt, lineEnd, newRanges, lines)
    ensures LinesFrom(prompt, lineEnd, newRanges) == lines
  {
    SameLines(LinesFrom(prompt, lineEnd, newRanges), lines);
  }

  lemma CountsOn(was: seq<Line>, base: nat, delimiter: char, expected: nat)
    ensures CountOn(Numbers(Renumbered(was, base, delimiter, expected), base, delimiter), Numbers(was, base, delimiter), expected)
  {
    hide Numbers, Renumbered;
    SameCount(was, base, delimiter, expected);
    var numbers := Numbers(Renumbered(was, base, delimiter, expected), base, delimiter);
    forall k | 0 <= k < |numbers| && expected + k <= MAX_SAFE_INTEGER ensures numbers[k] == expected + k {
      NumbersAreConsecutive(was, base, delimiter, expected, k);
    }
  }

  // ---- After Tab and Shift+Tab

  /** A recognised ordered line with the indent of another item of its kind and the number after that one's. */
  lemma RelabelledLineParses(text: string, m: Marker)
    requires ParseListMarker(text).Some? && MarkerOf(text).Ordered? && NoBreak(text)
    requires IsItem(m) && m.Ordered? && m.delimiter == MarkerOf(text).delimiter
    ensures var line := m.indent + NextNumberText(m.numberText) + RestOf(text);
      IsNextItem(ParseListMarker(line), m) && NoBreak(line)
  {
    OrderedLineHasParts(text);
    NextNumberIsWritten(m.numberText);
    NoBreakInDigits(NextNumberText(m.numberText));
    hide ParseListMarker, NextNumberText, PaddingEnd, IsNextItem;
    NextNumberParses(m, RestOf(text));
    NoBreakInParts(MarkerOf(text).indent, MarkerOf(text).numberText, RestOf(text));
    NoBreakJoined(m.indent, NextNumberText(m.numberText), RestOf(text));
  }

  lemma ReindentedInParts(value: string, e: Edit, start: nat, cursor: nat, replaced: nat, indent: string, number: string,
                          end: nat, rest: string)
    requires start <= cursor <= end <= |value| && start <= replaced <= end
    requires Makes(value, e, Reindented(value, start, cursor, replaced, indent, number, end, rest))
    ensures var line := indent + number + value[replaced..end];
      Applied(value, e) == value[..start] + line + rest && start <= e.cursorAfter <= start + |line|
  {
    hide Applied;
    var line := indent + number + value[replaced..end];
    if cursor < replaced {
      assert value[..start] + indent + (number + value[replaced..end] + rest) == value[..start] + line + rest;
    } else {
      assert value[replaced..end] == value[replaced..cursor] + value[cursor..end];
      assert value[..start] + indent + number + value[replaced..cursor] + (value[cursor..end] + rest)
             == value[..start] + line + rest;
    }
  }

  /** The caret's line takes on the indent of another item of its kind and the number after that one's. */
  ghost predicate Follows(value: string, cursor: int, ranges: seq<Range>, e: Edit, m: Marker, rest: string) {
    && HasMarker(value, cursor, ranges) && IsItem(m) && m.Ordered?
    && (rest == "" || rest[0] == '\n')
    && var start, end, marker := LineStart(value, cursor), LineEnd(value, cursor), MarkerAt(value, cursor).value.marker;
       marker.Ordered? && marker.delimiter == m.delimiter && start + |marker.indent| + |marker.numberText| <= end
       && Makes(value, e, Reindented(value, start, cursor, start + |marker.indent| + |marker.numberText|, m.indent,
                                     NextNumberText(m.numberText), end, rest))
  }

  /** The prompt with such a line, in its parts. */
  ghost predicate IsRelabelled(value: string, e: Edit, m: Marker, before: string, text: string, rest: string) {
    && IsItem(m) && m.Ordered? && NoBreak(text) && (rest == "" || rest[0] == '\n')
    && (before == "" || before[|before| - 1] == '\n')
    && ParseListMarker(text).Some? && MarkerOf(text).Ordered? && MarkerOf(text).delimiter == m.delimiter
    && var line := m.indent + NextNumberText(m.numberText) + RestOf(text);
       e.start <= e.end <= |value| && Applied(value, e) == before + line + rest
       && |before| <= e.cursorAfter <= |before| + |line|
  }

  lemma FollowingLineIsRelabelled(value: string, cursor: int, ranges: seq<Range>, e: Edit, m: Marker, rest: string)
    requires Follows(value, cursor, ranges, e, m, rest)
    ensures IsRelabelled(value, e, m, value[..LineStart(value, cursor)], value[LineStart(value, cursor)..LineEnd(value, cursor)],
                         rest)
  {
    hide ParseListMarker, NextNumberText, Reindented, Applied, Covers, NoBreak, PaddingEnd, Parse, LineStart, LineEnd;
    var start, end, marker := LineStart(value, cursor), LineEnd(value, cursor), MarkerAt(value, cursor).value.marker;
    var n := |marker.indent| + |marker.numberText|;
    LineHasNoBreak(value, cursor);
    RestOfLine(value[start..end], value, start, n, end);
    hide *;
    ReindentedInParts(value, e, start, cursor, start + n, m.indent, NextNumberText(m.numberText), end, rest);
  }

  lemma RestOfLine(text: string, value: string, start: nat, n: nat, end: nat)
    requires start <= end <= |value| && text == value[start..end] && n <= |text|
    requires ParseListMarker(text).Some? && MarkerOf(text).Ordered? && n == |MarkerOf(text).indent| + |MarkerOf(text).numberText|
    ensures RestOf(text) == value[start + n..end]
  {
    hide ParseListMarker;
  }

  lemma RelabelledLineInPlace(value: string, e: Edit, m: Marker, before: string, text: string, rest: string)
    requires IsRelabelled(value, e, m, before, text, rest)
    ensures e.start <= e.end <= |value|
    ensures var prompt := Applied(value, e);
      e.cursorAfter <= |prompt| && prompt[LineEnd(prompt, e.cursorAfter)..] == rest
      && IsNextItem(MarkerAt(prompt, e.cursorAfter), m)
  {
    RelabelledLineParses(text, m);
    var line := m.indent + NextNumberText(m.numberText) + RestOf(text);
    hide *;
    NewItemInPlace(Applied(value, e), before, m, line, rest, e.cursorAfter);
  }

  lemma FollowingLineInPlace(value: string, cursor: int, ranges: seq<Range>, e: Edit, m: Marker, rest: string)
    requires Follows(value, cursor, ranges, e, m, rest)
    ensures e.start <= e.end <= |value|
    ensures var prompt := Applied(value, e);
      e.cursorAfter <= |prompt| && prompt[LineEnd(prompt, e.cursorAfter)..] == rest
      && IsNextItem(MarkerAt(prompt, e.cursorAfter), m)
  {
    hide ParseListMarker, NextNumberText, Reindented, Covers, NoBreak, LineStart, LineEnd, Parse, IsNextItem, IsRelabelled;
    var start, end := LineStart(value, cursor), LineEnd(value, cursor);
    FollowingLineIsRelabelled(value, cursor, ranges, e, m, rest);
    hide *;
    RelabelledLineInPlace(value, e, m, value[..start], value[start..end], rest);
  }

  lemma LineHasNoBreak(value: string, cursor: nat)
    requires cursor <= |value|
    ensures NoBreak(value[LineStart(value, cursor)..LineEnd(value, cursor)])
  {
    var start, end := LineStart(value, cursor), LineEnd(value, cursor);
    forall c <- value[start..end] ensures c != '\n' {
      var i :| 0 <= i < end - start && value[start..end][i] == c;
      assert value[start + i] == c;
    }
  }

  /** Shift+Tab puts an ordered item behind the parent it moves out to. */
  predicate JoinsParent(value: string, cursor: int, ranges: seq<Range>) {
    CanOutdent(value, cursor, ranges) && Continues(MarkerAt(value, cursor).value.marker, ParentAt(value, cursor, ranges))
  }

  lemma ParentAtIsItem(value: string, cursor: nat, ranges: seq<Range>)
    requires HasMarker(value, cursor, ranges) && ParentAt(value, cursor, ranges).Some?
    ensures IsItem(ParentAt(value, cursor, ranges).value)
  {
    hide IsItem, MarkersAbove, ParentOf, ParseListMarker;
    MarkersAreItems(value, LineStart(value, cursor), ranges);
    ParentIsItem(MarkersAbove(value, LineStart(value, cursor), ranges), Width(MarkerAt(value, cursor).value.marker.indent));
  }

  lemma OutdentFollows(value: string, cursor: int, ranges: seq<Range>, e: Edit)
    requires JoinsParent(value, cursor, ranges) && Makes(value, e, Outdented(value, cursor, ranges))
    ensures var m, end := ParentAt(value, cursor, ranges).value, LineEnd(value, cursor);
      AllDigits(m.numberText) && Follows(value, cursor, ranges, e, m, RenumberedRest(value, end, ranges, m))
  {
    hide ParseListMarker, MarkersAbove, ParentOf, RenumberedRest, Makes, Reindented, Applied, NextNumberText, ColumnAfter,
         LineStart, LineEnd, Covers, AllDigits, Parse;
    MarkerAtIsInLine(value, cursor);
    ParentAtIsItem(value, cursor, ranges);
    RenumberedRestIsJoined(value, LineEnd(value, cursor), ranges, ParentAt(value, cursor, ranges).value);
  }

  /** In the prompt that Shift+Tab makes of an ordered item under an ordered parent of the same kind, the caret's line is the
      parent's next item, and the items after it count on from there, as after Enter. */
  lemma OutdentCountsOn(value: string, cursor: int, ranges: seq<Range>, e: Edit, newRanges: seq<Range>)
    requires JoinsParent(value, cursor, ranges) && Makes(value, e, Outdented(value, cursor, ranges))
    requires var m, prompt := ParentAt(value, cursor, ranges).value, Applied(value, e);
      e.cursorAfter <= |prompt| && AllDigits(m.numberText)
      && SameChips(prompt, LineEnd(prompt, e.cursorAfter), newRanges,
                   Renumbered(LinesFrom(value, LineEnd(value, cursor), ranges), Width(m.indent), m.delimiter,
                              Parse(m.numberText) + 2))
    ensures var m, prompt := ParentAt(value, cursor, ranges).value, Applied(value, e);
      IsNextItem(MarkerAt(prompt, e.cursorAfter), m)
      && CountOn(Numbers(LinesFrom(prompt, LineEnd(prompt, e.cursorAfter), newRanges), Width(m.indent), m.delimiter),
                 Numbers(LinesFrom(value, LineEnd(value, cursor), ranges), Width(m.indent), m.delimiter),
                 Parse(m.numberText) + 2)
  {
    hide ParseListMarker, MarkersAbove, ParentOf, ParentAt, RenumberedRest, Applied, ColumnAfter, LineStart, LineEnd, Covers,
         AllDigits, Parse, Follows, Outdented, SameChips, CountOn, IsNextItem, Numbers, Renumbered, LinesFrom, Joined,
         NoBreaks, MarkerAt;
    var m, prompt := ParentAt(value, cursor, ranges).value, Applied(value, e);
    OutdentFollows(value, cursor, ranges, e);
    hide Makes;
    RenumberedRestIsJoined(value, LineEnd(value, cursor), ranges, m);
    FollowingLineInPlace(value, cursor, ranges, e, m, RenumberedRest(value, LineEnd(value, cursor), ranges, m));
    RestCountsOn(prompt, LineEnd(prompt, e.cursorAfter), m, LinesFrom(value, LineEnd(value, cursor), ranges), newRanges);
  }

  /** Tab puts an ordered item behind the item of the same kind that is nested under the item above already. */
  predicate JoinsChild(value: string, cursor: int, ranges: seq<Range>) {
    HasMarker(value, cursor, ranges) && NestingAt(value, cursor, ranges).Some?
    && Continues(MarkerAt(value, cursor).value.marker, NestingAt(value, cursor, ranges).value.child)
  }

  lemma {:induction false} ChildIsItem(markers: seq<Parsed>, width: nat, child: Option<Marker>)
    requires (forall p <- markers :: IsItem(p.marker)) && (child.Some? ==> IsItem(child.value))
    ensures var n := NestingOf(markers, width, child); n.Some? && n.value.child.Some? ==> IsItem(n.value.child.value)
  {
    hide IsItem, ColumnAfter;
    if |markers| > 0 && Width(markers[0].marker.indent) > width {
      var above := markers[0].marker;
      ChildIsItem(markers[1..], width,
                  if child.None? || Width(above.indent) < Width(child.value.indent) then Some(above) else child);
    }
  }

  lemma ChildAtIsItem(value: string, cursor: nat, ranges: seq<Range>)
    requires HasMarker(value, cursor, ranges)
    ensures var n := NestingAt(value, cursor, ranges); n.Some? && n.value.child.Some? ==> IsItem(n.value.child.value)
  {
    hide IsItem, MarkersAbove, NestingOf, ParseListMarker;
    MarkersAreItems(value, LineStart(value, cursor), ranges);
    ChildIsItem(MarkersAbove(value, LineStart(value, cursor), ranges), Width(MarkerAt(value, cursor).value.marker.indent), None);
  }

  /** In the prompt that Tab makes of an ordered item that joins a nested list of the same kind, the caret's line is the next
      item of that list, and the lines after it stay as they were. */
  lemma TabCountsOn(value: string, cursor: int, ranges: seq<Range>, e: Edit)
    requires JoinsChild(value, cursor, ranges) && Makes(value, e, Indented(value, cursor, ranges))
    ensures var m, prompt := NestingAt(value, cursor, ranges).value.child.value, Applied(value, e);
      e.cursorAfter <= |prompt| && IsNextItem(MarkerAt(prompt, e.cursorAfter), m)
      && prompt[LineEnd(prompt, e.cursorAfter)..] == value[LineEnd(value, cursor)..]
  {
    hide ParseListMarker, MarkersAbove, NestingOf, Makes, Reindented, Applied, NextNumberText, ColumnAfter, LineStart, LineEnd,
         Covers, AllDigits, Parse, IsNextItem;
    MarkerAtIsInLine(value, cursor);
    ChildAtIsItem(value, cursor, ranges);
    FollowingLineInPlace(value, cursor, ranges, e, NestingAt(value, cursor, ranges).value.child.value,
                         value[LineEnd(value, cursor)..]);
  }

  // ---- Every kind of item

  function WithLabel(m: Marker, indent: string, number: string): Marker {
    match m
    case Ordered(_, _, delimiter, space) => Ordered(indent, number, delimiter, space)
    case Task(_, space) => Task(indent, space)
    case Bullet(_, bullet, space) => Bullet(indent, bullet, space)
  }

  function NumberOf(m: Marker): string {
    if m.Ordered? then m.numberText else ""
  }

  /** An indent, and for an ordered item a number, that a recognised line could have. */
  ghost predicate IsLabel(m: Marker, indent: string, number: string) {
    (forall c <- indent :: IsBlank(c)) && if m.Ordered? then number != "" && AllDigits(number) else number == ""
  }

  /** What stands behind a marker's indent and number: the rest of the marker, its padding, and the text. */
  ghost predicate IsTail(tail: string, m: Marker) {
    var n := MarkerLength(m) - NumberLength(m);
    && n + |m.space| <= |tail| && tail[n..n + |m.space|] == m.space && IsPadding(m.space, tail[n + |m.space|..])
    && match m
       case Ordered(_, _, delimiter, _) => tail[0] == delimiter && (delimiter == '.' || delimiter == ')')
       case Bullet(_, bullet, _) => tail[0] == bullet && IsBullet(bullet)
       case Task(_, _) =>
         tail[0] == '-' && IsSpace(tail[1]) && tail[2] == '[' && (tail[3] == ' ' || tail[3] == 'x' || tail[3] == 'X') && tail[4] == ']'
  }

  lemma NumberThenDelimiter(text: string, i: nat, number: string, delimiter: char)
    requires i + |number| < |text| && text[i..i + |number| + 1] == number + [delimiter]
    ensures text[i..i + |number|] == number && text[i + |number|] == delimiter
  {
    var both := text[i..i + |number| + 1];
    assert text[i..i + |number|] == both[..|number|] && text[i + |number|] == both[|number|];
  }

  lemma InParts(text: string, i: nat, j: nat)
    requires i <= j <= |text|
    ensures text == text[..i] + text[i..j] + text[j..]
  {
  }

  lemma LabelOfLine(text: string, p: Parsed)
    requires StartsLine(text, p)
    ensures var n := |p.marker.indent| + NumberLength(p.marker);
      n < |text| && text == p.marker.indent + NumberOf(p.marker) + text[n..]
      && (p.marker.Ordered? ==> text[n] == p.marker.delimiter)
  {
    hide IsPadding, AllDigits, IsBullet, IsBlank, IsSpace;
    var m := p.marker;
    if m.Ordered? { NumberThenDelimiter(text, |m.indent|, m.numberText, m.delimiter); }
    InParts(text, |m.indent|, |m.indent| + NumberLength(m));
  }

  lemma TailOfLine(text: string, p: Parsed)
    requires StartsLine(text, p)
    ensures var n := |p.marker.indent| + NumberLength(p.marker);
      n <= |text| && text == p.marker.indent + NumberOf(p.marker) + text[n..] && IsTail(text[n..], p.marker)
  {
    hide IsPadding, AllDigits, IsBullet, IsBlank, IsSpace;
    var m, n := p.marker, |p.marker.indent| + NumberLength(p.marker);
    LabelOfLine(text, p);
    SuffixSlice(text, n, text[n..], MarkerLength(m) - NumberLength(m), MarkerLength(m) - NumberLength(m) + |m.space|);
  }

  lemma SuffixAt(line: string, n: nat, tail: string, j: nat)
    requires n <= |line| && line[n..] == tail && j < |tail|
    ensures n + j < |line| && line[n + j] == tail[j]
  {
  }

  lemma SuffixSlice(line: string, n: nat, tail: string, i: nat, j: nat)
    requires n <= |line| && line[n..] == tail && i <= j <= |tail|
    ensures line[n + i..n + j] == tail[i..j] && line[n + j..] == tail[j..]
  {
    assert line[n..][i..j] == line[n + i..n + j];
    assert line[n..][j..] == line[n + j..];
  }

  lemma InThree(x: string, y: string, z: string)
    ensures x + y + z == x + (y + z) && (x + y + z)[|x|..] == y + z
  {
  }

  lemma NumberAndDelimiter(line: string, i: nat, n: nat, number: string, delimiter: char)
    requires i <= n < |line| && line[i..n] == number && line[n] == delimiter
    ensures line[i..n + 1] == number + [delimiter]
  {
  }

  lemma LineOfTail(indent: string, number: string, tail: string, m: Marker, column: nat)
    requires IsTail(tail, m) && IsLabel(m, indent, number)
    ensures StartsLine(indent + number + tail,
                       Parsed(WithLabel(m, indent, number), |indent| + |number| + MarkerLength(m) - NumberLength(m) + |m.space|, column))
  {
    hide IsPadding;
    var line, n, k := indent + number + tail, |indent| + |number|, MarkerLength(m) - NumberLength(m);
    assert |line| == n + |tail|;
    ThreeParts(line, indent, number, tail);
    SuffixSlice(line, n, tail, k, k + |m.space|);
    SuffixAt(line, n, tail, 0);
    if m.Task? {
      SuffixAt(line, n, tail, 1);
      SuffixAt(line, n, tail, 2);
      SuffixAt(line, n, tail, 3);
      SuffixAt(line, n, tail, 4);
    }
    if m.Ordered? {
      NumberAndDelimiter(line, |indent|, n, number, m.delimiter);
    }
    LineOfTailStarts(line, n, tail, m, indent, number, column);
  }

  lemma LineOfTailStarts(line: string, n: nat, tail: string, m: Marker, indent: string, number: string, column: nat)
    requires IsTail(tail, m) && IsLabel(m, indent, number) && n == |indent| + |number| && |line| == n + |tail|
    requires var k := MarkerLength(m) - NumberLength(m);
      && line[..|indent|] == indent && line[n + k..n + k + |m.space|] == m.space && line[n + k + |m.space|..] == tail[k + |m.space|..]
      && line[n] == tail[0]
    requires m.Task? ==> line[n + 1] == tail[1] && line[n + 2] == tail[2] && line[n + 3] == tail[3] && line[n + 4] == tail[4]
    requires m.Ordered? ==> line[|indent|..n + 1] == number + [m.delimiter]
    ensures StartsLine(line, Parsed(WithLabel(m, indent, number), n + MarkerLength(m) - NumberLength(m) + |m.space|, column))
  {
    hide IsPadding;
  }

  /** A recognised line with another indent and number is the same item with these. */
  lemma RelabelledIsSameItem(text: string, indent: string, number: string)
    requires ParseListMarker(text).Some? && IsLabel(ParseListMarker(text).value.marker, indent, number)
    ensures
      var m := ParseListMarker(text).value.marker;
      var n := |m.indent| + NumberLength(m);
      n <= |text| && AgreesWith(ParseListMarker(indent + number + text[n..]), WithLabel(m, indent, number))
  {
    MarkerStartsItsLine(text);
    var p := ParseListMarker(text).value;
    hide ParseListMarker, StartsLine, AgreesWith, IsTail, IsLabel, WithLabel;
    TailOfLine(text, p);
    var n := |p.marker.indent| + NumberLength(p.marker);
    LineOfTail(indent, number, text[n..], p.marker, p.contentColumn);
    RecognisedExactlyWhenItStarts(indent + number + text[n..]);
  }

  /** A recognised line in its parts: the indent, the number, and what is behind them. */
  lemma OwnLabel(text: string)
    requires ParseListMarker(text).Some?
    ensures
      var m := ParseListMarker(text).value.marker;
      var n := |m.indent| + NumberLength(m);
      IsLabel(m, m.indent, NumberOf(m)) && n <= |text| && text == m.indent + NumberOf(m) + text[n..]
      && text[|m.indent|..] == NumberOf(m) + text[n..]
  {
    MarkerStartsItsLine(text);
    var p := ParseListMarker(text).value;
    var m := p.marker;
    hide *;
    LabelOfStart(text, p);
    TailOfLine(text, p);
    InThree(m.indent, NumberOf(m), text[|m.indent| + NumberLength(m)..]);
  }

  lemma LabelOfStart(text: string, p: Parsed)
    requires StartsLine(text, p)
    ensures IsLabel(p.marker, p.marker.indent, NumberOf(p.marker))
  {
    hide IsPadding;
  }

  /** In the prompt after an edit, the caret's line is an item like this one, and behind it comes the rest. */
  ghost predicate HasItem(value: string, e: Edit, m: Marker, rest: string) {
    && e.start <= e.end <= |value| && e.cursorAfter <= |Applied(value, e)|
    && Applied(value, e)[LineEnd(Applied(value, e), e.cursorAfter)..] == rest
    && AgreesWith(MarkerAt(Applied(value, e), e.cursorAfter), m)
  }

  lemma MarkerInPlace(before: string, line: string, rest: string, at: nat)
    requires NoBreak(line) && (before == "" || before[|before| - 1] == '\n') && (rest == "" || rest[0] == '\n')
    requires |before| <= at <= |before| + |line|
    ensures var prompt := before + line + rest;
      MarkerAt(prompt, at) == ParseListMarker(line) && prompt[LineEnd(prompt, at)..] == rest
      && LineStart(prompt, at) == |before|
  {
    hide ParseListMarker, LineStart, LineEnd, NoBreak;
    LineInPlace(before, line, rest, at);
  }

  lemma ItemInPlace(value: string, e: Edit, before: string, line: string, rest: string, m: Marker)
    requires e.start <= e.end <= |value| && Applied(value, e) == before + line + rest
    requires |before| <= e.cursorAfter <= |before| + |line| && AgreesWith(ParseListMarker(line), m)
    requires NoBreak(line) && (before == "" || before[|before| - 1] == '\n') && (rest == "" || rest[0] == '\n')
    ensures HasItem(value, e, m, rest)
  {
    hide ParseListMarker, MarkerAt, LineEnd, NoBreak, AgreesWith, Applied;
    MarkerInPlace(before, line, rest, e.cursorAfter);
  }

  lemma LabelHasNoBreak(m: Marker, indent: string, number: string)
    requires IsLabel(m, indent, number)
    ensures NoBreak(indent) && NoBreak(number)
  {
    NoBreakInDigits(number);
  }

  lemma SuffixHasNoBreak(text: string, n: nat)
    requires n <= |text| && NoBreak(text)
    ensures NoBreak(text[n..])
  {
    assert forall c <- text[n..] :: c in text;
  }

  /** Writing this over the first k characters of a recognised line makes it the line of this marker. */
  ghost predicate Relabels(text: string, k: nat, written: string, m: Marker)
    requires ParseListMarker(text).Some?
  {
    var was := ParseListMarker(text).value.marker;
    var n := |was.indent| + NumberLength(was);
    && IsLabel(was, m.indent, NumberOf(m)) && m == WithLabel(was, m.indent, NumberOf(m)) && k <= |text| && n <= |text|
    && written + text[k..] == m.indent + NumberOf(m) + text[n..]
  }

  lemma RelabelsMeans(text: string, k: nat, written: string, m: Marker)
    requires ParseListMarker(text).Some? && Relabels(text, k, written, m)
    ensures
      var was := ParseListMarker(text).value.marker;
      var n := |was.indent| + NumberLength(was);
      && IsLabel(was, m.indent, NumberOf(m)) && m == WithLabel(was, m.indent, NumberOf(m)) && k <= |text| && n <= |text|
      && written + text[k..] == m.indent + NumberOf(m) + text[n..]
  {
    hide ParseListMarker, IsLabel, WithLabel, NumberOf, NumberLength;
  }

  lemma RelabelledLine(text: string, k: nat, written: string, m: Marker)
    requires ParseListMarker(text).Some? && Relabels(text, k, written, m) && NoBreak(text)
    ensures k <= |text| && AgreesWith(ParseListMarker(written + text[k..]), m) && NoBreak(written + text[k..])
  {
    hide *;
    RelabelsMeans(text, k, written, m);
    var was := ParseListMarker(text).value.marker;
    var n := |was.indent| + NumberLength(was);
    RelabelledIsSameItem(text, m.indent, NumberOf(m));
    LabelHasNoBreak(was, m.indent, NumberOf(m));
    SuffixHasNoBreak(text, n);
    NoBreakJoined(m.indent, NumberOf(m), text[n..]);
  }

  lemma ReindentedHasItem(value: string, cursor: nat, e: Edit, text: string, k: nat, indent: string, number: string,
                          rest: string, m: Marker)
    requires cursor <= |value| && text == value[LineStart(value, cursor)..LineEnd(value, cursor)]
    requires ParseListMarker(text).Some? && Relabels(text, k, indent + number, m) && (rest == "" || rest[0] == '\n')
    requires k <= |text|
    requires Makes(value, e, Reindented(value, LineStart(value, cursor), cursor, LineStart(value, cursor) + k, indent, number,
                                        LineEnd(value, cursor), rest))
    ensures HasItem(value, e, m, rest)
  {
    hide *;
    var start, end := LineStart(value, cursor), LineEnd(value, cursor);
    LineHasNoBreak(value, cursor);
    LineInValue(value, start, end, k);
    RelabelledLine(text, k, indent + number, m);
    ReindentedInParts(value, e, start, cursor, start + k, indent, number, end, rest);
    MadeInBounds(value, e, Reindented(value, start, cursor, start + k, indent, number, end, rest));
    ItemInPlace(value, e, value[..start], indent + number + text[k..], rest, m);
  }

  lemma LineInValue(value: string, start: nat, end: nat, k: nat)
    requires start + k <= end <= |value| && (start > 0 ==> value[start - 1] == '\n')
    ensures value[start..end][k..] == value[start + k..end]
    ensures value[..start] == "" || value[..start][|value[..start]| - 1] == '\n'
  {
  }

  lemma MadeInBounds(value: string, e: Edit, r: Result)
    requires Makes(value, e, r)
    ensures e.start <= e.end <= |value|
  {
  }

  /** What an item becomes under Shift+Tab: it takes on its parent's indent, or loses one step of its own, and its number is
      the one after its parent's if it joins its parent's list, and otherwise stays. */
  function OutdentedMarker(marker: Marker, parent: Option<Marker>): Marker
    requires IsWritten(marker) && marker.indent != "" && (parent.Some? ==> IsWritten(parent.value))
  {
    WithLabel(marker, OutdentedIndent(marker, parent),
              if Continues(marker, parent) then NextNumberText(parent.value.numberText) else NumberOf(marker))
  }

  lemma OutdentRelabels(text: string, parent: Option<Marker>)
    requires ParseListMarker(text).Some? && ParseListMarker(text).value.marker.indent != ""
    requires parent.Some? ==> IsItem(parent.value)
    ensures
      var m := ParseListMarker(text).value.marker;
      && IsWritten(m) && (parent.Some? ==> IsWritten(parent.value))
      && Relabels(text, |m.indent| + (if Continues(m, parent) then NumberLength(m) else 0),
                  OutdentedIndent(m, parent) + (if Continues(m, parent) then NextNumberText(parent.value.numberText) else ""),
                  OutdentedMarker(m, parent))
  {
    var m := ParseListMarker(text).value.marker;
    OwnLabel(text);
    ParsedIsItem(text);
    hide ParseListMarker, NextNumberText, AllDigits, Parse, OutdentedIndent, IsLabel, IsItem, OutdentedMarker, Relabels, NumberOf;
    OutdentedIsLabel(m, parent);
    if Continues(m, parent) {
      JoiningRelabels(text, OutdentedIndent(m, parent), NextNumberText(parent.value.numberText), OutdentedMarker(m, parent));
    } else {
      MovingRelabels(text, OutdentedIndent(m, parent), OutdentedMarker(m, parent));
    }
  }

  lemma JoiningRelabels(text: string, indent: string, number: string, m: Marker)
    requires ParseListMarker(text).Some? && m == WithLabel(ParseListMarker(text).value.marker, indent, number)
    requires m.indent == indent && NumberOf(m) == number && IsLabel(ParseListMarker(text).value.marker, indent, number)
    requires var was := ParseListMarker(text).value.marker; |was.indent| + NumberLength(was) <= |text|
    ensures var was := ParseListMarker(text).value.marker; Relabels(text, |was.indent| + NumberLength(was), indent + number, m)
  {
    hide ParseListMarker, IsLabel;
  }

  lemma MovingRelabels(text: string, indent: string, m: Marker)
    requires ParseListMarker(text).Some?
    requires var was := ParseListMarker(text).value.marker;
      && m == WithLabel(was, indent, NumberOf(was)) && m.indent == indent && NumberOf(m) == NumberOf(was)
      && IsLabel(was, indent, NumberOf(was)) && |was.indent| + NumberLength(was) <= |text|
      && text[|was.indent|..] == NumberOf(was) + text[|was.indent| + NumberLength(was)..]
    ensures Relabels(text, |ParseListMarker(text).value.marker.indent| + 0, indent + "", m)
  {
    hide ParseListMarker, IsLabel, NumberOf;
    var was := ParseListMarker(text).value.marker;
    assert indent + "" == indent;
    InThree(indent, NumberOf(was), text[|was.indent| + NumberLength(was)..]);
  }

  lemma OutdentedIsLabel(m: Marker, parent: Option<Marker>)
    requires IsItem(m) && m.indent != "" && (parent.Some? ==> IsItem(parent.value))
    ensures (parent.Some? ==> IsWritten(parent.value)) && IsWritten(m)
    ensures IsLabel(m, OutdentedIndent(m, parent), NumberOf(OutdentedMarker(m, parent)))
    ensures OutdentedMarker(m, parent).indent == OutdentedIndent(m, parent)
    ensures OutdentedMarker(m, parent) == WithLabel(m, OutdentedIndent(m, parent), NumberOf(OutdentedMarker(m, parent)))
    ensures NumberOf(OutdentedMarker(m, parent)) == if Continues(m, parent) then NextNumberText(parent.value.numberText) else NumberOf(m)
  {
    if Continues(m, parent) { NextNumberIsWritten(parent.value.numberText); }
    hide NextNumberText, AllDigits;
  }

  /** In the prompt that Shift+Tab makes, the caret's line is the same item with its new indent and number, and the lines
      behind it are renumbered if it joined its parent's list, and otherwise stay as they were. */
  lemma OutdentKeepsTheItem(value: string, cursor: int, ranges: seq<Range>, e: Edit)
    requires CanOutdent(value, cursor, ranges) && Makes(value, e, Outdented(value, cursor, ranges))
    ensures
      var m, parent, end := MarkerAt(value, cursor).value.marker, ParentAt(value, cursor, ranges), LineEnd(value, cursor);
      && IsWritten(m) && (parent.Some? ==> IsWritten(parent.value))
      && HasItem(value, e, OutdentedMarker(m, parent),
                 if Continues(m, parent) then RenumberedRest(value, end, ranges, parent.value) else value[end..])
  {
    hide ParseListMarker, MarkersAbove, ParentOf, NextNumberText, ColumnAfter, LineStart, LineEnd, Covers, AllDigits, Parse,
         RenumberedRest, Makes, Reindented, Relabels, HasItem, OutdentedMarker, OutdentedIndent;
    var m, parent, end := MarkerAt(value, cursor).value.marker, ParentAt(value, cursor, ranges), LineEnd(value, cursor);
    MarkerAtIsInLine(value, cursor);
    ParentAtIsWritten(value, cursor, ranges);
    if parent.Some? { ParentAtIsItem(value, cursor, ranges); }
    var text := value[LineStart(value, cursor)..end];
    OutdentRelabels(text, parent);
    var continues := Continues(m, parent);
    if continues {
      RenumberedRestIsJoined(value, end, ranges, parent.value);
    }
    ReindentedHasItem(value, cursor, e, text, |m.indent| + (if continues then NumberLength(m) else 0),
                      OutdentedIndent(m, parent), if continues then NextNumberText(parent.value.numberText) else "",
                      if continues then RenumberedRest(value, end, ranges, parent.value) else value[end..],
                      OutdentedMarker(m, parent));
  }

  /** What an item becomes under Tab: it goes under the item above, with the indent of what is nested there already or up to
      that item's content, and its number follows a nested one's of its kind, or is 1; with nothing above it moves by two
      spaces. */
  function IndentedMarker(marker: Marker, nesting: Option<Nesting>): Marker
    requires IsWritten(marker) && (nesting.Some? ==> IsWrittenNesting(nesting.value))
  {
    if nesting.None? then WithLabel(marker, "  " + marker.indent, NumberOf(marker))
    else WithLabel(marker, NestedIndent(nesting.value), NestedNumber(marker, nesting.value.child))
  }

  /** A nested ordered item goes on from the nested item before it, if that is of its kind, and otherwise begins a list at 1. */
  lemma NestedItemsCountFromOne(m: Marker, nesting: Nesting)
    requires IsWritten(m) && m.Ordered? && IsWrittenNesting(nesting)
    ensures NumberOf(IndentedMarker(m, Some(nesting)))
            == if Continues(m, nesting.child) then NextNumberText(nesting.child.value.numberText) else "1"
    ensures IndentedMarker(m, Some(nesting)).indent == NestedIndent(nesting)
  {
    hide NextNumberText, NestedIndent;
  }

  /** With nothing above, Shift+Tab undoes Tab; it also takes back a tab, or a single space. */
  lemma OutdentUndoesTab(m: Marker, indent: string)
    requires IsWritten(m)
    ensures OutdentedMarker(IndentedMarker(m, None), None) == m
    ensures Unindented("\t" + indent) == indent && (indent == "" || indent[0] != ' ' ==> Unindented(" " + indent) == indent)
  {
    assert ("  " + m.indent)[2..] == m.indent && ("\t" + indent)[1..] == indent && (" " + indent)[1..] == indent;
  }

  lemma {:induction false} NestingIsOfItems(markers: seq<Parsed>, width: nat, child: Option<Marker>)
    requires (forall p <- markers :: IsItem(p.marker)) && (child.Some? ==> IsItem(child.value))
    ensures var n := NestingOf(markers, width, child);
      n.Some? ==> IsItem(n.value.above.marker) && (n.value.child.Some? ==> IsItem(n.value.child.value))
  {
    hide IsItem, ColumnAfter;
    if |markers| > 0 && Width(markers[0].marker.indent) > width {
      var above := markers[0].marker;
      NestingIsOfItems(markers[1..], width,
                       if child.None? || Width(above.indent) < Width(child.value.indent) then Some(above) else child);
    }
  }

  lemma NestingAtIsOfItems(value: string, cursor: nat, ranges: seq<Range>)
    requires HasMarker(value, cursor, ranges)
    ensures var n := NestingAt(value, cursor, ranges);
      n.Some? ==> IsItem(n.value.above.marker) && (n.value.child.Some? ==> IsItem(n.value.child.value))
  {
    hide IsItem, MarkersAbove, NestingOf, ParseListMarker;
    MarkersAreItems(value, LineStart(value, cursor), ranges);
    NestingIsOfItems(MarkersAbove(value, LineStart(value, cursor), ranges), Width(MarkerAt(value, cursor).value.marker.indent),
                     None);
  }

  lemma NestedLabel(m: Marker, nesting: Nesting)
    requires IsItem(m) && IsItem(nesting.above.marker) && (nesting.child.Some? ==> IsItem(nesting.child.value))
    ensures IsWrittenNesting(nesting) && IsLabel(m, NestedIndent(nesting), NestedNumber(m, nesting.child))
  {
    if nesting.child.Some? && nesting.child.value.Ordered? { NextNumberIsWritten(nesting.child.value.numberText); }
    assert AllDigits("1");
    hide NextNumberText, AllDigits;
  }

  lemma TabRelabels(text: string, nesting: Option<Nesting>)
    requires ParseListMarker(text).Some?
    requires nesting.Some? ==> IsItem(nesting.value.above.marker)
                               && (nesting.value.child.Some? ==> IsItem(nesting.value.child.value))
    ensures
      var m := ParseListMarker(text).value.marker;
      && IsWritten(m) && (nesting.Some? ==> IsWrittenNesting(nesting.value))
      && (nesting.Some? ==> Relabels(text, |m.indent| + NumberLength(m),
                                     NestedIndent(nesting.value) + NestedNumber(m, nesting.value.child), IndentedMarker(m, nesting)))
      && (nesting.None? ==> Relabels(text, 0, "  " + "", IndentedMarker(m, nesting)))
  {
    var m := ParseListMarker(text).value.marker;
    OwnLabel(text);
    ParsedIsItem(text);
    if nesting.Some? {
      NestedLabel(m, nesting.value);
      NestedRelabels(text, nesting.value);
    } else {
      TwoSpacesRelabel(text);
    }
    hide *;
  }

  lemma NestedRelabels(text: string, nesting: Nesting)
    requires ParseListMarker(text).Some? && IsWrittenNesting(nesting)
    requires IsLabel(ParseListMarker(text).value.marker, NestedIndent(nesting),
                     NestedNumber(ParseListMarker(text).value.marker, nesting.child))
    requires IsWritten(ParseListMarker(text).value.marker)
    requires var m := ParseListMarker(text).value.marker; |m.indent| + NumberLength(m) <= |text|
    ensures var m := ParseListMarker(text).value.marker;
      Relabels(text, |m.indent| + NumberLength(m), NestedIndent(nesting) + NestedNumber(m, nesting.child),
               IndentedMarker(m, Some(nesting)))
  {
    hide ParseListMarker, NextNumberText, AllDigits, NestedIndent, NestedNumber;
  }

  lemma TwoSpacesRelabel(text: string)
    requires ParseListMarker(text).Some? && IsWritten(ParseListMarker(text).value.marker)
    requires var m := ParseListMarker(text).value.marker; var n := |m.indent| + NumberLength(m);
      IsLabel(m, m.indent, NumberOf(m)) && n <= |text| && text == m.indent + NumberOf(m) + text[n..]
    ensures Relabels(text, 0, "  " + "", IndentedMarker(ParseListMarker(text).value.marker, None))
  {
    hide ParseListMarker, AllDigits;
    var m := ParseListMarker(text).value.marker;
    TwoSpacesMore(text, m.indent, NumberOf(m), text[|m.indent| + NumberLength(m)..]);
    assert IsBlank(' ');
  }

  lemma TwoSpacesMore(text: string, x: string, y: string, z: string)
    requires text == x + y + z
    ensures "  " + "" + text[0..] == ("  " + x) + y + z
  {
    assert text[0..] == text && "  " + "" == "  ";
    InThree("  ", x, y);
    InThree("  " + x, y, z);
    InThree("  ", x + y, z);
  }

  lemma TabIsReindent(value: string, cursor: int, ranges: seq<Range>, e: Edit)
    requires HasMarker(value, cursor, ranges) && Makes(value, e, Indented(value, cursor, ranges))
    requires NestingAt(value, cursor, ranges).None?
    ensures var start, end := LineStart(value, cursor), LineEnd(value, cursor);
      Makes(value, e, Reindented(value, start, cursor, start, "  ", "", end, value[end..]))
  {
    hide ParseListMarker, MarkersAbove, NestingOf, ColumnAfter, LineStart, LineEnd, Covers, Applied;
    assert value[cursor..] == value[cursor..LineEnd(value, cursor)] + value[LineEnd(value, cursor)..];
  }

  lemma TabIsNested(value: string, cursor: int, ranges: seq<Range>, e: Edit)
    requires HasMarker(value, cursor, ranges) && Makes(value, e, Indented(value, cursor, ranges))
    requires NestingAt(value, cursor, ranges).Some? && IsWrittenNesting(NestingAt(value, cursor, ranges).value)
    ensures
      var start, end, m := LineStart(value, cursor), LineEnd(value, cursor), MarkerAt(value, cursor).value.marker;
      var nesting := NestingAt(value, cursor, ranges).value;
      start + |m.indent| + NumberLength(m) <= end
      && Makes(value, e, Reindented(value, start, cursor, start + (|m.indent| + NumberLength(m)), NestedIndent(nesting),
                                    NestedNumber(m, nesting.child), end, value[end..]))
  {
    hide ParseListMarker, MarkersAbove, NestingOf, ColumnAfter, LineStart, LineEnd, Covers, Applied, Makes, Reindented,
         NestedIndent, NestedNumber;
    MarkerAtIsInLine(value, cursor);
  }

  lemma ChildIsWritten(nesting: Nesting)
    requires IsWrittenNesting(nesting)
    ensures nesting.child.Some? ==> IsWritten(nesting.child.value)
  {
  }

  lemma HasMarkerIsInLine(value: string, cursor: int, ranges: seq<Range>)
    requires HasMarker(value, cursor, ranges)
    ensures 0 <= cursor <= |value| && MarkerAt(value, cursor).Some?
    ensures MarkerAt(value, cursor) == ParseListMarker(value[LineStart(value, cursor)..LineEnd(value, cursor)])
    ensures var rest := value[LineEnd(value, cursor)..]; rest == "" || rest[0] == '\n'
  {
    hide ParseListMarker;
  }

  /** In the prompt that Tab makes, the caret's line is the same item with its new indent and number, and all else stays. */
  lemma TabKeepsTheItem(value: string, cursor: int, ranges: seq<Range>, e: Edit)
    requires HasMarker(value, cursor, ranges) && Makes(value, e, Indented(value, cursor, ranges))
    ensures
      var m, nesting := MarkerAt(value, cursor).value.marker, NestingAt(value, cursor, ranges);
      && IsWritten(m) && (nesting.Some? ==> IsWrittenNesting(nesting.value))
      && HasItem(value, e, IndentedMarker(m, nesting), value[LineEnd(value, cursor)..])
  {
    hide *;
    HasMarkerIsInLine(value, cursor, ranges);
    var m, n, end := MarkerAt(value, cursor).value.marker, NestingAt(value, cursor, ranges), LineEnd(value, cursor);
    var text := value[LineStart(value, cursor)..end];
    NestingAtIsOfItems(value, cursor, ranges);
    TabRelabels(text, n);
    OwnLabel(text);
    if n.Some? {
      ChildIsWritten(n.value);
      TabIsNested(value, cursor, ranges, e);
      ReindentedHasItem(value, cursor, e, text, |m.indent| + NumberLength(m), NestedIndent(n.value),
                        NestedNumber(m, n.value.child), value[end..], IndentedMarker(m, n));
    } else {
      TabIsReindent(value, cursor, ranges, e);
      ReindentedHasItem(value, cursor, e, text, 0, "  ", "", value[end..], IndentedMarker(m, n));
    }
  }

  /** In the prompt that Enter makes behind a task or a bullet, the caret's line begins like it, a task without its tick, and the
      lines behind it stay as they were. */
  lemma EnterRepeatsTheMarker(value: string, cursor: int, ranges: seq<Range>, e: Edit)
    requires CanContinue(value, cursor, ranges) && Makes(value, e, Continued(value, cursor, ranges))
    requires Preceding(value, cursor, ranges).Some? && !Preceding(value, cursor, ranges).value.Ordered?
    ensures e.start <= e.end <= |value|
    ensures
      var m, end, prompt := Preceding(value, cursor, ranges).value, LineEnd(value, cursor), Applied(value, e);
      var tail := value[cursor..end];
      && e.cursorAfter <= |prompt| && prompt[LineEnd(prompt, e.cursorAfter)..] == value[end..]
      && var found := MarkerAt(prompt, e.cursorAfter);
      && found.Some? && found.value.marker.indent == m.indent
      && (m.Task? ==> found.value.marker.Task?
                      && prompt[LineStart(prompt, e.cursorAfter)..LineEnd(prompt, e.cursorAfter)] == m.indent + "- [ ] " + tail)
      && (m.Bullet? ==> if m.bullet == '-' && IsCheckbox(tail) then found.value.marker.Task?
                        else found.value.marker.Bullet? && found.value.marker.bullet == m.bullet)
  {
    hide ParseListMarker, MarkersAbove, ParentOf, AllSpace, LineStart, LineEnd, Covers, ColumnAfter, MarkerAt, IsItem, Preceding,
         KeptBefore, Continued, CanContinue, Applied, IsCheckbox, NoBreak, Makes;
    EnterMakesAlike(value, cursor, ranges);
    EnterIsInBounds(value, cursor, ranges, e);
    PrecedingIsItem(value, cursor, ranges);
    var m, before, end := Preceding(value, cursor, ranges).value, KeptBefore(value, cursor, ranges), LineEnd(value, cursor);
    var tail := value[cursor..end];
    RestOfLineHasNoBreak(value, cursor);
    AlikeHasNoBreak(m, tail);
    AlikeParses(m, tail);
    PromptInParts(value, e, Continued(value, cursor, ranges), before, NextMarkerText(m), tail, value[end..]);
    LineInPlace(before, NextMarkerText(m) + tail, value[end..], e.cursorAfter);
    MarkerThere(Applied(value, e), e.cursorAfter, NextMarkerText(m) + tail);
  }

  lemma MarkerThere(prompt: string, at: nat, line: string)
    requires at <= |prompt| && prompt[LineStart(prompt, at)..LineEnd(prompt, at)] == line
    ensures MarkerAt(prompt, at) == ParseListMarker(line)
  {
  }

  lemma AlikeParses(m: Marker, tail: string)
    requires IsItem(m) && !m.Ordered?
    ensures
      var p := ParseListMarker(NextMarkerText(m) + tail);
      && p.Some? && p.value.marker.indent == m.indent
      && (m.Task? ==> p.value.marker.Task? && NextMarkerText(m) + tail == m.indent + "- [ ] " + tail)
      && (m.Bullet? ==> if m.bullet == '-' && IsCheckbox(tail) then p.value.marker.Task?
                        else p.value.marker.Bullet? && p.value.marker.bullet == m.bullet)
  {
    NextMarkerIsAlike(m, tail);
  }

  lemma AlikeHasNoBreak(m: Marker, tail: string)
    requires IsItem(m) && !m.Ordered? && NoBreak(tail)
    ensures NoBreak(NextMarkerText(m) + tail)
  {
    var written := if m.Task? then "- [ ] " else [m.bullet] + " ";
    assert NextMarkerText(m) == m.indent + written;
    NoBreakJoined(m.indent, written, tail);
  }

  lemma EnterIsInBounds(value: string, cursor: int, ranges: seq<Range>, e: Edit)
    requires CanContinue(value, cursor, ranges) && Makes(value, e, Continued(value, cursor, ranges))
    ensures 0 <= cursor <= |value| && e.start <= e.end <= |value| && (value[LineEnd(value, cursor)..] != "" ==>
              value[LineEnd(value, cursor)..][0] == '\n')
  {
    hide Continued;
  }

  lemma EnterMakesAlike(value: string, cursor: int, ranges: seq<Range>)
    requires CanContinue(value, cursor, ranges)
    requires Preceding(value, cursor, ranges).Some? && !Preceding(value, cursor, ranges).value.Ordered?
    ensures var m, before, end := Preceding(value, cursor, ranges).value, KeptBefore(value, cursor, ranges), LineEnd(value, cursor);
      var r := Continued(value, cursor, ranges);
      IsWritten(m) && r.before == before + NextMarkerText(m) && r.after == value[cursor..end] + value[end..]
      && (before == "" || before[|before| - 1] == '\n')
  {
    hide ParseListMarker, MarkersAbove, ParentOf, RenumberedRest, AllSpace, NextMarkerText, LineStart, LineEnd, Covers, ColumnAfter,
         MarkerAt;
    MarkerAtIsInLine(value, cursor);
    var m := Preceding(value, cursor, ranges).value;
    assert value[..cursor] + "\n" + NextMarkerText(m) == value[..cursor] + ("\n" + NextMarkerText(m));
  }

  // ---- What the keys look for

  /** The parent is the nearest marker above that is indented less. */
  lemma {:induction false} ParentIsNearest(markers: seq<Parsed>, width: nat, i: nat)
    requires i <= |markers| && forall j | 0 <= j < i :: Width(markers[j].marker.indent) >= width
    ensures i < |markers| && Width(markers[i].marker.indent) < width ==> ParentOf(markers, width) == Some(markers[i].marker)
    ensures i == |markers| ==> ParentOf(markers, width).None?
  {
    hide ColumnAfter;
    if i > 0 {
      assert markers[1..][i - 1..] == markers[i..];
      ParentIsNearest(markers[1..], width, i - 1);
    }
  }

  /** Of the first i markers, one that is indented least; the nearest of those. */
  ghost predicate IsLeastIndented(markers: seq<Parsed>, i: nat, child: Option<Marker>) {
    i <= |markers|
    && if i == 0 then child.None?
       else exists k | 0 <= k < i ::
         && child == Some(markers[k].marker)
         && (forall j | 0 <= j < i :: Width(markers[j].marker.indent) >= Width(markers[k].marker.indent))
         && (forall j | 0 <= j < k :: Width(markers[j].marker.indent) > Width(markers[k].marker.indent))
  }

  lemma LeastIs(markers: seq<Parsed>, i: nat, k: nat)
    requires k < i <= |markers|
    requires forall j | 0 <= j < i :: Width(markers[j].marker.indent) >= Width(markers[k].marker.indent)
    requires forall j | 0 <= j < k :: Width(markers[j].marker.indent) > Width(markers[k].marker.indent)
    ensures IsLeastIndented(markers, i, Some(markers[k].marker))
  {
    hide Width;
  }

  lemma LeastOfOneMore(markers: seq<Parsed>, i: nat, child: Option<Marker>)
    requires i < |markers| && IsLeastIndented(markers, i, child)
    ensures
      var above := markers[i].marker;
      IsLeastIndented(markers, i + 1,
                      if child.None? || Width(above.indent) < Width(child.value.indent) then Some(above) else child)
  {
    hide Width;
    if i == 0 {
      LeastIs(markers, 1, 0);
    } else {
      var k :| 0 <= k < i && child == Some(markers[k].marker)
        && (forall j | 0 <= j < i :: Width(markers[j].marker.indent) >= Width(markers[k].marker.indent))
        && (forall j | 0 <= j < k :: Width(markers[j].marker.indent) > Width(markers[k].marker.indent));
      hide IsLeastIndented;
      LeastIs(markers, i + 1, if Width(markers[i].marker.indent) < Width(markers[k].marker.indent) then i else k);
    }
  }

  lemma {:induction false} NestingFrom(markers: seq<Parsed>, width: nat, i: nat, n: nat, child: Option<Marker>)
    requires i <= n <= |markers| && IsLeastIndented(markers, i, child)
    requires forall j | 0 <= j < n :: Width(markers[j].marker.indent) > width
    requires n < |markers| ==> Width(markers[n].marker.indent) <= width
    ensures var found := NestingOf(markers[i..], width, child);
      if n < |markers| && Width(markers[n].marker.indent) == width
      then found.Some? && found.value.above == markers[n] && IsLeastIndented(markers, n, found.value.child)
      else found.None?
    decreases n - i
  {
    hide ColumnAfter, IsLeastIndented;
    if i < n {
      var above := markers[i].marker;
      LeastOfOneMore(markers, i, child);
      assert markers[i..][0] == markers[i] && markers[i..][1..] == markers[i + 1..];
      NestingFrom(markers, width, i + 1, n,
                  if child.None? || Width(above.indent) < Width(child.value.indent) then Some(above) else child);
    } else if n < |markers| {
      assert markers[i..][0] == markers[n];
    }
  }

  /** Tab nests under the first marker above that is indented alike, if none before it is indented less; and beside the least
      indented of those between, which are nested there already. */
  lemma NestsUnderTheNearestAlike(markers: seq<Parsed>, width: nat, n: nat)
    requires n <= |markers| && forall j | 0 <= j < n :: Width(markers[j].marker.indent) > width
    requires n < |markers| ==> Width(markers[n].marker.indent) <= width
    ensures var found := NestingOf(markers, width, None);
      if n < |markers| && Width(markers[n].marker.indent) == width
      then found.Some? && found.value.above == markers[n] && IsLeastIndented(markers, n, found.value.child)
      else found.None?
  {
    assert markers[0..] == markers;
    NestingFrom(markers, width, 0, n, None);
  }

  /** The markers above a line begin with that of the line just above, if it has one and starts outside the chips. */
  lemma LineAboveComesFirst(value: string, start: nat, end: nat, ranges: seq<Range>)
    requires start <= end < |value| && value[end] == '\n' && (start > 0 ==> value[start - 1] == '\n')
    requires (forall k | start <= k < end :: value[k] != '\n') && !Covers(ranges, start) && !LineSticks(value, ranges, end + 1)
    ensures
      MarkersAbove(value, end + 1, ranges)
      == var parsed := ParseListMarker(value[start..end]);
         if parsed.None? then [] else [parsed.value] + MarkersAbove(value, start, ranges)
    ensures MarkersAbove(value, 0, ranges) == []
  {
    LineStartIs(value, end, start);
    assert CoverStart(ranges, start).None?;
    assert ItemStart(value, end, ranges) == start;
    hide ParseListMarker, LineSticks;
  }

  /** A line that starts inside a chip goes on from the line in which the chip starts. */
  lemma ItemGoesOnFromTheChip(value: string, position: nat, ranges: seq<Range>, i: nat)
    requires AreRanges(value, ranges) && position <= |value| && i < |ranges|
    requires ranges[i].start < LineStart(value, position) < ranges[i].end
    ensures ItemStart(value, position, ranges) == ItemStart(value, ranges[i].start, ranges)
  {
    OnlyCoverIsFound(value, ranges, i, LineStart(value, position));
  }

  // ---- When the keys act

  /** Enter acts exactly behind a marker with its padding, outside the chips; Tab anywhere in a line with a marker; Shift+Tab if
      the marker is indented. */
  lemma KeysActExactly(before: string, line: string, rest: string, k: nat, ranges: seq<Range>)
    requires NoBreak(line) && (before == "" || before[|before| - 1] == '\n') && (rest == "" || rest[0] == '\n') && k <= |line|
    ensures
      var value, cursor, p := before + line + rest, |before| + k, ParseListMarker(line);
      var outside := !Covers(ranges, cursor);
      && (CanContinue(value, cursor, ranges) <==> outside && p.Some? && p.value.marker.space != "" && p.value.markerEnd <= k)
      && (HasMarker(value, cursor, ranges) <==> outside && p.Some?)
      && (CanOutdent(value, cursor, ranges) <==> outside && p.Some? && p.value.marker.indent != "")
    ensures !CanContinue(before, -1, ranges) && !CanContinue(before, |before| + 1, ranges)
    ensures !HasMarker(before, -1, ranges) && !HasMarker(before, |before| + 1, ranges)
  {
    hide ParseListMarker, MarkerAt, LineStart, LineEnd, Covers, NoBreak;
    MarkerInPlace(before, line, rest, |before| + k);
  }
}

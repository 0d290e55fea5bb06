/** Splitting a prompt into text and chips, and the two cursor maps between what the editor shows, where a chip is
    one position wide, and the prompt's source text (apps/web/src/composer-editor-mentions.ts, composer-logic.ts). */
module CursorMaps {
  import opened Sequences

  datatype Kind = Mention | Skill | Citation | ContextReference

  /** A token that the collectors found; its source is the slice it covers. */
  datatype Token = Token(kind: Kind, value: string, start: nat, end: nat, source: string)

  datatype Segment = Text(text: string) | Chip(kind: Kind, value: string, source: string)

  predicate IsToken(text: string, t: Token) {
    t.start < t.end <= |text| && t.source == text[t.start..t.end]
  }

  predicate AreTokens(text: string, tokens: seq<Token>) {
    forall i | 0 <= i < |tokens| :: IsToken(text, tokens[i])
  }

  function SourceOf(s: Segment): string {
    match s
    case Text(text) => text
    case Chip(_, _, source) => source
  }

  function Concat(segments: seq<Segment>): string {
    if segments == [] then "" else Concat(segments[..|segments| - 1]) + SourceOf(segments[|segments| - 1])
  }

  // ---- Splitting

  function WithText(segments: seq<Segment>, text: string): seq<Segment> {
    if text == "" then segments
    else if segments != [] && segments[|segments| - 1].Text? then
      segments[..|segments| - 1] + [Text(segments[|segments| - 1].text + text)]
    else segments + [Text(text)]
  }

  function ChipOf(t: Token): Segment {
    Chip(t.kind, t.value, t.source)
  }

  datatype Progress = Progress(segments: seq<Segment>, cursor: nat)

  function Visited(text: string, p: Progress, t: Token): Progress
    requires p.cursor <= |text| && IsToken(text, t)
  {
    if t.start < p.cursor then p
    else Progress(WithText(p.segments, text[p.cursor..t.start]) + [ChipOf(t)], t.end)
  }

  function After(text: string, tokens: seq<Token>): (p: Progress)
    requires AreTokens(text, tokens)
    ensures p.cursor <= |text|
  {
    if tokens == [] then Progress([], 0)
    else Visited(text, After(text, tokens[..|tokens| - 1]), tokens[|tokens| - 1])
  }

  function SegmentsOf(text: string, tokens: seq<Token>): seq<Segment>
    requires AreTokens(text, tokens)
  {
    WithText(After(text, tokens).segments, text[After(text, tokens).cursor..])
  }

  method PushTextSegment(segments: seq<Segment>, text: string) returns (r: seq<Segment>)
    ensures r == WithText(segments, text)
  {
    if text == "" {
      return segments;
    }
    if |segments| > 0 && segments[|segments| - 1].Text? {
      return segments[|segments| - 1 := Text(segments[|segments| - 1].text + text)];
    }
    r := segments + [Text(text)];
  }

  method SplitPrompt(text: string, tokens: seq<Token>) returns (segments: seq<Segment>)
    requires AreTokens(text, tokens)
    ensures segments == SegmentsOf(text, tokens)
  {
    segments := [];
    var cursor: nat := 0;
    for i := 0 to |tokens|
      invariant cursor <= |text| && Progress(segments, cursor) == After(text, tokens[..i])
    {
      assert tokens[..i + 1][..i] == tokens[..i];
      var t := tokens[i];
      if t.start < cursor {
        continue;
      }
      if t.start > cursor {
        segments := PushTextSegment(segments, text[cursor..t.start]);
      }
      segments := segments + [ChipOf(t)];
      cursor := t.end;
    }
    assert tokens[..|tokens|] == tokens;
    if cursor < |text| {
      segments := PushTextSegment(segments, text[cursor..]);
    }
  }

  /** No segment is empty, and text next to text has been merged. */
  ghost predicate IsLegal(segments: seq<Segment>) {
    && (forall i | 0 <= i < |segments| :: |SourceOf(segments[i])| > 0)
    && (forall i | 0 < i < |segments| :: segments[i - 1].Chip? || segments[i].Chip?)
  }

  lemma ConcatAppend(segments: seq<Segment>, s: Segment)
    ensures Concat(segments + [s]) == Concat(segments) + SourceOf(s)
  {
    assert (segments + [s])[..|segments|] == segments;
  }

  lemma WithTextAddsText(segments: seq<Segment>, text: string)
    ensures Concat(WithText(segments, text)) == Concat(segments) + text
  {
    if |text| == 0 {
    } else if |segments| > 0 && segments[|segments| - 1].Text? {
      var n := |segments| - 1;
      ConcatAppend(segments[..n], Text(segments[n].text + text));
    } else {
      ConcatAppend(segments, Text(text));
    }
  }

  lemma WithTextIsLegal(segments: seq<Segment>, text: string)
    requires IsLegal(segments)
    ensures IsLegal(WithText(segments, text))
  {
  }

  lemma WithChipIsLegal(segments: seq<Segment>, chip: Segment)
    requires IsLegal(segments) && chip.Chip? && |chip.source| > 0
    ensures IsLegal(segments + [chip])
  {
  }

  lemma SlicesJoin(text: string, i: nat, j: nat, k: nat)
    requires i <= j <= k <= |text|
    ensures text[..i] + text[i..j] + text[j..k] == text[..k]
  {
  }

  lemma {:induction false} AfterReadsThePrompt(text: string, tokens: seq<Token>)
    requires AreTokens(text, tokens)
    ensures var p := After(text, tokens); IsLegal(p.segments) && Concat(p.segments) == text[..p.cursor]
  {
    if |tokens| > 0 {
      hide IsLegal, Concat, WithText;
      var before := After(text, tokens[..|tokens| - 1]);
      var t := tokens[|tokens| - 1];
      AfterReadsThePrompt(text, tokens[..|tokens| - 1]);
      if t.start >= before.cursor {
        var between := text[before.cursor..t.start];
        var filled := WithText(before.segments, between);
        WithTextAddsText(before.segments, between);
        WithTextIsLegal(before.segments, between);
        WithChipIsLegal(filled, ChipOf(t));
        ConcatAppend(filled, ChipOf(t));
        SlicesJoin(text, before.cursor, t.start, t.end);
      }
    } else {
      assert Concat([]) == "";
    }
  }

  /** Whatever the tokens, the segments put together are the prompt. */
  lemma SegmentsConcatenateToThePrompt(text: string, tokens: seq<Token>)
    requires AreTokens(text, tokens)
    ensures Concat(SegmentsOf(text, tokens)) == text && IsLegal(SegmentsOf(text, tokens))
  {
    hide After, Concat, IsLegal, WithText;
    var p := After(text, tokens);
    AfterReadsThePrompt(text, tokens);
    WithTextAddsText(p.segments, text[p.cursor..]);
    WithTextIsLegal(p.segments, text[p.cursor..]);
    HalvesJoin(text, p.cursor);
  }

  lemma HalvesJoin(text: string, i: nat)
    requires i <= |text|
    ensures text[..i] + text[i..] == text
  {
  }

  // ---- Which tokens become chips

  predicate Overlap(s: Token, t: Token) {
    s.start < t.end && t.start < s.end
  }

  function Inserted(tokens: seq<Token>, t: Token): seq<Token> {
    if tokens == [] || tokens[|tokens| - 1].start <= t.start then tokens + [t]
    else Inserted(tokens[..|tokens| - 1], t) + [tokens[|tokens| - 1]]
  }

  /** A stable sort by start. */
  function Sorted(tokens: seq<Token>): seq<Token> {
    if tokens == [] then [] else Inserted(Sorted(tokens[..|tokens| - 1]), tokens[|tokens| - 1])
  }

  predicate Clear(t: Token, links: seq<Token>) {
    forall i | 0 <= i < |links| :: !Overlap(t, links[i])
  }

  function ClearTokens(tokens: seq<Token>, links: seq<Token>): seq<Token> {
    if tokens == [] then []
    else
      var rest := ClearTokens(tokens[..|tokens| - 1], links);
      if Clear(tokens[|tokens| - 1], links) then rest + [tokens[|tokens| - 1]] else rest
  }

  /** Citations and context references win over the inline tokens that they overlap. */
  function Collected(tokens: seq<Token>, links: seq<Token>): seq<Token> {
    if links == [] then tokens else Sorted(ClearTokens(tokens, links) + links)
  }

  method CollectTokens(tokens: seq<Token>, links: seq<Token>) returns (r: seq<Token>)
    ensures r == Collected(tokens, links)
  {
    if |links| == 0 {
      return tokens;
    }
    var kept := [];
    for i := 0 to |tokens|
      invariant kept == ClearTokens(tokens[..i], links)
    {
      assert tokens[..i + 1][..i] == tokens[..i];
      var clear := true;
      for k := 0 to |links|
        invariant clear <==> forall j | 0 <= j < k :: !Overlap(tokens[i], links[j])
      {
        if Overlap(tokens[i], links[k]) {
          clear := false;
        }
      }
      if clear {
        kept := kept + [tokens[i]];
      }
    }
    assert tokens[..|tokens|] == tokens;
    r := Sorted(kept + links);
  }

  predicate InOrder(tokens: seq<Token>) {
    forall i, j | 0 <= i < j < |tokens| :: tokens[i].start <= tokens[j].start
  }

  lemma {:induction false} InsertedAdds(tokens: seq<Token>, t: Token)
    ensures multiset(Inserted(tokens, t)) == multiset(tokens) + multiset{t}
  {
    if |tokens| > 0 && tokens[|tokens| - 1].start > t.start {
      InsertedAdds(tokens[..|tokens| - 1], t);
      assert tokens == tokens[..|tokens| - 1] + [tokens[|tokens| - 1]];
    }
  }

  lemma {:induction false} InsertedIsSorted(tokens: seq<Token>, t: Token)
    requires InOrder(tokens)
    ensures InOrder(Inserted(tokens, t))
    ensures forall i | 0 <= i < |Inserted(tokens, t)| :: Inserted(tokens, t)[i] in tokens || Inserted(tokens, t)[i] == t
  {
    if |tokens| > 0 && tokens[|tokens| - 1].start > t.start {
      InsertedIsSorted(tokens[..|tokens| - 1], t);
    }
  }

  lemma {:induction false} SortedIsSorted(tokens: seq<Token>)
    ensures InOrder(Sorted(tokens)) && multiset(Sorted(tokens)) == multiset(tokens)
  {
    if |tokens| > 0 {
      SortedIsSorted(tokens[..|tokens| - 1]);
      InsertedIsSorted(Sorted(tokens[..|tokens| - 1]), tokens[|tokens| - 1]);
      InsertedAdds(Sorted(tokens[..|tokens| - 1]), tokens[|tokens| - 1]);
      assert tokens == tokens[..|tokens| - 1] + [tokens[|tokens| - 1]];
    }
  }

  lemma {:induction false} ClearTokensAreClear(tokens: seq<Token>, links: seq<Token>)
    ensures forall t :: t in ClearTokens(tokens, links) <==> t in tokens && Clear(t, links)
  {
    if |tokens| > 0 {
      ClearTokensAreClear(tokens[..|tokens| - 1], links);
      assert tokens == tokens[..|tokens| - 1] + [tokens[|tokens| - 1]];
    }
  }

  lemma {:induction false} CursorIsAnEnd(text: string, tokens: seq<Token>)
    requires AreTokens(text, tokens)
    ensures After(text, tokens).cursor == 0 || exists i :: 0 <= i < |tokens| && After(text, tokens).cursor == tokens[i].end
  {
    if |tokens| > 0 {
      CursorIsAnEnd(text, tokens[..|tokens| - 1]);
    }
  }

  /** The chip of a token stands at the token's own place in the prompt. */
  ghost predicate StandsAt(segments: seq<Segment>, k: nat, t: Token) {
    k < |segments| && segments[k] == Chip(t.kind, t.value, t.source) && |Concat(segments[..k])| == t.start
  }

  lemma {:induction false} ChipsStay(text: string, tokens: seq<Token>, n: nat, k: nat, t: Token)
    requires AreTokens(text, tokens) && n <= |tokens| && StandsAt(After(text, tokens[..n]).segments, k, t)
    ensures StandsAt(SegmentsOf(text, tokens), k, t)
    decreases |tokens| - n
  {
    var p := After(text, tokens[..n]);
    if n == |tokens| {
      assert tokens[..n] == tokens;
      assert SegmentsOf(text, tokens)[..k] == p.segments[..k];
    } else {
      var q := After(text, tokens[..n + 1]);
      AfterOneMore(text, tokens, n);
      assert q.segments[..k] == p.segments[..k] && q.segments[k] == p.segments[k];
      ChipsStay(text, tokens, n + 1, k, t);
    }
  }

  lemma AfterOneMore(text: string, tokens: seq<Token>, i: nat)
    requires AreTokens(text, tokens) && i < |tokens|
    ensures After(text, tokens[..i + 1]) == Visited(text, After(text, tokens[..i]), tokens[i])
  {
    assert tokens[..i + 1][..i] == tokens[..i];
  }

  lemma VisitPlacesChip(text: string, p: Progress, t: Token)
    requires p.cursor <= t.start && IsToken(text, t) && Concat(p.segments) == text[..p.cursor]
    ensures var segments := Visited(text, p, t).segments; |segments| > 0 && StandsAt(segments, |segments| - 1, t)
  {
    var filled := WithText(p.segments, text[p.cursor..t.start]);
    WithTextAddsText(p.segments, text[p.cursor..t.start]);
    hide Concat, WithText;
    assert (filled + [ChipOf(t)])[..|filled|] == filled;
  }

  /** A token that nothing before it reaches into becomes a chip, in its place. */
  lemma FreeTokenBecomesChip(text: string, tokens: seq<Token>, i: nat) returns (k: nat)
    requires AreTokens(text, tokens) && i < |tokens|
    requires forall j | 0 <= j < i :: tokens[j].end <= tokens[i].start
    ensures StandsAt(SegmentsOf(text, tokens), k, tokens[i])
  {
    hide After, Visited, Concat, WithText, IsLegal, StandsAt, SegmentsOf;
    CursorIsAnEnd(text, tokens[..i]);
    AfterReadsThePrompt(text, tokens[..i]);
    AfterOneMore(text, tokens, i);
    VisitPlacesChip(text, After(text, tokens[..i]), tokens[i]);
    k := |After(text, tokens[..i + 1]).segments| - 1;
    ChipsStay(text, tokens, i + 1, k, tokens[i]);
  }

  lemma CollectedAreFound(tokens: seq<Token>, links: seq<Token>)
    requires |links| > 0
    ensures forall t :: t in Collected(tokens, links) <==> t in links || (t in tokens && Clear(t, links))
    ensures InOrder(Collected(tokens, links))
  {
    var found := ClearTokens(tokens, links) + links;
    SortedIsSorted(found);
    ClearTokensAreClear(tokens, links);
    assert forall t :: t in Sorted(found) <==> t in multiset(Sorted(found));
    assert forall t :: t in found <==> t in multiset(found);
  }

  /** Two tokens overlap exactly if they share a character. */
  lemma OverlapIsASharedCharacter(text: string, s: Token, t: Token)
    requires IsToken(text, s) && IsToken(text, t)
    ensures Overlap(s, t) <==> exists p: nat :: Contains(s, p) && Contains(t, p)
  {
    if Overlap(s, t) {
      var p := if s.start < t.start then t.start else s.start;
      assert Contains(s, p) && Contains(t, p);
    }
  }

  predicate Contains(t: Token, position: nat) {
    t.start <= position < t.end
  }

  lemma FoundDoNotOverlap(tokens: seq<Token>, links: seq<Token>, n: nat, t: Token)
    requires n < |links| && t != links[n] && (t in links || Clear(t, links))
    requires forall i, j | 0 <= i < j < |links| :: !Overlap(links[i], links[j])
    ensures !Overlap(t, links[n])
  {
    if t in links {
      var m :| 0 <= m < |links| && links[m] == t;
      assert !Overlap(links[if m < n then m else n], links[if m < n then n else m]);
    }
  }

  /** Only tokens become chips, each in its own place. */
  ghost predicate ChipsAreTokens(segments: seq<Segment>, tokens: seq<Token>) {
    forall k | 0 <= k < |segments| && segments[k].Chip? :: exists t <- tokens :: StandsAt(segments, k, t)
  }

  lemma TextKeepsChips(segments: seq<Segment>, text: string, tokens: seq<Token>)
    requires ChipsAreTokens(segments, tokens)
    ensures ChipsAreTokens(WithText(segments, text), tokens)
  {
    var filled := WithText(segments, text);
    forall k | 0 <= k < |filled| && filled[k].Chip? ensures exists t <- tokens :: StandsAt(filled, k, t) {
      assert k < |segments| && filled[k] == segments[k] && filled[..k] == segments[..k];
      var t :| t in tokens && StandsAt(segments, k, t);
      assert StandsAt(filled, k, t);
    }
  }

  lemma ChipKeepsChips(segments: seq<Segment>, t: Token, tokens: seq<Token>)
    requires ChipsAreTokens(segments, tokens) && t in tokens && |Concat(segments)| == t.start
    ensures ChipsAreTokens(segments + [ChipOf(t)], tokens)
  {
    var longer := segments + [ChipOf(t)];
    forall k | 0 <= k < |longer| && longer[k].Chip? ensures exists t <- tokens :: StandsAt(longer, k, t) {
      assert longer[..k] == if k < |segments| then segments[..k] else segments;
      if k < |segments| {
        var u :| u in tokens && StandsAt(segments, k, u);
        assert StandsAt(longer, k, u);
      } else {
        assert StandsAt(longer, k, t);
      }
    }
  }

  lemma MoreTokensKeepChips(segments: seq<Segment>, tokens: seq<Token>, more: seq<Token>)
    requires ChipsAreTokens(segments, tokens) && forall t <- tokens :: t in more
    ensures ChipsAreTokens(segments, more)
  {
    forall k | 0 <= k < |segments| && segments[k].Chip? ensures exists t <- more :: StandsAt(segments, k, t) {
      var t :| t in tokens && StandsAt(segments, k, t);
    }
  }

  lemma {:induction false} ChipsAfterAreTokens(text: string, tokens: seq<Token>)
    requires AreTokens(text, tokens)
    ensures ChipsAreTokens(After(text, tokens).segments, tokens)
  {
    if |tokens| > 0 {
      var before, t := After(text, tokens[..|tokens| - 1]), tokens[|tokens| - 1];
      ChipsAfterAreTokens(text, tokens[..|tokens| - 1]);
      AfterReadsThePrompt(text, tokens[..|tokens| - 1]);
      MoreTokensKeepChips(before.segments, tokens[..|tokens| - 1], tokens);
      hide StandsAt, ChipsAreTokens, Concat, IsLegal, WithText;
      if t.start >= before.cursor {
        var between := text[before.cursor..t.start];
        WithTextAddsText(before.segments, between);
        assert |text[..before.cursor] + between| == t.start;
        TextKeepsChips(before.segments, between, tokens);
        ChipKeepsChips(WithText(before.segments, between), t, tokens);
      }
    }
  }

  /** Every chip of a prompt is one of its tokens, with its kind, value and source, in its own place. */
  lemma OnlyTokensBecomeChips(text: string, tokens: seq<Token>)
    requires AreTokens(text, tokens)
    ensures ChipsAreTokens(SegmentsOf(text, tokens), tokens)
  {
    ChipsAfterAreTokens(text, tokens);
    hide ChipsAreTokens;
    TextKeepsChips(After(text, tokens).segments, text[After(text, tokens).cursor..], tokens);
  }

  /** The tokens that start at one place, in their order. */
  function StartingAt(tokens: seq<Token>, start: nat): seq<Token> {
    if tokens == [] then []
    else
      StartingAt(tokens[..|tokens| - 1], start)
      + if tokens[|tokens| - 1].start == start then [tokens[|tokens| - 1]] else []
  }

  lemma {:induction false} InsertedIsStable(tokens: seq<Token>, t: Token, start: nat)
    requires InOrder(tokens)
    ensures StartingAt(Inserted(tokens, t), start) == StartingAt(tokens, start) + if t.start == start then [t] else []
  {
    if |tokens| > 0 && tokens[|tokens| - 1].start > t.start {
      var rest, last := tokens[..|tokens| - 1], tokens[|tokens| - 1];
      InsertedIsStable(rest, t, start);
      assert (Inserted(rest, t) + [last])[..|Inserted(rest, t)|] == Inserted(rest, t);
      assert StartingAt(tokens, start) == StartingAt(rest, start) + if last.start == start then [last] else [];
      if last.start == start {
        assert t.start != start;
      }
    } else {
      assert (tokens + [t])[..|tokens|] == tokens;
    }
  }

  /** Tokens that start at the same place keep their order. */
  lemma {:induction false} SortedIsStable(tokens: seq<Token>, start: nat)
    ensures StartingAt(Sorted(tokens), start) == StartingAt(tokens, start)
  {
    if |tokens| > 0 {
      SortedIsStable(tokens[..|tokens| - 1], start);
      SortedIsSorted(tokens[..|tokens| - 1]);
      InsertedIsStable(Sorted(tokens[..|tokens| - 1]), tokens[|tokens| - 1], start);
    }
  }

  /** Links that do not overlap each other all become chips, whatever inline tokens were found around them. */
  lemma LinksBecomeChips(text: string, tokens: seq<Token>, links: seq<Token>, n: nat) returns (k: nat)
    requires AreTokens(text, tokens) && AreTokens(text, links) && n < |links|
    requires forall i, j | 0 <= i < j < |links| :: !Overlap(links[i], links[j])
    ensures AreTokens(text, Collected(tokens, links))
    ensures StandsAt(SegmentsOf(text, Collected(tokens, links)), k, links[n])
  {
    var sorted := Collected(tokens, links);
    CollectedAreFound(tokens, links);
    hide Collected, SegmentsOf;
    forall i | 0 <= i < |sorted| ensures IsToken(text, sorted[i]) {
      assert sorted[i] in sorted;
    }
    var i := FirstPlace(sorted, links[n]);
    forall j | 0 <= j < i ensures sorted[j].end <= sorted[i].start {
      assert sorted[j] in sorted && sorted[j] != links[n];
      FoundDoNotOverlap(tokens, links, n, sorted[j]);
    }
    k := FreeTokenBecomesChip(text, sorted, i);
  }

  // ---- The cursor maps

  function Width(s: Segment): nat {
    if s.Text? then |s.text| else 1
  }

  function CollapsedLength(segments: seq<Segment>): nat {
    if segments == [] then 0 else Width(segments[0]) + CollapsedLength(segments[1..])
  }

  function SourceLength(segments: seq<Segment>): nat {
    if segments == [] then 0 else |SourceOf(segments[0])| + SourceLength(segments[1..])
  }

  /** Where a position in the collapsed view lies in the source. */
  function Expanded(segments: seq<Segment>, c: nat): nat {
    if segments == [] then 0
    else
      var s := segments[0];
      if s.Text? && c <= |s.text| then c
      else if s.Chip? && c <= 1 then (if c == 0 then 0 else |s.source|)
      else |SourceOf(s)| + Expanded(segments[1..], c - Width(s))
  }

  /** Where a position in the source shows in the collapsed view; inside a chip, after the chip. */
  function Collapsed(segments: seq<Segment>, e: nat): nat {
    if segments == [] then 0
    else
      var s := segments[0];
      if s.Text? && e <= |s.text| then e
      else if s.Chip? && e <= |s.source| then (if e == 0 then 0 else 1)
      else Width(s) + Collapsed(segments[1..], e - |SourceOf(s)|)
  }

  /** A cursor that the editor hands over: any number, or none that is finite. */
  datatype Cursor = NotFinite | At(value: real)

  function Clamped(length: nat, cursor: Cursor): nat {
    if cursor.NotFinite? || cursor.value.Floor > length then length
    else if cursor.value.Floor < 0 then 0
    else cursor.value.Floor
  }

  /** A cursor is rounded down to a whole number and moved to the nearer end if it is out of bounds; one that is no number goes to
      the end. */
  lemma ClampedIsNearest(length: nat, cursor: Cursor, n: int)
    requires cursor.At? ==> n as real <= cursor.value < (n + 1) as real
    ensures Clamped(length, cursor)
            == if cursor.NotFinite? || n > length then length else if n < 0 then 0 else n
  {
  }

  lemma ExpandedAtSegment(segments: seq<Segment>, i: nat, c: nat)
    requires i < |segments|
    ensures var s := segments[i];
      Expanded(segments[i..], c)
      == if s.Text? && c <= |s.text| then c
         else if s.Chip? && c <= 1 then (if c == 0 then 0 else |s.source|)
         else |SourceOf(s)| + Expanded(segments[i + 1..], c - Width(s))
    ensures forall d: nat :: Expanded(segments[|segments|..], d) == 0
  {
    assert segments[i..][1..] == segments[i + 1..];
  }

  lemma CollapsedAtSegment(segments: seq<Segment>, i: nat, e: nat)
    requires i < |segments|
    ensures var s := segments[i];
      Collapsed(segments[i..], e)
      == if s.Text? && e <= |s.text| then e
         else if s.Chip? && e <= |s.source| then (if e == 0 then 0 else 1)
         else Width(s) + Collapsed(segments[i + 1..], e - |SourceOf(s)|)
    ensures forall d: nat :: Collapsed(segments[|segments|..], d) == 0
  {
    assert segments[i..][1..] == segments[i + 1..];
  }

  method ExpandCollapsedComposerCursor(text: string, tokens: seq<Token>, cursor: Cursor, literalText: bool)
    returns (expanded: nat)
    requires AreTokens(text, tokens)
    ensures expanded == if literalText || SegmentsOf(text, tokens) == [] then Clamped(|text|, cursor)
                        else Expanded(SegmentsOf(text, tokens), Clamped(|text|, cursor))
  {
    var remaining: nat := Clamped(|text|, cursor);
    if literalText {
      return remaining;
    }
    var segments := SplitPrompt(text, tokens);
    if |segments| == 0 {
      return remaining;
    }
    expanded := 0;
    assert segments[0..] == segments;
    hide Expanded, AreTokens, SegmentsOf, Clamped;
    ghost var whole := Expanded(segments, remaining);
    for i := 0 to |segments|
      invariant expanded + Expanded(segments[i..], remaining) == whole
    {
      var s := segments[i];
      ExpandedAtSegment(segments, i, remaining);
      if s.Chip? {
        if remaining <= 1 {
          return expanded + if remaining == 0 then 0 else |s.source|;
        }
        remaining := remaining - 1;
        expanded := expanded + |s.source|;
      } else {
        if remaining <= |s.text| {
          return expanded + remaining;
        }
        remaining := remaining - |s.text|;
        expanded := expanded + |s.text|;
      }
    }
  }

  method CollapseExpandedComposerCursor(text: string, tokens: seq<Token>, cursor: Cursor, literalText: bool)
    returns (collapsed: nat)
    requires AreTokens(text, tokens)
    ensures collapsed == if literalText || SegmentsOf(text, tokens) == [] then Clamped(|text|, cursor)
                         else Collapsed(SegmentsOf(text, tokens), Clamped(|text|, cursor))
  {
    var remaining: nat := Clamped(|text|, cursor);
    if literalText {
      return remaining;
    }
    var segments := SplitPrompt(text, tokens);
    if |segments| == 0 {
      return remaining;
    }
    collapsed := 0;
    assert segments[0..] == segments;
    hide Collapsed, AreTokens, SegmentsOf, Clamped;
    ghost var whole := Collapsed(segments, remaining);
    for i := 0 to |segments|
      invariant collapsed + Collapsed(segments[i..], remaining) == whole
    {
      var s := segments[i];
      CollapsedAtSegment(segments, i, remaining);
      if s.Chip? {
        if remaining == 0 {
          return;
        }
        if remaining <= |s.source| {
          return collapsed + 1;
        }
        remaining := remaining - |s.source|;
        collapsed := collapsed + 1;
      } else {
        if remaining <= |s.text| {
          return collapsed + remaining;
        }
        remaining := remaining - |s.text|;
        collapsed := collapsed + |s.text|;
      }
    }
  }

  method ClampCollapsedComposerCursor(text: string, tokens: seq<Token>, cursor: Cursor, literalText: bool)
    returns (clamped: nat)
    requires AreTokens(text, tokens)
    ensures clamped == if literalText then Clamped(|text|, cursor)
                       else Clamped(CollapsedLength(SegmentsOf(text, tokens)), cursor)
  {
    if literalText {
      return Clamped(|text|, cursor);
    }
    var segments := SplitPrompt(text, tokens);
    var total := 0;
    for i := 0 to |segments|
      invariant total + CollapsedLength(segments[i..]) == CollapsedLength(segments)
    {
      assert segments[i..][0] == segments[i] && segments[i..][1..] == segments[i + 1..];
      total := total + Width(segments[i]);
    }
    clamped := Clamped(total, cursor);
  }

  ghost predicate NoneIsEmpty(segments: seq<Segment>) {
    forall i | 0 <= i < |segments| :: |SourceOf(segments[i])| > 0
  }

  predicate InsideChip(segments: seq<Segment>, e: nat) {
    if segments == [] then false
    else
      var length := |SourceOf(segments[0])|;
      if e < length then segments[0].Chip? && e > 0
      else InsideChip(segments[1..], e - length)
  }

  lemma AtZero(segments: seq<Segment>)
    ensures Expanded(segments, 0) == 0 && Collapsed(segments, 0) == 0
  {
  }

  lemma {:induction false} ExpandedInBounds(segments: seq<Segment>, c: nat)
    ensures Expanded(segments, c) <= SourceLength(segments)
    ensures c >= CollapsedLength(segments) ==> Expanded(segments, c) == SourceLength(segments)
  {
    if |segments| > 0 && c >= Width(segments[0]) {
      ExpandedInBounds(segments[1..], c - Width(segments[0]));
    }
    if |segments| > 0 {
      AtZero(segments[1..]);
    }
  }

  /** The two maps are a Galois connection between source positions and shown positions. */
  lemma {:induction false} Galois(segments: seq<Segment>, c: nat, e: nat)
    requires NoneIsEmpty(segments) && c <= CollapsedLength(segments) && e <= SourceLength(segments)
    ensures Collapsed(segments, e) <= c <==> e <= Expanded(segments, c)
  {
    if |segments| > 0 {
      var s, rest := segments[0], segments[1..];
      AtZero(rest);
      if e > |SourceOf(s)| {
        Galois(rest, if c >= Width(s) then c - Width(s) else 0, e - |SourceOf(s)|);
      }
    }
  }

  lemma {:induction false} CollapseUndoesExpand(segments: seq<Segment>, c: nat)
    requires forall i | 0 <= i < |segments| && segments[i].Chip? :: |segments[i].source| > 0
    requires c <= CollapsedLength(segments)
    ensures Collapsed(segments, Expanded(segments, c)) == c
  {
    if |segments| > 0 {
      var s, rest := segments[0], segments[1..];
      AtZero(rest);
      if c > Width(s) {
        CollapseUndoesExpand(rest, c - Width(s));
      }
    }
  }

  /** Without the assumption on chips the round trip fails, and only without it. */
  lemma {:induction false} RoundTripsExactlyWithoutEmptyChips(segments: seq<Segment>)
    ensures (forall c: nat | c <= CollapsedLength(segments) :: Collapsed(segments, Expanded(segments, c)) == c)
            <==> (forall i | 0 <= i < |segments| && segments[i].Chip? :: |segments[i].source| > 0)
  {
    if exists i :: 0 <= i < |segments| && segments[i].Chip? && |segments[i].source| == 0 {
      var i :| 0 <= i < |segments| && segments[i].Chip? && |segments[i].source| == 0;
      var c := EmptyChipBreaksRoundTrip(segments, i);
      assert Collapsed(segments, Expanded(segments, c)) != c;
    } else {
      forall c: nat | c <= CollapsedLength(segments) ensures Collapsed(segments, Expanded(segments, c)) == c {
        CollapseUndoesExpand(segments, c);
      }
    }
  }

  lemma {:induction false} EmptyChipBreaksRoundTrip(segments: seq<Segment>, i: nat) returns (c: nat)
    requires i < |segments| && segments[i].Chip? && |segments[i].source| == 0
    ensures 0 < c <= CollapsedLength(segments) && Collapsed(segments, Expanded(segments, c)) < c
  {
    var s, rest := segments[0], segments[1..];
    if s.Chip? && |s.source| == 0 {
      c := 1;
    } else {
      var d := EmptyChipBreaksRoundTrip(rest, i - 1);
      c := d + Width(s);
      AtZero(rest);
      assert Expanded(segments, c) == |SourceOf(s)| + Expanded(rest, d);
    }
  }

  lemma {:induction false} CollapsedInBounds(segments: seq<Segment>, e: nat)
    ensures Collapsed(segments, e) <= CollapsedLength(segments)
  {
    if |segments| > 0 && e > |SourceOf(segments[0])| {
      CollapsedInBounds(segments[1..], e - |SourceOf(segments[0])|);
    }
  }

  lemma MapsAreMonotone(segments: seq<Segment>, c: nat, d: nat)
    requires NoneIsEmpty(segments) && c <= d
    ensures d <= CollapsedLength(segments) ==> Expanded(segments, c) <= Expanded(segments, d)
    ensures d <= SourceLength(segments) ==> Collapsed(segments, c) <= Collapsed(segments, d)
  {
    if d <= CollapsedLength(segments) {
      ExpandedInBounds(segments, c);
      CollapseUndoesExpand(segments, c);
      Galois(segments, d, Expanded(segments, c));
    }
    if d <= SourceLength(segments) {
      CollapsedInBounds(segments, d);
      Galois(segments, Collapsed(segments, d), d);
      Galois(segments, Collapsed(segments, d), c);
    }
  }

  lemma {:induction false} ExpandedIsOutsideChips(segments: seq<Segment>, c: nat)
    requires NoneIsEmpty(segments)
    ensures !InsideChip(segments, Expanded(segments, c))
  {
    if |segments| > 0 {
      var s, rest := segments[0], segments[1..];
      AtZero(rest);
      if c >= Width(s) {
        ExpandedIsOutsideChips(rest, c - Width(s));
      }
    }
  }

  lemma {:induction false} ExpandUndoesCollapseOutsideChips(segments: seq<Segment>, e: nat)
    requires NoneIsEmpty(segments) && e <= SourceLength(segments) && !InsideChip(segments, e)
    ensures Expanded(segments, Collapsed(segments, e)) == e
  {
    if |segments| > 0 {
      var s, rest := segments[0], segments[1..];
      AtZero(rest);
      if e > |SourceOf(s)| {
        ExpandUndoesCollapseOutsideChips(rest, e - |SourceOf(s)|);
        Galois(rest, 0, e - |SourceOf(s)|);
      }
    }
  }

  /** There and back, a source position moves to the least position at or after it that no chip covers. */
  lemma ExpandOfCollapseIsNextOutside(segments: seq<Segment>, e: nat, x: nat)
    requires NoneIsEmpty(segments) && e <= SourceLength(segments)
    ensures var next := Expanded(segments, Collapsed(segments, e));
      e <= next <= SourceLength(segments) && !InsideChip(segments, next)
      && (e <= x < next ==> InsideChip(segments, x))
  {
    var c := Collapsed(segments, e);
    CollapsedInBounds(segments, e);
    ExpandedInBounds(segments, c);
    Galois(segments, c, e);
    ExpandedIsOutsideChips(segments, c);
    if e <= x < Expanded(segments, c) && !InsideChip(segments, x) {
      ExpandUndoesCollapseOutsideChips(segments, x);
      CollapsedInBounds(segments, x);
      MapsAreMonotone(segments, e, x);
      MapsAreMonotone(segments, c, Collapsed(segments, x));
    }
  }

  lemma {:induction false} ConcatFromTheFront(segments: seq<Segment>)
    requires |segments| > 0
    ensures Concat(segments) == SourceOf(segments[0]) + Concat(segments[1..])
  {
    var n := |segments| - 1;
    if n > 0 {
      ConcatFromTheFront(segments[..n]);
      assert segments[..n][1..] == segments[1..][..n - 1];
    } else {
      assert segments[..0] == [] && segments[1..] == [];
    }
  }

  lemma {:induction false} SourceLengthIsLength(segments: seq<Segment>)
    ensures SourceLength(segments) == |Concat(segments)|
  {
    if |segments| > 0 {
      ConcatFromTheFront(segments);
      SourceLengthIsLength(segments[1..]);
    }
  }

  predicate Covers(segments: seq<Segment>, k: nat, e: nat) {
    k < |segments| && segments[k].Chip? && SourceLength(segments[..k]) < e < SourceLength(segments[..k + 1])
  }

  lemma CoversFromTheFront(segments: seq<Segment>, k: nat, e: nat)
    requires 0 < k < |segments|
    ensures Covers(segments, k, e)
            <==> e >= |SourceOf(segments[0])| && Covers(segments[1..], k - 1, e - |SourceOf(segments[0])|)
  {
    assert segments[..k][1..] == segments[1..][..k - 1];
    assert segments[..k + 1][1..] == segments[1..][..k];
  }

  /** Being inside a chip means lying strictly between its two ends in the prompt. */
  lemma {:induction false} InsideChipIsBetweenItsEnds(segments: seq<Segment>, e: nat)
    ensures InsideChip(segments, e) <==> exists k: nat :: Covers(segments, k, e)
  {
    if |segments| > 0 {
      var length, rest := |SourceOf(segments[0])|, segments[1..];
      assert SourceLength(segments[..1]) == length by {
        assert segments[..1] == [segments[0]] && [segments[0]][1..] == [];
      }
      assert Covers(segments, 0, e) <==> segments[0].Chip? && 0 < e < length;
      if e >= length {
        InsideChipIsBetweenItsEnds(rest, e - length);
        if InsideChip(segments, e) {
          var k: nat :| Covers(rest, k, e - length);
          CoversFromTheFront(segments, k + 1, e);
          assert Covers(segments, k + 1, e);
        }
      }
      forall k: nat | Covers(segments, k, e) ensures InsideChip(segments, e) {
        if k > 0 {
          CoversFromTheFront(segments, k, e);
        }
      }
    }
  }

  /** The laws, for the prompt itself: any text, any tokens. */
  lemma PromptCursorLaws(text: string, tokens: seq<Token>, c: nat, e: nat)
    requires AreTokens(text, tokens)
    requires c <= CollapsedLength(SegmentsOf(text, tokens)) && e <= |text|
    ensures var segments := SegmentsOf(text, tokens);
      Collapsed(segments, Expanded(segments, c)) == c && Expanded(segments, c) <= |text|
      && (Collapsed(segments, e) <= c <==> e <= Expanded(segments, c))
  {
    var segments := SegmentsOf(text, tokens);
    SegmentsConcatenateToThePrompt(text, tokens);
    SourceLengthIsLength(segments);
    ExpandedInBounds(segments, c);
    CollapseUndoesExpand(segments, c);
    Galois(segments, c, e);
  }

  lemma {:induction false} CollapsedIsNotLonger(segments: seq<Segment>)
    requires NoneIsEmpty(segments)
    ensures CollapsedLength(segments) <= SourceLength(segments)
  {
    if |segments| > 0 {
      CollapsedIsNotLonger(segments[1..]);
    }
  }

  /** Clamping a cursor to the collapsed view first never changes where it expands to. */
  lemma ClampingDoesNotMoveTheExpansion(text: string, tokens: seq<Token>, cursor: Cursor)
    requires AreTokens(text, tokens)
    ensures var segments := SegmentsOf(text, tokens);
      Expanded(segments, Clamped(CollapsedLength(segments), cursor)) == Expanded(segments, Clamped(|text|, cursor))
  {
    var segments := SegmentsOf(text, tokens);
    SegmentsConcatenateToThePrompt(text, tokens);
    SourceLengthIsLength(segments);
    CollapsedIsNotLonger(segments);
    ExpandedInBounds(segments, CollapsedLength(segments));
    ExpandedInBounds(segments, Clamped(|text|, cursor));
  }
}

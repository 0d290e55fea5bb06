/** What may stand beside a delimiter, and what a delimiter does to the text around it
    (apps/web/src/composer-rich-text.ts). */
module InlineMarkdownFlanks {
  import opened Options
  import opened InlineMarkdown
  import opened InlineMarkdownRendering

  // ---- Text in which nothing is styled

  predicate IsUnstyled(f: Forest) {
    f.Empty? || (f.Plain? && IsUnstyled(f.before))
  }

  predicate NothingStyled(p: Progress) {
    IsUnstyled(p.root) && forall k | 0 <= k < |p.frames| :: IsUnstyled(p.frames[k].kids)
  }

  lemma {:induction false} UnstyledUnits(f: Forest)
    requires IsUnstyled(f)
    ensures UnitsOf(f) == Marked(|Source(f)|, [])
  {
    if f.Plain? {
      UnstyledUnits(f.before);
      assert NodeUnits(f) == Marked(|f.text|, []);
    }
  }

  lemma {:induction false} AppendIsUnstyled(f: Forest, g: Forest)
    requires IsUnstyled(f) && IsUnstyled(g)
    ensures IsUnstyled(Append(f, g))
  {
    if g.Plain? { AppendIsUnstyled(f, g.before); }
  }

  lemma AddingStylesNothing(p: Progress, text: string)
    requires NothingStyled(p)
    ensures NothingStyled(AddPlain(p, text))
  {
  }

  lemma OpeningStylesNothing(p: Progress, d: string, mark: Mark)
    requires NothingStyled(p)
    ensures NothingStyled(OpenFrame(p, d, mark))
  {
  }

  lemma {:induction false} AddEachStylesNothing(p: Progress, text: string)
    requires NothingStyled(p)
    ensures NothingStyled(AddEach(p, text)) && |AddEach(p, text).frames| == |p.frames|
    ensures forall k | 0 <= k < |p.frames| ::
      AddEach(p, text).frames[k].mark == p.frames[k].mark && AddEach(p, text).frames[k].delimiter == p.frames[k].delimiter
    decreases |text|
  {
    if text != [] { AddEachStylesNothing(AddPlain(p, text[..1]), text[1..]); }
  }

  lemma {:induction false} FinishStylesNothing(p: Progress)
    requires NothingStyled(p)
    ensures UnitsOf(Finish(p)) == Marked(|Read(p)|, [])
    decreases |p.frames|
  {
    if p.frames == [] {
      UnstyledUnits(p.root);
    } else {
      var top := p.frames[|p.frames| - 1];
      var rest := p.(frames := p.frames[..|p.frames| - 1]);
      AppendIsUnstyled(Plain(Innermost(rest), top.delimiter), top.kids);
      RestoreReads(p);
      FinishStylesNothing(Restore(p));
    }
  }

  /** A text whose rest is read without styling anything is plain as a whole. */
  lemma PlainAsAWhole(text: string, i: nat, p: Progress, cs: Classes)
    requires i <= |text| && Rest(text, i, p, cs) == Finish(p) && Read(p) == text && NothingStyled(p)
    ensures UnitsOf(Rest(text, i, p, cs)) == Marked(|text|, [])
  {
    FinishStylesNothing(p);
  }

  // ---- Underscores inside words

  predicate IsRun(text: string, c: char, a: nat, b: nat) {
    a < b <= |text| && (forall k | a <= k < b :: text[k] == c) && (a > 0 ==> text[a - 1] != c) && (b < |text| ==> text[b] != c)
  }

  /** Every run of underscores has a word character on both sides. */
  ghost predicate UnderscoresAreInWords(text: string, cs: Classes) {
    forall a: nat, b: nat {:trigger IsRun(text, '_', a, b)} | IsRun(text, '_', a, b) ::
      a > 0 && b < |text| && cs.word(text[a - 1]) && cs.word(text[b])
  }

  lemma UnderscoresOfAWordStay(text: string, i: nat, p: Progress, cs: Classes)
    requires i < |text| && text[i] == '_' && (i > 0 ==> text[i - 1] != '_') && UnderscoresAreInWords(text, cs)
    ensures var end := RunEnd(text, i, '_');
      i < end && Rest(text, i, p, cs) == Rest(text, end, AddPlain(p, text[i..end]), cs) && (end < |text| ==> text[end] != '_')
  {
    var r := RunAt(text, i, cs);
    assert IsRun(text, '_', i, r.end);
    var q := AddPlain(p, text[i..r.end]);
    assert RunStep(text, r, i, p) == (r.end, q);
    assert InRun(text, r, r.end, q) == q && InRun(text, r, i, p) == q;
  }

  lemma CharacterStays(text: string, i: nat, p: Progress, cs: Classes)
    requires i < |text| && Ordinary(text[i])
    ensures Rest(text, i, p, cs) == Rest(text, i + 1, AddPlain(p, text[i..i + 1]), cs)
  {
  }

  lemma AddedIsRead(text: string, i: nat, j: nat, p: Progress)
    requires i <= j <= |text| && Read(p) == text[..i]
    ensures Read(AddPlain(p, text[i..j])) == text[..j]
    ensures AddPlain(p, text[i..j]).frames == [] <==> p.frames == []
  {
    ReadExtends(p, Plain(Innermost(p), text[i..j]), text[i..j]);
    assert text[..i] + text[i..j] == text[..j];
    hide Read;
  }

  lemma {:induction false} UnderscoresAreAdded(text: string, i: nat, p: Progress, cs: Classes)
    requires i <= |text| && Read(p) == text[..i] && NothingStyled(p) && p.frames == []
    requires (forall c <- text :: Ordinary(c) || c == '_') && UnderscoresAreInWords(text, cs)
    requires 0 < i < |text| && text[i] == '_' ==> text[i - 1] != '_'
    ensures UnitsOf(Rest(text, i, p, cs)) == Marked(|text|, [])
    decreases |text| - i
  {
    hide Read, NothingStyled, UnderscoresAreInWords, AddPlain, Ordinary;
    if i == |text| {
      FinishStylesNothing(p);
    } else if text[i] == '_' {
      var end := RunEnd(text, i, '_');
      hide Rest, UnitsOf;
      UnderscoresOfAWordStay(text, i, p, cs);
      AddedIsRead(text, i, end, p);
      AddingStylesNothing(p, text[i..end]);
      UnderscoresAreAdded(text, end, AddPlain(p, text[i..end]), cs);
    } else {
      assert text[i] in text;
      hide Rest, UnitsOf;
      CharacterStays(text, i, p, cs);
      AddedIsRead(text, i, i + 1, p);
      AddingStylesNothing(p, text[i..i + 1]);
      OrdinaryIsNoUnderscore(text[i]);
      UnderscoresAreAdded(text, i + 1, AddPlain(p, text[i..i + 1]), cs);
    }
  }

  lemma OrdinaryIsNoUnderscore(c: char)
    requires Ordinary(c)
    ensures c != '_'
  {
  }

  /** Names with underscores inside stay as they are. */
  lemma UnderscoresInWordsStay(text: string, cs: Classes)
    requires (forall c <- text :: Ordinary(c) || c == '_') && UnderscoresAreInWords(text, cs)
    ensures UnitsOf(Parsed(text, cs)) == Marked(|text|, [])
  {
    UnderscoresAreAdded(text, 0, Start, cs);
  }

  // ---- Every dropped delimiter stands where it may open or close

  /** n characters at o are part of a run from a to b; before the run stands another character, or it is behind an escape. */
  predicate IsInRun(text: string, o: nat, n: nat, a: nat, b: nat) {
    && n > 0 && a <= o && o + n <= b <= |text| && (forall k | a <= k < b :: text[k] == text[o])
    && (b < |text| ==> text[b] != text[o])
    && (a > 0 && text[a - 1] == text[o] ==> a >= 2 && text[a - 2] == '\\')
  }

  /** The run may open: what follows is not a space, and an underscore is not behind a word character. */
  ghost predicate MayOpen(text: string, o: nat, n: nat, cs: Classes) {
    exists a: nat, b: nat {:trigger IsInRun(text, o, n, a, b)} :: IsInRun(text, o, n, a, b)
      && b < |text| && !cs.space(text[b]) && (text[o] == '_' && a > 0 ==> !cs.word(text[a - 1]))
  }

  /** The run may close: what precedes is not a space, and an underscore is not before a word character. */
  ghost predicate MayClose(text: string, o: nat, n: nat, cs: Classes) {
    exists a: nat, b: nat {:trigger IsInRun(text, o, n, a, b)} :: IsInRun(text, o, n, a, b)
      && a > 0 && !cs.space(text[a - 1]) && (text[o] == '_' && b < |text| ==> !cs.word(text[b]))
  }

  /** All delimiters of a forest that is read from position o on stand where they may. */
  ghost predicate IsFlanked(f: Forest, o: nat, text: string, cs: Classes) {
    match f
    case Empty => true
    case Plain(before, _) => IsFlanked(before, o, text, cs)
    case Code(before, _) => IsFlanked(before, o, text, cs)
    case Styled(before, _, d, kids) =>
      var start := o + |Source(before)|;
      && IsFlanked(before, o, text, cs) && IsFlanked(kids, start + |d|, text, cs)
      && MayOpen(text, start, |d|, cs) && MayClose(text, start + |d| + |Source(kids)|, |d|, cs)
  }

  function FrameStart(p: Progress, k: nat): nat
    requires k <= |p.frames|
  {
    |Source(p.root)| + |FramesSource(p.frames[..k])|
  }

  ghost predicate FrameIsFlanked(p: Progress, k: nat, text: string, cs: Classes)
    requires k < |p.frames|
  {
    var frame, start := p.frames[k], FrameStart(p, k);
    MayOpen(text, start, |frame.delimiter|, cs) && IsFlanked(frame.kids, start + |frame.delimiter|, text, cs)
  }

  ghost predicate ProgressIsFlanked(p: Progress, text: string, cs: Classes) {
    IsFlanked(p.root, 0, text, cs) && forall k | 0 <= k < |p.frames| :: FrameIsFlanked(p, k, text, cs)
  }

  lemma {:induction false} AppendIsFlanked(f: Forest, g: Forest, o: nat, text: string, cs: Classes)
    requires IsFlanked(f, o, text, cs) && IsFlanked(g, o + |Source(f)|, text, cs)
    ensures IsFlanked(Append(f, g), o, text, cs)
  {
    hide MayOpen, MayClose, Source;
    SourceOfBefore(g);
    if !g.Empty? {
      AppendIsFlanked(f, g.before, o, text, cs);
      AppendSource(f, g.before);
      var h := Append(f, g);
      assert h.before == Append(f, g.before);
      if g.Styled? {
        assert o + |Source(h.before)| == o + |Source(f)| + |Source(g.before)|;
      }
    }
  }

  lemma SourceOfBefore(f: Forest)
    ensures Source(Empty) == ""
    ensures !f.Empty? ==> Source(f) == Source(f.before) + NodeSource(f)
  {
  }

  /** Where the innermost forest begins. */
  function InnermostStart(p: Progress): nat {
    if p.frames == [] then 0 else FrameStart(p, |p.frames| - 1) + |p.frames[|p.frames| - 1].delimiter|
  }

  lemma InnermostIsFlanked(p: Progress, text: string, cs: Classes)
    requires ProgressIsFlanked(p, text, cs)
    ensures IsFlanked(Innermost(p), InnermostStart(p), text, cs)
    ensures InnermostStart(p) + |Source(Innermost(p))| == |Read(p)|
  {
    if p.frames != [] {
      assert FrameIsFlanked(p, |p.frames| - 1, text, cs);
    }
  }

  lemma WithInnermostIsFlanked(p: Progress, f: Forest, text: string, cs: Classes)
    requires ProgressIsFlanked(p, text, cs) && IsFlanked(f, InnermostStart(p), text, cs)
    ensures ProgressIsFlanked(WithInnermost(p, f), text, cs)
  {
    hide IsFlanked, MayOpen, Source, FramesSource;
    var q := WithInnermost(p, f);
    forall k | 0 <= k < |q.frames| ensures FrameIsFlanked(q, k, text, cs) {
      assert q.frames[..k] == p.frames[..k];
      assert FrameIsFlanked(p, k, text, cs);
    }
  }

  lemma DroppingTopIsFlanked(p: Progress, text: string, cs: Classes)
    requires ProgressIsFlanked(p, text, cs) && p.frames != []
    ensures var rest := p.(frames := p.frames[..|p.frames| - 1]);
      ProgressIsFlanked(rest, text, cs) && FrameStart(p, |p.frames| - 1) == |Read(rest)|
  {
    hide IsFlanked, MayOpen, Source, FramesSource;
    var rest := p.(frames := p.frames[..|p.frames| - 1]);
    forall k | 0 <= k < |rest.frames| ensures FrameIsFlanked(rest, k, text, cs) {
      assert rest.frames[..k] == p.frames[..k];
      assert FrameIsFlanked(p, k, text, cs);
    }
  }

  lemma AddingIsFlanked(p: Progress, added: string, text: string, cs: Classes)
    requires ProgressIsFlanked(p, text, cs)
    ensures ProgressIsFlanked(AddPlain(p, added), text, cs) && ProgressIsFlanked(AddCode(p, added), text, cs)
  {
    InnermostIsFlanked(p, text, cs);
    WithInnermostIsFlanked(p, Plain(Innermost(p), added), text, cs);
    WithInnermostIsFlanked(p, Code(Innermost(p), added), text, cs);
  }

  lemma OpeningIsFlanked(p: Progress, d: string, mark: Mark, text: string, cs: Classes)
    requires ProgressIsFlanked(p, text, cs) && MayOpen(text, |Read(p)|, |d|, cs)
    ensures ProgressIsFlanked(OpenFrame(p, d, mark), text, cs)
  {
    var q := OpenFrame(p, d, mark);
    forall k | 0 <= k < |q.frames| ensures FrameIsFlanked(q, k, text, cs) {
      if k < |p.frames| {
        assert q.frames[..k] == p.frames[..k];
        assert FrameIsFlanked(p, k, text, cs);
      } else {
        assert q.frames[..k] == p.frames;
      }
    }
  }

  lemma ClosingIsFlanked(p: Progress, text: string, cs: Classes)
    requires ProgressIsFlanked(p, text, cs) && p.frames != []
    requires MayClose(text, |Read(p)|, |p.frames[|p.frames| - 1].delimiter|, cs)
    ensures ProgressIsFlanked(CloseFrame(p), text, cs)
  {
    hide MayOpen, MayClose, Source, FramesSource;
    var top := p.frames[|p.frames| - 1];
    var rest := p.(frames := p.frames[..|p.frames| - 1]);
    DroppingTopIsFlanked(p, text, cs);
    InnermostIsFlanked(rest, text, cs);
    InnermostIsFlanked(p, text, cs);
    assert FrameIsFlanked(p, |p.frames| - 1, text, cs);
    assert InnermostStart(p) == |Read(rest)| + |top.delimiter| && |Read(p)| == InnermostStart(p) + |Source(top.kids)|;
    hide ProgressIsFlanked, Read, FrameStart;
    WithInnermostIsFlanked(rest, Styled(Innermost(rest), top.mark, top.delimiter, top.kids), text, cs);
  }

  lemma RestoringIsFlanked(p: Progress, text: string, cs: Classes)
    requires ProgressIsFlanked(p, text, cs) && p.frames != []
    ensures ProgressIsFlanked(Restore(p), text, cs)
  {
    var top := p.frames[|p.frames| - 1];
    var rest := p.(frames := p.frames[..|p.frames| - 1]);
    DroppingTopIsFlanked(p, text, cs);
    InnermostIsFlanked(rest, text, cs);
    assert FrameIsFlanked(p, |p.frames| - 1, text, cs);
    AppendIsFlanked(Plain(Innermost(rest), top.delimiter), top.kids, InnermostStart(rest), text, cs);
    WithInnermostIsFlanked(rest, Append(Plain(Innermost(rest), top.delimiter), top.kids), text, cs);
  }

  lemma {:induction false} FinishIsFlanked(p: Progress, text: string, cs: Classes)
    requires ProgressIsFlanked(p, text, cs)
    ensures IsFlanked(Finish(p), 0, text, cs)
    decreases |p.frames|
  {
    if p.frames != [] {
      RestoringIsFlanked(p, text, cs);
      FinishIsFlanked(Restore(p), text, cs);
    }
  }

  /** A scan does not stop inside a run, except behind an escape. */
  predicate IsBoundary(text: string, i: nat) {
    0 < i < |text| && IsDelimiter(text[i]) && text[i] == text[i - 1] ==> i >= 2 && text[i - 2] == '\\'
  }

  lemma RunStepIsFlanked(text: string, start: nat, i: nat, p: Progress, cs: Classes)
    requires start < |text| && IsDelimiter(text[start]) && IsBoundary(text, start) && start <= i < RunAt(text, start, cs).end
    requires ProgressIsFlanked(p, text, cs) && |Read(p)| == i
    ensures ProgressIsFlanked(RunStep(text, RunAt(text, start, cs), i, p).1, text, cs)
  {
    var r := RunAt(text, start, cs);
    AddingIsFlanked(p, text[i..r.end], text, cs);
    if Closes(text, r, i, p) {
      var n := |p.frames[|p.frames| - 1].delimiter|;
      assert IsInRun(text, i, n, start, r.end);
      ClosingIsFlanked(p, text, cs);
    } else if r.canOpen && (r.symbol != '~' || r.end - i >= 2) {
      var n := if r.symbol == '~' || r.end - i >= 2 then 2 else 1;
      var mark := if r.symbol == '~' then Strike else if n == 2 then Bold else Italic;
      assert IsInRun(text, i, n, start, r.end);
      OpeningIsFlanked(p, Repeat(r.symbol, n), mark, text, cs);
    }
  }

  lemma {:induction false} InRunIsFlanked(text: string, start: nat, i: nat, p: Progress, cs: Classes)
    requires start < |text| && IsDelimiter(text[start]) && IsBoundary(text, start) && start <= i <= RunAt(text, start, cs).end
    requires ProgressIsFlanked(p, text, cs) && Read(p) == text[..i]
    ensures ProgressIsFlanked(InRun(text, RunAt(text, start, cs), i, p), text, cs)
    decreases |text| - i
  {
    hide ProgressIsFlanked, Read;
    var r := RunAt(text, start, cs);
    if i < r.end {
      var (j, q) := RunStep(text, r, i, p);
      RunStepIsFlanked(text, start, i, p, cs);
      RunStepReads(text, r, i, p);
      assert text[..i] + text[i..j] == text[..j];
      InRunIsFlanked(text, start, j, q, cs);
    }
  }

  lemma {:induction false} RestIsFlanked(text: string, i: nat, p: Progress, cs: Classes)
    requires i <= |text| && IsBoundary(text, i) && ProgressIsFlanked(p, text, cs) && Read(p) == text[..i]
    ensures IsFlanked(Rest(text, i, p, cs), 0, text, cs)
    decreases |text| - i
  {
    hide ProgressIsFlanked, IsFlanked, Read;
    if i == |text| {
      FinishIsFlanked(p, text, cs);
    } else if IsDelimiter(text[i]) {
      var r := RunAt(text, i, cs);
      InRunIsFlanked(text, i, i, p, cs);
      InRunReads(text, r, i, p);
      assert text[..i] + text[i..r.end] == text[..r.end];
      RestIsFlanked(text, r.end, InRun(text, r, i, p), cs);
    } else {
      var (j, q) := PlainStep(text, i, p);
      PlainStepReads(text, i, p);
      assert text[..i] + text[i..j] == text[..j];
      AddingIsFlanked(p, text[i..j], text, cs);
      if text[i] == '`' && CodeClose(text, i).Some? {
        AddingIsFlanked(p, text[i + 1..CodeClose(text, i).value], text, cs);
      }
      RestIsFlanked(text, j, q, cs);
    }
  }

  ghost predicate StandsWhereItMay(text: string, k: nat, cs: Classes) {
    exists o: nat, n: nat :: o <= k < o + n && (MayOpen(text, o, n, cs) || MayClose(text, o, n, cs))
  }

  lemma ItStands(text: string, o: nat, n: nat, k: nat, cs: Classes)
    requires o <= k < o + n && (MayOpen(text, o, n, cs) || MayClose(text, o, n, cs))
    ensures StandsWhereItMay(text, k, cs)
  {
  }

  /** The text from o on begins with the source of a forest. */
  predicate IsThere(f: Forest, o: nat, text: string) {
    |UnitsOf(f)| == |Source(f)| && o + |Source(f)| <= |text| && text[o..o + |Source(f)|] == Source(f)
  }

  lemma SliceOfSlice(text: string, at: nat, x: string, i: nat, j: nat)
    requires i <= j <= |x| && at + |x| <= |text| && text[at..at + |x|] == x
    ensures text[at + i..at + j] == x[i..j]
  {
    forall k | 0 <= k < j - i ensures text[at + i..at + j][k] == x[i..j][k] {
      assert text[at..at + |x|][i + k] == x[i + k];
    }
    assert |text[at + i..at + j]| == |x[i..j]|;
  }

  lemma UnitsInParts(f: Forest)
    requires !f.Empty?
    ensures UnitsOf(f) == UnitsOf(f.before) + NodeUnits(f) && Source(f) == Source(f.before) + NodeSource(f)
    ensures |UnitsOf(f.before)| == |Source(f.before)| && |NodeUnits(f)| == |NodeSource(f)|
  {
    OneUnitPerCharacter(f.before);
    OneUnitPerCharacter(f);
  }

  lemma InTwo<T>(xs: seq<T>, a: seq<T>, b: seq<T>)
    requires xs == a + b
    ensures |xs| == |a| + |b| && xs[..|a|] == a && xs[|a|..] == b
  {
  }

  lemma BeforeIsThere(f: Forest, o: nat, text: string)
    requires !f.Empty? && IsThere(f, o, text)
    ensures var n := |Source(f.before)|;
      IsThere(f.before, o, text) && |UnitsOf(f)| == n + |NodeUnits(f)| && |NodeUnits(f)| == |NodeSource(f)|
      && |Source(f)| == n + |NodeSource(f)| && text[o + n..o + n + |NodeSource(f)|] == NodeSource(f)
      && UnitsOf(f)[..n] == UnitsOf(f.before) && UnitsOf(f)[n..] == NodeUnits(f)
  {
    hide Source, UnitsOf, NodeUnits, NodeSource;
    var n := |Source(f.before)|;
    UnitsInParts(f);
    InTwo(UnitsOf(f), UnitsOf(f.before), NodeUnits(f));
    InTwo(Source(f), Source(f.before), NodeSource(f));
    SliceOfSlice(text, o, Source(f), 0, n);
    SliceOfSlice(text, o, Source(f), n, |Source(f)|);
    assert Source(f)[n..|Source(f)|] == Source(f)[n..];
  }

  lemma StyledSource(f: Forest)
    requires f.Styled?
    ensures var d, m := |f.delimiter|, |Source(f.kids)|;
      |NodeSource(f)| == d + m + d && NodeSource(f)[d..d + m] == Source(f.kids)
  {
  }

  lemma KidsAreThere(f: Forest, at: nat, text: string)
    requires f.Styled? && at + |NodeSource(f)| <= |text| && text[at..at + |NodeSource(f)|] == NodeSource(f)
    ensures IsThere(f.kids, at + |f.delimiter|, text)
    ensures var d, m := |f.delimiter|, |Source(f.kids)|;
      |NodeUnits(f)| == d + m + d && forall k: nat | k < d + m + d ::
        NodeUnits(f)[k].None? ==> k < d || k >= d + m || UnitsOf(f.kids)[k - d].None?
  {
    OneUnitPerCharacter(f.kids);
    StyledSource(f);
    var d, m := |f.delimiter|, |Source(f.kids)|;
    SliceOfSlice(text, at, NodeSource(f), d, d + m);
    hide UnitsOf, Source, NodeSource;
  }

  lemma OnlyTicksAreDropped(f: Forest, j: nat)
    requires (f.Plain? || f.Code?) && |NodeUnits(f)| == |NodeSource(f)| && j < |NodeUnits(f)| && NodeUnits(f)[j].None?
    ensures NodeSource(f)[j] == '`'
  {
  }

  lemma {:induction false} DroppedUnitStands(f: Forest, o: nat, text: string, cs: Classes, k: nat)
    requires IsFlanked(f, o, text, cs) && IsThere(f, o, text) && k < |UnitsOf(f)| && UnitsOf(f)[k].None?
    ensures o + k < |text| && (text[o + k] == '`' || StandsWhereItMay(text, o + k, cs))
    decreases f
  {
    hide MayOpen, MayClose, StandsWhereItMay, NodeUnits, NodeSource, UnitsOf, Source;
    if !f.Empty? {
      BeforeIsThere(f, o, text);
      var n := |Source(f.before)|;
      if k < n {
        assert UnitsOf(f)[..n][k] == UnitsOf(f)[k];
        DroppedUnitStands(f.before, o, text, cs, k);
      } else {
        assert UnitsOf(f)[n..][k - n] == UnitsOf(f)[k];
        if f.Styled? {
          StyledUnitStands(f, o + n, text, cs, k - n);
        } else {
          OnlyTicksAreDropped(f, k - n);
          assert text[o + k] == text[o + n..o + n + |NodeSource(f)|][k - n];
        }
      }
    } else {
      NothingHasNoUnits();
    }
  }

  lemma {:induction false} StyledUnitStands(f: Forest, at: nat, text: string, cs: Classes, j: nat)
    requires f.Styled? && j < |NodeUnits(f)| && NodeUnits(f)[j].None?
    requires at + |NodeSource(f)| <= |text| && text[at..at + |NodeSource(f)|] == NodeSource(f)
    requires IsFlanked(f.kids, at + |f.delimiter|, text, cs) && MayOpen(text, at, |f.delimiter|, cs)
    requires MayClose(text, at + |f.delimiter| + |Source(f.kids)|, |f.delimiter|, cs)
    ensures at + j < |text| && (text[at + j] == '`' || StandsWhereItMay(text, at + j, cs))
    decreases f, 0
  {
    hide MayOpen, MayClose, StandsWhereItMay;
    KidsAreThere(f, at, text);
    var d, m := |f.delimiter|, |Source(f.kids)|;
    assert |NodeSource(f)| == d + m + d;
    hide NodeUnits, NodeSource, UnitsOf, Source;
    if j < d {
      ItStands(text, at, d, at + j, cs);
    } else if j < d + m {
      DroppedUnitStands(f.kids, at + d, text, cs, j - d);
    } else {
      ItStands(text, at + d + m, d, at + j, cs);
    }
  }

  /** A delimiter that is dropped stands in a run that may open or may close there. */
  lemma DroppedDelimitersMayOpenOrClose(text: string, cs: Classes, k: nat)
    requires k < |UnitsOf(Parsed(text, cs))| && UnitsOf(Parsed(text, cs))[k].None?
    ensures k < |text| && (text[k] == '`' || StandsWhereItMay(text, k, cs))
  {
    ParsingKeepsTheSource(text, cs);
    RestIsFlanked(text, 0, Start, cs);
    assert text[0..|text|] == text;
    OneUnitPerCharacter(Parsed(text, cs));
    DroppedUnitStands(Parsed(text, cs), 0, text, cs, k);
  }

  // ---- What is behind a backslash is kept

  /** Where the construct ends that begins at a position. */
  function ConstructEnd(text: string, i: nat): (end: nat)
    requires i < |text|
    ensures i < end <= |text|
  {
    if IsDelimiter(text[i]) then RunEnd(text, i, text[i])
    else if text[i] == '\\' then (if i + 2 <= |text| then i + 2 else |text|)
    else if text[i] == '`' then
      var close := CodeClose(text, i);
      if close.Some? then close.value + 1 else RunEnd(text, i + 1, '`')
    else i + 1
  }

  /** Going from construct to construct, reading comes to i: i is not inside a code span, nor behind another backslash. */
  predicate IsReached(text: string, from: nat, i: nat)
    decreases |text| - from
  {
    from == i || (from < |text| && from < i && IsReached(text, ConstructEnd(text, from), i))
  }

  /** The units of what has been read, with open delimiters counted as dropped. */
  function FramesUnits(frames: seq<Frame>): Units {
    if frames == [] then []
    else
      var top := frames[|frames| - 1];
      FramesUnits(frames[..|frames| - 1]) + (Dropped(|top.delimiter|) + UnitsOf(top.kids))
  }

  function ReadUnits(p: Progress): Units {
    UnitsOf(p.root) + FramesUnits(p.frames)
  }

  predicate Keeps(us: Units, vs: Units) {
    |us| <= |vs| && forall k | 0 <= k < |us| :: us[k].Some? ==> vs[k].Some?
  }

  lemma TopUnits(p: Progress)
    requires p.frames != []
    ensures var rest, top := p.(frames := p.frames[..|p.frames| - 1]), p.frames[|p.frames| - 1];
      ReadUnits(p) == ReadUnits(rest) + (Dropped(|top.delimiter|) + UnitsOf(top.kids))
  {
  }

  lemma InThreeParts<T>(a: seq<T>, d: seq<T>, k: seq<T>, us: seq<T>)
    ensures a + (d + (k + us)) == a + (d + k) + us
  {
  }

  lemma UnitsExtend(p: Progress, f: Forest, us: Units)
    requires UnitsOf(f) == UnitsOf(Innermost(p)) + us
    ensures ReadUnits(WithInnermost(p, f)) == ReadUnits(p) + us
  {
    if p.frames != [] {
      var q, top := WithInnermost(p, f), p.frames[|p.frames| - 1];
      assert q.frames[..|q.frames| - 1] == p.frames[..|p.frames| - 1];
      hide ReadUnits, UnitsOf, Dropped;
      TopUnits(p);
      TopUnits(q);
      InThreeParts(ReadUnits(p.(frames := p.frames[..|p.frames| - 1])), Dropped(|top.delimiter|), UnitsOf(top.kids), us);
    } else {
      assert FramesUnits([]) == [];
    }
  }

  lemma OpenUnits(p: Progress, d: string, mark: Mark)
    ensures ReadUnits(OpenFrame(p, d, mark)) == ReadUnits(p) + Dropped(|d|)
  {
    assert OpenFrame(p, d, mark).frames[..|p.frames|] == p.frames;
  }

  lemma KeepsBehind(us: Units, vs: Units, ws: Units)
    requires Keeps(vs, ws)
    ensures Keeps(us + vs, us + ws)
  {
  }

  lemma StyledKidsAreKept(n: nat, mark: Mark, kids: Units)
    ensures Keeps(Dropped(n) + kids, Dropped(n) + Under([mark], kids) + Dropped(n))
    ensures Keeps(Dropped(n) + kids, Marked(n, []) + Under([], kids))
  {
  }

  lemma ClosingKeeps(p: Progress)
    requires p.frames != []
    ensures Keeps(ReadUnits(p), ReadUnits(CloseFrame(p)))
  {
    hide UnitsOf, ReadUnits, Keeps, Dropped, Under;
    var top := p.frames[|p.frames| - 1];
    var rest := p.(frames := p.frames[..|p.frames| - 1]);
    var n, kids := |top.delimiter|, UnitsOf(top.kids);
    TopUnits(p);
    StyledUnits(Innermost(rest), top.mark, top.delimiter, top.kids);
    UnitsExtend(rest, Styled(Innermost(rest), top.mark, top.delimiter, top.kids),
                Dropped(n) + Under([top.mark], kids) + Dropped(n));
    StyledKidsAreKept(n, top.mark, kids);
    KeepsBehind(ReadUnits(rest), Dropped(n) + kids, Dropped(n) + Under([top.mark], kids) + Dropped(n));
  }

  lemma RestoringKeeps(p: Progress)
    requires p.frames != []
    ensures Keeps(ReadUnits(p), ReadUnits(Restore(p)))
  {
    hide UnitsOf, ReadUnits, Keeps, Dropped, Under, Marked;
    var top := p.frames[|p.frames| - 1];
    var rest := p.(frames := p.frames[..|p.frames| - 1]);
    var n, kids := |top.delimiter|, UnitsOf(top.kids);
    TopUnits(p);
    ReleasedUnits(Innermost(rest), top.delimiter, top.kids);
    UnitsExtend(rest, Append(Plain(Innermost(rest), top.delimiter), top.kids), Marked(n, []) + Under([], kids));
    StyledKidsAreKept(n, top.mark, kids);
    KeepsBehind(ReadUnits(rest), Dropped(n) + kids, Marked(n, []) + Under([], kids));
  }

  lemma AddingUnits(p: Progress, text: string)
    ensures ReadUnits(AddPlain(p, text)) == ReadUnits(p) + Marked(|text|, [])
    ensures Keeps(ReadUnits(p), ReadUnits(AddCode(p, text)))
  {
    assert NodeUnits(Plain(Innermost(p), text)) == Marked(|text|, []);
    UnitsExtend(p, Plain(Innermost(p), text), Marked(|text|, []));
    UnitsExtend(p, Code(Innermost(p), text), NodeUnits(Code(Innermost(p), text)));
  }

  lemma {:induction false} FinishKeeps(p: Progress)
    ensures Keeps(ReadUnits(p), UnitsOf(Finish(p)))
    decreases |p.frames|
  {
    if p.frames != [] {
      RestoringKeeps(p);
      FinishKeeps(Restore(p));
    } else {
      assert FramesUnits([]) == [];
    }
  }

  lemma RunStepKeeps(text: string, r: Run, i: nat, p: Progress)
    requires i < r.end <= |text|
    ensures Keeps(ReadUnits(p), ReadUnits(RunStep(text, r, i, p).1))
  {
    hide ReadUnits;
    AddingUnits(p, text[i..r.end]);
    if Closes(text, r, i, p) {
      ClosingKeeps(p);
    }
    OpenUnits(p, Repeat(r.symbol, 2), Strike);
    OpenUnits(p, Repeat(r.symbol, 2), Bold);
    OpenUnits(p, Repeat(r.symbol, 1), Italic);
  }

  lemma {:induction false} InRunKeeps(text: string, r: Run, i: nat, p: Progress)
    requires i <= r.end <= |text|
    ensures Keeps(ReadUnits(p), ReadUnits(InRun(text, r, i, p)))
    decreases r.end - i
  {
    hide ReadUnits;
    if i < r.end {
      RunStepKeeps(text, r, i, p);
      InRunKeeps(text, r, RunStep(text, r, i, p).0, RunStep(text, r, i, p).1);
    }
  }

  lemma PlainStepKeeps(text: string, i: nat, p: Progress)
    requires i < |text| && !IsDelimiter(text[i])
    ensures Keeps(ReadUnits(p), ReadUnits(PlainStep(text, i, p).1))
  {
    hide ReadUnits;
    AddingUnits(p, text[i..PlainStep(text, i, p).0]);
    if text[i] == '`' && CodeClose(text, i).Some? {
      AddingUnits(p, text[i + 1..CodeClose(text, i).value]);
    }
  }

  lemma {:induction false} RestKeeps(text: string, i: nat, p: Progress, cs: Classes)
    requires i <= |text|
    ensures Keeps(ReadUnits(p), UnitsOf(Rest(text, i, p, cs)))
    decreases |text| - i
  {
    hide ReadUnits;
    if i == |text| {
      FinishKeeps(p);
    } else if IsDelimiter(text[i]) {
      var r := RunAt(text, i, cs);
      InRunKeeps(text, r, i, p);
      RestKeeps(text, r.end, InRun(text, r, i, p), cs);
    } else {
      PlainStepKeeps(text, i, p);
      RestKeeps(text, PlainStep(text, i, p).0, PlainStep(text, i, p).1, cs);
    }
  }

  lemma {:induction false} ReadUnitsCount(p: Progress)
    ensures |ReadUnits(p)| == |Read(p)|
  {
    OneUnitPerCharacter(p.root);
    FramesUnitsCount(p.frames);
  }

  lemma {:induction false} FramesUnitsCount(frames: seq<Frame>)
    ensures |FramesUnits(frames)| == |FramesSource(frames)|
  {
    if frames != [] {
      FramesUnitsCount(frames[..|frames| - 1]);
      OneUnitPerCharacter(frames[|frames| - 1].kids);
    }
  }

  lemma EscapeIsKept(text: string, i: nat, p: Progress, cs: Classes)
    requires i < |text| && text[i] == '\\' && |Read(p)| == i
    ensures var units := UnitsOf(Rest(text, i, p, cs));
      |units| > i && units[i].Some? && (i + 1 < |text| ==> |units| > i + 1 && units[i + 1].Some?)
  {
    hide ReadUnits, Read;
    var (j, q) := PlainStep(text, i, p);
    AddingUnits(p, text[i..j]);
    ReadUnitsCount(p);
    RestKeeps(text, j, q, cs);
  }

  lemma {:induction false} ReachedEscapeIsKept(text: string, from: nat, p: Progress, cs: Classes, i: nat)
    requires from <= |text| && Read(p) == text[..from] && IsReached(text, from, i) && i < |text| && text[i] == '\\'
    ensures var units := UnitsOf(Rest(text, from, p, cs));
      |units| > i && units[i].Some? && (i + 1 < |text| ==> |units| > i + 1 && units[i + 1].Some?)
    decreases |text| - from
  {
    hide Read, UnitsOf;
    if from == i {
      EscapeIsKept(text, i, p, cs);
    } else if IsDelimiter(text[from]) {
      var r := RunAt(text, from, cs);
      InRunReads(text, r, from, p);
      assert text[..from] + text[from..r.end] == text[..r.end];
      ReachedEscapeIsKept(text, r.end, InRun(text, r, from, p), cs, i);
    } else {
      var (j, q) := PlainStep(text, from, p);
      PlainStepReads(text, from, p);
      assert text[..from] + text[from..j] == text[..j];
      ReachedEscapeIsKept(text, j, q, cs, i);
    }
  }

  /** A backslash that escapes, and the character behind it, are never dropped. */
  lemma EscapesAreKept(text: string, cs: Classes, i: nat)
    requires i < |text| && text[i] == '\\' && IsReached(text, 0, i)
    ensures var units := UnitsOf(Parsed(text, cs));
      |units| == |text| && units[i].Some? && (i + 1 < |text| ==> units[i + 1].Some?)
  {
    ParsingKeepsTheSource(text, cs);
    OneUnitPerCharacter(Parsed(text, cs));
    ReachedEscapeIsKept(text, 0, Start, cs, i);
  }

  // ---- What a pair of delimiters does inside a text

  lemma {:induction false} FinishIsUnstyled(p: Progress)
    requires NothingStyled(p)
    ensures IsUnstyled(Finish(p))
    decreases |p.frames|
  {
    if p.frames != [] {
      var top := p.frames[|p.frames| - 1];
      var rest := p.(frames := p.frames[..|p.frames| - 1]);
      AppendIsUnstyled(Plain(Innermost(rest), top.delimiter), top.kids);
      FinishIsUnstyled(Restore(p));
    }
  }

  lemma NothingStyledIsPlain(text: string, p: Progress, cs: Classes)
    requires Parsed(text, cs) == Finish(p) && NothingStyled(p)
    ensures UnitsOf(Parsed(text, cs)) == Marked(|text|, [])
  {
    FinishIsUnstyled(p);
    UnstyledUnits(Finish(p));
    ParsingKeepsTheSource(text, cs);
  }

  /** A delimiter at i opens: no space follows, and for underscores no word character precedes. */
  predicate Opens(text: string, i: nat, d: string, cs: Classes)
    requires d != "" && i + |d| <= |text|
  {
    i + |d| < |text| && !cs.space(text[i + |d|]) && (d[0] == '_' && i > 0 ==> !cs.word(text[i - 1]))
  }

  /** It closes: no space precedes, and for underscores no word character follows. */
  predicate ClosesAt(text: string, i: nat, d: string, cs: Classes)
    requires d != "" && i + |d| <= |text|
  {
    i > 0 && !cs.space(text[i - 1]) && (d[0] == '_' && i + |d| < |text| ==> !cs.word(text[i + |d|]))
  }

  /** Nothing is open, or just this delimiter. */
  predicate HasAtMost(p: Progress, d: string, mark: Mark) {
    p.frames == [] || (|p.frames| == 1 && p.frames[0].delimiter == d && p.frames[0].mark == mark)
  }

  function AfterDelimiter(text: string, i: nat, d: string, mark: Mark, p: Progress, cs: Classes): Progress
    requires d != "" && i + |d| <= |text|
  {
    if p.frames != [] && ClosesAt(text, i, d, cs) then CloseFrame(p)
    else if p.frames == [] && Opens(text, i, d, cs) then OpenFrame(p, d, mark)
    else AddPlain(p, d)
  }

  lemma {:induction false} RunEndIs(text: string, i: nat, c: char, end: nat)
    requires i <= end <= |text| && (forall k | i <= k < end :: text[k] == c) && (end < |text| ==> text[end] != c)
    ensures RunEnd(text, i, c) == end
    decreases end - i
  {
    if i < end { RunEndIs(text, i + 1, c, end); }
  }

  lemma DelimiterRunIs(text: string, i: nat, d: string, mark: Mark, cs: Classes)
    requires LegalDelimiter(mark, d) && i + |d| <= |text| && text[i..i + |d|] == d
    requires i + |d| < |text| ==> text[i + |d|] != d[0]
    ensures IsDelimiter(text[i])
    ensures RunAt(text, i, cs) == Run(d[0], i + |d|, Opens(text, i, d, cs), ClosesAt(text, i, d, cs))
  {
    forall k | i <= k < i + |d| ensures text[k] == d[0] {
      assert text[i..i + |d|][k - i] == text[k] && d[k - i] == d[0];
    }
    RunEndIs(text, i, d[0], i + |d|);
  }

  lemma DelimiterRun(text: string, i: nat, d: string, mark: Mark, p: Progress, cs: Classes)
    requires LegalDelimiter(mark, d) && i + |d| <= |text| && text[i..i + |d|] == d
    requires i + |d| < |text| ==> text[i + |d|] != d[0]
    requires HasAtMost(p, d, mark)
    ensures IsDelimiter(text[i]) && RunAt(text, i, cs).end == i + |d|
    ensures InRun(text, RunAt(text, i, cs), i, p) == AfterDelimiter(text, i, d, mark, p, cs)
  {
    DelimiterRunIs(text, i, d, mark, cs);
    var r := RunAt(text, i, cs);
    hide RunAt, Opens, ClosesAt;
    assert Repeat(r.symbol, 2) == [r.symbol, r.symbol] && Repeat(r.symbol, 1) == [r.symbol];
    assert Repeat(r.symbol, |d|) == d;
    var q := AfterDelimiter(text, i, d, mark, p, cs);
    if p.frames != [] { assert p.frames[0].mark == mark; }
    assert RunStep(text, r, i, p) == (r.end, q);
    assert InRun(text, r, r.end, q) == q;
  }

  lemma DelimiterStep(text: string, i: nat, d: string, mark: Mark, p: Progress, cs: Classes)
    requires LegalDelimiter(mark, d) && i + |d| <= |text| && text[i..i + |d|] == d
    requires i + |d| < |text| ==> text[i + |d|] != d[0]
    requires HasAtMost(p, d, mark)
    ensures Rest(text, i, p, cs) == Rest(text, i + |d|, AfterDelimiter(text, i, d, mark, p, cs), cs)
  {
    DelimiterRun(text, i, d, mark, p, cs);
  }

  predicate AllOrdinary(text: string) {
    forall c <- text :: Ordinary(c)
  }

  lemma OrdinaryStep(text: string, i: nat, part: string, p: Progress, cs: Classes)
    requires AllOrdinary(part) && i + |part| <= |text| && text[i..i + |part|] == part
    ensures Rest(text, i, p, cs) == Rest(text, i + |part|, AddEach(p, part), cs)
  {
    forall k | i <= k < i + |part| ensures Ordinary(text[k]) {
      assert text[k] == text[i..i + |part|][k - i] && part[k - i] in part;
    }
    OrdinaryCharactersAreAdded(text, i, i + |part|, p, cs);
  }

  function Between(before: string, d: string, text: string, after: string): string {
    before + d + text + d + after
  }

  lemma PartsInPlace(before: string, d: string, text: string, after: string)
    ensures var source := Between(before, d, text, after); var i := |before| + |d| + |text|;
      && |source| == i + |d| + |after|
      && source[0..|before|] == before && source[|before|..|before| + |d|] == d && source[|before| + |d|..i] == text
      && source[i..i + |d|] == d && source[i + |d|..i + |d| + |after|] == after
  {
  }

  function AfterBoth(before: string, d: string, mark: Mark, text: string, after: string, cs: Classes): Progress
    requires d != ""
  {
    var source := Between(before, d, text, after);
    var p := AddEach(AfterDelimiter(source, |before|, d, mark, AddEach(Start, before), cs), text);
    AddEach(AfterDelimiter(source, |before| + |d| + |text|, d, mark, p, cs), after)
  }

  lemma NoDelimiterBegins(part: string, d: string, mark: Mark)
    requires AllOrdinary(part) && part != "" && LegalDelimiter(mark, d)
    ensures part[0] != d[0]
  {
    assert part[0] in part;
  }

  lemma AddingLeavesOpen(p: Progress, text: string, d: string, mark: Mark)
    requires HasAtMost(p, d, mark) && NothingStyled(p)
    ensures HasAtMost(AddEach(p, text), d, mark) && NothingStyled(AddEach(p, text))
  {
    AddEachStylesNothing(p, text);
  }

  lemma FirstDelimiterLeavesOpen(text: string, i: nat, d: string, mark: Mark, p: Progress, cs: Classes)
    requires d != "" && i + |d| <= |text| && p.frames == [] && NothingStyled(p)
    ensures var q := AfterDelimiter(text, i, d, mark, p, cs);
      HasAtMost(q, d, mark) && NothingStyled(q) && (q.frames != [] <==> Opens(text, i, d, cs))
      && q.root == (if Opens(text, i, d, cs) then p.root else Plain(p.root, d))
      && (q.frames != [] ==> q.frames[0].kids == Empty)
  {
  }

  lemma StartHasNothing(before: string)
    ensures AddEach(Start, before).frames == [] && NothingStyled(AddEach(Start, before))
  {
    AddEachStylesNothing(Start, before);
  }

  /** The characters beside the delimiters are not of their kind. */
  predicate StandsAlone(source: string, i: nat, d: string) {
    d != "" && i + |d| <= |source| && source[i..i + |d|] == d && (i + |d| < |source| ==> source[i + |d|] != d[0])
  }

  lemma DelimitersStandAlone(before: string, d: string, mark: Mark, text: string, after: string)
    requires LegalDelimiter(mark, d) && AllOrdinary(text) && AllOrdinary(after) && text != ""
    ensures var source := Between(before, d, text, after);
      StandsAlone(source, |before|, d) && StandsAlone(source, |before| + |d| + |text|, d)
  {
    PartsInPlace(before, d, text, after);
    NoDelimiterBegins(text, d, mark);
    if after != "" { NoDelimiterBegins(after, d, mark); }
    hide AllOrdinary;
  }

  /** A delimiter and ordinary text behind it are read in two steps. */
  lemma DelimiterAndText(source: string, i: nat, d: string, mark: Mark, part: string, p: Progress, cs: Classes)
    requires LegalDelimiter(mark, d) && StandsAlone(source, i, d) && HasAtMost(p, d, mark) && AllOrdinary(part)
    requires i + |d| + |part| <= |source| && source[i + |d|..i + |d| + |part|] == part
    ensures Rest(source, i, p, cs) == Rest(source, i + |d| + |part|, AddEach(AfterDelimiter(source, i, d, mark, p, cs), part), cs)
  {
    hide Rest, AllOrdinary, AfterDelimiter, AddEach, HasAtMost, LegalDelimiter;
    DelimiterStep(source, i, d, mark, p, cs);
    OrdinaryStep(source, i + |d|, part, AfterDelimiter(source, i, d, mark, p, cs), cs);
  }

  lemma ReadingBegins(source: string, cs: Classes)
    ensures Parsed(source, cs) == Rest(source, 0, Start, cs)
  {
  }

  /** What AfterBoth takes one after the other. */
  lemma BothInTurn(before: string, d: string, mark: Mark, text: string, after: string, cs: Classes)
    requires LegalDelimiter(mark, d)
    ensures d != ""
    ensures
      var source := Between(before, d, text, after);
      var i := |before| + |d| + |text|;
      && |before| + |d| <= |source| && i + |d| <= |source|
      && AfterBoth(before, d, mark, text, after, cs)
         == AddEach(AfterDelimiter(source, i, d, mark,
                                   AddEach(AfterDelimiter(source, |before|, d, mark, AddEach(Start, before), cs), text), cs), after)
  {
  }

  lemma BetweenIsRead(before: string, d: string, mark: Mark, text: string, after: string, cs: Classes)
    requires LegalDelimiter(mark, d) && AllOrdinary(before) && AllOrdinary(text) && AllOrdinary(after) && text != ""
    ensures Parsed(Between(before, d, text, after), cs) == Finish(AfterBoth(before, d, mark, text, after, cs))
  {
    hide *;
    BothInTurn(before, d, mark, text, after, cs);
    var source := Between(before, d, text, after);
    var p0 := AddEach(Start, before);
    var p1 := AfterDelimiter(source, |before|, d, mark, p0, cs);
    PartsInPlace(before, d, text, after);
    DelimitersStandAlone(before, d, mark, text, after);
    StartHasNothing(before);
    NothingOpenIsAtMost(p0, d, mark);
    FirstDelimiterLeavesOpen(source, |before|, d, mark, p0, cs);
    AddingLeavesOpen(p1, text, d, mark);
    ReadingBegins(source, cs);
    OrdinaryStep(source, 0, before, Start, cs);
    DelimiterAndText(source, |before|, d, mark, text, p0, cs);
    DelimiterAndText(source, |before| + |d| + |text|, d, mark, after, AddEach(p1, text), cs);
    NothingIsLeft(source, AfterBoth(before, d, mark, text, after, cs), cs);
  }

  lemma NothingOpenIsAtMost(p: Progress, d: string, mark: Mark)
    requires p.frames == []
    ensures HasAtMost(p, d, mark)
  {
  }

  lemma NothingIsLeft(text: string, p: Progress, cs: Classes)
    ensures Rest(text, |text|, p, cs) == Finish(p)
  {
  }

  /** A pair of delimiters around a text styles just that text exactly when the first may open and the second may close where
      they stand; otherwise everything stays as it is written. */
  lemma PairStylesExactlyWhenItMay(before: string, d: string, mark: Mark, text: string, after: string, cs: Classes)
    requires LegalDelimiter(mark, d) && AllOrdinary(before) && AllOrdinary(text) && AllOrdinary(after) && text != ""
    ensures
      var source := Between(before, d, text, after);
      UnitsOf(Parsed(source, cs))
      == if Opens(source, |before|, d, cs) && ClosesAt(source, |before| + |d| + |text|, d, cs)
         then Marked(|before|, []) + (Dropped(|d|) + Marked(|text|, [mark]) + Dropped(|d|)) + Marked(|after|, [])
         else Marked(|source|, [])
  {
    var source := Between(before, d, text, after);
    BetweenIsRead(before, d, mark, text, after, cs);
    PartsInPlace(before, d, text, after);
    var i := |before| + |d| + |text|;
    var p0 := AddEach(Start, before);
    var p1 := AfterDelimiter(source, |before|, d, mark, p0, cs);
    var p2 := AddEach(p1, text);
    var p3 := AfterDelimiter(source, i, d, mark, p2, cs);
    assert AfterBoth(before, d, mark, text, after, cs) == AddEach(p3, after);
    hide *;
    StartHasNothing(before);
    FirstDelimiterLeavesOpen(source, |before|, d, mark, p0, cs);
    AddingLeavesOpen(p1, text, d, mark);
    if Opens(source, |before|, d, cs) && ClosesAt(source, i, d, cs) {
      PairIsStyled(source, before, d, mark, text, after, p0, p1, cs);
    } else {
      SecondDelimiterStylesNothing(source, i, d, mark, p1, text, p2, cs);
      AddingStylesNothingEach(p3, after);
      NothingStyledIsPlain(source, AddEach(p3, after), cs);
    }
  }

  lemma AddingStylesNothingEach(p: Progress, text: string)
    requires NothingStyled(p)
    ensures NothingStyled(AddEach(p, text))
  {
    AddEachStylesNothing(p, text);
  }

  lemma SecondDelimiterStylesNothing(source: string, i: nat, d: string, mark: Mark, p1: Progress, text: string, p2: Progress,
                                     cs: Classes)
    requires d != "" && i + |d| <= |source| && p2 == AddEach(p1, text) && NothingStyled(p1)
    requires p1.frames == [] || !ClosesAt(source, i, d, cs)
    ensures NothingStyled(AfterDelimiter(source, i, d, mark, p2, cs))
  {
    AddEachStylesNothing(p1, text);
    hide AddEach, Opens, ClosesAt;
    AddingStylesNothing(p2, d);
    OpeningStylesNothing(p2, d, mark);
  }

  lemma PairIsStyled(source: string, before: string, d: string, mark: Mark, text: string, after: string, p0: Progress,
                     p1: Progress, cs: Classes)
    requires d != "" && |before| + |d| + |text| + |d| <= |source| && p0 == AddEach(Start, before) && HasAtMost(p1, d, mark)
    requires p1.frames != [] && p1.root == p0.root && p1.frames[0].kids == Empty
    requires ClosesAt(source, |before| + |d| + |text|, d, cs)
    ensures
      var p3 := AfterDelimiter(source, |before| + |d| + |text|, d, mark, AddEach(p1, text), cs);
      UnitsOf(Finish(AddEach(p3, after)))
      == Marked(|before|, []) + (Dropped(|d|) + Marked(|text|, [mark]) + Dropped(|d|)) + Marked(|after|, [])
  {
    AddedCharactersArePlain(Start, before);
    AddedCharactersArePlain(p1, text);
    NothingHasNoUnits();
    var p2 := AddEach(p1, text);
    assert [] + Marked(|text|, []) == Marked(|text|, []) && [] + Marked(|before|, []) == Marked(|before|, []);
    assert p2.frames == [Frame(d, mark, p2.frames[0].kids)] && p2.root == p1.root;
    PairUnits(p0.root, mark, d, p2.frames[0].kids, |text|);
    hide AddEach, UnitsOf, ClosesAt;
    var p3 := CloseFrame(p2);
    assert p3 == Progress(Styled(p0.root, mark, d, p2.frames[0].kids), []);
    AddedCharactersArePlain(p3, after);
  }

  lemma PairUnits(before: Forest, mark: Mark, d: string, kids: Forest, n: nat)
    requires UnitsOf(kids) == Marked(n, [])
    ensures UnitsOf(Styled(before, mark, d, kids))
            == UnitsOf(before) + (Dropped(|d|) + Marked(n, [mark]) + Dropped(|d|))
  {
    StyledUnits(before, mark, d, kids);
    assert [mark] + [] == [mark];
    assert Under([mark], Marked(n, [])) == Marked(n, [mark]);
  }

  // ---- Bold inside italic

  lemma BoldOpensInItalic(source: string, i: nat, inner: string, p: Progress, cs: Classes)
    requires LegalDelimiter(Bold, inner) && StandsAlone(source, i, inner) && Opens(source, i, inner, cs)
    requires |p.frames| == 1 && p.frames[0].mark == Italic
    ensures Rest(source, i, p, cs) == Rest(source, i + 2, OpenFrame(p, inner, Bold), cs)
  {
    DelimiterRunIs(source, i, inner, Bold, cs);
    var r, q := RunAt(source, i, cs), OpenFrame(p, inner, Bold);
    assert Repeat(r.symbol, 2) == inner;
    hide RunAt, Opens, ClosesAt;
    assert OpensNestedBold(r, i, p) && !HasMark(p, Bold);
    assert RunStep(source, r, i, p) == (r.end, q) && InRun(source, r, r.end, q) == q;
  }

  lemma TopCloses(source: string, i: nat, d: string, mark: Mark, p: Progress, cs: Classes)
    requires LegalDelimiter(mark, d) && StandsAlone(source, i, d) && ClosesAt(source, i, d, cs)
    requires p.frames != [] && p.frames[|p.frames| - 1].delimiter == d && p.frames[|p.frames| - 1].mark == mark
    ensures Rest(source, i, p, cs) == Rest(source, i + |d|, CloseFrame(p), cs)
  {
    DelimiterRunIs(source, i, d, mark, cs);
    var r, q := RunAt(source, i, cs), CloseFrame(p);
    hide RunAt, Opens, ClosesAt;
    assert Closes(source, r, i, p);
    assert RunStep(source, r, i, p) == (r.end, q) && InRun(source, r, r.end, q) == q;
  }

  function Nested(outer: string, inner: string, x: string, y: string, z: string): string {
    outer + Between(x, inner, y, z) + outer
  }

  lemma Enclosed(outer: string, middle: string)
    requires |outer| == 1
    ensures var source := outer + middle + outer;
      |source| == |middle| + 2 && source[0..1] == outer && source[1..1 + |middle|] == middle && source[1 + |middle|..] == outer
  {
  }

  lemma MiddleParts(inner: string, x: string, y: string, z: string)
    requires |inner| == 2
    ensures
      var middle := Between(x, inner, y, z);
      var i, j, k := |x|, 2 + |x| + |y|, 4 + |x| + |y| + |z|;
      && |middle| == k && middle[0..i] == x && middle[i..i + 2] == inner && middle[i + 2..j] == y && middle[j..j + 2] == inner
      && middle[j + 2..k] == z
  {
    PartsInPlace(x, inner, y, z);
  }

  lemma AloneBefore(source: string, i: nat, d: string, part: string, mark: Mark)
    requires LegalDelimiter(mark, d) && AllOrdinary(part) && part != "" && i + |d| + |part| <= |source|
    requires source[i..i + |d|] == d && source[i + |d|..i + |d| + |part|] == part
    ensures StandsAlone(source, i, d)
  {
    NoDelimiterBegins(part, d, mark);
    assert source[i + |d|] == source[i + |d|..i + |d| + |part|][0];
    hide AllOrdinary;
  }

  lemma AloneAtTheEnd(source: string, i: nat, d: string)
    requires d != "" && i + |d| == |source| && source[i..] == d
    ensures StandsAlone(source, i, d)
  {
    assert source[i..i + |d|] == source[i..];
  }

  lemma NestingLengths(outer: string, inner: string)
    requires LegalDelimiter(Italic, outer) && LegalDelimiter(Bold, inner)
    ensures |outer| == 1 && |inner| == 2
  {
  }

  lemma NestedIsEnclosed(outer: string, inner: string, x: string, y: string, z: string)
    ensures Nested(outer, inner, x, y, z) == outer + Between(x, inner, y, z) + outer
  {
  }

  lemma NestedParts(outer: string, inner: string, x: string, y: string, z: string)
    requires LegalDelimiter(Italic, outer) && LegalDelimiter(Bold, inner)
    requires AllOrdinary(x) && AllOrdinary(y) && AllOrdinary(z) && x != "" && y != "" && z != ""
    ensures
      var source := Nested(outer, inner, x, y, z);
      var i, j, k := 1 + |x|, 3 + |x| + |y|, 5 + |x| + |y| + |z|;
      && |source| == k + 1 && source[1..i] == x && source[i + 2..j] == y && source[j + 2..k] == z
      && StandsAlone(source, 0, outer) && StandsAlone(source, i, inner) && StandsAlone(source, j, inner) && StandsAlone(source, k, outer)
  {
    hide *;
    var source, middle := Nested(outer, inner, x, y, z), Between(x, inner, y, z);
    var i, j, k := |x|, 2 + |x| + |y|, 4 + |x| + |y| + |z|;
    NestedIsEnclosed(outer, inner, x, y, z);
    NestingLengths(outer, inner);
    Enclosed(outer, middle);
    MiddleParts(inner, x, y, z);
    SliceOfSlice(source, 1, middle, 0, i);
    SliceOfSlice(source, 1, middle, i, i + 2);
    SliceOfSlice(source, 1, middle, i + 2, j);
    SliceOfSlice(source, 1, middle, j, j + 2);
    SliceOfSlice(source, 1, middle, j + 2, k);
    AloneBefore(source, 0, outer, x, Italic);
    AloneBefore(source, 1 + i, inner, y, Bold);
    AloneBefore(source, 1 + j, inner, z, Bold);
    AloneAtTheEnd(source, 1 + k, outer);
  }

  /** Each of its delimiters may do there what it is to do. */
  predicate MayNest(source: string, outer: string, inner: string, x: string, y: string, z: string, cs: Classes)
    requires |outer| == 1 && |inner| == 2 && |source| == 6 + |x| + |y| + |z|
  {
    Opens(source, 0, outer, cs) && Opens(source, 1 + |x|, inner, cs)
    && ClosesAt(source, 3 + |x| + |y|, inner, cs) && ClosesAt(source, 5 + |x| + |y| + |z|, outer, cs)
  }

  lemma {:induction false} InnermostGrows(p: Progress, text: string)
    requires p.frames != []
    ensures
      var q, last := AddEach(p, text), |p.frames| - 1;
      |q.frames| == |p.frames| && q.root == p.root && q.frames[..last] == p.frames[..last]
      && q.frames[last].mark == p.frames[last].mark && q.frames[last].delimiter == p.frames[last].delimiter
      && UnitsOf(q.frames[last].kids) == UnitsOf(p.frames[last].kids) + Marked(|text|, [])
  {
    AddedCharactersArePlain(p, text);
  }

  /** The progress before the last delimiter of such a text. */
  lemma NestedKids(outer: string, inner: string, x: string, y: string, z: string) returns (kids: Forest)
    requires |inner| == 2
    ensures
      var p1 := AddEach(OpenFrame(Start, outer, Italic), x);
      var p2 := AddEach(OpenFrame(p1, inner, Bold), y);
      && p1.frames != [] && p2.frames != []
      && AddEach(CloseFrame(p2), z) == Progress(Empty, [Frame(outer, Italic, kids)])
    ensures UnitsOf(kids) == Marked(|x|, []) + (Dropped(2) + Marked(|y|, [Bold]) + Dropped(2)) + Marked(|z|, [])
  {
    var p0 := OpenFrame(Start, outer, Italic);
    InnermostGrows(p0, x);
    var p1 := AddEach(p0, x);
    var o := OpenFrame(p1, inner, Bold);
    InnermostGrows(o, y);
    var p2 := AddEach(o, y);
    hide AddEach;
    NothingHasNoUnits();
    assert p1.frames == [Frame(outer, Italic, p1.frames[0].kids)] && p1.root == Empty;
    assert p2.frames[..1] == p1.frames && p2.frames == p1.frames + [Frame(inner, Bold, p2.frames[1].kids)];
    var c := CloseFrame(p2);
    assert c == Progress(Empty, [Frame(outer, Italic, Styled(p1.frames[0].kids, Bold, inner, p2.frames[1].kids))]);
    assert [] + Marked(|y|, []) == Marked(|y|, []) && [] + Marked(|x|, []) == Marked(|x|, []);
    PairUnits(p1.frames[0].kids, Bold, inner, p2.frames[1].kids, |y|);
    InnermostGrows(c, z);
    kids := AddEach(c, z).frames[0].kids;
    assert AddEach(c, z).frames[..0] == [] && AddEach(c, z).frames == [AddEach(c, z).frames[0]];
  }

  lemma ItalicBegins(source: string, outer: string, x: string, cs: Classes)
    requires LegalDelimiter(Italic, outer) && StandsAlone(source, 0, outer) && Opens(source, 0, outer, cs)
    requires AllOrdinary(x) && 1 + |x| <= |source| && source[1..1 + |x|] == x
    ensures Parsed(source, cs) == Rest(source, 1 + |x|, AddEach(OpenFrame(Start, outer, Italic), x), cs)
  {
    DelimiterStep(source, 0, outer, Italic, Start, cs);
    OrdinaryStep(source, 1, x, OpenFrame(Start, outer, Italic), cs);
  }

  lemma BoldInItalicIsRead(source: string, i: nat, inner: string, y: string, p: Progress, cs: Classes)
    requires LegalDelimiter(Bold, inner) && StandsAlone(source, i, inner) && Opens(source, i, inner, cs) && |p.frames| == 1 && p.frames[0].mark == Italic
    requires AllOrdinary(y) && i + 2 + |y| + 2 <= |source| && source[i + 2..i + 2 + |y|] == y
    requires StandsAlone(source, i + 2 + |y|, inner) && ClosesAt(source, i + 2 + |y|, inner, cs)
    ensures var q := AddEach(OpenFrame(p, inner, Bold), y);
      q.frames != [] && Rest(source, i, p, cs) == Rest(source, i + 4 + |y|, CloseFrame(q), cs)
  {
    hide Rest, AllOrdinary, AddEach, Opens, ClosesAt, StandsAlone;
    var o := OpenFrame(p, inner, Bold);
    BoldOpensInItalic(source, i, inner, p, cs);
    assert StandsAlone(source, i, inner) ==> i + 2 <= |source|;
    OrdinaryStep(source, i + 2, y, o, cs);
    InnermostGrows(o, y);
    TopCloses(source, i + 2 + |y|, inner, Bold, AddEach(o, y), cs);
  }

  lemma ItalicEnds(source: string, j: nat, outer: string, z: string, p: Progress, q: Progress, cs: Classes)
    requires AllOrdinary(z) && j + |z| + 1 == |source| && source[j..j + |z|] == z
    requires LegalDelimiter(Italic, outer) && StandsAlone(source, j + |z|, outer) && ClosesAt(source, j + |z|, outer, cs)
    requires q == AddEach(p, z) && |q.frames| == 1 && q.frames[0].delimiter == outer && q.frames[0].mark == Italic && q.root == Empty
    ensures Rest(source, j, p, cs) == Styled(Empty, Italic, outer, q.frames[0].kids)
  {
    hide Rest, AllOrdinary, AddEach, ClosesAt, StandsAlone;
    OrdinaryStep(source, j, z, p, cs);
    TopCloses(source, j + |z|, outer, Italic, q, cs);
    NothingIsLeft(source, CloseFrame(q), cs);
  }

  lemma MayNestSays(source: string, outer: string, inner: string, x: string, y: string, z: string, cs: Classes)
    requires |outer| == 1 && |inner| == 2 && |source| == 6 + |x| + |y| + |z| && MayNest(source, outer, inner, x, y, z, cs)
    ensures Opens(source, 0, outer, cs) && Opens(source, 1 + |x|, inner, cs)
    ensures ClosesAt(source, 3 + |x| + |y|, inner, cs) && ClosesAt(source, 5 + |x| + |y| + |z|, outer, cs)
  {
  }

  lemma NestedIsRead(outer: string, inner: string, x: string, y: string, z: string, cs: Classes) returns (kids: Forest)
    requires LegalDelimiter(Italic, outer) && LegalDelimiter(Bold, inner)
    requires AllOrdinary(x) && AllOrdinary(y) && AllOrdinary(z) && x != "" && y != "" && z != ""
    requires |Nested(outer, inner, x, y, z)| == 6 + |x| + |y| + |z|
    requires MayNest(Nested(outer, inner, x, y, z), outer, inner, x, y, z, cs)
    ensures Parsed(Nested(outer, inner, x, y, z), cs) == Styled(Empty, Italic, outer, kids)
    ensures UnitsOf(kids) == Marked(|x|, []) + (Dropped(2) + Marked(|y|, [Bold]) + Dropped(2)) + Marked(|z|, [])
  {
    hide *;
    var source := Nested(outer, inner, x, y, z);
    NestingLengths(outer, inner);
    MayNestSays(source, outer, inner, x, y, z, cs);
    NestedParts(outer, inner, x, y, z);
    kids := NestedKids(outer, inner, x, y, z);
    var p0 := OpenFrame(Start, outer, Italic);
    var p1 := AddEach(p0, x);
    ItalicBegins(source, outer, x, cs);
    OneIsOpen(outer, p0, x);
    BoldInItalicIsRead(source, 1 + |x|, inner, y, p1, cs);
    var p2 := AddEach(OpenFrame(p1, inner, Bold), y);
    ItalicEnds(source, 5 + |x| + |y|, outer, z, CloseFrame(p2), AddEach(CloseFrame(p2), z), cs);
  }

  lemma OneIsOpen(outer: string, p: Progress, x: string)
    requires p == OpenFrame(Start, outer, Italic)
    ensures |AddEach(p, x).frames| == 1 && AddEach(p, x).frames[0].mark == Italic
  {
    InnermostGrows(p, x);
  }

  /** Bold inside italic is both, in whichever characters the two are written, wherever each delimiter may do its part. */
  lemma BoldNestsInItalic(outer: string, inner: string, x: string, y: string, z: string, cs: Classes)
    requires LegalDelimiter(Italic, outer) && LegalDelimiter(Bold, inner)
    requires AllOrdinary(x) && AllOrdinary(y) && AllOrdinary(z) && x != "" && y != "" && z != ""
    requires |Nested(outer, inner, x, y, z)| == 6 + |x| + |y| + |z|
    requires MayNest(Nested(outer, inner, x, y, z), outer, inner, x, y, z, cs)
    ensures UnitsOf(Parsed(Nested(outer, inner, x, y, z), cs))
      == Dropped(1) + (Marked(|x|, [Italic]) + (Dropped(2) + Marked(|y|, [Italic, Bold]) + Dropped(2)) + Marked(|z|, [Italic]))
         + Dropped(1)
  {
    var kids := NestedIsRead(outer, inner, x, y, z, cs);
    StyledUnits(Empty, Italic, outer, kids);
    NothingHasNoUnits();
    assert [Italic] + [] == [Italic] && [Italic] + [Bold] == [Italic, Bold];
    assert Under([Italic], UnitsOf(kids))
           == Marked(|x|, [Italic]) + (Dropped(2) + Marked(|y|, [Italic, Bold]) + Dropped(2)) + Marked(|z|, [Italic]);
    hide UnitsOf, Parsed, Nested;
  }

  // ---- Backticks

  /** The ticks from i to end are a run of their own. */
  predicate IsTickRun(source: string, i: nat, end: nat) {
    i < end <= |source| && (forall k | i <= k < end :: source[k] == '`') && (end < |source| ==> source[end] != '`')
  }

  lemma {:induction false} NextTickIs(source: string, i: nat, at: nat)
    requires i <= at <= |source| && (forall k | i <= k < at :: source[k] != '`') && (at < |source| ==> source[at] == '`')
    ensures NextTick(source, i) == if at < |source| then Some(at) else None
    decreases at - i
  {
    if i < at { NextTickIs(source, i + 1, at); }
  }

  lemma TicksStay(source: string, i: nat, end: nat, p: Progress, cs: Classes)
    requires IsTickRun(source, i, end) && CodeClose(source, i).None?
    ensures Rest(source, i, p, cs) == Rest(source, end, AddPlain(p, source[i..end]), cs)
  {
    RunEndIs(source, i + 1, '`', end);
  }

  lemma NoCloseForManyTicks(source: string, i: nat, end: nat)
    requires IsTickRun(source, i, end) && end > i + 1
    ensures CodeClose(source, i).None?
  {
    NextTickIs(source, i + 1, i + 1);
  }

  lemma NoCloseWithoutTicks(source: string, i: nat)
    requires IsTickRun(source, i, i + 1) && forall k | i < k < |source| :: source[k] != '`'
    ensures CodeClose(source, i).None?
  {
    NextTickIs(source, i + 1, |source|);
  }

  /** A single tick is closed by the next run exactly if that is a single tick too, and on the same line. */
  lemma CloseOfOneTick(source: string, i: nat, text: string, end: nat)
    requires IsTickRun(source, i, i + 1) && text != "" && i + 1 + |text| < end <= |source| && source[i + 1..i + 1 + |text|] == text
    requires '`' !in text && IsTickRun(source, i + 1 + |text|, end)
    ensures CodeClose(source, i)
            == if '\n' !in text && end == i + 2 + |text| then Some(i + 1 + |text|) else None
  {
    var at := i + 1 + |text|;
    forall k | i + 1 <= k < at ensures source[k] != '`' {
      assert source[k] == source[i + 1..at][k - i - 1] && text[k - i - 1] in text;
    }
    NextTickIs(source, i + 1, at);
    assert source[i..at] == [source[i]] + source[i + 1..at];
  }

  function Ticked(before: string, a: nat, text: string, b: nat, after: string): string {
    before + Repeat('`', a) + text + Repeat('`', b) + after
  }

  lemma TickedParts(before: string, a: nat, text: string, b: nat, after: string)
    requires AllOrdinary(text) && AllOrdinary(after) && text != "" && a > 0 && b > 0
    ensures
      var source := Ticked(before, a, text, b, after);
      var i, j, k := |before|, |before| + a + |text|, |before| + a + |text| + b;
      && |source| == k + |after| && source[0..i] == before && source[i + a..j] == text && source[k..k + |after|] == after
      && IsTickRun(source, i, i + a) && IsTickRun(source, j, k) && '`' !in text
      && forall n | k <= n < |source| :: source[n] != '`'
  {
    var source := Ticked(before, a, text, b, after);
    var k := |before| + a + |text| + b;
    assert text[0] in text && source[|before| + a] == text[0];
    forall n | k <= n < |source| ensures source[n] != '`' {
      assert source[n] == after[n - k] && after[n - k] in after;
    }
  }

  /** Where the second run of ticks closes nothing and stays. */
  lemma LastTicksStay(source: string, j: nat, k: nat, p: Progress, cs: Classes)
    requires IsTickRun(source, j, k) && forall n | k <= n < |source| :: source[n] != '`'
    ensures Rest(source, j, p, cs) == Rest(source, k, AddPlain(p, source[j..k]), cs)
  {
    if k > j + 1 {
      NoCloseForManyTicks(source, j, k);
    } else {
      NoCloseWithoutTicks(source, j);
    }
    TicksStay(source, j, k, p, cs);
  }

  predicate AreCode(a: nat, text: string, b: nat) {
    a == 1 && b == 1 && '\n' !in text
  }

  lemma FirstTicksClose(source: string, i: nat, a: nat, text: string, b: nat)
    requires IsTickRun(source, i, i + a) && i + a + |text| + b <= |source| && source[i + a..i + a + |text|] == text
    requires text != "" && '`' !in text && a > 0 && b > 0 && IsTickRun(source, i + a + |text|, i + a + |text| + b)
    ensures CodeClose(source, i) == if AreCode(a, text, b) then Some(i + 1 + |text|) else None
  {
    if a == 1 {
      CloseOfOneTick(source, i, text, i + a + |text| + b);
    } else {
      NoCloseForManyTicks(source, i, i + a);
    }
  }

  lemma TicksAreCode(source: string, i: nat, text: string, p: Progress, cs: Classes)
    requires i < |source| && source[i] == '`' && CodeClose(source, i) == Some(i + 1 + |text|)
    requires source[i + 1..i + 1 + |text|] == text
    ensures Rest(source, i, p, cs) == Rest(source, i + 2 + |text|, AddCode(p, text), cs)
  {
  }

  lemma RunBegins(source: string, i: nat, end: nat)
    requires IsTickRun(source, i, end)
    ensures i < end <= |source| && source[i] == '`'
  {
  }

  lemma CodeIsRead(before: string, text: string, after: string, cs: Classes)
    requires AllOrdinary(before) && AllOrdinary(text) && AllOrdinary(after) && AreCode(1, text, 1) && text != ""
    ensures Parsed(Ticked(before, 1, text, 1, after), cs) == Finish(AddEach(AddCode(AddEach(Start, before), text), after))
  {
    hide *;
    var source := Ticked(before, 1, text, 1, after);
    var i, k := |before|, |before| + 2 + |text|;
    var p := AddEach(Start, before);
    TickedParts(before, 1, text, 1, after);
    FirstTicksClose(source, i, 1, text, 1);
    RunBegins(source, i, i + 1);
    ReadingBegins(source, cs);
    OrdinaryStep(source, 0, before, Start, cs);
    TicksAreCode(source, i, text, p, cs);
    OrdinaryStep(source, k, after, AddCode(p, text), cs);
    NothingIsLeft(source, AddEach(AddCode(p, text), after), cs);
  }

  lemma TicksAreRead(before: string, a: nat, text: string, b: nat, after: string, cs: Classes)
    requires AllOrdinary(before) && AllOrdinary(text) && AllOrdinary(after) && text != "" && a > 0 && b > 0
    requires !AreCode(a, text, b)
    ensures
      var source := Ticked(before, a, text, b, after);
      var i, j, k := |before|, |before| + a + |text|, |before| + a + |text| + b;
      && k <= |source|
      && Parsed(source, cs)
         == Finish(AddEach(AddPlain(AddEach(AddPlain(AddEach(Start, before), source[i..i + a]), text), source[j..k]), after))
  {
    hide *;
    var source := Ticked(before, a, text, b, after);
    var i, j, k := |before|, |before| + a + |text|, |before| + a + |text| + b;
    var p := AddEach(Start, before);
    TickedParts(before, a, text, b, after);
    FirstTicksClose(source, i, a, text, b);
    RunBegins(source, i, i + a);
    ReadingBegins(source, cs);
    OrdinaryStep(source, 0, before, Start, cs);
    var p1 := AddPlain(p, source[i..i + a]);
    TicksStay(source, i, i + a, p, cs);
    OrdinaryStep(source, i + a, text, p1, cs);
    var p2 := AddPlain(AddEach(p1, text), source[j..k]);
    LastTicksStay(source, j, k, AddEach(p1, text), cs);
    OrdinaryStep(source, k, after, p2, cs);
    NothingIsLeft(source, AddEach(p2, after), cs);
  }

  /** Backticks around a text make it code exactly when there is one on each side and no line break between them. */
  lemma TicksMakeCodeExactly(before: string, a: nat, text: string, b: nat, after: string, cs: Classes)
    requires AllOrdinary(before) && AllOrdinary(text) && AllOrdinary(after) && text != "" && a > 0 && b > 0
    ensures
      var source := Ticked(before, a, text, b, after);
      UnitsOf(Parsed(source, cs))
      == if AreCode(a, text, b)
         then Marked(|before|, []) + (Dropped(1) + Marked(|text|, [CodeMark]) + Dropped(1)) + Marked(|after|, [])
         else Marked(|source|, [])
  {
    if AreCode(a, text, b) {
      assert a == 1 && b == 1;
      CodeIsRead(before, text, after, cs);
      CodeUnits(before, text, after);
    } else {
      TicksAreRead(before, a, text, b, after, cs);
      hide *;
      var source := Ticked(before, a, text, b, after);
      var p1 := AddPlain(AddEach(Start, before), source[|before|..|before| + a]);
      var p2 := AddPlain(AddEach(p1, text), source[|before| + a + |text|..|before| + a + |text| + b]);
      StartHasNothing(before);
      AddingStylesNothing(AddEach(Start, before), source[|before|..|before| + a]);
      AddingStylesNothingEach(p1, text);
      AddingStylesNothing(AddEach(p1, text), source[|before| + a + |text|..|before| + a + |text| + b]);
      AddingStylesNothingEach(p2, after);
      NothingStyledIsPlain(source, AddEach(p2, after), cs);
    }
  }

  lemma CodeAdded(p: Progress, text: string)
    requires p.frames == []
    ensures var c := AddCode(p, text);
      c.frames == [] && UnitsOf(c.root) == UnitsOf(p.root) + (Dropped(1) + Marked(|text|, [CodeMark]) + Dropped(1))
  {
    assert NodeUnits(Code(p.root, text)) == Dropped(1) + Marked(|text|, [CodeMark]) + Dropped(1);
  }

  lemma EachAdded(p: Progress, text: string)
    requires p.frames == []
    ensures var q := AddEach(p, text); q.frames == [] && UnitsOf(q.root) == UnitsOf(p.root) + Marked(|text|, [])
  {
    AddedCharactersArePlain(p, text);
  }

  lemma CodeUnits(before: string, text: string, after: string)
    ensures
      UnitsOf(Finish(AddEach(AddCode(AddEach(Start, before), text), after)))
      == Marked(|before|, []) + (Dropped(1) + Marked(|text|, [CodeMark]) + Dropped(1)) + Marked(|after|, [])
  {
    hide AddEach, UnitsOf, Marked, Dropped;
    NothingHasNoUnits();
    var p := AddEach(Start, before);
    EachAdded(Start, before);
    assert [] + Marked(|before|, []) == Marked(|before|, []);
    CodeAdded(p, text);
    EachAdded(AddCode(p, text), after);
  }
}

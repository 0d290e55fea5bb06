/** What the composer writes for one mark parses back to that mark
    (apps/web/src/composer-rich-text.ts). */
module InlineMarkdownRendering {
  import opened Options
  import opened InlineMarkdown

  function DelimiterOf(mark: Mark): string {
    match mark
    case Bold => "**"
    case Italic => "*"
    case Strike => "~~"
    case CodeMark => "`"
  }

  predicate Ordinary(c: char) {
    !IsDelimiter(c) && c != '\\' && c != '`'
  }

  /** A mark's text may not be empty; code keeps everything but a line break and a backtick, and
      the others start and end without a space and hold no markup. */
  predicate Renderable(mark: Mark, text: string, cs: Classes) {
    && text != []
    && if mark.CodeMark? then '`' !in text && '\n' !in text
       else !cs.space(text[0]) && !cs.space(text[|text| - 1]) && forall c <- text :: Ordinary(c)
  }

  function AddEach(p: Progress, text: string): Progress
    decreases |text|
  {
    if text == [] then p else AddEach(AddPlain(p, text[..1]), text[1..])
  }

  lemma {:induction false} OrdinaryCharactersAreAdded(text: string, i: nat, j: nat, p: Progress, cs: Classes)
    requires i <= j <= |text| && forall k | i <= k < j :: Ordinary(text[k])
    ensures Rest(text, i, p, cs) == Rest(text, j, AddEach(p, text[i..j]), cs)
    decreases j - i
  {
    if i < j {
      OrdinaryCharactersAreAdded(text, i + 1, j, AddPlain(p, text[i..i + 1]), cs);
      assert text[i..j][..1] == text[i..i + 1] && text[i..j][1..] == text[i + 1..j];
    }
  }

  lemma {:induction false} AddedCharactersArePlain(p: Progress, text: string)
    ensures
      var q := AddEach(p, text);
      && UnitsOf(Innermost(q)) == UnitsOf(Innermost(p)) + Marked(|text|, [])
      && q == WithInnermost(p, Innermost(q))
    decreases |text|
  {
    if text != [] {
      var r := AddPlain(p, text[..1]);
      AddedCharactersArePlain(r, text[1..]);
      assert NodeUnits(Innermost(r)) == Marked(1, []);
      assert Marked(|text|, []) == Marked(1, []) + Marked(|text| - 1, []);
    }
  }

  lemma CodeParsesBack(text: string, cs: Classes)
    requires Renderable(CodeMark, text, cs)
    ensures Parsed("`" + text + "`", cs) == Code(Empty, text)
  {
    var source := "`" + text + "`";
    var close := |text| + 1;
    assert source[1..close] == text && source[0..close] == "`" + text;
    forall k | 1 <= k < close ensures source[k] != '`' && source[k] != '\n' {
      assert source[k] == text[k - 1] && text[k - 1] in text;
    }
    assert source[close] == '`';
    assert NextTick(source, 1) == Some(close);
    assert CodeClose(source, 0) == Some(close);
    assert PlainStep(source, 0, Start) == (close + 1, AddCode(Start, text));
    assert Rest(source, 0, Start, cs) == Rest(source, |source|, AddCode(Start, text), cs);
  }

  lemma OpeningRun(source: string, mark: Mark, text: string, cs: Classes)
    requires mark != CodeMark && Renderable(mark, text, cs)
    requires source == DelimiterOf(mark) + text + DelimiterOf(mark)
    ensures
      var d := DelimiterOf(mark);
      Rest(source, 0, Start, cs) == Rest(source, |d|, OpenFrame(Start, d, mark), cs)
  {
    var d := DelimiterOf(mark);
    assert source[|d|] == text[0] && text[0] in text;
    var r := RunAt(source, 0, cs);
    assert r.end == |d|;
    assert Repeat(r.symbol, |d|) == d;
    assert RunStep(source, r, 0, Start) == (|d|, OpenFrame(Start, d, mark));
    assert InRun(source, r, |d|, OpenFrame(Start, d, mark)) == OpenFrame(Start, d, mark);
  }

  lemma ClosingRun(source: string, mark: Mark, text: string, p: Progress, cs: Classes)
    requires mark != CodeMark && Renderable(mark, text, cs)
    requires source == DelimiterOf(mark) + text + DelimiterOf(mark)
    requires p.root == Empty && |p.frames| == 1 && p.frames[0].delimiter == DelimiterOf(mark) && p.frames[0].mark == mark
    ensures
      var d := DelimiterOf(mark);
      Rest(source, |d| + |text|, p, cs) == Styled(Empty, mark, d, p.frames[0].kids)
  {
    var d := DelimiterOf(mark);
    var i := |d| + |text|;
    assert source[i - 1] == text[|text| - 1] && source[i..i + |d|] == d;
    var r := RunAt(source, i, cs);
    assert r.end == |source|;
    assert RunStep(source, r, i, p) == (r.end, CloseFrame(p));
    assert InRun(source, r, r.end, CloseFrame(p)) == CloseFrame(p);
    assert Rest(source, i, p, cs) == Finish(CloseFrame(p));
  }

  lemma StyledTextParsesBack(mark: Mark, text: string, cs: Classes)
    requires mark != CodeMark && Renderable(mark, text, cs)
    ensures
      var d := DelimiterOf(mark);
      exists kids ::
        Parsed(d + text + d, cs) == Styled(Empty, mark, d, kids) && UnitsOf(kids) == Marked(|text|, [])
  {
    hide UnitsOf, Rest, AddEach;
    var d := DelimiterOf(mark);
    var source := d + text + d;
    var p := OpenFrame(Start, d, mark);
    var q := AddEach(p, text);
    OpeningRun(source, mark, text, cs);
    assert source[|d|..|d| + |text|] == text;
    forall k | |d| <= k < |d| + |text| ensures Ordinary(source[k]) {
      assert source[k] == text[k - |d|] && text[k - |d|] in text;
    }
    OrdinaryCharactersAreAdded(source, |d|, |d| + |text|, p, cs);
    AddedCharactersArePlain(p, text);
    ClosingRun(source, mark, text, q, cs);
    assert UnitsOf(Empty) == [] by { NothingHasNoUnits(); }
    assert [] + Marked(|text|, []) == Marked(|text|, []);
  }

  lemma NothingHasNoUnits()
    ensures UnitsOf(Empty) == []
  {
  }

  /** Round trip: a rendered mark parses to exactly that mark on exactly its text. */
  lemma RenderedTextParsesBack(mark: Mark, text: string, cs: Classes)
    requires Renderable(mark, text, cs)
    ensures
      var d := DelimiterOf(mark);
      UnitsOf(Parsed(d + text + d, cs)) == Dropped(|d|) + Marked(|text|, [mark]) + Dropped(|d|)
  {
    var d := DelimiterOf(mark);
    if mark.CodeMark? {
      CodeParsesBack(text, cs);
      assert NodeUnits(Code(Empty, text)) == Dropped(1) + Marked(|text|, [CodeMark]) + Dropped(1);
    } else {
      StyledTextParsesBack(mark, text, cs);
      var kids :| Parsed(d + text + d, cs) == Styled(Empty, mark, d, kids) && UnitsOf(kids) == Marked(|text|, []);
      StyledUnits(Empty, mark, d, kids);
      assert [mark] + [] == [mark];
      assert Under([mark], Marked(|text|, [])) == Marked(|text|, [mark]);
    }
  }

  /** Text without markup is kept whole and unmarked. */
  lemma OrdinaryTextIsUnmarked(text: string, cs: Classes)
    requires forall c <- text :: Ordinary(c)
    ensures UnitsOf(Parsed(text, cs)) == Marked(|text|, [])
  {
    assert text[0..|text|] == text;
    OrdinaryCharactersAreAdded(text, 0, |text|, Start, cs);
    AddedCharactersArePlain(Start, text);
  }
}

/** What inline Markdown means: the forest of styled runs that the delimiters of a text open and
    close, read left to right (apps/web/src/composer-rich-text.ts). */
module InlineMarkdown {
  import opened Options

  datatype Mark = Bold | Italic | Strike | CodeMark

  /** Text read so far, in order: the last node comes after all of `before`. */
  datatype Forest =
    | Empty
    | Plain(before: Forest, text: string)
    | Code(before: Forest, text: string)
    | Styled(before: Forest, mark: Mark, delimiter: string, kids: Forest)

  /** The marks of each UTF-16 unit, or None for a delimiter that parsing drops. */
  type Units = seq<Option<seq<Mark>>>

  /** The whitespace and word character classes; nothing is assumed about either. */
  datatype Classes = Classes(space: char -> bool, word: char -> bool)

  // ---- A forest's source and its meaning

  function Source(f: Forest): string
    decreases f, 1
  {
    if f.Empty? then "" else Source(f.before) + NodeSource(f)
  }

  function NodeSource(f: Forest): string
    requires !f.Empty?
    decreases f, 0
  {
    match f
    case Plain(_, text) => text
    case Code(_, text) => "`" + text + "`"
    case Styled(_, _, d, kids) => d + Source(kids) + d
  }

  function Dropped(n: nat): Units {
    seq(n, _ => None)
  }

  function Marked(n: nat, marks: seq<Mark>): Units {
    seq(n, _ => Some(marks))
  }

  function Under(prefix: seq<Mark>, us: Units): Units {
    seq(|us|, i requires 0 <= i < |us| => if us[i].Some? then Some(prefix + us[i].value) else None)
  }

  function UnitsOf(f: Forest): Units
    decreases f, 1
  {
    if f.Empty? then [] else UnitsOf(f.before) + NodeUnits(f)
  }

  function NodeUnits(f: Forest): Units
    requires !f.Empty?
    decreases f, 0
  {
    match f
    case Plain(_, text) => Marked(|text|, [])
    case Code(_, text) => Dropped(1) + Marked(|text|, [CodeMark]) + Dropped(1)
    case Styled(_, mark, d, kids) => Dropped(|d|) + Under([mark], UnitsOf(kids)) + Dropped(|d|)
  }

  lemma StyledUnits(before: Forest, mark: Mark, d: string, kids: Forest)
    ensures UnitsOf(Styled(before, mark, d, kids))
         == UnitsOf(before) + (Dropped(|d|) + Under([mark], UnitsOf(kids)) + Dropped(|d|))
  {
    var f := Styled(before, mark, d, kids);
    assert NodeUnits(f) == Dropped(|d|) + Under([mark], UnitsOf(kids)) + Dropped(|d|);
  }

  lemma {:induction false} OneUnitPerCharacter(f: Forest)
    ensures |UnitsOf(f)| == |Source(f)|
  {
    if !f.Empty? { OneUnitPerCharacter(f.before); }
    if f.Styled? { OneUnitPerCharacter(f.kids); }
  }

  function Append(f: Forest, g: Forest): Forest {
    match g
    case Empty => f
    case Plain(before, text) => Plain(Append(f, before), text)
    case Code(before, text) => Code(Append(f, before), text)
    case Styled(before, mark, d, kids) => Styled(Append(f, before), mark, d, kids)
  }

  lemma {:induction false} AppendSource(f: Forest, g: Forest)
    ensures Source(Append(f, g)) == Source(f) + Source(g)
  {
    if !g.Empty? {
      AppendSource(f, g.before);
      var h := Append(f, g);
      assert Source(h) == Source(h.before) + NodeSource(g);
      assert Source(f) + Source(g.before) + NodeSource(g) == Source(f) + Source(g);
    }
  }

  lemma {:induction false} AppendUnits(f: Forest, g: Forest)
    ensures UnitsOf(Append(f, g)) == UnitsOf(f) + UnitsOf(g)
  {
    hide Under, Marked, Dropped;
    if !g.Empty? {
      AppendUnits(f, g.before);
      var h := Append(f, g);
      assert UnitsOf(h) == UnitsOf(h.before) + NodeUnits(g);
      assert UnitsOf(f) + UnitsOf(g.before) + NodeUnits(g) == UnitsOf(f) + UnitsOf(g);
    }
  }

  lemma UnderNothing(us: Units)
    ensures Under([], us) == us
  {
    forall k | 0 <= k < |us| ensures Under([], us)[k] == us[k] {
      if us[k].Some? { assert [] + us[k].value == us[k].value; }
    }
  }

  lemma ReleasedUnits(before: Forest, d: string, kids: Forest)
    ensures UnitsOf(Append(Plain(before, d), kids)) == UnitsOf(before) + (Marked(|d|, []) + Under([], UnitsOf(kids)))
  {
    AppendUnits(Plain(before, d), kids);
    UnderNothing(UnitsOf(kids));
    assert NodeUnits(Plain(before, d)) == Marked(|d|, []);
  }

  // ---- Reading a text

  /** An opened and not yet closed delimiter, with what follows it so far. */
  datatype Frame = Frame(delimiter: string, mark: Mark, kids: Forest)

  /** The finished forest at the bottom, and the open frames above it, outermost first. */
  datatype Progress = Progress(root: Forest, frames: seq<Frame>)

  function Innermost(p: Progress): Forest {
    if p.frames == [] then p.root else p.frames[|p.frames| - 1].kids
  }

  function WithInnermost(p: Progress, f: Forest): Progress {
    if p.frames == [] then p.(root := f)
    else
      var last := |p.frames| - 1;
      p.(frames := p.frames[last := p.frames[last].(kids := f)])
  }

  function AddPlain(p: Progress, text: string): Progress {
    WithInnermost(p, Plain(Innermost(p), text))
  }

  function AddCode(p: Progress, text: string): Progress {
    WithInnermost(p, Code(Innermost(p), text))
  }

  function OpenFrame(p: Progress, delimiter: string, mark: Mark): Progress {
    p.(frames := p.frames + [Frame(delimiter, mark, Empty)])
  }

  function CloseFrame(p: Progress): Progress
    requires p.frames != []
  {
    var top := p.frames[|p.frames| - 1];
    var rest := p.(frames := p.frames[..|p.frames| - 1]);
    WithInnermost(rest, Styled(Innermost(rest), top.mark, top.delimiter, top.kids))
  }

  /** An unclosed delimiter is plain text before whatever followed it. */
  function Restore(p: Progress): Progress
    requires p.frames != []
  {
    var top := p.frames[|p.frames| - 1];
    var rest := p.(frames := p.frames[..|p.frames| - 1]);
    WithInnermost(rest, Append(Plain(Innermost(rest), top.delimiter), top.kids))
  }

  function Finish(p: Progress): Forest
    decreases |p.frames|
  {
    if p.frames == [] then p.root else Finish(Restore(p))
  }

  predicate IsDelimiter(c: char) {
    c == '*' || c == '_' || c == '~'
  }

  /** The end of the run of `c` that starts at or before `i`. */
  function RunEnd(text: string, i: nat, c: char): (end: nat)
    requires i <= |text|
    ensures i <= end <= |text|
    ensures forall k | i <= k < end :: text[k] == c
    ensures end < |text| ==> text[end] != c
    decreases |text| - i
  {
    if i < |text| && text[i] == c then RunEnd(text, i + 1, c) else i
  }

  /** The first backtick at or after `i`, if any. */
  function NextTick(text: string, i: nat): (found: Option<nat>)
    requires i <= |text|
    ensures found.None? ==> forall k | i <= k < |text| :: text[k] != '`'
    ensures found.Some? ==>
      i <= found.value < |text| && text[found.value] == '`' && forall k | i <= k < found.value :: text[k] != '`'
    decreases |text| - i
  {
    if i == |text| then None else if text[i] == '`' then Some(i) else NextTick(text, i + 1)
  }

  /** The backtick that closes a code span opened at `i`: the next one, if it closes anything. */
  function CodeClose(text: string, i: nat): (close: Option<nat>)
    requires i < |text| && text[i] == '`'
    ensures close.Some? ==> i + 1 < close.value < |text|
  {
    var next := NextTick(text, i + 1);
    if && next.Some? && next.value > i + 1
       && '\n' !in text[i..next.value]
       && (next.value + 1 < |text| ==> text[next.value + 1] != '`')
    then next else None
  }

  /** A run of one delimiter character and what its neighbours let it do. */
  datatype Run = Run(symbol: char, end: nat, canOpen: bool, canClose: bool)

  function RunAt(text: string, i: nat, cs: Classes): (r: Run)
    requires i < |text| && IsDelimiter(text[i])
    ensures r.symbol == text[i] && i < r.end <= |text| && forall k | i <= k < r.end :: text[k] == r.symbol
  {
    var c := text[i];
    var end := RunEnd(text, i, c);
    var wordBefore := i > 0 && cs.word(text[i - 1]);
    var wordAfter := end < |text| && cs.word(text[end]);
    Run(c, end,
        end < |text| && !cs.space(text[end]) && (c != '_' || !wordBefore),
        i > 0 && !cs.space(text[i - 1]) && (c != '_' || !wordAfter))
  }

  predicate HasMark(p: Progress, mark: Mark) {
    exists k | 0 <= k < |p.frames| :: p.frames[k].mark == mark
  }

  predicate OpensNestedBold(r: Run, i: nat, p: Progress) {
    && p.frames != [] && p.frames[|p.frames| - 1].mark == Italic
    && r.end - i == 2 && r.canOpen && (r.symbol == '*' || r.symbol == '_')
    && !HasMark(p, Bold)
  }

  predicate Closes(text: string, r: Run, i: nat, p: Progress)
    requires i < r.end <= |text|
  {
    && !OpensNestedBold(r, i, p) && r.canClose
    && p.frames != []
    && var d := p.frames[|p.frames| - 1].delimiter;
    && d != [] && i + |d| <= r.end && text[i..i + |d|] == d
  }

  function Repeat(c: char, n: nat): string {
    seq(n, _ => c)
  }

  /** One decision inside a run: close, open, or keep the rest of the run as text. */
  function RunStep(text: string, r: Run, i: nat, p: Progress): (step: (nat, Progress))
    requires i < r.end <= |text|
    ensures i < step.0 <= r.end
  {
    if Closes(text, r, i, p) then
      (i + |p.frames[|p.frames| - 1].delimiter|, CloseFrame(p))
    else if r.canOpen && (r.symbol != '~' || r.end - i >= 2) then
      var length := if r.symbol == '~' || r.end - i >= 2 then 2 else 1;
      var mark := if r.symbol == '~' then Strike else if length == 2 then Bold else Italic;
      if HasMark(p, mark) then (r.end, AddPlain(p, text[i..r.end]))
      else (i + length, OpenFrame(p, Repeat(r.symbol, length), mark))
    else
      (r.end, AddPlain(p, text[i..r.end]))
  }

  function InRun(text: string, r: Run, i: nat, p: Progress): Progress
    requires i <= r.end <= |text|
    decreases r.end - i
  {
    if i == r.end then p
    else
      var (j, q) := RunStep(text, r, i, p);
      InRun(text, r, j, q)
  }

  /** One construct outside a run of delimiters: an escape, backticks, or a plain character. */
  function PlainStep(text: string, i: nat, p: Progress): (step: (nat, Progress))
    requires i < |text| && !IsDelimiter(text[i])
    ensures i < step.0 <= |text|
  {
    if text[i] == '\\' then
      var j := if i + 2 <= |text| then i + 2 else |text|;
      (j, AddPlain(p, text[i..j]))
    else if text[i] == '`' then
      var end := RunEnd(text, i + 1, '`');
      var close := CodeClose(text, i);
      if close.Some? then (close.value + 1, AddCode(p, text[i + 1..close.value]))
      else (end, AddPlain(p, text[i..end]))
    else
      (i + 1, AddPlain(p, text[i..i + 1]))
  }

  function Rest(text: string, i: nat, p: Progress, cs: Classes): Forest
    requires i <= |text|
    decreases |text| - i
  {
    if i == |text| then Finish(p)
    else if IsDelimiter(text[i]) then
      var r := RunAt(text, i, cs);
      Rest(text, r.end, InRun(text, r, i, p), cs)
    else
      var (j, q) := PlainStep(text, i, p);
      Rest(text, j, q, cs)
  }

  const Start := Progress(Empty, [])

  function Parsed(text: string, cs: Classes): Forest {
    Rest(text, 0, Start, cs)
  }

  // ---- Nothing of the text is lost

  function FramesSource(frames: seq<Frame>): string {
    if frames == [] then ""
    else
      var top := frames[|frames| - 1];
      FramesSource(frames[..|frames| - 1]) + top.delimiter + Source(top.kids)
  }

  /** The text that the progress has read. */
  function Read(p: Progress): string {
    Source(p.root) + FramesSource(p.frames)
  }

  lemma ReadExtends(p: Progress, f: Forest, text: string)
    requires Source(f) == Source(Innermost(p)) + text
    ensures Read(WithInnermost(p, f)) == Read(p) + text
  {
    if p.frames != [] {
      var q := WithInnermost(p, f);
      assert q.frames[..|q.frames| - 1] == p.frames[..|p.frames| - 1];
    }
  }

  lemma OpenReads(p: Progress, delimiter: string, mark: Mark)
    ensures Read(OpenFrame(p, delimiter, mark)) == Read(p) + delimiter
  {
    assert OpenFrame(p, delimiter, mark).frames[..|p.frames|] == p.frames;
  }

  lemma CloseReads(p: Progress)
    requires p.frames != []
    ensures Read(CloseFrame(p)) == Read(p) + p.frames[|p.frames| - 1].delimiter
  {
    var top := p.frames[|p.frames| - 1];
    var rest := p.(frames := p.frames[..|p.frames| - 1]);
    var text := top.delimiter + Source(top.kids) + top.delimiter;
    ReadExtends(rest, Styled(Innermost(rest), top.mark, top.delimiter, top.kids), text);
  }

  lemma RestoreReads(p: Progress)
    requires p.frames != []
    ensures Read(Restore(p)) == Read(p)
  {
    var top := p.frames[|p.frames| - 1];
    var rest := p.(frames := p.frames[..|p.frames| - 1]);
    var plain := Plain(Innermost(rest), top.delimiter);
    var text := top.delimiter + Source(top.kids);
    AppendSource(plain, top.kids);
    assert Source(plain) + Source(top.kids) == Source(Innermost(rest)) + text;
    ReadExtends(rest, Append(plain, top.kids), text);
    assert FramesSource(p.frames) == FramesSource(rest.frames) + text;
  }

  lemma {:induction false} FinishReads(p: Progress)
    ensures Source(Finish(p)) == Read(p)
    decreases |p.frames|
  {
    if p.frames != [] {
      RestoreReads(p);
      FinishReads(Restore(p));
    }
  }

  lemma RunStepReads(text: string, r: Run, i: nat, p: Progress)
    requires i < r.end <= |text| && forall k | i <= k < r.end :: text[k] == r.symbol
    ensures Read(RunStep(text, r, i, p).1) == Read(p) + text[i..RunStep(text, r, i, p).0]
  {
    hide Read;
    if Closes(text, r, i, p) {
      CloseReads(p);
    } else {
      var (j, q) := RunStep(text, r, i, p);
      ReadExtends(p, Plain(Innermost(p), text[i..j]), text[i..j]);
      var length := if r.symbol == '~' || r.end - i >= 2 then 2 else 1;
      if i + length <= r.end { assert text[i..i + length] == Repeat(r.symbol, length); }
      OpenReads(p, text[i..j], Strike);
      OpenReads(p, text[i..j], Bold);
      OpenReads(p, text[i..j], Italic);
    }
  }

  lemma {:induction false} InRunReads(text: string, r: Run, i: nat, p: Progress)
    requires i <= r.end <= |text| && forall k | i <= k < r.end :: text[k] == r.symbol
    ensures Read(InRun(text, r, i, p)) == Read(p) + text[i..r.end]
    decreases r.end - i
  {
    if i < r.end {
      var (j, q) := RunStep(text, r, i, p);
      RunStepReads(text, r, i, p);
      InRunReads(text, r, j, q);
      assert text[i..j] + text[j..r.end] == text[i..r.end];
      assert Read(p) + text[i..j] + text[j..r.end] == Read(p) + (text[i..j] + text[j..r.end]);
    }
  }

  lemma PlainStepReads(text: string, i: nat, p: Progress)
    requires i < |text| && !IsDelimiter(text[i])
    ensures Read(PlainStep(text, i, p).1) == Read(p) + text[i..PlainStep(text, i, p).0]
  {
    var (j, q) := PlainStep(text, i, p);
    ReadExtends(p, Plain(Innermost(p), text[i..j]), text[i..j]);
    if text[i] == '`' && CodeClose(text, i).Some? {
      var code := text[i + 1..CodeClose(text, i).value];
      assert text[i..j] == "`" + code + "`";
      ReadExtends(p, Code(Innermost(p), code), text[i..j]);
    }
  }

  lemma {:induction false} RestReads(text: string, i: nat, p: Progress, cs: Classes)
    requires i <= |text| && Read(p) == text[..i]
    ensures Source(Rest(text, i, p, cs)) == text
    decreases |text| - i
  {
    if i == |text| {
      FinishReads(p);
    } else if IsDelimiter(text[i]) {
      var r := RunAt(text, i, cs);
      InRunReads(text, r, i, p);
      RestReads(text, r.end, InRun(text, r, i, p), cs);
    } else {
      var (j, q) := PlainStep(text, i, p);
      PlainStepReads(text, i, p);
      RestReads(text, j, q, cs);
    }
  }

  /** Every text is the source of the forest it parses to: the dropped units are the equal,
      properly nested openers and closers of that forest, and everything else is kept in order. */
  lemma ParsingKeepsTheSource(text: string, cs: Classes)
    ensures Source(Parsed(text, cs)) == text
  {
    RestReads(text, 0, Start, cs);
  }

  // ---- The shape of a parsed forest

  predicate LegalDelimiter(mark: Mark, d: string) {
    match mark
    case Bold => d == "**" || d == "__"
    case Italic => d == "*" || d == "_"
    case Strike => d == "~~"
    case CodeMark => false
  }

  /** Inside the open marks `outer`: no style nests in itself, every delimiter is one of its
      style's own, and a code span holds non-empty text on one line without a backtick. */
  predicate Legal(f: Forest, outer: seq<Mark>) {
    match f
    case Empty => true
    case Plain(before, _) => Legal(before, outer)
    case Code(before, text) => Legal(before, outer) && text != [] && '`' !in text && '\n' !in text
    case Styled(before, mark, d, kids) =>
      Legal(before, outer) && mark !in outer && LegalDelimiter(mark, d) && Legal(kids, outer + [mark])
  }

  function MarksOf(frames: seq<Frame>): seq<Mark> {
    seq(|frames|, k requires 0 <= k < |frames| => frames[k].mark)
  }

  predicate Distinct(marks: seq<Mark>) {
    forall i, j | 0 <= i < j < |marks| :: marks[i] != marks[j]
  }

  ghost predicate LegalProgress(p: Progress) {
    && Legal(p.root, [])
    && Distinct(MarksOf(p.frames))
    && forall k | 0 <= k < |p.frames| ::
         && LegalDelimiter(p.frames[k].mark, p.frames[k].delimiter)
         && Legal(p.frames[k].kids, MarksOf(p.frames)[..k + 1])
  }

  lemma {:induction false} FewerOuterMarks(f: Forest, outer: seq<Mark>, fewer: seq<Mark>)
    requires Legal(f, outer) && forall m <- fewer :: m in outer
    ensures Legal(f, fewer)
  {
    if !f.Empty? { FewerOuterMarks(f.before, outer, fewer); }
    if f.Styled? { FewerOuterMarks(f.kids, outer + [f.mark], fewer + [f.mark]); }
  }

  lemma {:induction false} AppendIsLegal(f: Forest, g: Forest, outer: seq<Mark>)
    requires Legal(f, outer) && Legal(g, outer)
    ensures Legal(Append(f, g), outer)
  {
    if !g.Empty? { AppendIsLegal(f, g.before, outer); }
  }

  lemma FourMarksRepeat(marks: seq<Mark>)
    requires |marks| >= 4 && CodeMark !in marks
    ensures !Distinct(marks)
  {
    assert marks[0] != CodeMark && marks[1] != CodeMark && marks[2] != CodeMark && marks[3] != CodeMark;
    assert marks[0] == marks[1] || marks[0] == marks[2] || marks[0] == marks[3]
        || marks[1] == marks[2] || marks[1] == marks[3] || marks[2] == marks[3];
  }

  /** Never more open delimiters than styles. */
  lemma AtMostThreeFrames(p: Progress)
    requires LegalProgress(p)
    ensures |p.frames| <= 3
  {
    var marks := MarksOf(p.frames);
    forall k | 0 <= k < |marks| ensures marks[k] != CodeMark {
      assert marks[k] == p.frames[k].mark;
    }
    if |marks| >= 4 { FourMarksRepeat(marks); }
  }

  lemma InnermostIsLegal(p: Progress)
    requires LegalProgress(p)
    ensures Legal(Innermost(p), MarksOf(p.frames))
  {
    assert MarksOf(p.frames)[..|p.frames|] == MarksOf(p.frames);
    if p.frames == [] { assert MarksOf(p.frames) == []; }
  }

  lemma WithInnermostIsLegal(p: Progress, f: Forest)
    requires LegalProgress(p) && Legal(f, MarksOf(p.frames))
    ensures LegalProgress(WithInnermost(p, f))
  {
    var q := WithInnermost(p, f);
    assert MarksOf(q.frames) == MarksOf(p.frames);
    assert MarksOf(p.frames)[..|p.frames|] == MarksOf(p.frames);
    if p.frames == [] { assert MarksOf(p.frames) == []; }
  }

  lemma DroppingTopIsLegal(p: Progress)
    requires LegalProgress(p) && p.frames != []
    ensures
      var rest := p.(frames := p.frames[..|p.frames| - 1]);
      var top := p.frames[|p.frames| - 1];
      && LegalProgress(rest) && top.mark !in MarksOf(rest.frames)
      && MarksOf(p.frames) == MarksOf(rest.frames) + [top.mark]
  {
    var rest := p.(frames := p.frames[..|p.frames| - 1]);
    var n := |rest.frames|;
    assert MarksOf(rest.frames) == MarksOf(p.frames)[..n];
    assert forall k | 0 <= k < n :: MarksOf(rest.frames)[k] == MarksOf(p.frames)[k] != MarksOf(p.frames)[n];
    forall k | 0 <= k < |rest.frames| ensures Legal(rest.frames[k].kids, MarksOf(rest.frames)[..k + 1]) {
      assert MarksOf(rest.frames)[..k + 1] == MarksOf(p.frames)[..k + 1];
    }
  }

  lemma CloseIsLegal(p: Progress)
    requires LegalProgress(p) && p.frames != []
    ensures LegalProgress(CloseFrame(p)) && LegalProgress(Restore(p))
  {
    var top := p.frames[|p.frames| - 1];
    var rest := p.(frames := p.frames[..|p.frames| - 1]);
    InnermostIsLegal(p);
    DroppingTopIsLegal(p);
    InnermostIsLegal(rest);
    var outer := MarksOf(rest.frames);
    WithInnermostIsLegal(rest, Styled(Innermost(rest), top.mark, top.delimiter, top.kids));
    FewerOuterMarks(top.kids, outer + [top.mark], outer);
    AppendIsLegal(Plain(Innermost(rest), top.delimiter), top.kids, outer);
    WithInnermostIsLegal(rest, Append(Plain(Innermost(rest), top.delimiter), top.kids));
  }

  lemma OpenIsLegal(p: Progress, d: string, mark: Mark)
    requires LegalProgress(p) && LegalDelimiter(mark, d) && !HasMark(p, mark)
    ensures LegalProgress(OpenFrame(p, d, mark))
  {
    var q := OpenFrame(p, d, mark);
    assert MarksOf(q.frames) == MarksOf(p.frames) + [mark];
    forall k | 0 <= k < |p.frames| ensures Legal(q.frames[k].kids, MarksOf(q.frames)[..k + 1]) {
      assert MarksOf(q.frames)[..k + 1] == MarksOf(p.frames)[..k + 1];
    }
  }

  lemma {:induction false} FinishIsLegal(p: Progress)
    requires LegalProgress(p)
    ensures Legal(Finish(p), [])
    decreases |p.frames|
  {
    if p.frames != [] {
      CloseIsLegal(p);
      FinishIsLegal(Restore(p));
    }
  }

  lemma RunStepIsLegal(text: string, r: Run, i: nat, p: Progress)
    requires i < r.end <= |text| && IsDelimiter(r.symbol) && LegalProgress(p)
    ensures LegalProgress(RunStep(text, r, i, p).1)
  {
    InnermostIsLegal(p);
    if Closes(text, r, i, p) {
      CloseIsLegal(p);
    } else if r.canOpen && (r.symbol != '~' || r.end - i >= 2) {
      var length := if r.symbol == '~' || r.end - i >= 2 then 2 else 1;
      var mark := if r.symbol == '~' then Strike else if length == 2 then Bold else Italic;
      if HasMark(p, mark) {
        WithInnermostIsLegal(p, Plain(Innermost(p), text[i..r.end]));
      } else {
        assert Repeat(r.symbol, 2) == [r.symbol, r.symbol] && Repeat(r.symbol, 1) == [r.symbol];
        OpenIsLegal(p, Repeat(r.symbol, length), mark);
      }
    } else {
      WithInnermostIsLegal(p, Plain(Innermost(p), text[i..r.end]));
    }
  }

  lemma {:induction false} InRunIsLegal(text: string, r: Run, i: nat, p: Progress)
    requires i <= r.end <= |text| && IsDelimiter(r.symbol) && LegalProgress(p)
    ensures LegalProgress(InRun(text, r, i, p))
    decreases r.end - i
  {
    if i < r.end {
      var (j, q) := RunStep(text, r, i, p);
      RunStepIsLegal(text, r, i, p);
      InRunIsLegal(text, r, j, q);
    }
  }

  lemma PlainStepIsLegal(text: string, i: nat, p: Progress)
    requires i < |text| && !IsDelimiter(text[i]) && LegalProgress(p)
    ensures LegalProgress(PlainStep(text, i, p).1)
  {
    InnermostIsLegal(p);
    var (j, q) := PlainStep(text, i, p);
    WithInnermostIsLegal(p, Plain(Innermost(p), text[i..j]));
    if text[i] == '`' && CodeClose(text, i).Some? {
      var close := CodeClose(text, i).value;
      assert '\n' !in text[i + 1..close] by {
        forall k | i + 1 <= k < close ensures text[k] != '\n' { assert text[k] == text[i..close][k - i]; }
      }
      WithInnermostIsLegal(p, Code(Innermost(p), text[i + 1..close]));
    }
  }

  lemma {:induction false} RestIsLegal(text: string, i: nat, p: Progress, cs: Classes)
    requires i <= |text| && LegalProgress(p)
    ensures Legal(Rest(text, i, p, cs), [])
    decreases |text| - i
  {
    if i == |text| {
      FinishIsLegal(p);
    } else if IsDelimiter(text[i]) {
      var r := RunAt(text, i, cs);
      InRunIsLegal(text, r, i, p);
      RestIsLegal(text, r.end, InRun(text, r, i, p), cs);
    } else {
      var (j, q) := PlainStep(text, i, p);
      PlainStepIsLegal(text, i, p);
      RestIsLegal(text, j, q, cs);
    }
  }

  lemma ParsedIsLegal(text: string, cs: Classes)
    ensures Legal(Parsed(text, cs), [])
  {
    RestIsLegal(text, 0, Start, cs);
  }

  // ---- Marks and dropped units

  /** Distinct marks, with code only innermost. */
  predicate GoodMarks(marks: seq<Mark>) {
    Distinct(marks) && forall k | 0 <= k < |marks| - 1 :: marks[k] != CodeMark
  }

  /** What a unit and its character may be, inside the open marks `outer`. */
  predicate GoodUnit(u: Option<seq<Mark>>, c: char, outer: seq<Mark>) {
    if u.Some? then GoodMarks(outer + u.value) else c in "*_~`"
  }

  lemma {:induction false} LegalUnits(f: Forest, outer: seq<Mark>, k: nat)
    requires Legal(f, outer) && Distinct(outer) && CodeMark !in outer && k < |UnitsOf(f)|
    ensures |UnitsOf(f)| == |Source(f)| && GoodUnit(UnitsOf(f)[k], Source(f)[k], outer)
    decreases f, 1
  {
    OneUnitPerCharacter(f);
    OneUnitPerCharacter(f.before);
    if k < |UnitsOf(f.before)| {
      LegalUnits(f.before, outer, k);
    } else {
      var j := k - |UnitsOf(f.before)|;
      assert UnitsOf(f)[k] == NodeUnits(f)[j] && Source(f)[k] == NodeSource(f)[j];
      LegalNodeUnits(f, outer, j);
    }
  }

  lemma {:induction false} LegalNodeUnits(f: Forest, outer: seq<Mark>, j: nat)
    requires !f.Empty? && Legal(f, outer) && Distinct(outer) && CodeMark !in outer && j < |NodeUnits(f)|
    requires |NodeUnits(f)| == |NodeSource(f)|
    ensures GoodUnit(NodeUnits(f)[j], NodeSource(f)[j], outer)
    decreases f, 0
  {
    if f.Styled? {
      OneUnitPerCharacter(f.kids);
      var i := j - |f.delimiter|;
      if 0 <= i < |UnitsOf(f.kids)| {
        LegalUnits(f.kids, outer + [f.mark], i);
        if UnitsOf(f.kids)[i].Some? {
          var inner := UnitsOf(f.kids)[i].value;
          assert outer + ([f.mark] + inner) == outer + [f.mark] + inner;
        }
      }
    }
  }

  /** Every kept unit has distinct marks with code innermost; every dropped one is a delimiter. */
  lemma ParsedUnits(text: string, cs: Classes, k: nat)
    requires k < |text|
    ensures |UnitsOf(Parsed(text, cs))| == |text|
    ensures match UnitsOf(Parsed(text, cs))[k]
      case Some(marks) => GoodMarks(marks)
      case None => text[k] in "*_~`"
  {
    ParsingKeepsTheSource(text, cs);
    ParsedIsLegal(text, cs);
    OneUnitPerCharacter(Parsed(text, cs));
    LegalUnits(Parsed(text, cs), [], k);
    var u := UnitsOf(Parsed(text, cs))[k];
    assert u.Some? ==> [] + u.value == u.value;
  }
}

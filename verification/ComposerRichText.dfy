/** The composer's one-pass inline Markdown parser, with its explicit frame stack and its merging
    in place, refined to the forest it reads (apps/web/src/composer-rich-text.ts). */
module ComposerRichText {
  import opened Options
  import opened InlineMarkdown

  /** A run of the text from `start` to `end` that parses with `marks`. */
  datatype Piece = Piece(start: nat, end: nat, marks: seq<Mark>)

  datatype StackFrame = StackFrame(delimiter: string, mark: Mark, start: nat, pieces: seq<Piece>)

  // ---- What a list of pieces says about the units from `base` on

  predicate NoneIn(us: Units, i: nat, j: nat)
    requires j <= |us|
  {
    forall k | i <= k < j :: us[k].None?
  }

  predicate MarkedIn(us: Units, i: nat, j: nat, marks: seq<Mark>)
    requires j <= |us|
  {
    forall k | i <= k < j :: us[k] == Some(marks)
  }

  predicate Joins(left: Piece, right: Piece) {
    left.end == right.start && left.marks == right.marks
  }

  /** The pieces are non-empty, in order, disjoint and maximally merged, and cover exactly those
      of the first `n` units that have marks, with those marks. */
  predicate Means(pieces: seq<Piece>, base: nat, us: Units, n: nat)
    requires n <= |us|
    decreases |pieces|
  {
    if pieces == [] then NoneIn(us, 0, n)
    else
      var last, init := pieces[|pieces| - 1], pieces[..|pieces| - 1];
      && base <= last.start < last.end <= base + n
      && NoneIn(us, last.end - base, n)
      && MarkedIn(us, last.start - base, last.end - base, last.marks)
      && (init != [] ==> init[|init| - 1].end <= last.start && !Joins(init[|init| - 1], last))
      && Means(init, base, us, last.start - base)
  }

  lemma {:induction false} MeansAgrees(pieces: seq<Piece>, base: nat, us: Units, vs: Units, n: nat)
    requires n <= |us| && n <= |vs| && Means(pieces, base, us, n)
    requires forall k | 0 <= k < n :: us[k] == vs[k]
    ensures Means(pieces, base, vs, n)
    decreases |pieces|
  {
    if |pieces| > 0 {
      MeansAgrees(pieces[..|pieces| - 1], base, us, vs, pieces[|pieces| - 1].start - base);
    }
  }

  lemma MeansSkips(pieces: seq<Piece>, base: nat, us: Units, n: nat, m: nat)
    requires n <= m <= |us| && Means(pieces, base, us, n) && NoneIn(us, n, m)
    ensures Means(pieces, base, us, m)
  {
  }

  /** Appends a piece, or lengthens the last one when it has the same marks and ends there. */
  method Push(pieces: seq<Piece>, start: nat, end: nat, marks: seq<Mark>, ghost base: nat, ghost us: Units)
    returns (pushed: seq<Piece>)
    requires base <= start <= end <= base + |us|
    requires Means(pieces, base, us, start - base) && MarkedIn(us, start - base, end - base, marks)
    ensures Means(pushed, base, us, end - base)
  {
    if end <= start {
      return pieces;
    }
    var n := |pieces|;
    if n > 0 && pieces[n - 1].end == start && pieces[n - 1].marks == marks {
      pushed := pieces[n - 1 := pieces[n - 1].(end := end)];
      assert pushed[..n - 1] == pieces[..n - 1];
    } else {
      pushed := pieces + [Piece(start, end, marks)];
      assert pushed[..n] == pieces;
    }
  }

  /** The end of the first `j` pieces. */
  function EndOf(pieces: seq<Piece>, base: nat, j: nat): nat
    requires j <= |pieces|
  {
    if j == 0 then base else pieces[j - 1].end
  }

  lemma {:induction false} PieceMeans(pieces: seq<Piece>, base: nat, us: Units, n: nat, j: nat)
    requires n <= |us| && Means(pieces, base, us, n) && j < |pieces|
    ensures base <= EndOf(pieces, base, j) <= pieces[j].start < pieces[j].end <= base + n
    ensures NoneIn(us, EndOf(pieces, base, j) - base, pieces[j].start - base)
    ensures MarkedIn(us, pieces[j].start - base, pieces[j].end - base, pieces[j].marks)
    ensures j > 0 ==> !Joins(pieces[j - 1], pieces[j])
    decreases |pieces|
  {
    var init := pieces[..|pieces| - 1];
    if j < |init| {
      PieceMeans(init, base, us, pieces[|pieces| - 1].start - base, j);
    }
  }

  lemma NothingAfterLast(pieces: seq<Piece>, base: nat, us: Units, n: nat)
    requires n <= |us| && Means(pieces, base, us, n)
    ensures base <= EndOf(pieces, base, |pieces|) <= base + n
    ensures NoneIn(us, EndOf(pieces, base, |pieces|) - base, n)
  {
  }

  /** The units `us` continue at `n` with the units `vs`, under `prefix`. */
  predicate Continues(us: Units, n: nat, vs: Units, prefix: seq<Mark>) {
    n + |vs| <= |us| && forall k | 0 <= k < |vs| :: us[n + k] == Under(prefix, vs)[k]
  }

  lemma NoneMoves(us: Units, n: nat, vs: Units, prefix: seq<Mark>, i: nat, j: nat)
    requires Continues(us, n, vs, prefix) && i <= j <= |vs| && NoneIn(vs, i, j)
    ensures NoneIn(us, n + i, n + j)
  {
    forall k | n + i <= k < n + j ensures us[k].None? { assert us[n + (k - n)] == Under(prefix, vs)[k - n]; }
  }

  lemma MarkedMoves(us: Units, n: nat, vs: Units, prefix: seq<Mark>, i: nat, j: nat, marks: seq<Mark>)
    requires Continues(us, n, vs, prefix) && i <= j <= |vs| && MarkedIn(vs, i, j, marks)
    ensures MarkedIn(us, n + i, n + j, prefix + marks)
  {
    forall k | n + i <= k < n + j ensures us[k] == Some(prefix + marks) {
      assert us[n + (k - n)] == Under(prefix, vs)[k - n];
    }
  }

  lemma NextPiece(pieces: seq<Piece>, more: seq<Piece>, prefix: seq<Mark>, j: nat, base: nat, us: Units, n: nat, vs: Units)
    requires Continues(us, n, vs, prefix) && Means(more, base + n, vs, |vs|) && j < |more|
    requires base + n <= EndOf(more, base + n, j) <= base + n + |vs|
    requires Means(pieces, base, us, EndOf(more, base + n, j) - base)
    ensures base + n <= more[j].start <= more[j].end <= base + n + |vs|
    ensures Means(pieces, base, us, more[j].start - base)
    ensures MarkedIn(us, more[j].start - base, more[j].end - base, prefix + more[j].marks)
  {
    hide Means;
    var p, e := more[j], EndOf(more, base + n, j);
    PieceMeans(more, base + n, vs, |vs|, j);
    NoneMoves(us, n, vs, prefix, e - base - n, p.start - base - n);
    MarkedMoves(us, n, vs, prefix, p.start - base - n, p.end - base - n, p.marks);
    MeansSkips(pieces, base, us, e - base, p.start - base);
  }

  /** Appends every piece of a frame, with `prefix` in front of its own marks. */
  method PushAll(pieces: seq<Piece>, more: seq<Piece>, prefix: seq<Mark>,
                 ghost base: nat, ghost us: Units, ghost n: nat, ghost vs: Units)
    returns (pushed: seq<Piece>)
    requires Continues(us, n, vs, prefix) && Means(pieces, base, us, n) && Means(more, base + n, vs, |vs|)
    ensures Means(pushed, base, us, n + |vs|)
  {
    hide Means;
    pushed := pieces;
    for j := 0 to |more|
      invariant base + n <= EndOf(more, base + n, j) <= base + n + |vs|
      invariant Means(pushed, base, us, EndOf(more, base + n, j) - base)
    {
      var p := more[j];
      NextPiece(pushed, more, prefix, j, base, us, n, vs);
      pushed := Push(pushed, p.start, p.end, prefix + p.marks, base, us);
    }
    ghost var e := EndOf(more, base + n, |more|);
    NothingAfterLast(more, base + n, vs, |vs|);
    NoneMoves(us, n, vs, prefix, e - base - n, |vs|);
    MeansSkips(pushed, base, us, e - base, n + |vs|);
  }

  // ---- What the stack says about the progress of reading

  predicate MeansForest(pieces: seq<Piece>, base: nat, f: Forest) {
    Means(pieces, base, UnitsOf(f), |UnitsOf(f)|)
  }

  /** Where reading stands after the root and these frames. */
  function Extent(root: Forest, frames: seq<Frame>): nat
    decreases |frames|
  {
    if frames == [] then |UnitsOf(root)|
    else
      var top := frames[|frames| - 1];
      Extent(root, frames[..|frames| - 1]) + |top.delimiter| + |UnitsOf(top.kids)|
  }

  predicate RepresentsFrame(f: StackFrame, p: Progress, k: nat)
    requires k < |p.frames|
  {
    && f.delimiter == p.frames[k].delimiter
    && f.mark == p.frames[k].mark
    && f.start == Extent(p.root, p.frames[..k])
    && MeansForest(f.pieces, f.start + |f.delimiter|, p.frames[k].kids)
  }

  predicate Represents(root: seq<Piece>, stack: seq<StackFrame>, p: Progress, index: nat) {
    && |stack| == |p.frames|
    && MeansForest(root, 0, p.root)
    && (forall k | 0 <= k < |stack| :: RepresentsFrame(stack[k], p, k))
    && index == Extent(p.root, p.frames)
  }

  function InnermostPieces(root: seq<Piece>, stack: seq<StackFrame>): seq<Piece> {
    if stack == [] then root else stack[|stack| - 1].pieces
  }

  function InnermostBase(stack: seq<StackFrame>): nat {
    if stack == [] then 0 else stack[|stack| - 1].start + |stack[|stack| - 1].delimiter|
  }

  function WithPieces(root: seq<Piece>, stack: seq<StackFrame>, pieces: seq<Piece>): (seq<Piece>, seq<StackFrame>) {
    if stack == [] then (pieces, stack)
    else (root, stack[|stack| - 1 := stack[|stack| - 1].(pieces := pieces)])
  }

  lemma InnermostMeans(root: seq<Piece>, stack: seq<StackFrame>, p: Progress, index: nat)
    requires Represents(root, stack, p, index)
    ensures MeansForest(InnermostPieces(root, stack), InnermostBase(stack), Innermost(p))
    ensures index == InnermostBase(stack) + |UnitsOf(Innermost(p))|
  {
    hide Means;
    if |stack| > 0 { assert RepresentsFrame(stack[|stack| - 1], p, |stack| - 1); }
  }

  lemma KeepingFrame(f: StackFrame, p: Progress, k: nat, kids: Forest)
    requires k < |p.frames| && RepresentsFrame(f, p, k)
    ensures var q := WithInnermost(p, kids);
      && q.frames[..k] == p.frames[..k]
      && (k < |p.frames| - 1 ==> RepresentsFrame(f, q, k))
  {
  }

  lemma ReplacingTop(root: seq<Piece>, stack: seq<StackFrame>, p: Progress, index: nat, pieces: seq<Piece>, f: Forest)
    requires Represents(root, stack, p, index) && MeansForest(pieces, InnermostBase(stack), f) && |stack| > 0
    ensures
      var n := |stack| - 1;
      Represents(root, stack[n := stack[n].(pieces := pieces)], WithInnermost(p, f),
                 InnermostBase(stack) + |UnitsOf(f)|)
  {
    hide Means;
    var n := |stack| - 1;
    var q := WithInnermost(p, f);
    var replaced := stack[n := stack[n].(pieces := pieces)];
    KeepingFrame(stack[n], p, n, f);
    assert RepresentsFrame(replaced[n], q, n);
    forall k | 0 <= k < n ensures RepresentsFrame(replaced[k], q, k) {
      KeepingFrame(stack[k], p, k, f);
    }
  }

  lemma ReplacingInnermost(root: seq<Piece>, stack: seq<StackFrame>, p: Progress, index: nat,
                           pieces: seq<Piece>, f: Forest)
    requires Represents(root, stack, p, index) && MeansForest(pieces, InnermostBase(stack), f)
    ensures
      var (root', stack') := WithPieces(root, stack, pieces);
      Represents(root', stack', WithInnermost(p, f), InnermostBase(stack) + |UnitsOf(f)|)
  {
    hide Means;
    if |stack| > 0 { ReplacingTop(root, stack, p, index, pieces, f); }
  }

  lemma PoppingFrame(root: seq<Piece>, stack: seq<StackFrame>, p: Progress, index: nat)
    requires Represents(root, stack, p, index) && |stack| > 0
    ensures
      var n := |stack| - 1;
      && RepresentsFrame(stack[n], p, n)
      && Represents(root, stack[..n], p.(frames := p.frames[..n]), stack[n].start)
  {
    hide Means;
    var n := |stack| - 1;
    assert RepresentsFrame(stack[n], p, n);
    forall k | 0 <= k < n ensures RepresentsFrame(stack[..n][k], p.(frames := p.frames[..n]), k) {
      assert RepresentsFrame(stack[k], p, k);
      assert p.frames[..n][..k] == p.frames[..k];
    }
  }

  lemma PushingFrame(root: seq<Piece>, stack: seq<StackFrame>, p: Progress, index: nat, delimiter: string, mark: Mark)
    requires Represents(root, stack, p, index)
    ensures Represents(root, stack + [StackFrame(delimiter, mark, index, [])],
                       OpenFrame(p, delimiter, mark), index + |delimiter|)
  {
    var n := |stack|;
    var grown := stack + [StackFrame(delimiter, mark, index, [])];
    var q := OpenFrame(p, delimiter, mark);
    assert q.frames[..n] == p.frames;
    forall k | 0 <= k < |grown| ensures RepresentsFrame(grown[k], q, k) {
      if k < n {
        assert RepresentsFrame(stack[k], p, k);
        assert q.frames[..k] == p.frames[..k];
      }
    }
  }

  /** The innermost list gains a piece; `index` to `start` and `end` to `next` are dropped. */
  method PushInnermost(root: seq<Piece>, stack: seq<StackFrame>, start: nat, end: nat, marks: seq<Mark>,
                       ghost p: Progress, ghost f: Forest, ghost index: nat, ghost next: nat)
    returns (root': seq<Piece>, stack': seq<StackFrame>)
    requires Represents(root, stack, p, index) && index <= start <= end <= next
    requires UnitsOf(f) == UnitsOf(Innermost(p)) + (Dropped(start - index) + Marked(end - start, marks) + Dropped(next - end))
    ensures Represents(root', stack', WithInnermost(p, f), next)
  {
    hide Means;
    ghost var base, us := InnermostBase(stack), UnitsOf(f);
    InnermostMeans(root, stack, p, index);
    var pieces := InnermostPieces(root, stack);
    MeansAgrees(pieces, base, UnitsOf(Innermost(p)), us, index - base);
    MeansSkips(pieces, base, us, index - base, start - base);
    pieces := Push(pieces, start, end, marks, base, us);
    MeansSkips(pieces, base, us, end - base, next - base);
    ReplacingInnermost(root, stack, p, index, pieces, f);
    var (r, s) := WithPieces(root, stack, pieces);
    root', stack' := r, s;
  }

  lemma EnclosedUnits(before: Forest, mark: Mark, d: string, kids: Forest)
    ensures
      var us, n, m := UnitsOf(Styled(before, mark, d, kids)), |UnitsOf(before)|, |UnitsOf(kids)|;
      && |us| == n + |d| + m + |d|
      && (forall k | 0 <= k < n :: UnitsOf(before)[k] == us[k])
      && NoneIn(us, n, n + |d|) && NoneIn(us, n + |d| + m, |us|)
      && Continues(us, n + |d|, UnitsOf(kids), [mark])
  {
    StyledUnits(before, mark, d, kids);
  }

  /** A frame's pieces move out under its mark; its delimiters are dropped. */
  method Enclose(pieces: seq<Piece>, top: StackFrame, ghost base: nat, ghost before: Forest, ghost kids: Forest)
    returns (pushed: seq<Piece>)
    requires MeansForest(pieces, base, before) && base + |UnitsOf(before)| == top.start
    requires MeansForest(top.pieces, top.start + |top.delimiter|, kids)
    ensures MeansForest(pushed, base, Styled(before, top.mark, top.delimiter, kids))
  {
    hide Means, UnitsOf, Continues;
    ghost var us, vs := UnitsOf(Styled(before, top.mark, top.delimiter, kids)), UnitsOf(kids);
    ghost var n, d := |UnitsOf(before)|, |top.delimiter|;
    EnclosedUnits(before, top.mark, top.delimiter, kids);
    MeansAgrees(pieces, base, UnitsOf(before), us, n);
    MeansSkips(pieces, base, us, n, n + d);
    pushed := PushAll(pieces, top.pieces, [top.mark], base, us, n + d, vs);
    MeansSkips(pushed, base, us, n + d + |vs|, |us|);
  }

  /** A frame's delimiter becomes text, and its pieces follow as they are. */
  method Release(pieces: seq<Piece>, top: StackFrame, ghost base: nat, ghost before: Forest, ghost kids: Forest)
    returns (pushed: seq<Piece>)
    requires MeansForest(pieces, base, before) && base + |UnitsOf(before)| == top.start
    requires MeansForest(top.pieces, top.start + |top.delimiter|, kids)
    ensures MeansForest(pushed, base, Append(Plain(before, top.delimiter), kids))
  {
    hide Means;
    ghost var us, vs := UnitsOf(Append(Plain(before, top.delimiter), kids)), UnitsOf(kids);
    ghost var n, d := |UnitsOf(before)|, |top.delimiter|;
    ReleasedUnits(before, top.delimiter, kids);
    MeansAgrees(pieces, base, UnitsOf(before), us, n);
    pushed := Push(pieces, top.start, top.start + |top.delimiter|, [], base, us);
    pushed := PushAll(pushed, top.pieces, [], base, us, n + d, vs);
  }

  method Close(root: seq<Piece>, stack: seq<StackFrame>, ghost p: Progress, ghost index: nat)
    returns (root': seq<Piece>, stack': seq<StackFrame>)
    requires Represents(root, stack, p, index) && |stack| > 0
    ensures Represents(root', stack', CloseFrame(p), index + |stack[|stack| - 1].delimiter|)
  {
    hide Means;
    var n := |stack| - 1;
    var top, below := stack[n], stack[..n];
    PoppingFrame(root, stack, p, index);
    ghost var q, kids := p.(frames := p.frames[..n]), p.frames[n].kids;
    InnermostMeans(root, below, q, top.start);
    var pieces := Enclose(InnermostPieces(root, below), top, InnermostBase(below), Innermost(q), kids);
    StyledUnits(Innermost(q), top.mark, top.delimiter, kids);
    ReplacingInnermost(root, below, q, top.start, pieces, Styled(Innermost(q), top.mark, top.delimiter, kids));
    var (r, s) := WithPieces(root, below, pieces);
    root', stack' := r, s;
  }

  method RestoreTop(root: seq<Piece>, stack: seq<StackFrame>, ghost p: Progress, ghost index: nat)
    returns (root': seq<Piece>, stack': seq<StackFrame>)
    requires Represents(root, stack, p, index) && |stack| > 0
    ensures Represents(root', stack', Restore(p), index) && |stack'| == |stack| - 1
  {
    hide Means;
    var n := |stack| - 1;
    var top, below := stack[n], stack[..n];
    PoppingFrame(root, stack, p, index);
    ghost var q, kids := p.(frames := p.frames[..n]), p.frames[n].kids;
    ghost var f := Append(Plain(Innermost(q), top.delimiter), kids);
    InnermostMeans(root, below, q, top.start);
    var pieces := Release(InnermostPieces(root, below), top, InnermostBase(below), Innermost(q), kids);
    ReleasedUnits(Innermost(q), top.delimiter, kids);
    ReplacingInnermost(root, below, q, top.start, pieces, f);
    var (r, s) := WithPieces(root, below, pieces);
    root', stack' := r, s;
  }

  // ---- The parser

  method RunLength(text: string, index: nat) returns (end: nat)
    requires index < |text|
    ensures end == RunEnd(text, index, text[index]) && index < end
  {
    end := index;
    while end < |text| && text[end] == text[index]
      invariant index <= end <= |text|
      invariant RunEnd(text, index, text[index]) == RunEnd(text, end, text[index])
    {
      end := end + 1;
    }
  }

  /** JavaScript's indexOf for one backtick. */
  method IndexOfTick(text: string, from: nat) returns (found: Option<nat>)
    requires from <= |text|
    ensures found == NextTick(text, from)
  {
    var i := from;
    while i < |text| && text[i] != '`'
      invariant from <= i <= |text|
      invariant NextTick(text, from) == NextTick(text, i)
    {
      i := i + 1;
    }
    found := if i < |text| then Some(i) else None;
  }

  /** Escapes, backticks and plain characters. */
  method ParsePlain(text: string, root: seq<Piece>, stack: seq<StackFrame>, index: nat, ghost p: Progress)
    returns (root': seq<Piece>, stack': seq<StackFrame>, next: nat)
    requires index < |text| && !IsDelimiter(text[index]) && Represents(root, stack, p, index)
    ensures next == PlainStep(text, index, p).0
    ensures Represents(root', stack', PlainStep(text, index, p).1, next)
  {
    hide Means, Represents;
    if text[index] == '\\' {
      next := if index + 2 <= |text| then index + 2 else |text|;
    } else if text[index] == '`' {
      var end := RunLength(text, index);
      var close := IndexOfTick(text, index + 1);
      if end == index + 1 && close.Some? && close.value > index + 1
         && '\n' !in text[index..close.value]
         && (close.value + 1 == |text| || text[close.value + 1] != '`')
      {
        ghost var code := Code(Innermost(p), text[index + 1..close.value]);
        next := close.value + 1;
        root', stack' := PushInnermost(root, stack, index + 1, close.value, [CodeMark], p, code, index, next);
        return;
      }
      next := end;
    } else {
      next := index + 1;
    }
    root', stack' := PushText(text, root, stack, index, next, p);
  }

  predicate StackHas(stack: seq<StackFrame>, mark: Mark) {
    exists k | 0 <= k < |stack| :: stack[k].mark == mark
  }

  lemma StackMarks(root: seq<Piece>, stack: seq<StackFrame>, p: Progress, index: nat, mark: Mark)
    requires Represents(root, stack, p, index)
    ensures |stack| == |p.frames| && StackHas(stack, mark) == HasMark(p, mark)
    ensures forall k | 0 <= k < |stack| :: stack[k].mark == p.frames[k].mark && stack[k].delimiter == p.frames[k].delimiter
  {
    forall k | 0 <= k < |stack| ensures stack[k].mark == p.frames[k].mark && stack[k].delimiter == p.frames[k].delimiter {
      assert RepresentsFrame(stack[k], p, k);
    }
  }

  /** One decision inside a run: close the top frame, open one, or keep the rest as text. */
  method ParseRunStep(text: string, r: Run, root: seq<Piece>, stack: seq<StackFrame>, index: nat, ghost p: Progress)
    returns (root': seq<Piece>, stack': seq<StackFrame>, next: nat)
    requires index < r.end <= |text|
    requires Represents(root, stack, p, index) && LegalProgress(p)
    ensures next == RunStep(text, r, index, p).0
    ensures Represents(root', stack', RunStep(text, r, index, p).1, next)
  {
    hide Represents;
    StackMarks(root, stack, p, index, Bold);
    var opensNestedBold :=
      && |stack| > 0 && stack[|stack| - 1].mark == Italic
      && r.end - index == 2 && r.canOpen && (r.symbol == '*' || r.symbol == '_')
      && !StackHas(stack, Bold);
    if !opensNestedBold && r.canClose && |stack| > 0
       && index + |stack[|stack| - 1].delimiter| <= r.end
       && text[index..index + |stack[|stack| - 1].delimiter|] == stack[|stack| - 1].delimiter
    {
      next := index + |stack[|stack| - 1].delimiter|;
      root', stack' := Close(root, stack, p, index);
    } else if r.canOpen && (r.symbol != '~' || r.end - index >= 2) {
      var length := if r.symbol == '~' || r.end - index >= 2 then 2 else 1;
      var mark := if r.symbol == '~' then Strike else if length == 2 then Bold else Italic;
      StackMarks(root, stack, p, index, mark);
      if StackHas(stack, mark) {
        next := r.end;
        root', stack' := PushText(text, root, stack, index, next, p);
      } else {
        next := index + length;
        PushingFrame(root, stack, p, index, Repeat(r.symbol, length), mark);
        root', stack' := root, stack + [StackFrame(Repeat(r.symbol, length), mark, index, [])];
      }
    } else {
      next := r.end;
      root', stack' := PushText(text, root, stack, index, next, p);
    }
  }

  /** A run of one delimiter character, decided piece by piece; the stack stays within three. */
  method ParseRun(text: string, cs: Classes, root: seq<Piece>, stack: seq<StackFrame>, start: nat, ghost p: Progress)
    returns (root': seq<Piece>, stack': seq<StackFrame>, end: nat, ghost q: Progress)
    requires start < |text| && IsDelimiter(text[start])
    requires Represents(root, stack, p, start) && LegalProgress(p)
    ensures end == RunAt(text, start, cs).end && q == InRun(text, RunAt(text, start, cs), start, p)
    ensures Represents(root', stack', q, end) && LegalProgress(q) && |stack'| <= 3
  {
    hide Means;
    var c := text[start];
    end := RunLength(text, start);
    var canClose := start > 0 && !cs.space(text[start - 1]) && (c != '_' || !(end < |text| && cs.word(text[end])));
    var canOpen := end < |text| && !cs.space(text[end]) && (c != '_' || !(start > 0 && cs.word(text[start - 1])));
    var r := Run(c, end, canOpen, canClose);
    assert r == RunAt(text, start, cs);
    var index := start;
    root', stack', q := root, stack, p;
    AtMostThreeFrames(p);
    while index < end
      invariant start <= index <= end
      invariant Represents(root', stack', q, index) && LegalProgress(q) && |stack'| <= 3
      invariant InRun(text, r, index, q) == InRun(text, r, start, p)
    {
      ghost var next := RunStep(text, r, index, q).1;
      RunStepIsLegal(text, r, index, q);
      AtMostThreeFrames(next);
      root', stack', index := ParseRunStep(text, r, root', stack', index, q);
      q := next;
    }
  }

  method PushText(text: string, root: seq<Piece>, stack: seq<StackFrame>, start: nat, end: nat, ghost p: Progress)
    returns (root': seq<Piece>, stack': seq<StackFrame>)
    requires start <= end <= |text| && Represents(root, stack, p, start)
    ensures Represents(root', stack', AddPlain(p, text[start..end]), end)
  {
    hide Means;
    ghost var f := Plain(Innermost(p), text[start..end]);
    assert Dropped(0) + Marked(end - start, []) + Dropped(0) == Marked(end - start, []);
    root', stack' := PushInnermost(root, stack, start, end, [], p, f, start, end);
  }

  /** The pieces are exactly the merged normal form of the forest that the text parses to. */
  method ParseInlineMarkdownPieces(text: string, cs: Classes) returns (root: seq<Piece>)
    ensures MeansForest(root, 0, Parsed(text, cs))
  {
    root := [];
    var stack: seq<StackFrame> := [];
    var index := 0;
    ghost var p := Start;
    while index < |text|
      invariant index <= |text|
      invariant Represents(root, stack, p, index) && LegalProgress(p)
      invariant Rest(text, index, p, cs) == Parsed(text, cs)
    {
      if IsDelimiter(text[index]) {
        root, stack, index, p := ParseRun(text, cs, root, stack, index, p);
      } else {
        ghost var q := PlainStep(text, index, p).1;
        PlainStepIsLegal(text, index, p);
        root, stack, index := ParsePlain(text, root, stack, index, p);
        p := q;
      }
    }
    while |stack| > 0
      invariant Represents(root, stack, p, |text|)
      invariant Finish(p) == Parsed(text, cs)
    {
      root, stack := RestoreTop(root, stack, p, |text|);
      p := Restore(p);
    }
  }

  // ---- What callers make of the pieces

  lemma NoPiecesExactlyWhenUnmarked(ps: seq<Piece>, base: nat, us: Units, n: nat)
    requires n <= |us| && Means(ps, base, us, n)
    ensures ps == [] <==> NoneIn(us, 0, n)
  {
    if |ps| > 0 { assert us[ps[|ps| - 1].start - base].Some?; }
  }

  /** The unit before the last piece does not have that piece's marks. */
  lemma LastPieceIsMaximal(ps: seq<Piece>, base: nat, us: Units, n: nat)
    requires n <= |us| && Means(ps, base, us, n) && |ps| > 0
    ensures
      var p := ps[|ps| - 1];
      base < p.start ==> us[p.start - 1 - base] != Some(p.marks)
  {
    var init := ps[..|ps| - 1];
    if |init| > 0 {
      var q := init[|init| - 1];
      assert us[q.end - 1 - base] == Some(q.marks);
    }
  }

  lemma StartIsDetermined(ps: seq<Piece>, qs: seq<Piece>, base: nat, us: Units, n: nat)
    requires n <= |us| && Means(ps, base, us, n) && Means(qs, base, us, n) && |ps| > 0 && |qs| > 0
    requires ps[|ps| - 1].end == qs[|qs| - 1].end && ps[|ps| - 1].marks == qs[|qs| - 1].marks
    ensures ps[|ps| - 1].start <= qs[|qs| - 1].start
  {
    LastPieceIsMaximal(ps, base, us, n);
  }

  lemma LastPieceIsDetermined(ps: seq<Piece>, qs: seq<Piece>, base: nat, us: Units, n: nat)
    requires n <= |us| && Means(ps, base, us, n) && Means(qs, base, us, n) && |ps| > 0 && |qs| > 0
    ensures ps[|ps| - 1] == qs[|qs| - 1]
  {
    var p, q := ps[|ps| - 1], qs[|qs| - 1];
    assert us[p.end - 1 - base] == Some(p.marks) && us[q.end - 1 - base] == Some(q.marks);
    StartIsDetermined(ps, qs, base, us, n);
    StartIsDetermined(qs, ps, base, us, n);
  }

  /** Two piece lists that mean the same are the same. */
  lemma {:induction false} MeaningDeterminesPieces(ps: seq<Piece>, qs: seq<Piece>, base: nat, us: Units, n: nat)
    requires n <= |us| && Means(ps, base, us, n) && Means(qs, base, us, n)
    ensures ps == qs
    decreases |ps|
  {
    NoPiecesExactlyWhenUnmarked(ps, base, us, n);
    NoPiecesExactlyWhenUnmarked(qs, base, us, n);
    if |ps| > 0 && |qs| > 0 {
      var p := ps[|ps| - 1];
      LastPieceIsDetermined(ps, qs, base, us, n);
      MeaningDeterminesPieces(ps[..|ps| - 1], qs[..|qs| - 1], base, us, p.start - base);
      assert ps == ps[..|ps| - 1] + [p] && qs == qs[..|qs| - 1] + [p];
    }
  }

  /** Marks for each unit of the text, or None for a delimiter that parsing drops. */
  method InlineMarkdownUnitMarks(text: string, cs: Classes) returns (result: array<Option<seq<Mark>>>)
    ensures result[..] == UnitsOf(Parsed(text, cs))
  {
    hide Means, UnitsOf;
    var pieces := ParseInlineMarkdownPieces(text, cs);
    ghost var us := UnitsOf(Parsed(text, cs));
    ParsingKeepsTheSource(text, cs);
    OneUnitPerCharacter(Parsed(text, cs));
    result := new Option<seq<Mark>>[|text|](_ => None);
    for j := 0 to |pieces|
      invariant EndOf(pieces, 0, j) <= |us|
      invariant forall k | 0 <= k < |us| :: result[k] == if k < EndOf(pieces, 0, j) then us[k] else None
    {
      PieceMeans(pieces, 0, us, |us|, j);
      for k := pieces[j].start to pieces[j].end
        invariant forall i | 0 <= i < |us| :: result[i] == if i < EndOf(pieces, 0, j) || pieces[j].start <= i < k then us[i] else None
      {
        result[k] := Some(pieces[j].marks);
      }
    }
    NothingAfterLast(pieces, 0, us, |us|);
  }

  datatype Span = Span(text: string, marks: seq<Mark>)

  function Tagged(text: string, marks: seq<Mark>): seq<(char, seq<Mark>)> {
    seq(|text|, i requires 0 <= i < |text| => (text[i], marks))
  }

  function SpanUnits(spans: seq<Span>): seq<(char, seq<Mark>)> {
    if spans == [] then []
    else SpanUnits(spans[..|spans| - 1]) + Tagged(spans[|spans| - 1].text, spans[|spans| - 1].marks)
  }

  /** The kept characters among the first `n`, in order, each with its marks. */
  function Kept(text: string, us: Units, n: nat): seq<(char, seq<Mark>)>
    requires n <= |text| == |us|
  {
    if n == 0 then []
    else Kept(text, us, n - 1) + (if us[n - 1].Some? then [(text[n - 1], us[n - 1].value)] else [])
  }

  lemma {:induction false} KeptSkips(text: string, us: Units, n: nat, m: nat)
    requires n <= m <= |text| == |us| && NoneIn(us, n, m)
    ensures Kept(text, us, m) == Kept(text, us, n)
  {
    if n < m { KeptSkips(text, us, n, m - 1); }
  }

  lemma {:induction false} KeptTakes(text: string, us: Units, n: nat, m: nat, marks: seq<Mark>)
    requires n <= m <= |text| == |us| && MarkedIn(us, n, m, marks)
    ensures Kept(text, us, m) == Kept(text, us, n) + Tagged(text[n..m], marks)
  {
    if n < m { KeptTakes(text, us, n, m - 1, marks); }
  }

  lemma TaggedJoins(s: string, t: string, marks: seq<Mark>)
    ensures Tagged(s + t, marks) == Tagged(s, marks) + Tagged(t, marks)
  {
  }

  /** No span is empty, and neighbours differ in marks. */
  predicate ProperSpans(spans: seq<Span>) {
    && (forall k | 0 < k < |spans| :: spans[k - 1].marks != spans[k].marks)
    && (forall span <- spans :: span.text != [])
  }

  method AppendSpan(spans: seq<Span>, slice: string, marks: seq<Mark>) returns (appended: seq<Span>)
    requires ProperSpans(spans) && slice != []
    ensures ProperSpans(appended) && SpanUnits(appended) == SpanUnits(spans) + Tagged(slice, marks)
  {
    hide Tagged;
    var n := |spans|;
    if n > 0 && spans[n - 1].marks == marks {
      TaggedJoins(spans[n - 1].text, slice, marks);
      appended := spans[n - 1 := Span(spans[n - 1].text + slice, marks)];
      assert appended[..n - 1] == spans[..n - 1];
    } else {
      appended := spans + [Span(slice, marks)];
      assert appended[..n] == spans;
    }
  }

  /** The spans carry exactly the kept characters with their marks. */
  method ParseInlineMarkdown(text: string, cs: Classes) returns (spans: seq<Span>)
    ensures |UnitsOf(Parsed(text, cs))| == |text|
    ensures SpanUnits(spans) == Kept(text, UnitsOf(Parsed(text, cs)), |text|)
    ensures ProperSpans(spans)
  {
    hide Means, UnitsOf;
    var pieces := ParseInlineMarkdownPieces(text, cs);
    ghost var us := UnitsOf(Parsed(text, cs));
    ParsingKeepsTheSource(text, cs);
    OneUnitPerCharacter(Parsed(text, cs));
    spans := [];
    for j := 0 to |pieces|
      invariant EndOf(pieces, 0, j) <= |us|
      invariant SpanUnits(spans) == Kept(text, us, EndOf(pieces, 0, j))
      invariant ProperSpans(spans)
    {
      var piece := pieces[j];
      PieceMeans(pieces, 0, us, |us|, j);
      KeptSkips(text, us, EndOf(pieces, 0, j), piece.start);
      KeptTakes(text, us, piece.start, piece.end, piece.marks);
      spans := AppendSpan(spans, text[piece.start..piece.end], piece.marks);
    }
    NothingAfterLast(pieces, 0, us, |us|);
    KeptSkips(text, us, EndOf(pieces, 0, |pieces|), |us|);
  }
}

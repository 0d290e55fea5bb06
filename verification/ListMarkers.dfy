/** List markers at the start of a line: recognising them, measuring their indent, and writing the next one
    (apps/web/src/composer-list-continuation.ts). */
module ListMarkers {
  import opened Options
  import opened Decimals

  datatype Marker =
    | Ordered(indent: string, numberText: string, delimiter: char, space: string)
    | Task(indent: string, space: string)
    | Bullet(indent: string, bullet: char, space: string)

  /** contentColumn is the column that a nested item must reach to belong to this item. */
  datatype Parsed = Parsed(marker: Marker, markerEnd: nat, contentColumn: nat)

  predicate IsBlank(c: char) {
    c == ' ' || c == '\t'
  }

  /** White space and line ends, as JavaScript's \s and trim know them. */
  predicate IsSpace(c: char) {
    IsBlank(c) || c == '\n' || c == '\r' || c == '\U{000B}' || c == '\U{000C}' || c == '\U{00A0}' || c == '\U{1680}'
    || '\U{2000}' <= c <= '\U{200A}' || c == '\U{2028}' || c == '\U{2029}' || c == '\U{202F}' || c == '\U{205F}'
    || c == '\U{3000}' || c == '\U{FEFF}'
  }

  predicate AllSpace(text: string) {
    forall c <- text :: IsSpace(c)
  }

  function SkipBlanks(line: string, i: nat): (j: nat)
    requires i <= |line|
    ensures i <= j <= |line| && (forall k | i <= k < j :: IsBlank(line[k])) && (j < |line| ==> !IsBlank(line[j]))
    decreases |line| - i
  {
    if i < |line| && IsBlank(line[i]) then SkipBlanks(line, i + 1) else i
  }

  function SkipDigits(line: string, i: nat): (j: nat)
    requires i <= |line|
    ensures i <= j <= |line| && (forall k | i <= k < j :: IsDigit(line[k])) && (j < |line| ==> !IsDigit(line[j]))
    decreases |line| - i
  {
    if i < |line| && IsDigit(line[i]) then SkipDigits(line, i + 1) else i
  }

  lemma {:induction false} BlanksEndAt(line: string, i: nat, j: nat)
    requires i <= j <= |line| && (forall k | i <= k < j :: IsBlank(line[k])) && (j < |line| ==> !IsBlank(line[j]))
    ensures SkipBlanks(line, i) == j
    decreases j - i
  {
    if i < j {
      BlanksEndAt(line, i + 1, j);
    }
  }

  lemma {:induction false} DigitsEndAt(line: string, i: nat, j: nat)
    requires i <= j <= |line| && (forall k | i <= k < j :: IsDigit(line[k])) && (j < |line| ==> !IsDigit(line[j]))
    ensures SkipDigits(line, i) == j
    decreases j - i
  {
    if i < j {
      DigitsEndAt(line, i + 1, j);
    }
  }

  /** Where the padding after a marker ends: blanks, or nothing but space up to the end of the line. */
  function PaddingEnd(line: string, i: nat): (end: Option<nat>)
    requires i <= |line|
    ensures end.Some? ==> i <= end.value <= |line|
  {
    if i < |line| && IsBlank(line[i]) then Some(SkipBlanks(line, i))
    else if AllSpace(line[i..]) then Some(|line|)
    else None
  }

  // ---- Columns

  function NextColumn(column: nat, c: char): nat {
    if c == ' ' then column + 1 else column + (4 - column % 4)
  }

  /** The column after the leading blanks of a text that starts at a given column; tabs stop every four columns. */
  function ColumnAfter(text: string, column: nat): (r: nat)
    ensures column <= r
  {
    if text == "" || !IsBlank(text[0]) then column else ColumnAfter(text[1..], NextColumn(column, text[0]))
  }

  function Width(text: string): nat {
    ColumnAfter(text, 0)
  }

  method IndentWidth(line: string, fromColumn: nat) returns (width: nat)
    ensures width == ColumnAfter(line, fromColumn) - fromColumn
  {
    var column: nat := fromColumn;
    for i := 0 to |line|
      invariant ColumnAfter(line[i..], column) == ColumnAfter(line, fromColumn)
    {
      if line[i] == ' ' {
        column := column + 1;
      } else if line[i] == '\t' {
        column := column + (4 - column % 4);
      } else {
        return column - fromColumn;
      }
    }
    width := column - fromColumn;
  }

  lemma {:induction false} WidthOfIndent(line: string, i: nat, column: nat)
    requires i <= |line| && (forall k | 0 <= k < i :: IsBlank(line[k])) && (i < |line| ==> !IsBlank(line[i]))
    ensures ColumnAfter(line, column) == ColumnAfter(line[..i], column)
  {
    if i > 0 {
      WidthOfIndent(line[1..], i - 1, NextColumn(column, line[0]));
      assert line[..i][1..] == line[1..][..i - 1];
    }
  }

  function ContentColumn(indent: string, markerWidth: nat, padding: string): nat {
    var markerEnd := Width(indent) + markerWidth;
    var space := ColumnAfter(padding, markerEnd) - markerEnd;
    markerEnd + if 1 <= space <= 4 then space else 1
  }

  // ---- Recognising markers

  function ParseOrdered(line: string, i: nat): Option<Parsed>
    requires i <= |line|
  {
    var j := SkipDigits(line, i);
    if j == i || j == |line| || (line[j] != '.' && line[j] != ')') || PaddingEnd(line, j + 1).None? then None
    else
      var end := PaddingEnd(line, j + 1).value;
      Some(Parsed(Ordered(line[..i], line[i..j], line[j], line[j + 1..end]), end,
                  ContentColumn(line[..i], j - i + 1, line[j + 1..end])))
  }

  function ParseTask(line: string, i: nat): Option<Parsed>
    requires i <= |line|
  {
    if i + 5 > |line| || line[i] != '-' || !IsSpace(line[i + 1]) || line[i + 2] != '['
       || (line[i + 3] != ' ' && line[i + 3] != 'x' && line[i + 3] != 'X') || line[i + 4] != ']'
       || PaddingEnd(line, i + 5).None? then None
    else
      var end := PaddingEnd(line, i + 5).value;
      Some(Parsed(Task(line[..i], line[i + 5..end]), end, ContentColumn(line[..i], 1, [line[i + 1]])))
  }

  function ParseBullet(line: string, i: nat): Option<Parsed>
    requires i <= |line|
  {
    if i == |line| || (line[i] != '-' && line[i] != '*' && line[i] != '+') || PaddingEnd(line, i + 1).None? then None
    else
      var end := PaddingEnd(line, i + 1).value;
      Some(Parsed(Bullet(line[..i], line[i], line[i + 1..end]), end, ContentColumn(line[..i], 1, line[i + 1..end])))
  }

  function ParseListMarker(line: string): Option<Parsed> {
    var i := SkipBlanks(line, 0);
    if ParseOrdered(line, i).Some? then ParseOrdered(line, i)
    else if ParseTask(line, i).Some? then ParseTask(line, i)
    else ParseBullet(line, i)
  }

  /** What the source writes between the indent and the padding. */
  function MarkerLength(m: Marker): nat {
    match m
    case Ordered(_, numberText, _, _) => |numberText| + 1
    case Task(_, _) => 5
    case Bullet(_, _, _) => 1
  }

  /** A recognised marker lies at the start of its line: its indent, then the marker, then its padding. */
  ghost predicate StartsLine(line: string, p: Parsed) {
    && p.markerEnd == |p.marker.indent| + MarkerLength(p.marker) + |p.marker.space| <= |line|
    && line[..|p.marker.indent|] == p.marker.indent
    && line[p.markerEnd - |p.marker.space|..p.markerEnd] == p.marker.space
    && (forall c <- p.marker.indent :: IsBlank(c))
    && (p.marker.Ordered? ==>
          |p.marker.numberText| > 0 && AllDigits(p.marker.numberText)
          && (p.marker.delimiter == '.' || p.marker.delimiter == ')')
          && line[|p.marker.indent|..|p.marker.indent| + |p.marker.numberText| + 1]
             == p.marker.numberText + [p.marker.delimiter])
    && (p.marker.Bullet? ==> IsBullet(p.marker.bullet) && line[|p.marker.indent|] == p.marker.bullet)
    && (p.marker.Task? ==>
          var i := |p.marker.indent|;
          line[i] == '-' && IsSpace(line[i + 1]) && line[i + 2] == '[' && (line[i + 3] == ' ' || line[i + 3] == 'x' || line[i + 3] == 'X')
          && line[i + 4] == ']')
    && IsPadding(p.marker.space, line[p.markerEnd..])
  }

  predicate IsBullet(c: char) {
    c == '-' || c == '*' || c == '+'
  }

  /** The padding after a marker: all the blanks there are, or all there is on the line. */
  predicate IsPadding(space: string, rest: string) {
    (space != "" && (forall c <- space :: IsBlank(c)) && (rest != "" ==> !IsBlank(rest[0]))) || (rest == "" && AllSpace(space))
  }

  lemma PaddingIsPadding(line: string, i: nat)
    requires i <= |line| && PaddingEnd(line, i).Some?
    ensures var end := PaddingEnd(line, i).value; IsPadding(line[i..end], line[end..])
  {
    var end := PaddingEnd(line, i).value;
    if i < |line| && IsBlank(line[i]) {
      forall c <- line[i..end] ensures IsBlank(c) {
        var k :| 0 <= k < end - i && line[i..end][k] == c;
        assert line[i + k] == c;
      }
    }
  }

  lemma OrderedStartsItsLine(line: string, i: nat)
    requires i <= |line| && ParseOrdered(line, i).Some? && forall c <- line[..i] :: IsBlank(c)
    ensures StartsLine(line, ParseOrdered(line, i).value)
  {
    var j := SkipDigits(line, i);
    assert forall c <- line[i..j] :: IsDigit(c);
    assert line[i..j + 1] == line[i..j] + [line[j]];
    PaddingIsPadding(line, j + 1);
    hide PaddingEnd, IsPadding, SkipDigits;
  }

  lemma OtherStartsItsLine(line: string, i: nat)
    requires i <= |line| && forall c <- line[..i] :: IsBlank(c)
    ensures ParseTask(line, i).Some? ==> StartsLine(line, ParseTask(line, i).value)
    ensures ParseBullet(line, i).Some? ==> StartsLine(line, ParseBullet(line, i).value)
  {
    if ParseTask(line, i).Some? { PaddingIsPadding(line, i + 5); }
    if ParseBullet(line, i).Some? { PaddingIsPadding(line, i + 1); }
    hide PaddingEnd, IsPadding;
  }

  lemma MarkerStartsItsLine(line: string)
    requires ParseListMarker(line).Some?
    ensures StartsLine(line, ParseListMarker(line).value)
    ensures Width(line) == Width(ParseListMarker(line).value.marker.indent)
  {
    var i := SkipBlanks(line, 0);
    WidthOfIndent(line, i, 0);
    forall c <- line[..i] ensures IsBlank(c) {
      var k :| 0 <= k < i && line[..i][k] == c;
      assert line[k] == c;
    }
    OtherStartsItsLine(line, i);
    if ParseOrdered(line, i).Some? {
      OrderedStartsItsLine(line, i);
    }
    hide StartsLine, PaddingEnd;
  }

  lemma PaddingIsFound(line: string, i: nat, end: nat)
    requires i <= end <= |line| && IsPadding(line[i..end], line[end..])
    ensures PaddingEnd(line, i).Some?
  {
    if i < |line| && !IsBlank(line[i]) {
      assert i < end ==> line[i..end][0] == line[i];
      assert end == |line| && line[i..] == line[i..end];
    } else if i == |line| {
      assert line[i..] == "";
    }
  }

  lemma IndentIsFound(line: string, i: nat)
    requires i < |line| && (forall c <- line[..i] :: IsBlank(c)) && !IsBlank(line[i])
    ensures SkipBlanks(line, 0) == i
  {
    forall k | 0 <= k < i ensures IsBlank(line[k]) {
      assert line[k] == line[..i][k];
    }
    BlanksEndAt(line, 0, i);
  }

  lemma OrderedIsFound(line: string, p: Parsed)
    requires StartsLine(line, p) && p.marker.Ordered?
    ensures ParseListMarker(line).Some? && ParseListMarker(line).value.marker.Ordered?
    ensures var m := ParseListMarker(line).value.marker;
      m.indent == p.marker.indent && m.numberText == p.marker.numberText && m.delimiter == p.marker.delimiter
  {
    var i, n := |p.marker.indent|, |p.marker.numberText|;
    NumberInLine(line, i, p.marker.numberText, p.marker.delimiter);
    IndentIsFound(line, i);
    DigitsEndAt(line, i, i + n);
    PaddingIsFound(line, i + n + 1, p.markerEnd);
    hide PaddingEnd, IsPadding, SkipBlanks, SkipDigits, StartsLine;
  }

  lemma NumberInLine(line: string, i: nat, number: string, delimiter: char)
    requires i + |number| + 1 <= |line| && line[i..i + |number| + 1] == number + [delimiter] && AllDigits(number)
    ensures line[i..i + |number|] == number && line[i + |number|] == delimiter
    ensures forall k | i <= k < i + |number| :: IsDigit(line[k])
  {
    var n, there := |number|, line[i..i + |number| + 1];
    forall k | 0 <= k < n ensures line[i + k] == number[k] && IsDigit(line[i + k]) {
      assert there[k] == line[i + k] && (number + [delimiter])[k] == number[k] && number[k] in number;
    }
    assert there[n] == line[i + n] && (number + [delimiter])[n] == delimiter;
    forall k | i <= k < i + n ensures IsDigit(line[k]) {
      assert line[k] == line[i + (k - i)];
    }
  }

  lemma OtherIsFound(line: string, p: Parsed)
    requires StartsLine(line, p) && !p.marker.Ordered?
    ensures ParseListMarker(line).Some? && ParseListMarker(line).value.marker.indent == p.marker.indent
    ensures var m := ParseListMarker(line).value.marker;
      if p.marker.Task? then m.Task? else m.Task? || (m.Bullet? && m.bullet == p.marker.bullet)
  {
    var i := |p.marker.indent|;
    IndentIsFound(line, i);
    PaddingIsFound(line, i + MarkerLength(p.marker), p.markerEnd);
    hide PaddingEnd, IsPadding, SkipBlanks;
  }

  /** A line is recognised exactly if some marker stands at its start; a number is read off as it stands, and where a line could
      be a task and a bullet it is a task. */
  lemma RecognisedExactlyWhenItStarts(line: string)
    ensures ParseListMarker(line).Some? <==> exists p :: StartsLine(line, p)
    ensures forall p | StartsLine(line, p) :: AgreesWith(ParseListMarker(line), p.marker)
  {
    if ParseListMarker(line).Some? {
      MarkerStartsItsLine(line);
    }
    forall p | StartsLine(line, p) ensures AgreesWith(ParseListMarker(line), p.marker) {
      if p.marker.Ordered? { OrderedIsFound(line, p); } else { OtherIsFound(line, p); }
    }
    hide ParseListMarker, StartsLine;
  }

  predicate AgreesWith(found: Option<Parsed>, m: Marker) {
    && found.Some? && found.value.marker.indent == m.indent
    && match m
       case Ordered(_, number, delimiter, _) =>
         found.value.marker.Ordered? && found.value.marker.numberText == number && found.value.marker.delimiter == delimiter
       case Task(_, _) => found.value.marker.Task?
       case Bullet(_, bullet, _) =>
         found.value.marker.Task? || (found.value.marker.Bullet? && found.value.marker.bullet == bullet)
  }

  /** A tab goes on to the next column that is a multiple of four. */
  lemma TabsStopAtFour(column: nat)
    ensures var next := NextColumn(column, '\t'); next % 4 == 0 && column < next <= column + 4
    ensures NextColumn(column, ' ') == column + 1
  {
  }

  lemma {:induction false} SpacesAreColumns(n: nat, column: nat)
    ensures ColumnAfter(Repeat(' ', n), column) == column + n
  {
    if n > 0 {
      assert Repeat(' ', n)[1..] == Repeat(' ', n - 1);
      SpacesAreColumns(n - 1, column + 1);
    }
  }

  /** An item's content stands where its text does, if that is one to four columns behind the marker, and otherwise one column
      behind it. */
  lemma ContentStandsBehindTheMarker(indent: string, markerWidth: nat, n: nat)
    ensures ContentColumn(indent, markerWidth, Repeat(' ', n)) == Width(indent) + markerWidth + if 1 <= n <= 4 then n else 1
  {
    SpacesAreColumns(n, Width(indent) + markerWidth);
  }

  /** A checkbox belongs to the content: a task's content stands behind its dash. */
  lemma ContentColumnOfLine(line: string)
    requires ParseListMarker(line).Some?
    ensures
      var p := ParseListMarker(line).value;
      var m := p.marker;
      && StartsLine(line, p)
      && p.contentColumn == if m.Task? then ContentColumn(m.indent, 1, [line[|m.indent| + 1]])
                            else ContentColumn(m.indent, if m.Ordered? then |m.numberText| + 1 else 1, m.space)
  {
    MarkerStartsItsLine(line);
    hide StartsLine, PaddingEnd, ContentColumn;
  }

  // ---- Writing the next marker

  const MAX_SAFE_INTEGER: nat := 9_007_199_254_740_991

  function Repeat(c: char, n: nat): (text: string)
    ensures |text| == n && forall x <- text :: x == c
  {
    if n == 0 then "" else [c] + Repeat(c, n - 1)
  }

  function PadStart(text: string, length: nat): string {
    if |text| >= length then text else Repeat('0', length - |text|) + text
  }

  function NextNumberText(numberText: string): string
    requires AllDigits(numberText)
  {
    var n := Parse(numberText);
    if n <= MAX_SAFE_INTEGER then PadStart(Print(n + 1), |numberText|) else numberText
  }

  predicate IsWritten(m: Marker) {
    m.Ordered? ==> AllDigits(m.numberText)
  }

  function NextMarkerText(m: Marker): string
    requires IsWritten(m)
  {
    match m
    case Ordered(indent, numberText, delimiter, _) => indent + NextNumberText(numberText) + [delimiter] + " "
    case Task(indent, _) => indent + "- [ ] "
    case Bullet(indent, bullet, _) => indent + [bullet] + " "
  }

  lemma {:induction false} ParseIgnoresLeadingZeros(n: nat, digits: string)
    requires AllDigits(digits)
    ensures AllDigits(Repeat('0', n) + digits) && Parse(Repeat('0', n) + digits) == Parse(digits)
  {
    var zeros := Repeat('0', n);
    if |digits| > 0 {
      ParseIgnoresLeadingZeros(n, digits[..|digits| - 1]);
      assert (zeros + digits)[..|zeros + digits| - 1] == zeros + digits[..|digits| - 1];
    } else {
      ZerosAreZero(n);
      assert zeros + digits == zeros;
    }
  }

  lemma {:induction false} ZerosAreZero(n: nat)
    ensures AllDigits(Repeat('0', n)) && Parse(Repeat('0', n)) == 0
  {
    if n > 0 {
      ZerosAreZero(n - 1);
      var r := Repeat('0', n);
      assert r[..n - 1] == Repeat('0', n - 1) by {
        RepeatPrefix(n);
      }
      assert r[n - 1] in r;
    }
  }

  lemma {:induction false} RepeatPrefix(n: nat)
    requires n > 0
    ensures Repeat('0', n)[..n - 1] == Repeat('0', n - 1)
  {
    if n > 1 {
      RepeatPrefix(n - 1);
    }
  }

  lemma PadStartKeepsValue(n: nat, length: nat)
    ensures var t := PadStart(Print(n), length); AllDigits(t) && |t| > 0 && Parse(t) == n
  {
    ParseOfPrint(n);
    if |Print(n)| < length {
      ParseIgnoresLeadingZeros(length - |Print(n)|, Print(n));
    }
  }

  /** Below the safe limit the next marker carries the next number, at least as wide. */
  lemma NextNumberFollows(numberText: string)
    requires AllDigits(numberText) && Parse(numberText) <= MAX_SAFE_INTEGER
    ensures var next := NextNumberText(numberText);
      AllDigits(next) && Parse(next) == Parse(numberText) + 1 && |next| >= |numberText|
  {
    PadStartKeepsValue(Parse(numberText) + 1, |numberText|);
  }

  // ---- The next task and the next bullet

  /** A checkbox and its padding at the start of a text. */
  predicate IsCheckbox(text: string) {
    |text| >= 3 && text[0] == '[' && (text[1] == ' ' || text[1] == 'x' || text[1] == 'X') && text[2] == ']'
    && PaddingEnd(text, 3).Some?
  }

  lemma PaddingEndOfSuffix(line: string, i: nat, text: string, k: nat)
    requires i + k <= |line| && k <= |text| && line[i..] == text
    ensures PaddingEnd(line, i + k).Some? <==> PaddingEnd(text, k).Some?
  {
    assert line[i + k..] == text[k..];
    assert i + k < |line| ==> line[i + k] == line[i..][k];
  }

  lemma IndentIsSkipped(line: string, i: nat)
    requires i < |line| && (forall c <- line[..i] :: IsBlank(c)) && IsBullet(line[i])
    ensures SkipBlanks(line, 0) == i && ParseOrdered(line, i).None?
  {
    forall k | 0 <= k < i ensures IsBlank(line[k]) {
      assert line[k] == line[..i][k];
    }
    BlanksEndAt(line, 0, i);
  }

  /** A bullet with one blank behind it is recognised as it is written, unless it is a dash before a checkbox: that is a task. */
  lemma BulletParses(indent: string, bullet: char, tail: string)
    requires (forall c <- indent :: IsBlank(c)) && IsBullet(bullet)
    ensures
      var p := ParseListMarker(indent + [bullet] + " " + tail);
      p.Some? && p.value.marker.indent == indent
      && if bullet == '-' && IsCheckbox(tail) then p.value.marker.Task?
         else p.value.marker.Bullet? && p.value.marker.bullet == bullet
  {
    var line := indent + [bullet] + " " + tail;
    var i := |indent|;
    assert line[..i] == indent && line[i] == bullet && line[i + 1] == ' ' && line[i + 2..] == tail;
    IndentIsSkipped(line, i);
    if |tail| >= 3 { PaddingEndOfSuffix(line, i + 2, tail, 3); }
    assert forall k | 0 <= k < |tail| :: line[i + 2 + k] == tail[k];
  }

  /** Behind a task comes an unchecked task, behind a bullet the same bullet, each indented as before. */
  lemma NextMarkerIsAlike(m: Marker, tail: string)
    requires (forall c <- m.indent :: IsBlank(c)) && !m.Ordered? && (m.Bullet? ==> IsBullet(m.bullet))
    ensures
      var p := ParseListMarker(NextMarkerText(m) + tail);
      && p.Some? && p.value.marker.indent == m.indent
      && (m.Task? ==> p.value.marker.Task? && NextMarkerText(m) + tail == m.indent + "- [ ] " + tail)
      && (m.Bullet? ==> if m.bullet == '-' && IsCheckbox(tail) then p.value.marker.Task?
                        else p.value.marker.Bullet? && p.value.marker.bullet == m.bullet)
  {
    if m.Task? {
      assert m.indent + "- [ ] " + tail == m.indent + ['-'] + " " + ("[ ] " + tail);
      BulletParses(m.indent, '-', "[ ] " + tail);
    } else {
      BulletParses(m.indent, m.bullet, tail);
    }
    hide ParseListMarker;
  }
}

/** Renumbering the ordered items that follow an edited one (apps/web/src/composer-list-continuation.ts). */
module ListRenumbering {
  import opened Options
  import opened Decimals
  import opened ListMarkers

  /** A line of the prompt; one that starts inside a chip does not start a list item. */
  datatype Line = Line(text: string, insideChip: bool)

  datatype Role = Sibling | Passed | Last

  predicate IsOrdered(text: string, delimiter: char) {
    var p := ParseListMarker(text);
    p.Some? && p.value.marker.Ordered? && p.value.marker.delimiter == delimiter
  }

  /** What a line is to a list that is indented by `base` columns: an item of it, nested or chip text, or past its end. */
  function RoleOf(line: Line, base: nat, delimiter: char): Role {
    if line.insideChip then Passed
    else if AllSpace(line.text) || Width(line.text) < base then Last
    else if Width(line.text) > base then Passed
    else if IsOrdered(line.text, delimiter) then Sibling
    else Last
  }

  function NumberFor(numberText: string, expected: nat): string
    requires |numberText| > 0
  {
    if numberText[0] == '0' then PadStart(Print(expected), |numberText|) else Print(expected)
  }

  function MarkerOf(text: string): Marker
    requires ParseListMarker(text).Some?
  {
    ParseListMarker(text).value.marker
  }

  function Rewritten(text: string, expected: nat): string
    requires ParseListMarker(text).Some? && MarkerOf(text).Ordered?
  {
    var m := MarkerOf(text);
    MarkerStartsItsLine(text);
    m.indent + NumberFor(m.numberText, expected) + text[|m.indent| + |m.numberText|..]
  }

  function Renumbered(lines: seq<Line>, base: nat, delimiter: char, expected: nat): seq<Line> {
    if lines == [] || expected > MAX_SAFE_INTEGER then lines
    else match RoleOf(lines[0], base, delimiter)
      case Last => lines
      case Passed => [lines[0]] + Renumbered(lines[1..], base, delimiter, expected)
      case Sibling => [Line(Rewritten(lines[0].text, expected), false)]
                      + Renumbered(lines[1..], base, delimiter, expected + 1)
  }

  function NumberOf(text: string): nat
    requires ParseListMarker(text).Some? && MarkerOf(text).Ordered?
  {
    MarkerStartsItsLine(text);
    Parse(MarkerOf(text).numberText)
  }

  /** The numbers of the list's items, up to its end. */
  function Numbers(lines: seq<Line>, base: nat, delimiter: char): seq<nat> {
    if lines == [] then []
    else match RoleOf(lines[0], base, delimiter)
      case Last => []
      case Passed => Numbers(lines[1..], base, delimiter)
      case Sibling => [NumberOf(lines[0].text)] + Numbers(lines[1..], base, delimiter)
  }

  // ---- Rewriting one line

  lemma NumberForIsIts(numberText: string, expected: nat)
    requires |numberText| > 0
    ensures var t := NumberFor(numberText, expected);
      |t| > 0 && AllDigits(t) && Parse(t) == expected && NumberFor(t, expected) == t
  {
    ParseOfPrint(expected);
    PadStartKeepsValue(expected, |numberText|);
    var t := NumberFor(numberText, expected);
    if |Print(expected)| < |numberText| && numberText[0] == '0' {
      assert t[0] in Repeat('0', |numberText| - |Print(expected)|);
    }
  }

  lemma ThreeParts(text: string, x: string, y: string, z: string)
    requires text == x + y + z
    ensures text[..|x|] == x && text[|x|..|x| + |y|] == y && text[|x| + |y|..] == z
  {
  }

  lemma ScanFinds(line: string, i: nat, j: nat)
    requires i < j < |line| && (forall c <- line[..i] :: IsBlank(c)) && (forall c <- line[i..j] :: IsDigit(c))
    requires !IsDigit(line[j])
    ensures SkipBlanks(line, 0) == i && SkipDigits(line, i) == j
  {
    forall k | 0 <= k < i ensures IsBlank(line[k]) {
      assert line[k] == line[..i][k];
    }
    forall k | i <= k < j ensures IsDigit(line[k]) {
      assert line[k] == line[i..j][k - i];
    }
    BlanksEndAt(line, 0, i);
    DigitsEndAt(line, i, j);
  }

  lemma OrderedIsParsed(line: string, i: nat, j: nat)
    requires i < j < |line| && SkipBlanks(line, 0) == i && SkipDigits(line, i) == j
    requires (line[j] == '.' || line[j] == ')') && PaddingEnd(line, j + 1).Some?
    ensures var p := ParseListMarker(line);
      p.Some? && p.value.marker.Ordered? && p.value.marker.indent == line[..i] && p.value.marker.numberText == line[i..j]
      && p.value.marker.delimiter == line[j]
  {
  }

  lemma PaddingEndsAlike(line: string, rest: string, j: nat)
    requires j < |line| && |rest| > 0 && line[j..] == rest
    ensures PaddingEnd(line, j + 1).Some? <==> PaddingEnd(rest, 1).Some?
  {
    assert line[j + 1..] == rest[1..];
    assert j + 1 < |line| ==> line[j + 1] == line[j..][1];
  }

  /** A line of an indent, digits, a delimiter and padding is an ordered item with just these parts. */
  lemma OrderedLineParses(indent: string, digits: string, rest: string)
    requires (forall c <- indent :: IsBlank(c)) && |digits| > 0 && AllDigits(digits)
    requires |rest| > 0 && (rest[0] == '.' || rest[0] == ')') && PaddingEnd(rest, 1).Some?
    ensures var p := ParseListMarker(indent + digits + rest);
      p.Some? && p.value.marker.Ordered? && p.value.marker.indent == indent && p.value.marker.numberText == digits
      && p.value.marker.delimiter == rest[0]
  {
    var line := indent + digits + rest;
    var i, j := |indent|, |indent| + |digits|;
    hide ParseListMarker, PaddingEnd, SkipBlanks, SkipDigits;
    ThreeParts(line, indent, digits, rest);
    assert line[j] == line[j..][0];
    ScanFinds(line, i, j);
    PaddingEndsAlike(line, rest, j);
    OrderedIsParsed(line, i, j);
  }

  lemma OrderedLineHasParts(text: string)
    requires ParseListMarker(text).Some? && MarkerOf(text).Ordered?
    ensures var m := MarkerOf(text); var n := |m.indent| + |m.numberText|;
      n < |text| && text == m.indent + m.numberText + text[n..] && text[n] == m.delimiter
      && (m.delimiter == '.' || m.delimiter == ')') && PaddingEnd(text[n..], 1).Some?
      && (forall c <- m.indent :: IsBlank(c)) && |m.numberText| > 0 && AllDigits(m.numberText)
  {
    MarkerStartsItsLine(text);
    var i := SkipBlanks(text, 0);
    var j := SkipDigits(text, i);
    assert text[j..][1..] == text[j + 1..];
  }

  function RestOf(text: string): string
    requires ParseListMarker(text).Some? && MarkerOf(text).Ordered?
  {
    MarkerStartsItsLine(text);
    text[|MarkerOf(text).indent| + |MarkerOf(text).numberText|..]
  }

  lemma RewrittenParts(text: string, expected: nat)
    requires ParseListMarker(text).Some? && MarkerOf(text).Ordered?
    ensures var m, r := MarkerOf(text), Rewritten(text, expected);
      ParseListMarker(r).Some? && MarkerOf(r).Ordered? && MarkerOf(r).indent == m.indent
      && MarkerOf(r).numberText == NumberFor(m.numberText, expected) && MarkerOf(r).delimiter == m.delimiter
      && RestOf(r) == RestOf(text)
  {
    var m := MarkerOf(text);
    var digits, rest := NumberFor(m.numberText, expected), RestOf(text);
    OrderedLineHasParts(text);
    NumberForIsIts(m.numberText, expected);
    hide ParseListMarker, NumberFor, PaddingEnd;
    OrderedLineParses(m.indent, digits, rest);
    assert (m.indent + digits + rest)[|m.indent| + |digits|..] == rest;
  }

  lemma ItemsAreNotBlank(text: string)
    requires ParseListMarker(text).Some? && MarkerOf(text).Ordered?
    ensures !AllSpace(text)
  {
    OrderedLineHasParts(text);
    hide ParseListMarker, PaddingEnd;
    var m := MarkerOf(text);
    assert text[|m.indent|] == m.numberText[0] && m.numberText[0] in m.numberText;
    assert text[|m.indent|] in text;
  }

  /** A rewritten item is the same item with the expected number, and rewriting it again changes nothing. */
  lemma RewrittenIsSameItem(text: string, base: nat, delimiter: char, expected: nat)
    requires RoleOf(Line(text, false), base, delimiter).Sibling?
    ensures var r := Rewritten(text, expected);
      RoleOf(Line(r, false), base, delimiter).Sibling? && NumberOf(r) == expected && Rewritten(r, expected) == r
  {
    var m := MarkerOf(text);
    MarkerStartsItsLine(text);
    NumberForIsIts(m.numberText, expected);
    hide ParseListMarker, NumberFor, PaddingEnd, AllSpace;
    RewrittenParts(text, expected);
    var r := Rewritten(text, expected);
    ItemsAreNotBlank(r);
    MarkerStartsItsLine(r);
    assert Width(r) == Width(text);
    hide StartsLine;
  }

  // ---- Renumbering a run of lines

  /** After renumbering, the items of the list count up from the expected number, as far as numbers are safe. */
  lemma {:induction false} NumbersAreConsecutive(lines: seq<Line>, base: nat, delimiter: char, expected: nat, k: nat)
    requires k < |Numbers(lines, base, delimiter)| && expected + k <= MAX_SAFE_INTEGER
    ensures var r := Renumbered(lines, base, delimiter, expected);
      |Numbers(r, base, delimiter)| == |Numbers(lines, base, delimiter)|
      && Numbers(r, base, delimiter)[k] == expected + k
  {
    hide Rewritten, AllSpace, IsOrdered, NumberOf;
    var r := Renumbered(lines, base, delimiter, expected);
    SameCount(lines, base, delimiter, expected);
    match RoleOf(lines[0], base, delimiter)
    case Passed =>
      assert r[1..] == Renumbered(lines[1..], base, delimiter, expected);
      NumbersAreConsecutive(lines[1..], base, delimiter, expected, k);
    case Sibling =>
      RewrittenIsSameItem(lines[0].text, base, delimiter, expected);
      assert r[1..] == Renumbered(lines[1..], base, delimiter, expected + 1);
      if k > 0 {
        NumbersAreConsecutive(lines[1..], base, delimiter, expected + 1, k - 1);
      }
    case Last =>
  }

  lemma {:induction false} SameCount(lines: seq<Line>, base: nat, delimiter: char, expected: nat)
    ensures |Numbers(Renumbered(lines, base, delimiter, expected), base, delimiter)| == |Numbers(lines, base, delimiter)|
  {
    hide Rewritten, AllSpace, IsOrdered, NumberOf;
    if |lines| > 0 && expected <= MAX_SAFE_INTEGER {
      var r := Renumbered(lines, base, delimiter, expected);
      match RoleOf(lines[0], base, delimiter)
      case Passed =>
        assert r[1..] == Renumbered(lines[1..], base, delimiter, expected);
        SameCount(lines[1..], base, delimiter, expected);
      case Sibling =>
        RewrittenIsSameItem(lines[0].text, base, delimiter, expected);
        assert r[1..] == Renumbered(lines[1..], base, delimiter, expected + 1);
        SameCount(lines[1..], base, delimiter, expected + 1);
      case Last =>
    }
  }

  /** The list ends at a line, not inside a chip, that is blank, indented less, or indented alike without being an item of the
      same kind; text that is indented more, and the rest of a chip, belong to the item above. */
  predicate EndsList(line: Line, base: nat, delimiter: char) {
    !line.insideChip
    && (AllSpace(line.text) || Width(line.text) < base || (Width(line.text) == base && !IsOrdered(line.text, delimiter)))
  }

  predicate IsListItem(line: Line, base: nat, delimiter: char) {
    !line.insideChip && !AllSpace(line.text) && Width(line.text) == base && IsOrdered(line.text, delimiter)
  }

  function ItemCount(lines: seq<Line>, base: nat, delimiter: char): nat {
    if lines == [] then 0 else (if IsListItem(lines[0], base, delimiter) then 1 else 0) + ItemCount(lines[1..], base, delimiter)
  }

  /** Each line on its own: up to the list's end, and while numbers are safe, an item gets the expected number plus the number of
      items before it; every other line stays as it is. */
  lemma {:induction false} EachItemGetsItsNumber(lines: seq<Line>, base: nat, delimiter: char, expected: nat, k: nat)
    requires k < |lines|
    ensures var r := Renumbered(lines, base, delimiter, expected);
      var number := expected + ItemCount(lines[..k], base, delimiter);
      |r| == |lines|
      && (if IsListItem(lines[k], base, delimiter) && (forall j | 0 <= j < k :: !EndsList(lines[j], base, delimiter))
             && number <= MAX_SAFE_INTEGER
          then r[k] == Line(Rewritten(lines[k].text, number), false)
          else r[k] == lines[k])
  {
    hide Rewritten, AllSpace, IsOrdered, ColumnAfter;
    RenumberedIsAsLong(lines, base, delimiter, expected);
    if k > 0 {
      assert lines[..k][1..] == lines[1..][..k - 1] && lines[..k][0] == lines[0];
      assert (forall j | 0 <= j < k :: !EndsList(lines[j], base, delimiter))
             <==> !EndsList(lines[0], base, delimiter) && forall j | 0 <= j < k - 1 :: !EndsList(lines[1..][j], base, delimiter) by {
        assert forall j | 0 < j < k :: lines[j] == lines[1..][j - 1];
      }
      if expected <= MAX_SAFE_INTEGER {
        EachItemGetsItsNumber(lines[1..], base, delimiter,
                              if IsListItem(lines[0], base, delimiter) then expected + 1 else expected, k - 1);
      }
    } else {
      assert lines[..0] == [];
    }
  }

  lemma {:induction false} RenumberedIsAsLong(lines: seq<Line>, base: nat, delimiter: char, expected: nat)
    ensures |Renumbered(lines, base, delimiter, expected)| == |lines|
  {
    hide Rewritten, AllSpace, IsOrdered;
    if |lines| > 0 && expected <= MAX_SAFE_INTEGER {
      RenumberedIsAsLong(lines[1..], base, delimiter, expected);
      RenumberedIsAsLong(lines[1..], base, delimiter, expected + 1);
    }
  }

  /** A number with a leading zero stays at least as wide; any other is written plainly. */
  lemma LeadingZerosAreKept(text: string, expected: nat)
    requires ParseListMarker(text).Some? && MarkerOf(text).Ordered?
    ensures
      var was, now := MarkerOf(text).numberText, Rewritten(text, expected);
      && ParseListMarker(now).Some? && MarkerOf(now).Ordered? && |was| > 0
      && if was[0] == '0' then |MarkerOf(now).numberText| == (if |Print(expected)| < |was| then |was| else |Print(expected)|)
         else MarkerOf(now).numberText == Print(expected)
  {
    RewrittenParts(text, expected);
    MarkerStartsItsLine(text);
    hide ParseListMarker, Rewritten;
  }

  lemma {:induction false} RenumberingIsIdempotent(lines: seq<Line>, base: nat, delimiter: char, expected: nat)
    ensures var r := Renumbered(lines, base, delimiter, expected); Renumbered(r, base, delimiter, expected) == r
  {
    hide Rewritten, AllSpace, IsOrdered;
    if |lines| > 0 && expected <= MAX_SAFE_INTEGER {
      var r := Renumbered(lines, base, delimiter, expected);
      match RoleOf(lines[0], base, delimiter)
      case Passed =>
        assert r[1..] == Renumbered(lines[1..], base, delimiter, expected);
        RenumberingIsIdempotent(lines[1..], base, delimiter, expected);
      case Sibling =>
        RewrittenIsSameItem(lines[0].text, base, delimiter, expected);
        assert r[1..] == Renumbered(lines[1..], base, delimiter, expected + 1);
        RenumberingIsIdempotent(lines[1..], base, delimiter, expected + 1);
      case Last =>
    }
  }

  /** A line keeps everything but, if it is an item of the list, its number. */
  ghost predicate OnlyNumberDiffers(before: Line, after: Line, base: nat, delimiter: char) {
    after == before
    || (RoleOf(before, base, delimiter).Sibling? && !after.insideChip
        && exists expected: nat :: expected <= MAX_SAFE_INTEGER && after.text == Rewritten(before.text, expected))
  }

  lemma {:induction false} OnlyNumbersChange(lines: seq<Line>, base: nat, delimiter: char, expected: nat, k: nat)
    requires k < |lines|
    ensures var r := Renumbered(lines, base, delimiter, expected);
      |r| == |lines| && OnlyNumberDiffers(lines[k], r[k], base, delimiter)
  {
    hide Rewritten, AllSpace, IsOrdered;
    SameLength(lines, base, delimiter, expected);
    if expected <= MAX_SAFE_INTEGER && k > 0 {
      match RoleOf(lines[0], base, delimiter)
      case Passed => OnlyNumbersChange(lines[1..], base, delimiter, expected, k - 1);
      case Sibling => OnlyNumbersChange(lines[1..], base, delimiter, expected + 1, k - 1);
      case Last =>
    }
  }

  lemma {:induction false} SameLength(lines: seq<Line>, base: nat, delimiter: char, expected: nat)
    ensures |Renumbered(lines, base, delimiter, expected)| == |lines|
  {
    if |lines| > 0 && expected <= MAX_SAFE_INTEGER {
      match RoleOf(lines[0], base, delimiter)
      case Passed => SameLength(lines[1..], base, delimiter, expected);
      case Sibling => SameLength(lines[1..], base, delimiter, expected + 1);
      case Last =>
    }
  }

  // ---- The prompt as lines

  /** The part of a prompt that a chip covers. */
  datatype Range = Range(start: nat, end: nat)

  predicate AreRanges(value: string, tokens: seq<Range>) {
    && (forall i | 0 <= i < |tokens| :: tokens[i].start < tokens[i].end <= |value|)
    && (forall i, j | 0 <= i < j < |tokens| :: tokens[i].end <= tokens[j].start)
  }

  predicate Covers(tokens: seq<Range>, position: nat) {
    exists i :: 0 <= i < |tokens| && tokens[i].start < position < tokens[i].end
  }

  function LineEnd(value: string, position: nat): (end: nat)
    requires position <= |value|
    ensures position <= end <= |value| && (end < |value| ==> value[end] == '\n')
    ensures forall k | position <= k < end :: value[k] != '\n'
    decreases |value| - position
  {
    if position < |value| && value[position] != '\n' then LineEnd(value, position + 1) else position
  }

  /** The lines that follow a line break. */
  function LinesFrom(value: string, lineBreak: nat, tokens: seq<Range>): seq<Line>
    requires lineBreak <= |value|
    decreases |value| - lineBreak
  {
    if lineBreak == |value| then []
    else
      var start := lineBreak + 1;
      [Line(value[start..LineEnd(value, start)], Covers(tokens, start))]
      + LinesFrom(value, LineEnd(value, start), tokens)
  }

  function Joined(lines: seq<Line>): string {
    if lines == [] then "" else "\n" + lines[0].text + Joined(lines[1..])
  }

  predicate IsLineEnd(value: string, position: nat) {
    position == |value| || (position < |value| && value[position] == '\n')
  }

  lemma {:induction false} LinesJoinToTheRest(value: string, lineBreak: nat, tokens: seq<Range>)
    requires IsLineEnd(value, lineBreak)
    ensures Joined(LinesFrom(value, lineBreak, tokens)) == value[lineBreak..]
    decreases |value| - lineBreak
  {
    if lineBreak < |value| {
      var start := lineBreak + 1;
      var end := LineEnd(value, start);
      LinesJoinToTheRest(value, end, tokens);
      assert value[lineBreak..] == "\n" + value[start..end] + value[end..];
    }
  }

  function JoinedParts(parts: seq<string>): string {
    if parts == [] then "" else JoinedParts(parts[..|parts| - 1]) + parts[|parts| - 1]
  }

  /** The rest of the prompt after the edited line, renumbered. */
  function RenumberedRest(value: string, lineEnd: nat, tokens: seq<Range>, marker: Marker): string
    requires lineEnd <= |value| && marker.Ordered? && AllDigits(marker.numberText)
  {
    Joined(Renumbered(LinesFrom(value, lineEnd, tokens), Width(marker.indent), marker.delimiter, Parse(marker.numberText) + 2))
  }

  /** The text that replaces the prompt from the edited line's end up to `end`. */
  datatype Renumbering = Renumbering(end: nat, text: string)

  method IndexOfBreak(value: string, from: nat) returns (index: nat)
    requires from <= |value|
    ensures index == LineEnd(value, from)
  {
    index := from;
    while index < |value| && value[index] != '\n'
      invariant from <= index <= |value| && LineEnd(value, index) == LineEnd(value, from)
    {
      index := index + 1;
    }
  }

  lemma PassedLine(value: string, copied: nat, lineBreak: nat, end: nat, tail: string)
    requires copied <= lineBreak < end <= |value| && value[lineBreak] == '\n'
    ensures value[copied..lineBreak] + ("\n" + value[lineBreak + 1..end] + tail) == value[copied..end] + tail
  {
    assert value[copied..end] == value[copied..lineBreak] + "\n" + value[lineBreak + 1..end];
  }

  lemma RewrittenLine(value: string, copied: nat, lineBreak: nat, end: nat, number: nat, after: nat, digits: string, tail: string)
    requires copied <= lineBreak < number <= after <= end <= |value| && value[lineBreak] == '\n'
    ensures value[copied..lineBreak] + ("\n" + (value[lineBreak + 1..number] + digits + value[after..end]) + tail)
            == value[copied..number] + digits + value[after..end] + tail
  {
    assert value[copied..number] == value[copied..lineBreak] + "\n" + value[lineBreak + 1..number];
  }

  lemma TwoMoreParts(parts: seq<string>, x: string, y: string)
    ensures JoinedParts(parts + [x, y]) == JoinedParts(parts) + x + y
  {
    assert (parts + [x, y])[..|parts| + 1] == parts + [x];
    assert (parts + [x])[..|parts|] == parts;
  }

  /** The first token that does not end before a line starts decides whether the line starts inside a chip. */
  lemma NextTokenDecides(value: string, tokens: seq<Range>, next: nat, lineStart: nat)
    requires AreRanges(value, tokens) && next <= |tokens|
    requires (forall i | 0 <= i < next :: tokens[i].end <= lineStart) && (next < |tokens| ==> lineStart < tokens[next].end)
    ensures Covers(tokens, lineStart) <==> next < |tokens| && tokens[next].start < lineStart
  {
    assert forall i | next < i < |tokens| :: tokens[next].end <= tokens[i].start;
  }

  ghost predicate EndBy(tokens: seq<Range>, n: nat, position: nat) {
    n <= |tokens| && forall i | 0 <= i < n :: tokens[i].end <= position
  }

  method SkipTokens(value: string, tokens: seq<Range>, from: nat, lineStart: nat) returns (next: nat, insideChip: bool)
    requires AreRanges(value, tokens) && EndBy(tokens, from, lineStart)
    ensures EndBy(tokens, next, lineStart) && insideChip == Covers(tokens, lineStart)
  {
    next := from;
    while next < |tokens| && tokens[next].end <= lineStart
      invariant EndBy(tokens, next, lineStart)
      decreases |tokens| - next
    {
      next := next + 1;
    }
    NextTokenDecides(value, tokens, next, lineStart);
    insideChip := next < |tokens| && tokens[next].start < lineStart;
  }

  lemma EndByLater(tokens: seq<Range>, n: nat, position: nat, later: nat)
    requires EndBy(tokens, n, position) && position <= later
    ensures EndBy(tokens, n, later)
  {
  }

  /** The last line of the list, or the end of safe numbers: everything else is copied. */
  lemma RestIsCopied(value: string, copied: nat, position: nat, tokens: seq<Range>, base: nat, delimiter: char, expected: nat)
    requires copied <= position <= |value| && IsLineEnd(value, position)
    requires var lines := LinesFrom(value, position, tokens);
      lines == [] || expected > MAX_SAFE_INTEGER || RoleOf(lines[0], base, delimiter).Last?
    ensures value[copied..position] + Joined(Renumbered(LinesFrom(value, position, tokens), base, delimiter, expected))
            == value[copied..]
  {
    LinesJoinToTheRest(value, position, tokens);
    assert value[copied..] == value[copied..position] + value[position..];
  }

  predicate Stops(value: string, tokens: seq<Range>, base: nat, delimiter: char, position: nat, expected: nat)
    requires position <= |value|
  {
    position == |value| || expected > MAX_SAFE_INTEGER
    || RoleOf(Line(value[position + 1..LineEnd(value, position + 1)], Covers(tokens, position + 1)), base, delimiter).Last?
  }

  method ClassifyLine(text: string, insideChip: bool, base: nat, delimiter: char) returns (role: Role)
    ensures role == RoleOf(Line(text, insideChip), base, delimiter)
  {
    if insideChip {
      return Passed;
    }
    var width := IndentWidth(text, 0);
    if AllSpace(text) || width < base {
      return Last;
    }
    if width > base {
      return Passed;
    }
    var parsed := ParseListMarker(text);
    if parsed.None? || !parsed.value.marker.Ordered? || parsed.value.marker.delimiter != delimiter {
      return Last;
    }
    role := Sibling;
  }

  lemma SliceOfSlice(value: string, start: nat, end: nat, i: nat, j: nat)
    requires start <= end <= |value| && i <= j <= end - start
    ensures value[start..end][i..j] == value[start + i..start + j]
  {
    forall k | 0 <= k < j - i ensures value[start..end][i..j][k] == value[start + i..start + j][k] {
    }
  }

  lemma PartsInPlace(value: string, start: nat, end: nat, x: string, y: string, z: string)
    requires start <= end <= |value| && value[start..end] == x + y + z
    ensures var i, j := start + |x|, start + |x| + |y|;
      j <= end && value[start..i] == x && value[i..j] == y && value[j..end] == z
  {
    var text := value[start..end];
    ThreeParts(text, x, y, z);
    SliceOfSlice(value, start, end, 0, |x|);
    SliceOfSlice(value, start, end, |x|, |x| + |y|);
    SliceOfSlice(value, start, end, |x| + |y|, |text|);
    assert text[0..|x|] == text[..|x|] && text[|x| + |y|..|text|] == text[|x| + |y|..];
  }

  /** An item's line is its indent, its number and the rest, where the prompt has them. */
  lemma ItemInPlace(value: string, start: nat, end: nat, expected: nat, m: Marker)
    requires start <= end <= |value| && ParseListMarker(value[start..end]).Some?
    requires m == MarkerOf(value[start..end]) && m.Ordered?
    ensures |m.numberText| > 0 && start + |m.indent| + |m.numberText| <= end
    ensures var number := start + |m.indent|; var after := number + |m.numberText|;
      Rewritten(value[start..end], expected)
      == value[start..number] + NumberFor(m.numberText, expected) + value[after..end]
      && value[start..end] == value[start..number] + m.numberText + value[after..end]
  {
    hide ParseListMarker, NumberFor, AllDigits, PaddingEnd, IsBlank;
    var text := value[start..end];
    OrderedLineHasParts(text);
    PartsInPlace(value, start, end, m.indent, m.numberText, text[|m.indent| + |m.numberText|..]);
  }

  lemma JoinedLine(text: string, tail: seq<Line>, insideChip: bool)
    ensures Joined([Line(text, insideChip)] + tail) == "\n" + text + Joined(tail)
  {
    assert ([Line(text, insideChip)] + tail)[1..] == tail;
  }

  /** What has been written so far, what waits to be copied, and the rest of the lines still to be renumbered. */
  function Progress(value: string, tokens: seq<Range>, base: nat, delimiter: char, parts: seq<string>, copied: nat,
                    position: nat, expected: nat): string
    requires copied <= position <= |value|
  {
    JoinedParts(parts)
    + (value[copied..position] + Joined(Renumbered(LinesFrom(value, position, tokens), base, delimiter, expected)))
  }

  lemma NextLine(value: string, tokens: seq<Range>, base: nat, delimiter: char, position: nat, expected: nat, role: Role)
    requires position < |value| && expected <= MAX_SAFE_INTEGER
    requires var start := position + 1; var text := value[start..LineEnd(value, start)];
      role == RoleOf(Line(text, Covers(tokens, start)), base, delimiter)
    ensures var end := LineEnd(value, position + 1);
      var text, tail := value[position + 1..end], LinesFrom(value, end, tokens);
      var all := Joined(Renumbered(LinesFrom(value, position, tokens), base, delimiter, expected));
      (role.Passed? ==> all == "\n" + text + Joined(Renumbered(tail, base, delimiter, expected)))
      && (role.Sibling? ==>
            ParseListMarker(text).Some? && MarkerOf(text).Ordered?
            && all == "\n" + Rewritten(text, expected) + Joined(Renumbered(tail, base, delimiter, expected + 1)))
  {
    var end := LineEnd(value, position + 1);
    var text, tail := value[position + 1..end], LinesFrom(value, end, tokens);
    var line := Line(text, Covers(tokens, position + 1));
    assert LinesFrom(value, position, tokens) == [line] + tail;
    assert ([line] + tail)[1..] == tail;
    hide ParseListMarker, AllSpace, Covers, Rewritten, Joined;
    if role.Passed? {
      JoinedLine(text, Renumbered(tail, base, delimiter, expected), line.insideChip);
    } else if role.Sibling? {
      JoinedLine(Rewritten(text, expected), Renumbered(tail, base, delimiter, expected + 1), false);
    }
  }

  lemma PassingKeepsProgress(value: string, tokens: seq<Range>, base: nat, delimiter: char, parts: seq<string>,
                             copied: nat, position: nat, expected: nat)
    requires copied <= position < |value| && value[position] == '\n' && expected <= MAX_SAFE_INTEGER
    requires var start := position + 1; var text := value[start..LineEnd(value, start)];
      RoleOf(Line(text, Covers(tokens, start)), base, delimiter).Passed?
    ensures Progress(value, tokens, base, delimiter, parts, copied, position, expected)
            == Progress(value, tokens, base, delimiter, parts, copied, LineEnd(value, position + 1), expected)
  {
    var end := LineEnd(value, position + 1);
    NextLine(value, tokens, base, delimiter, position, expected, Passed);
    hide Renumbered, LinesFrom, Joined, RoleOf, Covers;
    PassedLine(value, copied, position, end,
               Joined(Renumbered(LinesFrom(value, end, tokens), base, delimiter, expected)));
  }

  /** The prompt's part of an item's line, with the number it has or the number it gets. */
  predicate IsItemLine(value: string, lineBreak: nat, number: nat, after: nat, end: nat, numberText: string, text: string) {
    lineBreak < number <= after <= end <= |value| && value[lineBreak] == '\n'
    && text == value[lineBreak + 1..number] + numberText + value[after..end]
  }

  lemma NewNumberIsWritten(value: string, parts: seq<string>, copied: nat, lineBreak: nat, number: nat, after: nat, end: nat,
                           written: string, text: string, tail: string)
    requires copied <= lineBreak && IsItemLine(value, lineBreak, number, after, end, written, text)
    ensures JoinedParts(parts) + (value[copied..lineBreak] + ("\n" + text + tail))
            == JoinedParts(parts + [value[copied..number], written]) + (value[after..end] + tail)
  {
    RewrittenLine(value, copied, lineBreak, end, number, after, written, tail);
    TwoMoreParts(parts, value[copied..number], written);
  }

  /** An item at its place, with its marker. */
  predicate IsItemAt(value: string, tokens: seq<Range>, base: nat, delimiter: char, position: nat, end: nat, m: Marker) {
    && position < |value| && value[position] == '\n' && end == LineEnd(value, position + 1)
    && ParseListMarker(value[position + 1..end]).Some? && m == MarkerOf(value[position + 1..end]) && m.Ordered?
    && RoleOf(Line(value[position + 1..end], Covers(tokens, position + 1)), base, delimiter).Sibling?
  }

  lemma ItemSplits(value: string, tokens: seq<Range>, base: nat, delimiter: char, position: nat, expected: nat, end: nat,
                   m: Marker)
    requires IsItemAt(value, tokens, base, delimiter, position, end, m) && expected <= MAX_SAFE_INTEGER
    ensures |m.numberText| > 0
    ensures var number := position + 1 + |m.indent|; var after := number + |m.numberText|;
      var written := NumberFor(m.numberText, expected); var text := Rewritten(value[position + 1..end], expected);
      after <= end && IsItemLine(value, position, number, after, end, written, text)
      && (written == m.numberText ==> text == value[position + 1..end])
      && Joined(Renumbered(LinesFrom(value, position, tokens), base, delimiter, expected))
         == "\n" + text + Joined(Renumbered(LinesFrom(value, end, tokens), base, delimiter, expected + 1))
  {
    hide ParseListMarker, RoleOf, NumberFor, Rewritten, Renumbered, LinesFrom, Joined, Covers;
    NextLine(value, tokens, base, delimiter, position, expected, Sibling);
    ItemInPlace(value, position + 1, end, expected, m);
  }

  /** Writing a new number keeps the progress. */
  lemma WritingKeepsProgress(value: string, tokens: seq<Range>, base: nat, delimiter: char, parts: seq<string>,
                             copied: nat, position: nat, expected: nat, end: nat, m: Marker)
    requires IsItemAt(value, tokens, base, delimiter, position, end, m) && copied <= position && expected <= MAX_SAFE_INTEGER
    ensures |m.numberText| > 0 && position + 1 + |m.indent| + |m.numberText| <= end
    ensures var number := position + 1 + |m.indent|; var after := number + |m.numberText|;
      Progress(value, tokens, base, delimiter, parts, copied, position, expected)
      == Progress(value, tokens, base, delimiter, parts + [value[copied..number], NumberFor(m.numberText, expected)],
                  after, end, expected + 1)
  {
    hide ParseListMarker, RoleOf, NumberFor, Rewritten, Renumbered, LinesFrom, Joined, JoinedParts, Covers, IsItemLine;
    ItemSplits(value, tokens, base, delimiter, position, expected, end, m);
    var number := position + 1 + |m.indent|;
    NewNumberIsWritten(value, parts, copied, position, number, number + |m.numberText|, end,
                       NumberFor(m.numberText, expected), Rewritten(value[position + 1..end], expected),
                       Joined(Renumbered(LinesFrom(value, end, tokens), base, delimiter, expected + 1)));
  }

  /** A number that is right already is simply left to be copied. */
  lemma KeepingKeepsProgress(value: string, tokens: seq<Range>, base: nat, delimiter: char, parts: seq<string>,
                             copied: nat, position: nat, expected: nat, end: nat, m: Marker)
    requires IsItemAt(value, tokens, base, delimiter, position, end, m) && copied <= position && expected <= MAX_SAFE_INTEGER
    requires |m.numberText| > 0 && NumberFor(m.numberText, expected) == m.numberText
    ensures position < end
    ensures Progress(value, tokens, base, delimiter, parts, copied, position, expected)
            == Progress(value, tokens, base, delimiter, parts, copied, end, expected + 1)
  {
    hide ParseListMarker, RoleOf, NumberFor, Rewritten, Renumbered, LinesFrom, Joined, JoinedParts, Covers;
    ItemSplits(value, tokens, base, delimiter, position, expected, end, m);
    PassedLine(value, copied, position, end,
               Joined(Renumbered(LinesFrom(value, end, tokens), base, delimiter, expected + 1)));
  }

  lemma CopyingEndsProgress(value: string, tokens: seq<Range>, base: nat, delimiter: char, parts: seq<string>,
                            copied: nat, position: nat, expected: nat)
    requires copied <= position <= |value| && IsLineEnd(value, position)
    requires Stops(value, tokens, base, delimiter, position, expected)
    ensures Progress(value, tokens, base, delimiter, parts, copied, position, expected)
            == JoinedParts(parts) + value[copied..]
  {
    RestIsCopied(value, copied, position, tokens, base, delimiter, expected);
  }

  function RoleAt(value: string, tokens: seq<Range>, base: nat, delimiter: char, position: nat): Role
    requires position < |value|
  {
    RoleOf(Line(value[position + 1..LineEnd(value, position + 1)], Covers(tokens, position + 1)), base, delimiter)
  }

  method ReadLine(value: string, position: nat, tokens: seq<Range>, tokenIndex: nat, base: nat, delimiter: char)
    returns (lineEnd: nat, next: nat, role: Role)
    requires position < |value| && AreRanges(value, tokens) && EndBy(tokens, tokenIndex, position + 1)
    ensures lineEnd == LineEnd(value, position + 1) && EndBy(tokens, next, lineEnd + 1)
    ensures role == RoleAt(value, tokens, base, delimiter, position)
    ensures role.Sibling? && value[position] == '\n' ==>
              ParseListMarker(value[position + 1..lineEnd]).Some?
              && IsItemAt(value, tokens, base, delimiter, position, lineEnd, MarkerOf(value[position + 1..lineEnd]))
  {
    lineEnd := IndexOfBreak(value, position + 1);
    var insideChip;
    next, insideChip := SkipTokens(value, tokens, tokenIndex, position + 1);
    EndByLater(tokens, next, position + 1, lineEnd + 1);
    role := ClassifyLine(value[position + 1..lineEnd], insideChip, base, delimiter);
  }

  lemma ProgressBegins(value: string, tokens: seq<Range>, lineEnd: nat, marker: Marker)
    requires lineEnd <= |value| && marker.Ordered? && AllDigits(marker.numberText)
    ensures Progress(value, tokens, Width(marker.indent), marker.delimiter, [], lineEnd, lineEnd, Parse(marker.numberText) + 2)
            == RenumberedRest(value, lineEnd, tokens, marker)
    ensures EndBy(tokens, 0, lineEnd + 1)
  {
    assert value[lineEnd..lineEnd] == "";
  }

  method RenumberFollowingItems(value: string, afterLineEnd: nat, marker: Marker, tokens: seq<Range>)
    returns (r: Option<Renumbering>)
    requires IsLineEnd(value, afterLineEnd) && AreRanges(value, tokens)
    requires marker.Ordered? && AllDigits(marker.numberText)
    ensures r.None? ==> value[afterLineEnd..] == RenumberedRest(value, afterLineEnd, tokens, marker)
    ensures r.Some? ==> afterLineEnd <= r.value.end <= |value|
                        && r.value.text + value[r.value.end..] == RenumberedRest(value, afterLineEnd, tokens, marker)
  {
    hide ParseListMarker, ColumnAfter, RoleOf, AreRanges, EndBy, IsItemAt, AllDigits, NumberFor;
    hide Progress, RenumberedRest, LinesFrom, Covers;
    var base := IndentWidth(marker.indent, 0);
    var parts: seq<string> := [];
    var expected: nat := Parse(marker.numberText) + 2;
    var position: nat, copiedUntil: nat, tokenIndex: nat := afterLineEnd, afterLineEnd, 0;
    ghost var whole := RenumberedRest(value, afterLineEnd, tokens, marker);
    ProgressBegins(value, tokens, afterLineEnd, marker);
    while position < |value| && expected <= MAX_SAFE_INTEGER
      invariant afterLineEnd <= copiedUntil <= position <= |value| && IsLineEnd(value, position)
      invariant parts == [] ==> copiedUntil == afterLineEnd
      invariant EndBy(tokens, tokenIndex, position + 1)
      invariant Progress(value, tokens, base, marker.delimiter, parts, copiedUntil, position, expected) == whole
      decreases |value| - position
    {
      var lineEnd, role;
      lineEnd, tokenIndex, role := ReadLine(value, position, tokens, tokenIndex, base, marker.delimiter);
      if role.Last? {
        break;
      }
      if role.Passed? {
        PassingKeepsProgress(value, tokens, base, marker.delimiter, parts, copiedUntil, position, expected);
      } else {
        var current := MarkerOf(value[position + 1..lineEnd]);
        WritingKeepsProgress(value, tokens, base, marker.delimiter, parts, copiedUntil, position, expected, lineEnd, current);
        var numberStart := position + 1 + |current.indent|;
        var replacement := NumberFor(current.numberText, expected);
        if replacement == current.numberText {
          KeepingKeepsProgress(value, tokens, base, marker.delimiter, parts, copiedUntil, position, expected, lineEnd, current);
        } else {
          parts := parts + [value[copiedUntil..numberStart], replacement];
          copiedUntil := numberStart + |current.numberText|;
        }
        expected := expected + 1;
      }
      position := lineEnd;
    }
    CopyingEndsProgress(value, tokens, base, marker.delimiter, parts, copiedUntil, position, expected);
    if |parts| == 0 {
      return None;
    }
    r := Some(Renumbering(copiedUntil, JoinedParts(parts)));
  }

  // ---- Renumbering a prompt twice

  predicate NoBreak(text: string) {
    forall c <- text :: c != '\n'
  }

  ghost predicate NoBreaks(lines: seq<Line>) {
    forall l <- lines :: NoBreak(l.text)
  }

  lemma {:induction false} LinesHaveNoBreaks(value: string, lineBreak: nat, ranges: seq<Range>)
    requires lineBreak <= |value|
    ensures NoBreaks(LinesFrom(value, lineBreak, ranges))
    decreases |value| - lineBreak
  {
    if lineBreak < |value| {
      LinesHaveNoBreaks(value, LineEnd(value, lineBreak + 1), ranges);
    }
  }

  lemma RewritingAddsNoBreak(text: string, expected: nat)
    requires ParseListMarker(text).Some? && MarkerOf(text).Ordered? && NoBreak(text)
    ensures NoBreak(Rewritten(text, expected))
  {
    hide ParseListMarker, NumberFor, AllDigits, PaddingEnd, IsBlank, NoBreak;
    var m := MarkerOf(text);
    OrderedLineHasParts(text);
    NumberForIsIts(m.numberText, expected);
    NoBreakInParts(m.indent, m.numberText, text[|m.indent| + |m.numberText|..]);
    NoBreakInDigits(NumberFor(m.numberText, expected));
    NoBreakJoined(m.indent, NumberFor(m.numberText, expected), text[|m.indent| + |m.numberText|..]);
  }

  lemma NoBreakInParts(x: string, y: string, z: string)
    requires NoBreak(x + y + z)
    ensures NoBreak(x) && NoBreak(z)
  {
    assert forall c <- x :: c in x + y + z;
    assert forall c <- z :: c in x + y + z;
  }

  lemma NoBreakInDigits(digits: string)
    requires AllDigits(digits)
    ensures NoBreak(digits)
  {
    forall c <- digits ensures c != '\n' {
      assert IsDigit(c);
    }
  }

  lemma NoBreakJoined(x: string, y: string, z: string)
    requires NoBreak(x) && NoBreak(y) && NoBreak(z)
    ensures NoBreak(x + y + z)
  {
  }

  lemma {:induction false} RenumberingAddsNoBreaks(lines: seq<Line>, base: nat, delimiter: char, expected: nat)
    requires NoBreaks(lines)
    ensures NoBreaks(Renumbered(lines, base, delimiter, expected))
  {
    hide Rewritten, AllSpace, IsOrdered, NoBreak;
    if |lines| > 0 && expected <= MAX_SAFE_INTEGER {
      assert NoBreak(lines[0].text);
      match RoleOf(lines[0], base, delimiter)
      case Passed => RenumberingAddsNoBreaks(lines[1..], base, delimiter, expected);
      case Sibling =>
        SiblingParses(lines[0].text, base, delimiter);
        RewritingAddsNoBreak(lines[0].text, expected);
        RenumberingAddsNoBreaks(lines[1..], base, delimiter, expected + 1);
      case Last =>
    }
  }

  lemma SiblingParses(text: string, base: nat, delimiter: char)
    requires RoleOf(Line(text, false), base, delimiter).Sibling?
    ensures ParseListMarker(text).Some? && MarkerOf(text).Ordered?
  {
  }

  lemma {:induction false} LineEndIs(value: string, start: nat, end: nat)
    requires start <= end <= |value| && (forall k | start <= k < end :: value[k] != '\n')
    requires end < |value| ==> value[end] == '\n'
    ensures LineEnd(value, start) == end
    decreases end - start
  {
    if start < end {
      LineEndIs(value, start + 1, end);
    }
  }

  lemma SuffixParts(value: string, start: nat, x: string, y: string)
    requires start <= |value| && value[start..] == x + y
    ensures start + |x| <= |value| && value[start..start + |x|] == x && value[start + |x|..] == y
  {
    assert |value| == start + |x| + |y|;
    SliceOfSlice(value, start, |value|, 0, |x|);
    SliceOfSlice(value, start, |value|, |x|, |value| - start);
    assert value[start..|value|] == value[start..];
    assert (x + y)[0..|x|] == x && (x + y)[|x|..|value| - start] == y;
    assert value[start + |x|..|value|] == value[start + |x|..];
  }

  lemma LineEndsAtNextBreak(value: string, start: nat, text: string, rest: string)
    requires start <= |value| && value[start..] == text + rest && NoBreak(text) && (rest == "" || rest[0] == '\n')
    ensures start + |text| <= |value| && LineEnd(value, start) == start + |text|
    ensures value[start..start + |text|] == text && value[start + |text|..] == rest
  {
    SuffixParts(value, start, text, rest);
    var end := start + |text|;
    forall k | start <= k < end ensures value[k] != '\n' {
      assert value[k] == text[k - start];
      assert text[k - start] in text;
    }
    assert end < |value| ==> value[end] == value[end..][0];
    LineEndIs(value, start, end);
  }

  lemma JoinedStartsWithBreak(lines: seq<Line>)
    ensures Joined(lines) == "" || Joined(lines)[0] == '\n'
  {
  }

  lemma FirstLineSplitsOff(value: string, lineBreak: nat, text: string, rest: string, ranges: seq<Range>)
    requires lineBreak <= |value| && value[lineBreak..] == "\n" + text + rest && NoBreak(text)
    requires rest == "" || rest[0] == '\n'
    ensures var end := lineBreak + 1 + |text|;
      end <= |value| && value[end..] == rest
      && LinesFrom(value, lineBreak, ranges) == [Line(text, Covers(ranges, lineBreak + 1))] + LinesFrom(value, end, ranges)
  {
    hide *;
    BreakFirst(text, rest);
    SuffixParts(value, lineBreak, "\n", text + rest);
    LineEndsAtNextBreak(value, lineBreak + 1, text, rest);
    FirstLineFrom(value, lineBreak, ranges);
  }

  lemma BreakFirst(text: string, rest: string)
    ensures "\n" + text + rest == "\n" + (text + rest)
  {
  }

  lemma FirstLineFrom(value: string, lineBreak: nat, ranges: seq<Range>)
    requires lineBreak < |value|
    ensures var end := LineEnd(value, lineBreak + 1);
      LinesFrom(value, lineBreak, ranges)
      == [Line(value[lineBreak + 1..end], Covers(ranges, lineBreak + 1))] + LinesFrom(value, end, ranges)
  {
  }

  predicate SameTexts(lines: seq<Line>, others: seq<Line>) {
    |lines| == |others| && forall k | 0 <= k < |lines| :: lines[k].text == others[k].text
  }

  lemma SameTextsOneMore(line: Line, lines: seq<Line>, other: Line, others: seq<Line>)
    requires line.text == other.text && SameTexts(lines, others)
    ensures SameTexts([line] + lines, [other] + others)
  {
  }

  lemma TailHasNoBreaks(lines: seq<Line>)
    requires NoBreaks(lines) && |lines| > 0
    ensures NoBreak(lines[0].text) && NoBreaks(lines[1..])
  {
    hide NoBreak;
    assert lines[0] in lines;
    forall l <- lines[1..] ensures NoBreak(l.text) {
      assert l in lines;
    }
  }

  lemma FirstIsJoinedFirst(lines: seq<Line>)
    requires |lines| > 0
    ensures Joined(lines) == "\n" + lines[0].text + Joined(lines[1..])
  {
  }

  lemma FirstAndRest(lines: seq<Line>)
    requires |lines| > 0
    ensures lines == [lines[0]] + lines[1..]
  {
  }

  lemma NothingSplitsBack(value: string, lineBreak: nat, lines: seq<Line>, ranges: seq<Range>)
    requires lines == [] && lineBreak <= |value| && value[lineBreak..] == Joined(lines)
    ensures SameTexts(LinesFrom(value, lineBreak, ranges), lines)
  {
    assert |value[lineBreak..]| == 0;
  }

  /** Joining lines and splitting the text again gives back the same lines. */
  lemma {:induction false} JoinedLinesSplitBack(value: string, lineBreak: nat, lines: seq<Line>, ranges: seq<Range>)
    requires NoBreaks(lines) && lineBreak <= |value| && value[lineBreak..] == Joined(lines)
    ensures SameTexts(LinesFrom(value, lineBreak, ranges), lines)
    decreases |lines|
  {
    hide *;
    if |lines| == 0 {
      NothingSplitsBack(value, lineBreak, lines, ranges);
    } else {
      TailHasNoBreaks(lines);
      FirstIsJoinedFirst(lines);
      FirstAndRest(lines);
      JoinedStartsWithBreak(lines[1..]);
      FirstLineSplitsOff(value, lineBreak, lines[0].text, Joined(lines[1..]), ranges);
      var end := lineBreak + 1 + |lines[0].text|;
      JoinedLinesSplitBack(value, end, lines[1..], ranges);
      SameTextsOneMore(Line(lines[0].text, Covers(ranges, lineBreak + 1)), LinesFrom(value, end, ranges), lines[0], lines[1..]);
    }
  }

  lemma SameLines(lines: seq<Line>, others: seq<Line>)
    requires SameTexts(lines, others)
    requires forall k | 0 <= k < |lines| && k < |others| :: lines[k].insideChip == others[k].insideChip
    ensures lines == others
  {
    forall k | 0 <= k < |lines| ensures lines[k] == others[k] {
    }
  }

  /** Renumbering the renumbered prompt changes nothing, provided its chips cover the starts of the same lines. */
  lemma RenumberingAgainChangesNothing(value: string, lineEnd: nat, ranges: seq<Range>, marker: Marker, prefix: string,
                                       newRanges: seq<Range>)
    requires lineEnd <= |value| && marker.Ordered? && AllDigits(marker.numberText)
    requires var again := LinesFrom(prefix + RenumberedRest(value, lineEnd, ranges, marker), |prefix|, newRanges);
      var lines := Renumbered(LinesFrom(value, lineEnd, ranges), Width(marker.indent), marker.delimiter,
                              Parse(marker.numberText) + 2);
      forall k | 0 <= k < |again| && k < |lines| :: again[k].insideChip == lines[k].insideChip
    ensures var rest := RenumberedRest(value, lineEnd, ranges, marker);
      RenumberedRest(prefix + rest, |prefix|, newRanges, marker) == rest
  {
    hide LinesFrom, Renumbered, Joined, ColumnAfter, AllDigits, NoBreaks, SameTexts, Covers;
    var base, expected := Width(marker.indent), Parse(marker.numberText) + 2;
    var lines := Renumbered(LinesFrom(value, lineEnd, ranges), base, marker.delimiter, expected);
    var rest := RenumberedRest(value, lineEnd, ranges, marker);
    LinesHaveNoBreaks(value, lineEnd, ranges);
    RenumberingAddsNoBreaks(LinesFrom(value, lineEnd, ranges), base, marker.delimiter, expected);
    DropPrefix(prefix, rest);
    JoinedLinesSplitBack(prefix + rest, |prefix|, lines, newRanges);
    SameLines(LinesFrom(prefix + rest, |prefix|, newRanges), lines);
    RenumberingIsIdempotent(LinesFrom(value, lineEnd, ranges), base, marker.delimiter, expected);
  }

  lemma DropPrefix(prefix: string, rest: string)
    ensures (prefix + rest)[|prefix|..] == rest
  {
  }
}

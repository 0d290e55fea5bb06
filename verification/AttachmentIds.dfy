/** Attachment ids, which name the thread that owns a stored file, and the sweep of uploads that were never claimed
    (apps/server/src/attachmentStore.ts). */
module AttachmentIds {
  import opened Options

  // ---- The parts of an id

  predicate IsLower(c: char) {
    'a' <= c <= 'z' || '0' <= c <= '9'
  }

  predicate IsSafe(c: char) {
    IsLower(c) || c == '_' || c == '-'
  }

  /** Letters of either case: ids are read without regard to case. */
  predicate IsAlphanumeric(c: char) {
    IsLower(c) || 'A' <= c <= 'Z'
  }

  predicate IsHex(c: char) {
    '0' <= c <= '9' || 'a' <= c <= 'f' || 'A' <= c <= 'F'
  }

  /** Words of letters, digits and underscores, joined by single dashes. */
  predicate IsSegment(s: string) {
    && |s| > 0 && s[0] != '-' && s[|s| - 1] != '-'
    && (forall i | 0 <= i < |s| :: IsAlphanumeric(s[i]) || s[i] == '_' || s[i] == '-')
    && (forall i | 0 < i < |s| :: s[i - 1] != '-' || s[i] != '-')
  }

  predicate IsUuid(s: string) {
    |s| == 36 && forall i | 0 <= i < 36 :: if i == 8 || i == 13 || i == 18 || i == 23 then s[i] == '-' else IsHex(s[i])
  }

  predicate IsExtension(s: string) {
    1 <= |s| <= 10 && forall i | 0 <= i < |s| :: IsAlphanumeric(s[i])
  }

  datatype Parts = Parts(segment: string, uuid: string, extension: Option<string>)

  predicate AreParts(p: Parts) {
    IsSegment(p.segment) && IsUuid(p.uuid) && (p.extension.Some? ==> IsExtension(p.extension.value))
  }

  function Written(p: Parts): string {
    p.segment + "-" + p.uuid + if p.extension.Some? then "-" + p.extension.value else ""
  }

  predicate Decodes(id: string, p: Parts) {
    AreParts(p) && id == Written(p)
  }

  // ---- Ids decode in one way only

  function SuffixLength(p: Parts): nat {
    if p.extension.Some? then |p.extension.value| + 1 else 0
  }

  lemma WrittenInPlace(p: Parts)
    requires AreParts(p)
    ensures var id, n := Written(p), SuffixLength(p);
      |id| == |p.segment| + 37 + n && id[..|id| - n - 37] == p.segment && id[|id| - n - 37] == '-'
      && id[|id| - n - 36..|id| - n] == p.uuid
      && (p.extension.Some? ==> id[|id| - n] == '-' && id[|id| - n + 1..] == p.extension.value)
  {
  }

  /** How far from its end the last dash of an id is. */
  function LastDash(id: string): nat {
    if id == "" || id[|id| - 1] == '-' then 1 else 1 + LastDash(id[..|id| - 1])
  }

  lemma {:induction false} LastDashAt(id: string, at: nat)
    requires at < |id| && id[at] == '-' && forall j | at < j < |id| :: id[j] != '-'
    ensures LastDash(id) == |id| - at
  {
    if at < |id| - 1 {
      LastDashAt(id[..|id| - 1], at);
    }
  }

  /** The last piece tells an extension, which is short, from the end of a uuid, which is long. */
  lemma LastDashTellsSuffix(p: Parts)
    requires AreParts(p)
    ensures LastDash(Written(p)) == if p.extension.Some? then SuffixLength(p) else 13
  {
    var id := Written(p);
    WrittenInPlace(p);
    hide Written;
    if p.extension.Some? {
      var at := |id| - SuffixLength(p);
      forall j | at < j < |id| ensures id[j] != '-' {
        assert id[j] == id[at + 1..][j - at - 1];
      }
      LastDashAt(id, at);
    } else {
      var start := |id| - 36;
      forall j | start <= j < |id| ensures id[j] == p.uuid[j - start] {
        assert id[j] == id[start..|id|][j - start];
      }
      LastDashAt(id, start + 23);
    }
  }

  lemma SuffixIsShort(p: Parts)
    requires AreParts(p)
    ensures SuffixLength(p) <= 11 && (p.extension.Some? <==> SuffixLength(p) > 0)
  {
  }

  lemma DecodingIsUnique(id: string, p: Parts, q: Parts)
    requires Decodes(id, p) && Decodes(id, q)
    ensures p == q
  {
    hide AreParts, Written, LastDash, IsSegment, IsUuid, IsExtension;
    SuffixIsShort(p);
    SuffixIsShort(q);
    LastDashTellsSuffix(p);
    LastDashTellsSuffix(q);
    WrittenInPlace(p);
    WrittenInPlace(q);
  }

  // ---- Reading ids

  /** An id whose extension, with its dash, is n long has its dashes here, and so its parts. */
  predicate HasDashes(id: string, n: nat)
    requires n + 38 <= |id|
  {
    n != 1 && id[|id| - n - 37] == '-' && (n > 0 ==> id[|id| - n] == '-')
  }

  function PartsAt(id: string, n: nat): Parts
    requires n + 38 <= |id|
  {
    var end := |id| - n;
    Parts(id[..end - 37], id[end - 36..end], if n == 0 then None else Some(id[end..][1..]))
  }

  lemma PartsAtAreWritten(id: string, n: nat)
    requires n + 38 <= |id| && HasDashes(id, n)
    ensures Written(PartsAt(id, n)) == id
  {
    var end := |id| - n;
    assert id == id[..end - 37] + "-" + id[end - 36..end] + id[end..];
  }

  predicate IsReadAt(id: string, p: Parts, n: nat) {
    n <= 11 && n + 38 <= |id| && HasDashes(id, n) && p == PartsAt(id, n)
  }

  lemma OnlyPartsAt(id: string, p: Parts)
    requires Decodes(id, p)
    ensures IsReadAt(id, p, SuffixLength(p))
  {
    SuffixIsShort(p);
    WrittenInPlace(p);
    hide Written, IsUuid, IsExtension;
  }

  lemma AnyPartsAt(id: string)
    ensures forall p | Decodes(id, p) :: IsReadAt(id, p, SuffixLength(p))
  {
    hide *;
    forall p | Decodes(id, p) ensures IsReadAt(id, p, SuffixLength(p)) {
      OnlyPartsAt(id, p);
    }
  }

  /** The reading of an id that the pattern allows; there is at most one. */
  method Decode(id: string) returns (parts: Option<Parts>)
    ensures parts.Some? ==> Decodes(id, parts.value)
    ensures parts.None? ==> forall p :: !Decodes(id, p)
  {
    var n := 0;
    AnyPartsAt(id);
    hide AreParts, Written, SuffixLength, PartsAt, HasDashes;
    while n <= 11 && n + 38 <= |id|
      invariant n <= 12
      invariant forall p | Decodes(id, p) :: SuffixLength(p) >= n
    {
      if HasDashes(id, n) && AreParts(PartsAt(id, n)) {
        PartsAtAreWritten(id, n);
        return Some(PartsAt(id, n));
      }
      n := n + 1;
    }
    parts := None;
  }

  // ---- Making ids

  function DropUnsafe(text: string): string {
    if text == "" || IsSafe(text[0]) then text else DropUnsafe(text[1..])
  }

  /** Every run of characters that ids cannot hold becomes a dash. */
  function Dashed(text: string): string
    decreases |text|
  {
    if text == "" then ""
    else if IsSafe(text[0]) then [text[0]] + Dashed(text[1..])
    else
      UnsafeIsDropped(text);
      "-" + Dashed(DropUnsafe(text))
  }

  lemma UnsafeIsDropped(text: string)
    ensures |DropUnsafe(text)| <= |text| && (text != "" && !IsSafe(text[0]) ==> |DropUnsafe(text)| < |text|)
  {
  }

  /** Every run of dashes becomes a single one. */
  function Squeezed(text: string): string {
    if |text| < 2 then text
    else if text[0] == '-' && text[1] == '-' then Squeezed(text[1..])
    else [text[0]] + Squeezed(text[1..])
  }

  predicate IsEdge(c: char) {
    c == '-' || c == '_'
  }

  function StripLeft(text: string): string {
    if text == "" || !IsEdge(text[0]) then text else StripLeft(text[1..])
  }

  function StripRight(text: string): string {
    if text == "" || !IsEdge(text[|text| - 1]) then text else StripRight(text[..|text| - 1])
  }

  const THREAD_SEGMENT_MAX_CHARS: nat := 80

  function Shortened(text: string): string {
    if |text| <= THREAD_SEGMENT_MAX_CHARS then text else text[..THREAD_SEGMENT_MAX_CHARS]
  }

  const PENDING := "pending"

  /** The segment for a thread, from its trimmed, lower-cased id; the segment of unclaimed uploads is never given out. */
  function SafeSegment(lowered: string): Option<string> {
    var segment := StripRight(Shortened(StripRight(StripLeft(Squeezed(Dashed(lowered))))));
    if segment == "" then None
    else if segment == PENDING then Some("_pending")
    else Some(segment)
  }

  predicate IsTidy(text: string) {
    && (forall i | 0 <= i < |text| :: IsSafe(text[i]))
    && (forall i | 0 < i < |text| :: text[i - 1] != '-' || text[i] != '-')
  }

  lemma {:induction false} DashedIsSafe(text: string)
    ensures forall i | 0 <= i < |Dashed(text)| :: IsSafe(Dashed(text)[i])
    decreases |text|
  {
    if |text| > 0 {
      if IsSafe(text[0]) {
        DashedIsSafe(text[1..]);
      } else {
        UnsafeIsDropped(text);
        DashedIsSafe(DropUnsafe(text));
      }
    }
  }

  lemma {:induction false} SqueezedIsTidy(text: string)
    requires forall i | 0 <= i < |text| :: IsSafe(text[i])
    ensures IsTidy(Squeezed(text)) && (Squeezed(text) == "" <==> text == "")
    ensures text != "" ==> Squeezed(text)[0] == text[0]
  {
    if |text| >= 2 {
      SqueezedIsTidy(text[1..]);
    }
  }

  lemma {:induction false} StrippedLeft(text: string)
    requires IsTidy(text)
    ensures IsTidy(StripLeft(text)) && (StripLeft(text) != "" ==> !IsEdge(StripLeft(text)[0]))
  {
    if |text| > 0 && IsEdge(text[0]) {
      StrippedLeft(text[1..]);
    }
  }

  lemma {:induction false} StrippedRight(text: string)
    requires IsTidy(text)
    ensures var r := StripRight(text);
      IsTidy(r) && r <= text && (r != "" ==> !IsEdge(r[|r| - 1]))
  {
    if |text| > 0 && IsEdge(text[|text| - 1]) {
      StrippedRight(text[..|text| - 1]);
    }
  }

  /** The segment of a thread is one that ids can be read back with, at most 80 characters and never `pending`. */
  lemma SegmentsAreSegments(lowered: string)
    requires SafeSegment(lowered).Some?
    ensures var s := SafeSegment(lowered).value;
      IsSegment(s) && s != PENDING && |s| <= THREAD_SEGMENT_MAX_CHARS && Lowered(s) == s
  {
    hide Dashed, Squeezed, StripLeft, StripRight, Shortened, Lowered, IsSegment, IsTidy;
    var t := StripLeft(Squeezed(Dashed(lowered)));
    DashedIsSafe(lowered);
    SqueezedIsTidy(Dashed(lowered));
    StrippedLeft(Squeezed(Dashed(lowered)));
    StrippedRight(t);
    PrefixIsTidy(t, StripRight(t));
    StrippedRight(Shortened(StripRight(t)));
    var s := StripRight(Shortened(StripRight(t)));
    if s == PENDING {
      UnderscorePendingIsSegment();
    } else {
      TidyIsSegment(t, s);
    }
  }

  lemma PrefixIsTidy(text: string, stripped: string)
    requires IsTidy(text) && stripped <= text
    ensures IsTidy(Shortened(stripped)) && Shortened(stripped) <= text && |Shortened(stripped)| <= THREAD_SEGMENT_MAX_CHARS
  {
  }

  lemma TidyIsSegment(text: string, s: string)
    requires IsTidy(s) && s != "" && s <= text && !IsEdge(text[0]) && !IsEdge(s[|s| - 1])
    ensures IsSegment(s) && Lowered(s) == s
  {
    LowerStaysLower(s);
    assert s[0] == text[0];
  }

  lemma UnderscorePendingIsSegment()
    ensures IsSegment("_pending") && Lowered("_pending") == "_pending"
    ensures "_pending" != PENDING && |"_pending"| <= THREAD_SEGMENT_MAX_CHARS
  {
    LowerStaysLower("_pending");
  }

  /** The letters and digits of a text, in their order. */
  function Letters(text: string): string {
    if text == "" then ""
    else Letters(text[..|text| - 1]) + if IsLower(text[|text| - 1]) then [text[|text| - 1]] else ""
  }

  lemma {:induction false} LettersAdd(x: string, y: string)
    ensures Letters(x + y) == Letters(x) + Letters(y)
  {
    if y == "" {
      assert x + y == x;
    } else {
      assert (x + y)[..|x + y| - 1] == x + y[..|y| - 1];
      LettersAdd(x, y[..|y| - 1]);
    }
  }

  lemma FirstLetter(text: string)
    requires text != ""
    ensures Letters(text) == (if IsLower(text[0]) then [text[0]] else "") + Letters(text[1..])
  {
    LettersAdd(text[..1], text[1..]);
    assert text[..1] + text[1..] == text && text[..1][..0] == "";
  }

  lemma {:induction false} DroppingKeepsLetters(text: string)
    ensures Letters(DropUnsafe(text)) == Letters(text)
  {
    if text != "" && !IsSafe(text[0]) {
      FirstLetter(text);
      DroppingKeepsLetters(text[1..]);
    }
  }

  lemma {:induction false} DashingKeepsLetters(text: string)
    ensures Letters(Dashed(text)) == Letters(text)
    decreases |text|
  {
    if text != "" {
      if IsSafe(text[0]) {
        FirstLetter(text);
        DashingKeepsLetters(text[1..]);
        LettersAdd([text[0]], Dashed(text[1..]));
        assert [text[0]][..0] == "";
      } else {
        UnsafeIsDropped(text);
        DroppingKeepsLetters(text);
        DashingKeepsLetters(DropUnsafe(text));
        LettersAdd("-", Dashed(DropUnsafe(text)));
        assert "-"[..0] == "";
      }
    }
  }

  lemma {:induction false} SqueezingKeepsLetters(text: string)
    ensures Letters(Squeezed(text)) == Letters(text)
  {
    if |text| >= 2 {
      FirstLetter(text);
      SqueezingKeepsLetters(text[1..]);
      LettersAdd([text[0]], Squeezed(text[1..]));
      assert [text[0]][..0] == "";
    }
  }

  lemma {:induction false} StrippingLeftKeepsLetters(text: string)
    ensures Letters(StripLeft(text)) == Letters(text)
  {
    if text != "" && IsEdge(text[0]) {
      FirstLetter(text);
      StrippingLeftKeepsLetters(text[1..]);
    }
  }

  lemma {:induction false} StrippingRightKeepsLetters(text: string)
    ensures Letters(StripRight(text)) == Letters(text)
  {
    if text != "" && IsEdge(text[|text| - 1]) {
      StrippingRightKeepsLetters(text[..|text| - 1]);
    }
  }

  /** What is left of an id before it is shortened. */
  function Cleaned(lowered: string): string {
    StripRight(StripLeft(Squeezed(Dashed(lowered))))
  }

  lemma CleaningKeepsLetters(lowered: string)
    ensures Letters(Cleaned(lowered)) == Letters(lowered)
    ensures Cleaned(lowered) != "" ==> IsLower(Cleaned(lowered)[0])
  {
    hide Dashed, Squeezed, StripLeft, StripRight, Letters;
    DashingKeepsLetters(lowered);
    SqueezingKeepsLetters(Dashed(lowered));
    StrippingLeftKeepsLetters(Squeezed(Dashed(lowered)));
    var t := StripLeft(Squeezed(Dashed(lowered)));
    StrippingRightKeepsLetters(t);
    DashedIsSafe(lowered);
    SqueezedIsTidy(Dashed(lowered));
    StrippedLeft(Squeezed(Dashed(lowered)));
    StrippedRight(t);
    assert StripRight(t) != "" ==> StripRight(t)[0] == t[0];
  }

  lemma PendingLetters()
    ensures Letters("_pending") == Letters(PENDING)
  {
    FirstLetter("_pending");
    assert "_pending"[1..] == PENDING;
  }

  /** A thread has a segment exactly if its id has a letter or a digit. The segment has the id's letters and digits in their
      order: all of them, or as many as fit into what is left of the id after 80 characters. */
  lemma SegmentKeepsLetters(lowered: string)
    ensures SafeSegment(lowered).None? <==> Letters(lowered) == ""
    ensures SafeSegment(lowered).Some? ==>
              Letters(SafeSegment(lowered).value) == Letters(Shortened(Cleaned(lowered)))
              && (|Cleaned(lowered)| <= THREAD_SEGMENT_MAX_CHARS ==> Letters(SafeSegment(lowered).value) == Letters(lowered))
  {
    CleaningKeepsLetters(lowered);
    var t := Cleaned(lowered);
    var short := Shortened(t);
    StrippingRightKeepsLetters(short);
    if t != "" {
      FirstLetter(t);
      FirstLetter(short);
    }
    PendingLetters();
    assert Letters("") == "";
    hide Dashed, Squeezed, StripLeft, StripRight, Letters;
  }

  /** Ids that ids can hold are their own segments. */
  predicate IsClean(text: string) {
    IsTidy(text) && text != "" && |text| <= THREAD_SEGMENT_MAX_CHARS && !IsEdge(text[0]) && !IsEdge(text[|text| - 1])
  }

  lemma {:induction false} DashingKeepsSafe(text: string)
    requires forall i | 0 <= i < |text| :: IsSafe(text[i])
    ensures Dashed(text) == text
    decreases |text|
  {
    if text != "" { DashingKeepsSafe(text[1..]); }
  }

  lemma {:induction false} SqueezingKeepsTidy(text: string)
    requires IsTidy(text)
    ensures Squeezed(text) == text
  {
    if |text| >= 2 { SqueezingKeepsTidy(text[1..]); }
  }

  lemma SegmentOfCleanId(id: string)
    requires IsClean(id)
    ensures SafeSegment(id) == Some(if id == PENDING then "_pending" else id)
  {
    DashingKeepsSafe(id);
    SqueezingKeepsTidy(id);
    hide Dashed, Squeezed;
  }

  lemma {:induction false} DashingReplaces(a: string, u: string, b: string)
    requires (forall i | 0 <= i < |a| :: IsSafe(a[i])) && (forall i | 0 <= i < |b| :: IsSafe(b[i])) && b != ""
    requires u != "" && forall i | 0 <= i < |u| :: !IsSafe(u[i])
    ensures Dashed(a + u + b) == a + "-" + b
    decreases |a|
  {
    var text := a + u + b;
    if a != "" {
      assert text[1..] == a[1..] + u + b && text[0] == a[0];
      DashingReplaces(a[1..], u, b);
    } else {
      assert text == u + b && text[0] == u[0];
      DroppingReaches(u, b);
      DashingKeepsSafe(b);
      assert a + "-" + b == "-" + b;
    }
  }

  lemma {:induction false} DroppingReaches(u: string, b: string)
    requires b != "" && IsSafe(b[0]) && forall i | 0 <= i < |u| :: !IsSafe(u[i])
    ensures DropUnsafe(u + b) == b
  {
    if u != "" {
      assert (u + b)[1..] == u[1..] + b && (u + b)[0] == u[0];
      DroppingReaches(u[1..], b);
    } else {
      assert u + b == b;
    }
  }

  /** What ids cannot hold separates: between two clean parts it becomes one dash. */
  lemma SeparatorsBecomeOneDash(a: string, u: string, b: string)
    requires IsClean(a) && IsClean(b) && u != "" && forall i | 0 <= i < |u| :: !IsSafe(u[i])
    ensures Cleaned(a + u + b) == a + "-" + b
  {
    DashingReplaces(a, u, b);
    var text := a + "-" + b;
    assert forall i | 0 <= i < |text| :: text[i] == if i < |a| then a[i] else if i == |a| then '-' else b[i - |a| - 1];
    SqueezingKeepsTidy(text);
    assert text[|text| - 1] == b[|b| - 1];
    hide Dashed, Squeezed;
  }

  function LowerChar(c: char): char {
    if 'A' <= c <= 'Z' then c + ('a' - 'A') else c
  }

  function Lowered(text: string): string {
    if text == "" then "" else [LowerChar(text[0])] + Lowered(text[1..])
  }

  lemma {:induction false} LowerStaysLower(text: string)
    requires forall i | 0 <= i < |text| :: IsSafe(text[i])
    ensures Lowered(text) == text
  {
    if |text| > 0 {
      LowerStaysLower(text[1..]);
    }
  }

  /** The extension an id carries, from what is left of a file extension without its dot and in lower case: none for a file
      without one; `bin` for one that ids cannot hold, like that of a name that ends in a dot. */
  function IdExtension(normalized: Option<string>): Option<string> {
    if normalized.None? then None
    else if 1 <= |normalized.value| <= 10 && forall i | 0 <= i < |normalized.value| :: IsLower(normalized.value[i])
    then normalized
    else Some("bin")
  }

  function CreatedId(lowered: string, uuid: string, normalized: Option<string>): Option<string> {
    match SafeSegment(lowered)
    case None => None
    case Some(segment) => Some(Written(Parts(segment, uuid, IdExtension(normalized))))
  }

  /** A created id decodes to just the parts it was made of. */
  lemma CreatedIdsDecode(lowered: string, uuid: string, normalized: Option<string>, p: Parts)
    requires IsUuid(uuid) && CreatedId(lowered, uuid, normalized).Some?
    ensures Decodes(CreatedId(lowered, uuid, normalized).value, p)
            <==> p == Parts(SafeSegment(lowered).value, uuid, IdExtension(normalized))
  {
    hide SafeSegment, IdExtension, Written, IsSegment, IsUuid, IsExtension, Lowered;
    SegmentsAreSegments(lowered);
    ExtensionsAreExtensions(normalized);
    var made := Parts(SafeSegment(lowered).value, uuid, IdExtension(normalized));
    var id := CreatedId(lowered, uuid, normalized).value;
    assert Decodes(id, made);
    if Decodes(id, p) {
      DecodingIsUnique(id, p, made);
    }
  }

  lemma ExtensionsAreExtensions(normalized: Option<string>)
    ensures IdExtension(normalized).Some? ==> IsExtension(IdExtension(normalized).value)
  {
  }

  lemma {:induction false} LoweredAt(text: string, i: nat)
    requires i < |text|
    ensures |Lowered(text)| == |text| && Lowered(text)[i] == LowerChar(text[i])
  {
    if i > 0 { LoweredAt(text[1..], i - 1); } else if |text| > 1 { LoweredAt(text[1..], 0); }
  }

  /** A file's extension is kept if ids can hold it, and is `bin` otherwise; a file without one gives its id none. */
  lemma ExtensionIsKeptOrBin(normalized: Option<string>)
    ensures IdExtension(normalized).None? <==> normalized.None?
    ensures normalized.Some? && Lowered(normalized.value) == normalized.value ==>
              IdExtension(normalized) == if IsExtension(normalized.value) then normalized else Some("bin")
  {
    if normalized.Some? && Lowered(normalized.value) == normalized.value && IsExtension(normalized.value) {
      forall i | 0 <= i < |normalized.value| ensures IsLower(normalized.value[i]) {
        LoweredAt(normalized.value, i);
      }
    }
  }

  // ---- The sweep of unclaimed uploads

  datatype Entry = Entry(name: string, modified: int)

  const PENDING_MAX_AGE: int := 86_400_000
  const PARTIAL_MAX_AGE: int := 3_600_000

  predicate EndsWith(text: string, suffix: string) {
    |suffix| <= |text| && text[|text| - |suffix|..] == suffix
  }

  /** The length of the name before its last dot; none without a dot. */
  function LastDot(name: string): (at: Option<nat>)
    ensures at.Some? ==> at.value < |name| && name[at.value] == '.' && forall j | at.value < j < |name| :: name[j] != '.'
    ensures at.None? ==> forall j | 0 <= j < |name| :: name[j] != '.'
  {
    if name == "" then None
    else if name[|name| - 1] == '.' then Some(|name| - 1)
    else LastDot(name[..|name| - 1])
  }

  /** The id in a file name: what precedes its only dot. */
  function IdOfName(name: string): Option<string> {
    var at := LastDot(name);
    if '/' in name || '\\' in name || at.None? || at.value == 0 || '.' in name[..at.value] then None
    else Some(name[..at.value])
  }

  /** An extracted text belongs to the file it was extracted from. */
  function OwnName(name: string): string {
    if EndsWith(name, ".txt") && '.' in name[..|name| - 4] then name[..|name| - 4] else name
  }

  ghost predicate IsPendingId(id: string) {
    exists p :: Decodes(id, p) && Lowered(p.segment) == PENDING
  }

  predicate IsPartial(name: string) {
    EndsWith(name, ".part")
  }

  ghost predicate IsUnclaimed(name: string) {
    IdOfName(OwnName(name)).Some? && IsPendingId(IdOfName(OwnName(name)).value)
  }

  /** A file goes once it is an upload that was cut short an hour ago or never claimed within a day. */
  ghost predicate IsStale(e: Entry, now: int) {
    if IsPartial(e.name) then now - e.modified > PARTIAL_MAX_AGE
    else IsUnclaimed(e.name) && now - e.modified > PENDING_MAX_AGE
  }

  method HasPendingSegment(id: string) returns (pending: bool)
    ensures pending <==> IsPendingId(id)
  {
    var parts := Decode(id);
    if parts.Some? {
      forall p | Decodes(id, p) ensures p == parts.value {
        DecodingIsUnique(id, p, parts.value);
      }
    }
    pending := parts.Some? && Lowered(parts.value.segment) == PENDING;
  }

  /** The places of the files that go, and the files that stay, in their order. */
  ghost function StalePlaces(entries: seq<Entry>, now: int): set<nat> {
    set i: nat | i < |entries| && IsStale(entries[i], now)
  }

  ghost function Staying(entries: seq<Entry>, now: int): (kept: seq<Entry>)
    ensures forall e :: e in kept <==> e in entries && !IsStale(e, now)
  {
    if entries == [] then []
    else
      var e := entries[|entries| - 1];
      Staying(entries[..|entries| - 1], now) + if IsStale(e, now) then [] else [e]
  }

  lemma OneMoreFile(entries: seq<Entry>, i: nat, now: int)
    requires i < |entries|
    ensures Staying(entries[..i + 1], now) == Staying(entries[..i], now) + if IsStale(entries[i], now) then [] else [entries[i]]
    ensures |StalePlaces(entries[..i + 1], now)| == |StalePlaces(entries[..i], now)| + if IsStale(entries[i], now) then 1 else 0
  {
    hide IsStale;
    assert entries[..i + 1][..i] == entries[..i];
    forall k: nat | k < i ensures entries[..i + 1][k] == entries[..i][k] {
    }
    assert StalePlaces(entries[..i + 1], now) == StalePlaces(entries[..i], now) + if IsStale(entries[i], now) then {i} else {};
  }

  lemma NoFilesAtFirst(now: int)
    ensures Staying([], now) == [] && StalePlaces([], now) == {}
  {
  }

  /** Whether a file goes, asked as the sweep does: by its name first, then by its age. */
  method IsSwept(e: Entry, now: int) returns (swept: bool)
    ensures swept <==> IsStale(e, now)
  {
    hide EndsWith, IdOfName, OwnName, IsPendingId;
    var isPartial := IsPartial(e.name);
    swept := isPartial;
    if !isPartial {
      var id := IdOfName(OwnName(e.name));
      if id.Some? {
        swept := HasPendingSegment(id.value);
      }
    }
    swept := swept && now - e.modified > if isPartial then PARTIAL_MAX_AGE else PENDING_MAX_AGE;
  }

  /** Deletes the stale files of a directory and says how many there were. */
  method SweepStalePendingAttachments(entries: seq<Entry>, now: int) returns (kept: seq<Entry>, deleted: nat)
    ensures kept == Staying(entries, now) && deleted == |StalePlaces(entries, now)| && |kept| + deleted == |entries|
    ensures forall e :: e in kept <==> e in entries && !IsStale(e, now)
  {
    hide StalePlaces, Staying, IsStale;
    kept, deleted := [], 0;
    NoFilesAtFirst(now);
    for i := 0 to |entries|
      invariant kept == Staying(entries[..i], now) && deleted == |StalePlaces(entries[..i], now)|
      invariant |kept| + deleted == i
    {
      var swept := IsSwept(entries[i], now);
      OneMoreFile(entries, i, now);
      if swept {
        deleted := deleted + 1;
      } else {
        kept := kept + [entries[i]];
      }
    }
    assert entries[..|entries|] == entries;
  }

  /** The extension of a stored file: a dot and up to ten letters or digits, but never that of a partial upload. */
  predicate IsFileExtension(extension: string) {
    2 <= |extension| <= 11 && extension[0] == '.' && extension != ".part"
    && forall i | 1 <= i < |extension| :: IsLower(extension[i])
  }

  predicate IsIdText(id: string) {
    forall c <- id :: IsAlphanumeric(c) || c == '_' || c == '-'
  }

  lemma PartsAreIdText(p: Parts)
    requires AreParts(p)
    ensures IsIdText(Written(p)) && Written(p) != ""
  {
    assert IsIdText(p.segment) && IsIdText(p.uuid) && (p.extension.Some? ==> IsIdText(p.extension.value));
    hide IsSegment, IsUuid, IsExtension;
  }

  lemma {:induction false} LastDotAt(name: string, at: nat)
    requires at < |name| && name[at] == '.' && forall j | at < j < |name| :: name[j] != '.'
    ensures LastDot(name) == Some(at)
  {
    if at < |name| - 1 {
      LastDotAt(name[..|name| - 1], at);
    }
  }

  lemma NameOfId(id: string, extension: string)
    requires IsIdText(id) && id != "" && IsFileExtension(extension)
    ensures IdOfName(id + extension) == Some(id) && !IsPartial(id + extension) && OwnName(id + extension) == id + extension
    ensures OwnName(id + extension + ".txt") == id + extension && !IsPartial(id + extension + ".txt")
  {
    var name := id + extension;
    forall j | |id| <= j < |name| ensures name[j] == extension[j - |id|] {
    }
    LastDotAt(name, |id|);
    assert name[..|id|] == id;
    NoDotInId(id, extension);
    PartialEndsInPart(id, extension);
    CompanionOf(name);
  }

  lemma EndChar(text: string, suffix: string, k: nat)
    requires EndsWith(text, suffix) && k < |suffix|
    ensures text[|text| - |suffix| + k] == suffix[k]
  {
    assert text[|text| - |suffix|..][k] == suffix[k];
  }

  /** The only dot of a stored file's name is the one its extension begins with. */
  lemma SuffixIsExtension(id: string, extension: string, suffix: string)
    requires IsIdText(id) && IsFileExtension(extension)
    requires EndsWith(id + extension, suffix) && |suffix| > 0 && suffix[0] == '.'
    ensures extension == suffix
  {
    var name := id + extension;
    EndChar(name, suffix, 0);
    assert forall j | 0 <= j < |id| :: name[j] in id;
    assert forall j | |id| < j < |name| :: name[j] == extension[j - |id|];
    assert |id| == |name| - |suffix|;
    assert name[|id|..] == extension;
  }

  lemma NoDotInId(id: string, extension: string)
    requires IsIdText(id) && IsFileExtension(extension)
    ensures '.' !in id && '/' !in id + extension && '\\' !in id + extension
    ensures OwnName(id + extension) == id + extension
  {
    if EndsWith(id + extension, ".txt") {
      SuffixIsExtension(id, extension, ".txt");
      assert (id + extension)[..|id + extension| - 4] == id;
    }
  }

  lemma PartialEndsInPart(id: string, extension: string)
    requires IsIdText(id) && IsFileExtension(extension)
    ensures !IsPartial(id + extension)
  {
    if IsPartial(id + extension) {
      SuffixIsExtension(id, extension, ".part");
    }
  }

  lemma CompanionOf(name: string)
    requires '.' in name
    ensures OwnName(name + ".txt") == name && !IsPartial(name + ".txt")
  {
    var longer := name + ".txt";
    assert longer[|longer| - 4..] == ".txt" && longer[..|longer| - 4] == name;
    assert longer[|longer| - 5..][3] == 'x' != ".part"[3];
  }

  /** A stored file, or the text extracted from it, counts as unclaimed exactly when its id has the pending segment. */
  lemma UnclaimedExactlyWhenPending(p: Parts, extension: string, name: string)
    requires AreParts(p) && IsFileExtension(extension)
    requires name == Written(p) + extension || name == Written(p) + extension + ".txt"
    ensures !IsPartial(name) && (IsUnclaimed(name) <==> Lowered(p.segment) == PENDING)
  {
    PartsAreIdText(p);
    NameOfId(Written(p), extension);
    assert Decodes(Written(p), p);
    forall q | Decodes(Written(p), q) ensures q == p {
      DecodingIsUnique(Written(p), p, q);
    }
    hide IsIdText, IdOfName, OwnName, IsPartial, IsFileExtension, Written, AreParts;
  }

  /** So the sweep never deletes what a thread has stored, whatever the thread and the file are called. */
  lemma SweepKeepsThreadFiles(lowered: string, uuid: string, normalized: Option<string>, extension: string, e: Entry, now: int)
    requires IsUuid(uuid) && CreatedId(lowered, uuid, normalized).Some? && IsFileExtension(extension)
    requires var id := CreatedId(lowered, uuid, normalized).value; e.name == id + extension || e.name == id + extension + ".txt"
    ensures !IsStale(e, now)
  {
    var p := Parts(SafeSegment(lowered).value, uuid, IdExtension(normalized));
    SegmentsAreSegments(lowered);
    CreatedIdsDecode(lowered, uuid, normalized, p);
    hide SafeSegment, IdExtension;
    UnclaimedExactlyWhenPending(p, extension, e.name);
  }

  /** The id of an upload that no thread has claimed yet. */
  function PendingId(uuid: string, normalized: Option<string>): string {
    Written(Parts(PENDING, uuid, IdExtension(normalized)))
  }

  lemma PendingPartsAreParts(uuid: string, normalized: Option<string>)
    requires IsUuid(uuid)
    ensures AreParts(Parts(PENDING, uuid, IdExtension(normalized))) && Lowered(PENDING) == PENDING
  {
    ExtensionsAreExtensions(normalized);
    LowerStaysLower(PENDING);
    hide IdExtension, IsUuid;
  }

  /** An upload that nobody claims goes after a day, with the text extracted from it, and one that was cut short after an hour. */
  lemma UnclaimedUploadsGoInTime(uuid: string, normalized: Option<string>, extension: string, e: Entry, now: int)
    requires IsUuid(uuid) && IsFileExtension(extension)
    ensures var id := PendingId(uuid, normalized);
      e.name == id + extension || e.name == id + extension + ".txt" ==>
        (IsStale(e, now) <==> now - e.modified > 24 * 60 * 60 * 1000)
    ensures EndsWith(e.name, ".part") ==> (IsStale(e, now) <==> now - e.modified > 60 * 60 * 1000)
  {
    var p := Parts(PENDING, uuid, IdExtension(normalized));
    PendingPartsAreParts(uuid, normalized);
    hide IdExtension, IsUnclaimed, Written, EndsWith;
    if e.name == PendingId(uuid, normalized) + extension || e.name == PendingId(uuid, normalized) + extension + ".txt" {
      UnclaimedExactlyWhenPending(p, extension, e.name);
    }
  }
}

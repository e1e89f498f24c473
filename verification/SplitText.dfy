/** Breaking one text into pieces (internal/channel/chunking.go, splitText and its
  helpers). */
module SplitText {
  import opened Sequences
  import opened Utf8Split

  datatype ChunkConfig = ChunkConfig(maxLength: int, preserveBlocks: bool)

  const NL: Byte := 10

  /** The lines between newlines, at least one. */
  function SplitLines(t: Text): (lines: seq<Text>)
    ensures |lines| > 0
  {
    if t == [] then [[]]
    else
      var rest := SplitLines(t[1..]);
      if t[0] == NL then [[]] + rest else [[t[0]] + rest[0]] + rest[1..]
  }

  function Join(lines: seq<Text>): Text {
    if lines == [] then []
    else if |lines| == 1 then lines[0]
    else lines[0] + [NL] + Join(lines[1..])
  }

  // ---------------------------------------------------------------------
  // Fences
  // ---------------------------------------------------------------------

  /** The length of the white-space character that a text begins with; 0 if there
      is none. Beyond ASCII these are U+0085, U+00A0, U+1680, U+2000 to U+200A,
      U+2028, U+2029, U+202F, U+205F and U+3000. */
  function SpaceLen(t: Text): (n: nat)
    ensures n <= |t|
  {
    if |t| >= 1 && (9 <= t[0] <= 13 || t[0] == 32) then 1
    else if |t| >= 2 && t[0] == 0xC2 && (t[1] == 0x85 || t[1] == 0xA0) then 2
    else if |t| >= 3 && t[0] == 0xE1 && t[1] == 0x9A && t[2] == 0x80 then 3
    else if |t| >= 3 && t[0] == 0xE2 && t[1] == 0x80
            && (0x80 <= t[2] <= 0x8A || t[2] == 0xA8 || t[2] == 0xA9 || t[2] == 0xAF) then 3
    else if |t| >= 3 && t[0] == 0xE2 && t[1] == 0x81 && t[2] == 0x9F then 3
    else if |t| >= 3 && t[0] == 0xE3 && t[1] == 0x80 && t[2] == 0x80 then 3
    else 0
  }

  predicate IsFenceLine(line: Text)
    decreases |line|
  {
    var n := SpaceLen(line);
    if n > 0 then IsFenceLine(line[n..])
    else |line| >= 3 && line[0] == 96 && line[1] == 96 && line[2] == 96
  }

  function FirstFence(lines: seq<Text>, i: nat): (e: int)
    ensures e == -1 || i <= e < |lines|
    decreases |lines| - i
  {
    if i >= |lines| then -1 else if IsFenceLine(lines[i]) then i else FirstFence(lines, i + 1)
  }

  method FindFenceEnd(lines: seq<Text>, start: nat) returns (end: int, found: bool)
    ensures end == FirstFence(lines, start + 1) && (found <==> end >= 0)
    // the nearest fence line after the start, if any
    ensures found ==> start < end < |lines| && IsFenceLine(lines[end])
    ensures forall j | start < j < if found then end else |lines| :: !IsFenceLine(lines[j])
  {
    var i := start + 1;
    while i < |lines|
      invariant start < i
      invariant FirstFence(lines, i) == FirstFence(lines, start + 1)
      invariant forall j | start < j < i && j < |lines| :: !IsFenceLine(lines[j])
    {
      if IsFenceLine(lines[i]) {
        return i, true;
      }
      i := i + 1;
    }
    return -1, false;
  }

  /** Where the scan goes from line i: past a fenced block that fits, or one line on. */
  function Next(lines: seq<Text>, i: nat, cfg: ChunkConfig): (n: nat)
    requires i < |lines|
    ensures i < n <= |lines|
  {
    var e := FirstFence(lines, i + 1);
    if cfg.preserveBlocks && IsFenceLine(lines[i]) && e >= 0 && |Join(lines[i..e + 1])| <= cfg.maxLength
    then e + 1 else i + 1
  }

  function Units(lines: seq<Text>, i: nat, cfg: ChunkConfig): seq<Text>
    decreases |lines| - i
  {
    if i >= |lines| then [] else [Join(lines[i..Next(lines, i, cfg)])] + Units(lines, Next(lines, i, cfg), cfg)
  }

  // ---------------------------------------------------------------------
  // Filling pieces
  // ---------------------------------------------------------------------

  datatype Acc = Acc(chunks: seq<Text>, current: Text)

  function Flushed(a: Acc): seq<Text> { a.chunks + (if a.current == [] then [] else [a.current]) }

  function Add(a: Acc, unit: Text, maxLen: nat): Acc
    requires maxLen > 0
  {
    if |unit| > maxLen then Acc(Flushed(a) + Forced(unit, maxLen), [])
    else if a.current == [] then Acc(a.chunks, unit)
    else if |a.current| + 1 + |unit| > maxLen then Acc(a.chunks + [a.current], unit)
    else Acc(a.chunks, a.current + [NL] + unit)
  }

  function AddAll(a: Acc, units: seq<Text>, maxLen: nat): Acc
    requires maxLen > 0
    decreases units
  {
    if units == [] then a else AddAll(Add(a, units[0], maxLen), units[1..], maxLen)
  }

  function Pieces(text: Text, cfg: ChunkConfig): seq<Text>
    requires cfg.maxLength > 0
  {
    Flushed(AddAll(Acc([], []), Units(SplitLines(text), 0, cfg), cfg.maxLength))
  }

  /** The builder, its length and the chunk list that appendPiece and appendLine
      update through pointers. */
  class Splitter {
    const maxLen: nat
    var chunks: seq<Text>
    var current: Text
    var currentLen: int

    constructor (maxLen: nat)
      requires maxLen > 0
      ensures Valid() && State() == Acc([], []) && this.maxLen == maxLen
    {
      this.maxLen, chunks, current, currentLen := maxLen, [], [], 0;
    }

    ghost predicate Valid()
      reads this
    {
      maxLen > 0 && currentLen == |current|
    }

    ghost function State(): Acc
      reads this
    {
      Acc(chunks, current)
    }

    method Flush()
      requires Valid()
      modifies this
      ensures Valid() && State() == Acc(Flushed(old(State())), [])
    {
      if currentLen == 0 {
        return;
      }
      chunks, current, currentLen := chunks + [current], [], 0;
    }

    method AppendLine(line: Text)
      requires Valid()
      modifies this
      ensures Valid() && State() == Add(old(State()), line, maxLen)
    {
      if |line| > maxLen {
        if currentLen > 0 {
          chunks, current, currentLen := chunks + [current], [], 0;
        }
        var parts := ForceSplit(line, maxLen);
        chunks := chunks + parts;
        return;
      }
      var added := |line|;
      if currentLen > 0 {
        added := added + 1;
      }
      if currentLen + added > maxLen {
        chunks, current, currentLen := chunks + [current], [], 0;
      }
      if currentLen > 0 {
        current, currentLen := current + [NL], currentLen + 1;
      }
      current, currentLen := current + line, currentLen + |line|;
    }

    method AppendPiece(piece: Text)
      requires Valid()
      modifies this
      ensures Valid() && State() == Add(old(State()), piece, maxLen)
    {
      if piece == [] {
        AppendLine([]);
        return;
      }
      var added := |piece|;
      if currentLen > 0 {
        added := added + 1;
      }
      if currentLen + added > maxLen {
        if currentLen > 0 {
          chunks, current, currentLen := chunks + [current], [], 0;
        }
      }
      if |piece| <= maxLen {
        if currentLen > 0 {
          current, currentLen := current + [NL], currentLen + 1;
        }
        current, currentLen := current + piece, currentLen + |piece|;
        return;
      }
      var parts := ForceSplit(piece, maxLen);
      chunks := chunks + parts;
    }
  }

  /** One pass through the loop of splitText. */
  method ScanOne(s: Splitter, lines: seq<Text>, i: nat, cfg: ChunkConfig) returns (next: nat)
    requires s.Valid() && i < |lines| && s.maxLen == cfg.maxLength
    modifies s
    ensures s.Valid() && next == Next(lines, i, cfg)
    ensures s.State() == Add(old(s.State()), Join(lines[i..next]), cfg.maxLength)
  {
    var line := lines[i];
    if cfg.preserveBlocks && IsFenceLine(line) {
      var end, found := FindFenceEnd(lines, i);
      if found {
        var block := Join(lines[i..end + 1]);
        if |block| <= cfg.maxLength {
          s.AppendPiece(block);
          return end + 1;
        }
      }
    }
    s.AppendLine(line);
    return i + 1;
  }

  /** splitText. */
  method SplitIntoPieces(text: Text, cfg: ChunkConfig) returns (chunks: seq<Text>)
    requires cfg.maxLength > 0
    ensures chunks == Pieces(text, cfg)
  {
    var lines := SplitLines(text);
    var s := new Splitter(cfg.maxLength);
    var i := 0;
    while i < |lines|
      invariant i <= |lines| && s.Valid() && fresh(s) && s.maxLen == cfg.maxLength
      invariant AddAll(s.State(), Units(lines, i, cfg), cfg.maxLength)
             == AddAll(Acc([], []), Units(lines, 0, cfg), cfg.maxLength)
    {
      i := ScanOne(s, lines, i, cfg);
    }
    s.Flush();
    chunks := s.chunks;
  }

  // ---------------------------------------------------------------------
  // Every piece is non-empty and fits
  // ---------------------------------------------------------------------

  ghost predicate Fits(a: Acc, maxLen: nat) { Sized(a.chunks, maxLen) && |a.current| <= maxLen }

  lemma {:induction false} AddAllFits(a: Acc, units: seq<Text>, maxLen: nat)
    requires maxLen > 0 && Fits(a, maxLen)
    ensures Fits(AddAll(a, units, maxLen), maxLen)
    decreases units
  {
    if units != [] {
      ForcedSizes(units[0], maxLen);
      AddAllFits(Add(a, units[0], maxLen), units[1..], maxLen);
    }
  }

  lemma PiecesFit(text: Text, cfg: ChunkConfig)
    requires cfg.maxLength > 0
    ensures Sized(Pieces(text, cfg), cfg.maxLength)
  {
    AddAllFits(Acc([], []), Units(SplitLines(text), 0, cfg), cfg.maxLength);
  }

  // ---------------------------------------------------------------------
  // Nothing but newlines is lost
  // ---------------------------------------------------------------------

  /** The text without its newlines. */
  function Ink(t: Text): Text {
    if t == [] then [] else (if t[0] == NL then [] else [t[0]]) + Ink(t[1..])
  }

  lemma {:induction false} InkAppend(a: Text, b: Text)
    ensures Ink(a + b) == Ink(a) + Ink(b)
    decreases |a|
  {
    if a == [] {
      assert a + b == b;
    } else {
      DropAppend(a, b, 1);
      InkAppend(a[1..], b);
      Assoc(if a[0] == NL then [] else [a[0]], Ink(a[1..]), Ink(b));
    }
  }

  lemma {:induction false} ConcatAppend(a: seq<Text>, b: seq<Text>)
    ensures Concat(a + b) == Concat(a) + Concat(b)
    decreases |a|
  {
    if a == [] {
      assert a + b == b;
    } else {
      assert a + b == [a[0]] + (a[1..] + b);
      ConcatCons(a[0], a[1..] + b);
      ConcatAppend(a[1..], b);
      Assoc(a[0], Concat(a[1..]), Concat(b));
    }
  }

  /** The ink of a list of texts. */
  function InkAll(ts: seq<Text>): Text { Ink(Concat(ts)) }

  lemma InkAllAppend(a: seq<Text>, b: seq<Text>)
    ensures InkAll(a + b) == InkAll(a) + InkAll(b)
  {
    ConcatAppend(a, b);
    InkAppend(Concat(a), Concat(b));
  }

  lemma InkAllOne(t: Text)
    ensures InkAll([t]) == Ink(t)
  {
    ConcatOne(t);
  }

  lemma InkAcrossNewline(a: Text, b: Text)
    ensures Ink(a + [NL] + b) == Ink(a) + Ink(b)
  {
    InkAppend(a + [NL], b);
    InkAppend(a, [NL]);
  }

  lemma {:induction false} InkOfJoin(lines: seq<Text>)
    ensures Ink(Join(lines)) == InkAll(lines)
    decreases |lines|
  {
    if |lines| == 1 {
      assert lines == [lines[0]];
      InkAllOne(lines[0]);
    } else if lines != [] {
      InkOfJoin(lines[1..]);
      InkAcrossNewline(lines[0], Join(lines[1..]));
      InkAppend(lines[0], Concat(lines[1..]));
    }
  }

  lemma {:induction false} InkOfLines(t: Text)
    ensures InkAll(SplitLines(t)) == Ink(t)
    decreases |t|
  {
    if t == [] {
      InkAllOne([]);
    } else {
      var rest := SplitLines(t[1..]);
      InkOfLines(t[1..]);
      if t[0] == NL {
        InkAllAppend([[]], rest);
        InkAllOne([]);
      } else {
        var first, tail := rest[0], rest[1..];
        InkAllAppend([[t[0]] + first], tail);
        InkAllOne([t[0]] + first);
        InkAppend([t[0]], first);
        assert rest == [first] + tail;
        InkAllAppend([first], tail);
        InkAllOne(first);
        Assoc([t[0]], Ink(first), InkAll(tail));
      }
    }
  }

  lemma {:induction false} InkOfUnits(lines: seq<Text>, i: nat, cfg: ChunkConfig)
    requires i <= |lines|
    ensures InkAll(Units(lines, i, cfg)) == InkAll(lines[i..])
    decreases |lines| - i
  {
    if i < |lines| {
      var n := Next(lines, i, cfg);
      InkOfUnits(lines, n, cfg);
      InkAllAppend([Join(lines[i..n])], Units(lines, n, cfg));
      InkAllOne(Join(lines[i..n]));
      InkOfJoin(lines[i..n]);
      assert lines[i..] == lines[i..n] + lines[n..];
      InkAllAppend(lines[i..n], lines[n..]);
    }
  }

  lemma FlushedInk(a: Acc)
    ensures InkAll(Flushed(a)) == InkAll(a.chunks) + Ink(a.current)
  {
    InkAllAppend(a.chunks, if a.current == [] then [] else [a.current]);
    InkAllOne(a.current);
  }

  lemma AddKeepsInk(a: Acc, unit: Text, maxLen: nat)
    requires maxLen > 0
    ensures InkAll(Flushed(Add(a, unit, maxLen))) == InkAll(Flushed(a)) + Ink(unit)
  {
    var b := Add(a, unit, maxLen);
    FlushedInk(a);
    FlushedInk(b);
    if |unit| > maxLen {
      InkAllAppend(Flushed(a), Forced(unit, maxLen));
      ForcedIsTheLine(unit, maxLen);
    } else if a.current == [] {
    } else if |a.current| + 1 + |unit| > maxLen {
      InkAllAppend(a.chunks, [a.current]);
      InkAllOne(a.current);
    } else {
      InkAcrossNewline(a.current, unit);
      Assoc(InkAll(a.chunks), Ink(a.current), Ink(unit));
    }
  }

  lemma {:induction false} AddAllKeepsInk(a: Acc, units: seq<Text>, maxLen: nat)
    requires maxLen > 0
    ensures InkAll(Flushed(AddAll(a, units, maxLen))) == InkAll(Flushed(a)) + InkAll(units)
    decreases units
  {
    if units != [] {
      AddKeepsInk(a, units[0], maxLen);
      AddAllKeepsInk(Add(a, units[0], maxLen), units[1..], maxLen);
      assert units == [units[0]] + units[1..];
      InkAllAppend([units[0]], units[1..]);
      InkAllOne(units[0]);
      Assoc(InkAll(Flushed(a)), Ink(units[0]), InkAll(units[1..]));
    }
  }

  /** Deleting newlines from the pieces gives the text with newlines deleted. */
  lemma PiecesKeepInk(text: Text, cfg: ChunkConfig)
    requires cfg.maxLength > 0
    ensures InkAll(Pieces(text, cfg)) == Ink(text)
  {
    var lines := SplitLines(text);
    AddAllKeepsInk(Acc([], []), Units(lines, 0, cfg), cfg.maxLength);
    InkOfUnits(lines, 0, cfg);
    assert lines[0..] == lines;
    InkOfLines(text);
    assert InkAll(Flushed(Acc([], []))) == [];
  }

  // ---------------------------------------------------------------------
  // When there is no piece at all
  // ---------------------------------------------------------------------

  predicate OnlyNewlines(t: Text) { forall k | 0 <= k < |t| :: t[k] == NL }

  lemma {:induction false} InklessIsNewlines(t: Text)
    ensures Ink(t) == [] <==> OnlyNewlines(t)
    decreases |t|
  {
    if t != [] {
      InklessIsNewlines(t[1..]);
      assert forall k | 1 <= k < |t| :: t[k] == t[1..][k - 1];
    }
  }

  predicate AllBlank(lines: seq<Text>) { forall k | 0 <= k < |lines| :: lines[k] == [] }

  lemma {:induction false} NewlinesSplitBlank(t: Text)
    requires OnlyNewlines(t)
    ensures AllBlank(SplitLines(t))
    decreases |t|
  {
    if t != [] {
      NewlinesSplitBlank(t[1..]);
    }
  }

  lemma {:induction false} BlankUnits(lines: seq<Text>, i: nat, cfg: ChunkConfig)
    requires AllBlank(lines)
    ensures AllBlank(Units(lines, i, cfg))
    decreases |lines| - i
  {
    if i < |lines| {
      BlankUnits(lines, i + 1, cfg);
    }
  }

  lemma {:induction false} BlankAddsNothing(units: seq<Text>, maxLen: nat)
    requires maxLen > 0 && AllBlank(units)
    ensures AddAll(Acc([], []), units, maxLen) == Acc([], [])
    decreases units
  {
    if units != [] {
      BlankAddsNothing(units[1..], maxLen);
    }
  }

  /** A text yields no piece if and only if it is nothing but newlines. */
  lemma NoPieceExactlyWhen(text: Text, cfg: ChunkConfig)
    requires cfg.maxLength > 0
    ensures Pieces(text, cfg) == [] <==> OnlyNewlines(text)
  {
    InklessIsNewlines(text);
    if OnlyNewlines(text) {
      NewlinesSplitBlank(text);
      BlankUnits(SplitLines(text), 0, cfg);
      BlankAddsNothing(Units(SplitLines(text), 0, cfg), cfg.maxLength);
    }
    if Pieces(text, cfg) == [] {
      PiecesKeepInk(text, cfg);
    }
  }

  // ---------------------------------------------------------------------
  // Fenced blocks stay whole
  // ---------------------------------------------------------------------

  ghost predicate Contains(piece: Text, block: Text) {
    exists pre: Text, post: Text :: piece == pre + block + post
  }

  ghost predicate SomewhereIn(pieces: seq<Text>, block: Text) {
    exists k | 0 <= k < |pieces| :: Contains(pieces[k], block)
  }

  lemma AddContains(a: Acc, unit: Text, maxLen: nat)
    requires maxLen > 0 && 0 < |unit| <= maxLen
    ensures SomewhereIn(Flushed(Add(a, unit, maxLen)), unit)
  {
    var b := Add(a, unit, maxLen);
    var pre := b.current[..|b.current| - |unit|];
    assert b.current == pre + unit + [];
    assert Flushed(b)[|b.chunks|] == b.current;
  }

  lemma ContainsMore(piece: Text, block: Text, more: Text)
    requires Contains(piece, block)
    ensures Contains(piece + more, block)
  {
    var pre: Text, post: Text :| piece == pre + block + post;
    assert piece + more == pre + block + (post + more);
  }

  lemma AddKeepsContained(a: Acc, unit: Text, maxLen: nat, block: Text)
    requires maxLen > 0 && SomewhereIn(Flushed(a), block)
    ensures SomewhereIn(Flushed(Add(a, unit, maxLen)), block)
  {
    var b := Add(a, unit, maxLen);
    var k :| 0 <= k < |Flushed(a)| && Contains(Flushed(a)[k], block);
    if k < |a.chunks| || |unit| > maxLen || |a.current| + 1 + |unit| > maxLen {
      assert Flushed(b)[k] == Flushed(a)[k];
    } else {
      ContainsMore(a.current, block, [NL] + unit);
      assert b.current == a.current + ([NL] + unit);
      assert Flushed(b)[|b.chunks|] == b.current;
    }
  }

  lemma {:induction false} AddAllContains(a: Acc, units: seq<Text>, maxLen: nat, block: Text)
    requires maxLen > 0 && 0 < |block| <= maxLen
    requires SomewhereIn(Flushed(a), block) || block in units
    ensures SomewhereIn(Flushed(AddAll(a, units, maxLen)), block)
    decreases units
  {
    if units != [] {
      if units[0] == block {
        AddContains(a, block, maxLen);
      } else if SomewhereIn(Flushed(a), block) {
        AddKeepsContained(a, units[0], maxLen, block);
      }
      AddAllContains(Add(a, units[0], maxLen), units[1..], maxLen, block);
    }
  }

  /** The scan from line i comes to line s. */
  predicate Meets(lines: seq<Text>, i: nat, s: nat, cfg: ChunkConfig)
    decreases |lines| - i
  {
    i == s || (i < |lines| && Meets(lines, Next(lines, i, cfg), s, cfg))
  }

  lemma {:induction false} MetIsUnit(lines: seq<Text>, i: nat, s: nat, cfg: ChunkConfig)
    requires s < |lines| && Meets(lines, i, s, cfg)
    ensures Join(lines[s..Next(lines, s, cfg)]) in Units(lines, i, cfg)
    decreases |lines| - i
  {
    if i != s {
      MetIsUnit(lines, Next(lines, i, cfg), s, cfg);
    }
  }

  lemma FencedIsUnit(lines: seq<Text>, s: nat, e: nat, cfg: ChunkConfig)
    requires cfg.preserveBlocks && s < |lines| && IsFenceLine(lines[s]) && Meets(lines, 0, s, cfg)
    requires FirstFence(lines, s + 1) == e && |Join(lines[s..e + 1])| <= cfg.maxLength
    ensures Join(lines[s..e + 1]) in Units(lines, 0, cfg) && Join(lines[s..e + 1]) != []
  {
    MetIsUnit(lines, 0, s, cfg);
    assert lines[s] != [];
  }

  /** Every fenced block that the scan meets and that fits stands whole inside
      one piece. */
  lemma FencedBlocksStayWhole(text: Text, cfg: ChunkConfig, s: nat)
    requires cfg.maxLength > 0 && cfg.preserveBlocks
    requires s < |SplitLines(text)| && Meets(SplitLines(text), 0, s, cfg)
    requires IsFenceLine(SplitLines(text)[s]) && FirstFence(SplitLines(text), s + 1) >= 0
    requires |Join(SplitLines(text)[s..FirstFence(SplitLines(text), s + 1) + 1])| <= cfg.maxLength
    ensures SomewhereIn(Pieces(text, cfg), Join(SplitLines(text)[s..FirstFence(SplitLines(text), s + 1) + 1]))
  {
    var lines := SplitLines(text);
    var e := FirstFence(lines, s + 1);
    FencedIsUnit(lines, s, e, cfg);
    AddAllContains(Acc([], []), Units(lines, 0, cfg), cfg.maxLength, Join(lines[s..e + 1]));
  }

  // ---------------------------------------------------------------------
  // Valid text yields valid pieces
  // ---------------------------------------------------------------------

  lemma ValidAppend(a: Text, b: Text)
    requires Valid(a) && Valid(b)
    ensures Valid(a + b)
  {
    NarrowIsValid(a, 4);
    NarrowIsValid(b, 4);
    NarrowAppend(a, b, 4);
    NarrowIsValid(a + b, 4);
  }

  lemma {:induction false} SplitPrefix(a: Text, b: Text)
    requires NL !in a
    ensures SplitLines(a + b) == [a + SplitLines(b)[0]] + SplitLines(b)[1..]
    decreases |a|
  {
    var rest := SplitLines(b);
    if a == [] {
      assert a + b == b && a + rest[0] == rest[0];
    } else {
      DropAppend(a, b, 1);
      SplitPrefix(a[1..], b);
      assert [a[0]] + (a[1..] + rest[0]) == a + rest[0];
    }
  }

  lemma OneRune(t: Text)
    requires RuneLen(t) > 0
    ensures Valid(t[..RuneLen(t)])
    ensures t[0] != NL ==> NL !in t[..RuneLen(t)]
  {
    var r := t[..RuneLen(t)];
    assert RuneLen(r) == RuneLen(t);
    assert r[RuneLen(r)..] == [];
  }

  lemma {:induction false} LinesValid(t: Text)
    requires Valid(t)
    ensures AllValid(SplitLines(t))
    decreases |t|
  {
    if t != [] {
      var n := RuneLen(t);
      OneRune(t);
      assert t[..n] + t[n..] == t;
      LinesValid(t[n..]);
      if t[0] != NL {
        SplitPrefix(t[..n], t[n..]);
        ValidAppend(t[..n], SplitLines(t[n..])[0]);
      }
    }
  }

  lemma {:induction false} JoinValid(lines: seq<Text>)
    requires AllValid(lines)
    ensures Valid(Join(lines))
    decreases |lines|
  {
    if |lines| > 1 {
      JoinValid(lines[1..]);
      NewlineBetweenValid(lines[0], Join(lines[1..]));
    }
  }

  lemma NewlineBetweenValid(a: Text, b: Text)
    requires Valid(a) && Valid(b)
    ensures Valid(a + [NL] + b)
  {
    assert Valid([NL]) by {
      assert RuneLen([NL]) == 1 && [NL][1..] == [];
    }
    ValidAppend(a, [NL]);
    ValidAppend(a + [NL], b);
  }

  lemma {:induction false} UnitsValid(lines: seq<Text>, i: nat, cfg: ChunkConfig)
    requires AllValid(lines)
    ensures AllValid(Units(lines, i, cfg))
    decreases |lines| - i
  {
    if i < |lines| {
      JoinValid(lines[i..Next(lines, i, cfg)]);
      UnitsValid(lines, Next(lines, i, cfg), cfg);
    }
  }

  lemma AddValid(a: Acc, unit: Text, maxLen: nat)
    requires maxLen >= 4 && AllValid(a.chunks) && Valid(a.current) && Valid(unit)
    ensures AllValid(Add(a, unit, maxLen).chunks) && Valid(Add(a, unit, maxLen).current)
  {
    FourBytesSuffice(unit, maxLen);
    NewlineBetweenValid(a.current, unit);
  }

  lemma {:induction false} AddAllValid(a: Acc, units: seq<Text>, maxLen: nat)
    requires maxLen >= 4 && AllValid(a.chunks) && Valid(a.current) && AllValid(units)
    ensures AllValid(Flushed(AddAll(a, units, maxLen)))
    decreases units
  {
    if units != [] {
      AddValid(a, units[0], maxLen);
      AddAllValid(Add(a, units[0], maxLen), units[1..], maxLen);
    }
  }

  /** No piece of valid UTF-8 text cuts a character, given room for four bytes. */
  lemma PiecesAreValid(text: Text, cfg: ChunkConfig)
    requires cfg.maxLength >= 4 && Valid(text)
    ensures AllValid(Pieces(text, cfg))
  {
    LinesValid(text);
    UnitsValid(SplitLines(text), 0, cfg);
    AddAllValid(Acc([], []), Units(SplitLines(text), 0, cfg), cfg.maxLength);
  }
}

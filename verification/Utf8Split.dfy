/** Cutting a long line without cutting its characters (internal/channel/chunking.go,
  forceSplit), over the UTF-8 of RFC 3629. */
module Utf8Split {
  import opened Sequences

  type Byte = x: int | 0 <= x < 256
  type Text = seq<Byte>

  // ---------------------------------------------------------------------
  // UTF-8 (section 4 of RFC 3629)
  // ---------------------------------------------------------------------

  predicate Tail(b: Byte) { 0x80 <= b <= 0xBF }

  predicate Opens3(a: Byte, b: Byte) {
    || (a == 0xE0 && 0xA0 <= b <= 0xBF)
    || ((0xE1 <= a <= 0xEC || 0xEE <= a <= 0xEF) && Tail(b))
    || (a == 0xED && 0x80 <= b <= 0x9F)
  }

  predicate Opens4(a: Byte, b: Byte) {
    || (a == 0xF0 && 0x90 <= b <= 0xBF)
    || (0xF1 <= a <= 0xF3 && Tail(b))
    || (a == 0xF4 && 0x80 <= b <= 0x8F)
  }

  /** The length of the character that a text begins with; 0 if there is none. */
  function RuneLen(t: Text): (n: nat)
    ensures n <= 4 && n <= |t|
  {
    if |t| >= 1 && t[0] <= 0x7F then 1
    else if |t| >= 2 && 0xC2 <= t[0] <= 0xDF && Tail(t[1]) then 2
    else if |t| >= 3 && Opens3(t[0], t[1]) && Tail(t[2]) then 3
    else if |t| >= 4 && Opens4(t[0], t[1]) && Tail(t[2]) && Tail(t[3]) then 4
    else 0
  }

  predicate Valid(t: Text)
    decreases |t|
  {
    t == [] || (RuneLen(t) > 0 && Valid(t[RuneLen(t)..]))
  }

  /** Valid, with no character longer than m bytes. */
  predicate Narrow(t: Text, m: nat)
    decreases |t|
  {
    t == [] || (0 < RuneLen(t) <= m && Narrow(t[RuneLen(t)..], m))
  }

  lemma {:induction false} NarrowIsValid(t: Text, m: nat)
    ensures Narrow(t, m) ==> Valid(t)
    ensures Valid(t) && (m >= 4 || |t| <= m) ==> Narrow(t, m)
    decreases |t|
  {
    if t != [] && RuneLen(t) > 0 {
      NarrowIsValid(t[RuneLen(t)..], m);
    }
  }

  lemma RuneLenAppend(a: Text, b: Text)
    requires RuneLen(a) > 0
    ensures RuneLen(a + b) == RuneLen(a)
  {
    assert forall k | 0 <= k < |a| :: (a + b)[k] == a[k];
  }

  lemma {:induction false} NarrowAppend(a: Text, b: Text, m: nat)
    requires Narrow(a, m) && Narrow(b, m)
    ensures Narrow(a + b, m)
    decreases |a|
  {
    if a == [] {
      assert a + b == b;
    } else {
      var n := RuneLen(a);
      NarrowAppend(a[n..], b, m);
      RuneLenAppend(a, b);
      DropAppend(a, b, n);
    }
  }

  // ---------------------------------------------------------------------
  // forceSplit
  // ---------------------------------------------------------------------

  predicate RuneStart(b: Byte) { !(0x80 <= b < 0xC0) }

  function WalkBack(line: Text, c: nat): (w: nat)
    requires c < |line|
    ensures w <= c && (w == 0 || RuneStart(line[w]))
    ensures forall k | w < k <= c :: !RuneStart(line[k])
  {
    if c > 0 && !RuneStart(line[c]) then WalkBack(line, c - 1) else c
  }

  function Cut(line: Text, maxLen: nat): (c: nat)
    requires 0 < maxLen < |line|
    ensures 0 < c <= maxLen
  {
    var w := WalkBack(line, maxLen);
    if w == 0 then maxLen else w
  }

  function Forced(line: Text, maxLen: nat): (parts: seq<Text>)
    requires maxLen > 0
    decreases |line|
  {
    if |line| > maxLen then
      var c := Cut(line, maxLen);
      [line[..c]] + Forced(line[c..], maxLen)
    else if line != [] then [line]
    else []
  }

  /** The inner loop of forceSplit. */
  method CutPoint(line: Text, maxLen: nat) returns (cut: nat)
    requires 0 < maxLen < |line|
    ensures cut == Cut(line, maxLen)
  {
    cut := maxLen;
    while cut > 0 && !RuneStart(line[cut])
      invariant cut <= maxLen
      invariant WalkBack(line, cut) == WalkBack(line, maxLen)
    {
      cut := cut - 1;
    }
    if cut == 0 {
      cut := maxLen;
    }
  }

  method ForceSplit(line: Text, maxLen: nat) returns (parts: seq<Text>)
    requires maxLen > 0
    ensures parts == Forced(line, maxLen)
  {
    var rest := line;
    parts := [];
    while |rest| > maxLen
      invariant parts + Forced(rest, maxLen) == Forced(line, maxLen)
      decreases |rest|
    {
      var cut := CutPoint(rest, maxLen);
      Assoc(parts, [rest[..cut]], Forced(rest[cut..], maxLen));
      parts, rest := parts + [rest[..cut]], rest[cut..];
    }
    if |rest| > 0 {
      parts := parts + [rest];
    }
  }

  function Concat(parts: seq<Text>): Text {
    if parts == [] then [] else parts[0] + Concat(parts[1..])
  }

  predicate Sized(parts: seq<Text>, maxLen: nat) { forall k | 0 <= k < |parts| :: 0 < |parts[k]| <= maxLen }

  lemma {:induction false} ForcedSizes(line: Text, maxLen: nat)
    requires maxLen > 0
    ensures Sized(Forced(line, maxLen), maxLen)
    decreases |line|
  {
    if |line| > maxLen {
      ForcedSizes(line[Cut(line, maxLen)..], maxLen);
    }
  }

  lemma ConcatOne(t: Text)
    ensures Concat([t]) == t
  {
    assert Concat([]) == [];
  }

  lemma ConcatCons(first: Text, rest: seq<Text>)
    ensures Concat([first] + rest) == first + Concat(rest)
  {
    assert ([first] + rest)[1..] == rest;
  }

  predicate AllValid(parts: seq<Text>) { forall k | 0 <= k < |parts| :: Valid(parts[k]) }

  predicate AllNarrow(parts: seq<Text>, m: nat) { forall k | 0 <= k < |parts| :: Narrow(parts[k], m) }

  /** Nothing is lost: the parts are the line. */
  lemma {:induction false} ForcedIsTheLine(line: Text, maxLen: nat)
    requires maxLen > 0
    ensures Concat(Forced(line, maxLen)) == line
    decreases |line|
  {
    if |line| > maxLen {
      var c := Cut(line, maxLen);
      ForcedIsTheLine(line[c..], maxLen);
      ConcatCons(line[..c], Forced(line[c..], maxLen));
    } else if line != [] {
      ConcatOne(line);
    }
  }

  lemma RuneShape(t: Text)
    requires RuneLen(t) > 0
    ensures RuneStart(t[0]) && forall k | 0 < k < RuneLen(t) :: !RuneStart(t[k])
  {
  }

  /** Cutting before the first byte of a character cuts between characters. */
  lemma {:induction false} CutBetween(t: Text, c: nat, m: nat)
    requires Narrow(t, m) && c < |t| && RuneStart(t[c])
    ensures Narrow(t[..c], m) && Narrow(t[c..], m)
    decreases |t|
  {
    if c > 0 {
      var n := RuneLen(t);
      RuneShape(t);
      assert c >= n;
      CutBetween(t[n..], c - n, m);
      assert t[..c][n..] == t[n..][..c - n] && t[c..] == t[n..][c - n..];
      assert RuneLen(t[..c]) == n;
    }
  }

  lemma CutFinds(line: Text, maxLen: nat)
    requires 0 < maxLen < |line| && Narrow(line, maxLen)
    ensures RuneStart(line[Cut(line, maxLen)])
  {
    var n := RuneLen(line);
    assert n < |line| && line[n..] != [];
    RuneShape(line[n..]);
    assert RuneStart(line[n]);
  }

  lemma {:induction false} ForcedKeepsNarrow(line: Text, maxLen: nat)
    requires maxLen > 0 && Narrow(line, maxLen)
    ensures AllNarrow(Forced(line, maxLen), maxLen)
    decreases |line|
  {
    if |line| > maxLen {
      CutFinds(line, maxLen);
      CutBetween(line, Cut(line, maxLen), maxLen);
      ForcedKeepsNarrow(line[Cut(line, maxLen)..], maxLen);
    }
  }

  lemma {:induction false} PartsMakeNarrow(parts: seq<Text>, m: nat)
    requires AllNarrow(parts, m)
    ensures Narrow(Concat(parts), m)
  {
    if parts != [] {
      PartsMakeNarrow(parts[1..], m);
      NarrowAppend(parts[0], Concat(parts[1..]), m);
    }
  }

  /** The parts of valid UTF-8 are valid if and only if no character is longer
      than a part may be. */
  lemma PartsValidExactlyWhen(line: Text, maxLen: nat)
    requires maxLen > 0 && Valid(line)
    ensures AllValid(Forced(line, maxLen)) <==> Narrow(line, maxLen)
  {
    var parts := Forced(line, maxLen);
    if Narrow(line, maxLen) {
      ForcedKeepsNarrow(line, maxLen);
      forall k | 0 <= k < |parts| ensures Valid(parts[k]) {
        NarrowIsValid(parts[k], maxLen);
      }
    }
    if AllValid(parts) {
      ForcedSizes(line, maxLen);
      forall k | 0 <= k < |parts| ensures Narrow(parts[k], maxLen) {
        NarrowIsValid(parts[k], maxLen);
      }
      PartsMakeNarrow(parts, maxLen);
      ForcedIsTheLine(line, maxLen);
    }
  }

  /** With room for four bytes, the parts of valid UTF-8 are valid UTF-8. */
  lemma FourBytesSuffice(line: Text, maxLen: nat)
    requires maxLen >= 4 && Valid(line)
    ensures AllValid(Forced(line, maxLen))
  {
    NarrowIsValid(line, maxLen);
    PartsValidExactlyWhen(line, maxLen);
  }

  /** With less room, one character can be cut. */
  lemma ThreeBytesDoNot()
    ensures var face: Text := [0xF0, 0x9F, 0x98, 0x80];
            Valid(face) && !AllValid(Forced(face, 3))
  {
    var face: Text := [0xF0, 0x9F, 0x98, 0x80];
    assert RuneLen(face) == 4 && face[4..] == [];
    assert !Narrow(face, 3);
    PartsValidExactlyWhen(face, 3);
  }
}

/** Splitting an outbound message (internal/channel/chunking.go, SplitMessage, with
  pkg/message/block.go, textContent). */
module SplitMessage {
  import opened Sequences
  import opened SplitText
  import opened Utf8Split

  datatype Block = TextBlock(text: Text) | OtherBlock(kind: string, data: string)

  datatype Envelope = Envelope(channel: string, chat: string, threadID: string, replyToID: string, hints: string)

  datatype Message = Message(envelope: Envelope, blocks: seq<Block>)

  /** The text of all non-empty text blocks, joined by newlines. */
  function TextContent(blocks: seq<Block>): Text {
    if blocks == [] then [] else Joined(TextContent(blocks[..|blocks| - 1]), blocks[|blocks| - 1])
  }

  function Joined(before: Text, b: Block): Text {
    if !b.TextBlock? || b.text == [] then before
    else if before == [] then b.text
    else before + [NL] + b.text
  }

  lemma TextContentSnoc(blocks: seq<Block>, b: Block)
    ensures TextContent(blocks + [b]) == Joined(TextContent(blocks), b)
  {
    assert (blocks + [b])[..|blocks|] == blocks;
  }

  method TextOf(blocks: seq<Block>) returns (result: Text)
    ensures result == TextContent(blocks)
  {
    result := [];
    for i := 0 to |blocks|
      invariant result == TextContent(blocks[..i])
    {
      var b := blocks[i];
      TextContentSnoc(blocks[..i], b);
      assert blocks[..i + 1] == blocks[..i] + [b];
      if b.TextBlock? && b.text != [] {
        if result != [] {
          result := result + [NL];
        }
        result := result + b.text;
      }
    }
    assert blocks[..|blocks|] == blocks;
  }

  function TextBlocks(parts: seq<Text>): seq<Block> {
    seq(|parts|, k requires 0 <= k < |parts| => TextBlock(parts[k]))
  }

  function PiecesOf(b: Block, cfg: ChunkConfig): seq<Block>
    requires cfg.maxLength > 0
  {
    if b.TextBlock? then TextBlocks(Pieces(b.text, cfg)) else [b]
  }

  /** The blocks with each text block replaced by its pieces. */
  function InPieces(blocks: seq<Block>, cfg: ChunkConfig): seq<Block>
    requires cfg.maxLength > 0
  {
    if blocks == [] then []
    else
      var b := blocks[|blocks| - 1];
      InPieces(blocks[..|blocks| - 1], cfg) + PiecesOf(b, cfg)
  }

  function AllBlocks(ms: seq<Message>): seq<Block> {
    if ms == [] then [] else AllBlocks(ms[..|ms| - 1]) + ms[|ms| - 1].blocks
  }

  lemma AllBlocksSnoc(ms: seq<Message>, m: Message)
    ensures AllBlocks(ms + [m]) == AllBlocks(ms) + m.blocks
  {
    assert (ms + [m])[..|ms|] == ms;
  }

  /** Every message has blocks, the original addressing, and text that fits. */
  ghost predicate Deliverable(ms: seq<Message>, e: Envelope, maxLen: nat) {
    forall k | 0 <= k < |ms| ::
      ms[k].envelope == e && ms[k].blocks != [] && |TextContent(ms[k].blocks)| <= maxLen
  }

  ghost predicate AllFit(ms: seq<Message>, maxLen: nat) {
    forall k | 0 <= k < |ms| :: |TextContent(ms[k].blocks)| <= maxLen
  }

  /** b could not have been added to a. */
  ghost predicate Overflows(a: Message, b: Message, maxLen: nat) {
    && TextContent(a.blocks) != []
    && b.blocks != [] && b.blocks[0].TextBlock?
    && |TextContent(a.blocks)| + 1 + |b.blocks[0].text| > maxLen
  }

  /** A message ends only where the next piece would not fit. */
  ghost predicate Packed(ms: seq<Message>, maxLen: nat) {
    forall k | 0 <= k < |ms| - 1 :: Overflows(ms[k], ms[k + 1], maxLen)
  }

  /** The variables that SplitMessage shares with its flush closure. */
  class Packer {
    const envelope: Envelope
    const maxLen: nat
    var result: seq<Message>
    var current: seq<Block>
    var currentTextLen: int
    var hasText: bool

    constructor (envelope: Envelope, maxLen: nat)
      requires maxLen > 0
      ensures Valid() && Packing() == [] && this.envelope == envelope && this.maxLen == maxLen
    {
      this.envelope, this.maxLen := envelope, maxLen;
      result, current, currentTextLen, hasText := [], [], 0, false;
    }

    /** All that has been packed, in order. */
    ghost function Packing(): seq<Block>
      reads this
    {
      AllBlocks(result) + current
    }

    ghost predicate Valid()
      reads this
    {
      && maxLen > 0 && Deliverable(result, envelope, maxLen) && Packed(result, maxLen)
      && (result != [] ==> current != [] && Overflows(result[|result| - 1], Message(envelope, current), maxLen))
      && currentTextLen == |TextContent(current)| <= maxLen
      && (hasText <==> TextContent(current) != [])
    }

    /** The flush closure. */
    method Flush()
      requires Valid()
      modifies this
      ensures current == [] && currentTextLen == 0 && !hasText
      ensures old(current) != [] ==> result != [] && result[|result| - 1] == Message(envelope, old(current))
      ensures AllBlocks(result) == old(Packing())
      ensures Deliverable(result, envelope, maxLen) && Packed(result, maxLen)
      ensures result == [] <==> old(Packing()) == []
    {
      if current == [] {
        return;
      }
      AllBlocksSnoc(result, Message(envelope, current));
      result, current, currentTextLen, hasText := result + [Message(envelope, current)], [], 0, false;
    }

    method AddOther(b: Block)
      requires Valid() && !b.TextBlock?
      modifies this
      ensures Valid() && Packing() == old(Packing()) + [b]
    {
      TextContentSnoc(current, b);
      current := current + [b];
    }

    method AddPart(part: Text)
      requires Valid() && 0 < |part| <= maxLen
      modifies this
      ensures Valid() && Packing() == old(Packing()) + [TextBlock(part)]
    {
      var added := |part|;
      if hasText {
        added := added + 1;
      }
      if hasText && currentTextLen + added > maxLen {
        assert current != [] && Overflows(Message(envelope, current), Message(envelope, [TextBlock(part)]), maxLen);
        Flush();
        StillOverflows([], part);
      } else if result != [] {
        StillOverflows(current, part);
      }
      Put(part);
    }

    /** What comes first in a message decides whether it overflows the one before. */
    lemma StillOverflows(blocks: seq<Block>, part: Text)
      requires result != []
      requires Overflows(result[|result| - 1],
                         Message(envelope, if blocks == [] then [TextBlock(part)] else blocks), maxLen)
      ensures Overflows(result[|result| - 1], Message(envelope, blocks + [TextBlock(part)]), maxLen)
    {
    }

    /** The part goes into the current message, where it fits. */
    method Put(part: Text)
      requires maxLen > 0 && Deliverable(result, envelope, maxLen) && Packed(result, maxLen)
      requires currentTextLen == |TextContent(current)| && (hasText <==> TextContent(current) != [])
      requires part != [] && |Joined(TextContent(current), TextBlock(part))| <= maxLen
      requires result != [] ==> Overflows(result[|result| - 1], Message(envelope, current + [TextBlock(part)]), maxLen)
      modifies this`current, this`currentTextLen, this`hasText
      ensures Valid() && Packing() == old(Packing()) + [TextBlock(part)]
    {
      TextContentSnoc(current, TextBlock(part));
      Assoc(AllBlocks(result), current, [TextBlock(part)]);
      current := current + [TextBlock(part)];
      if hasText {
        currentTextLen := currentTextLen + 1;
      }
      currentTextLen := currentTextLen + |part|;
      hasText := true;
    }

    method AddParts(parts: seq<Text>)
      requires Valid() && Sized(parts, maxLen)
      modifies this
      ensures Valid() && Packing() == old(Packing()) + TextBlocks(parts)
    {
      for j := 0 to |parts|
        invariant Valid() && Packing() == old(Packing()) + TextBlocks(parts[..j])
      {
        AddPart(parts[j]);
        assert TextBlocks(parts[..j + 1]) == TextBlocks(parts[..j]) + [TextBlock(parts[j])];
      }
      assert parts[..|parts|] == parts;
    }

    /** One pass through the loop over the blocks. */
    method AddBlock(block: Block, cfg: ChunkConfig)
      requires Valid() && cfg.maxLength == maxLen
      modifies this
      ensures Valid() && Packing() == old(Packing()) + PiecesOf(block, cfg)
    {
      if !block.TextBlock? {
        AddOther(block);
        return;
      }
      var parts := SplitIntoPieces(block.text, cfg);
      PiecesFit(block.text, cfg);
      AddParts(parts);
    }
  }

  lemma InPiecesNext(blocks: seq<Block>, cfg: ChunkConfig, i: nat)
    requires cfg.maxLength > 0 && i < |blocks|
    ensures InPieces(blocks[..i + 1], cfg) == InPieces(blocks[..i], cfg) + PiecesOf(blocks[i], cfg)
  {
    assert blocks[..i + 1][..i] == blocks[..i];
  }

  /** No block but text of nothing but newlines. */
  predicate NewlinesOnly(blocks: seq<Block>) { forall k | 0 <= k < |blocks| :: Blank(blocks[k]) }

  predicate Blank(b: Block) { b.TextBlock? && OnlyNewlines(b.text) }

  lemma BlankYieldsNothing(b: Block, cfg: ChunkConfig)
    requires cfg.maxLength > 0
    ensures PiecesOf(b, cfg) == [] <==> Blank(b)
  {
    if b.TextBlock? {
      NoPieceExactlyWhen(b.text, cfg);
      assert |PiecesOf(b, cfg)| == |Pieces(b.text, cfg)|;
    }
  }

  /** Nothing is left to send if and only if there was nothing but newlines. */
  lemma {:induction false} NothingToSendExactlyWhen(blocks: seq<Block>, cfg: ChunkConfig)
    requires cfg.maxLength > 0
    ensures InPieces(blocks, cfg) == [] <==> NewlinesOnly(blocks)
    decreases |blocks|
  {
    if blocks != [] {
      var init, b := blocks[..|blocks| - 1], blocks[|blocks| - 1];
      NothingToSendExactlyWhen(init, cfg);
      BlankYieldsNothing(b, cfg);
      assert |InPieces(blocks, cfg)| == |InPieces(init, cfg)| + |PiecesOf(b, cfg)|;
      assert NewlinesOnly(blocks) ==> NewlinesOnly(init);
    }
  }

  /** The splitting path, with the result that its last lines choose. */
  method SplitBlocks(msg: Message, cfg: ChunkConfig) returns (out: seq<Message>)
    requires cfg.maxLength > 0
    ensures InPieces(msg.blocks, cfg) == [] ==> out == [msg]
    ensures InPieces(msg.blocks, cfg) != [] ==>
              && AllBlocks(out) == InPieces(msg.blocks, cfg)
              && Deliverable(out, msg.envelope, cfg.maxLength) && Packed(out, cfg.maxLength)
  {
    var p := new Packer(msg.envelope, cfg.maxLength);
    for i := 0 to |msg.blocks|
      invariant p.Valid() && fresh(p) && p.maxLen == cfg.maxLength && p.envelope == msg.envelope
      invariant p.Packing() == InPieces(msg.blocks[..i], cfg)
    {
      InPiecesNext(msg.blocks, cfg, i);
      p.AddBlock(msg.blocks[i], cfg);
    }
    assert msg.blocks[..|msg.blocks|] == msg.blocks;
    p.Flush();
    if |p.result| == 0 {
      return [msg];
    }
    out := p.result;
  }

  /** SplitMessage: on the splitting path the messages carry exactly the blocks,
      with each text replaced by its pieces; each message fits; and a new message
      is begun only when it must. Messages that fit come back unchanged, and so do
      messages of nothing but newlines, which are then the only ones too long. */
  method Split(msg: Message, cfg: ChunkConfig) returns (out: seq<Message>)
    ensures cfg.maxLength <= 0 || |TextContent(msg.blocks)| <= cfg.maxLength || NewlinesOnly(msg.blocks) ==>
              out == [msg]
    ensures cfg.maxLength > 0 && |TextContent(msg.blocks)| > cfg.maxLength && !NewlinesOnly(msg.blocks) ==>
              && AllBlocks(out) == InPieces(msg.blocks, cfg)
              && Deliverable(out, msg.envelope, cfg.maxLength) && Packed(out, cfg.maxLength)
    ensures cfg.maxLength > 0 ==>
              (AllFit(out, cfg.maxLength) <==>
               |TextContent(msg.blocks)| <= cfg.maxLength || !NewlinesOnly(msg.blocks))
  {
    if cfg.maxLength <= 0 {
      return [msg];
    }
    NothingToSendExactlyWhen(msg.blocks, cfg);
    var text := TextOf(msg.blocks);
    if |text| <= cfg.maxLength {
      return [msg];
    }
    out := SplitBlocks(msg, cfg);
    assert NewlinesOnly(msg.blocks) ==> !AllFit(out, cfg.maxLength) by {
      assert NewlinesOnly(msg.blocks) ==> out[0] == msg;
    }
  }

  // ---------------------------------------------------------------------
  // What the contract of Split implies
  // ---------------------------------------------------------------------

  function Texts(blocks: seq<Block>): seq<Text> {
    if blocks == [] then []
    else
      var b := blocks[|blocks| - 1];
      Texts(blocks[..|blocks| - 1]) + (if b.TextBlock? then [b.text] else [])
  }

  lemma {:induction false} TextsAppend(a: seq<Block>, b: seq<Block>)
    ensures Texts(a + b) == Texts(a) + Texts(b)
    decreases |b|
  {
    if b == [] {
      assert a + b == a;
    } else {
      var init, last := b[..|b| - 1], b[|b| - 1];
      TextsAppend(a, init);
      assert (a + b)[..|a + b| - 1] == a + init;
      Assoc(Texts(a), Texts(init), if last.TextBlock? then [last.text] else []);
    }
  }

  lemma {:induction false} TextsOfParts(parts: seq<Text>)
    ensures Texts(TextBlocks(parts)) == parts
    decreases |parts|
  {
    if parts != [] {
      TextsOfParts(parts[..|parts| - 1]);
      assert TextBlocks(parts)[..|parts| - 1] == TextBlocks(parts[..|parts| - 1]);
    }
  }

  /** No character of any text is lost or invented, newlines apart. */
  lemma {:induction false} InPiecesKeepsInk(blocks: seq<Block>, cfg: ChunkConfig)
    requires cfg.maxLength > 0
    ensures InkAll(Texts(InPieces(blocks, cfg))) == InkAll(Texts(blocks))
    decreases |blocks|
  {
    if blocks != [] {
      var init, b := blocks[..|blocks| - 1], blocks[|blocks| - 1];
      InPiecesKeepsInk(init, cfg);
      if b.TextBlock? {
        var parts := Pieces(b.text, cfg);
        TextsAppend(InPieces(init, cfg), TextBlocks(parts));
        TextsOfParts(parts);
        InkAllAppend(Texts(InPieces(init, cfg)), parts);
        PiecesKeepInk(b.text, cfg);
        InkAllAppend(Texts(init), [b.text]);
        InkAllOne(b.text);
      } else {
        assert (InPieces(init, cfg) + [b])[..|InPieces(init, cfg)|] == InPieces(init, cfg);
        assert Texts(init) + [] == Texts(init) && Texts(InPieces(init, cfg)) + [] == Texts(InPieces(init, cfg));
      }
    }
  }

  /** The exception is real for every limit: one newline more than fits. */
  lemma NewlinesStayTooLong(cfg: ChunkConfig)
    requires cfg.maxLength > 0
    ensures var blocks := [TextBlock(seq(cfg.maxLength + 1, _ => NL))];
            NewlinesOnly(blocks) && |TextContent(blocks)| > cfg.maxLength
  {
    var newlines: Text := seq(cfg.maxLength + 1, _ => NL);
    assert [TextBlock(newlines)] == [] + [TextBlock(newlines)];
    TextContentSnoc([], TextBlock(newlines));
  }
}

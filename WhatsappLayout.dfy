/** Integer layout of the mockup in logical (pre-scale) units: the four
    horizontal section bands and the message bubble of `drawChatArea`
    (Generate/Whatsapp.js). */
module WhatsappLayout {
  import opened WhatsappText

  const MockupHeight := 812
  const StatusBarHeight := 44
  const HeaderHeight := 56
  const InputBarHeight := 50
  const Padding := 15

  // Bubble constants of drawChatArea.
  const BubbleRadius := 15
  const TailSize := 10
  const TextPadding := 10
  const ExtraTextOffset := 5
  /** The extra five units the text origin is moved down by. */
  const TextNudge := 5
  const MaxChars := 30
  const LineHeight := 20

  /** Height of a bubble that holds no line at all. */
  const MinBubbleHeight := 2 * TextPadding + ExtraTextOffset

  /** A horizontal band of the canvas, from `top` (inclusive) to `bottom`
      (exclusive). */
  datatype Band = Band(top: int, bottom: int)

  function ChatTop(): int { StatusBarHeight + HeaderHeight }
  function InputBarTop(): int { MockupHeight - InputBarHeight }

  /** Status bar, header, chat area and input bar, top to bottom: they tile the
      canvas height without gap or overlap, and none is empty. */
  function SectionBands(): (bands: seq<Band>)
    ensures |bands| == 4
    ensures bands[0].top == 0 && bands[3].bottom == MockupHeight
    ensures forall i :: 0 <= i < 3 ==> bands[i].bottom == bands[i + 1].top
    ensures forall i :: 0 <= i < 4 ==> bands[i].top < bands[i].bottom
  {
    var chatHeight := MockupHeight - ChatTop() - InputBarHeight;
    [ Band(0, StatusBarHeight),
      Band(StatusBarHeight, StatusBarHeight + HeaderHeight),
      Band(ChatTop(), ChatTop() + chatHeight),
      Band(InputBarTop(), InputBarTop() + InputBarHeight) ]
  }

  /** Bubble height for `lineCount` lines: at least the empty bubble's height,
      and exactly one line height more per line. */
  function BubbleHeight(lineCount: nat): (h: int)
    ensures h >= MinBubbleHeight
    ensures h - MinBubbleHeight == lineCount * LineHeight
  {
    (lineCount * LineHeight) + (2 * TextPadding) + ExtraTextOffset
  }

  /** More lines give a strictly taller bubble. */
  lemma BubbleHeightIncreasing(a: nat, b: nat)
    requires a < b
    ensures BubbleHeight(a) < BubbleHeight(b)
  {
  }

  /** The texts of a sequence of drawing calls. */
  function Texts(draws: seq<TextDraw>): (t: seq<string>)
    ensures |t| == |draws|
    ensures forall j :: 0 <= j < |draws| ==> t[j] == draws[j].text
  {
    seq(|draws|, j requires 0 <= j < |draws| => draws[j].text)
  }

  /** What `drawChatArea` computes: the bubble's position and height, the lines
      drawn inside it, the upper corner and the lowest point of its tail, and
      the bottom edge of the bottom-aligned timestamp. */
  datatype ChatArea = ChatArea(
    bubbleX: int, bubbleY: int, bubbleHeight: int,
    lines: seq<TextDraw>, tailTopY: int, tailTipY: int, timestampBottom: int)

  /** `drawChatArea(ctx, messageContent)`: the bubble is sized from
      `wrapText(messageContent, 30)` and filled by
      `drawWrappedText(..., messageContent, ..., 30, 20)`, so it holds exactly the
      lines it was sized for, each line lying vertically inside it. */
  method DrawChatArea(messageContent: string) returns (area: ChatArea)
    ensures area.bubbleX == Padding && area.bubbleY == ChatTop() + Padding
    ensures Texts(area.lines) == Chunks(messageContent, MaxChars)
    ensures Concat(Texts(area.lines)) == messageContent
    ensures |area.lines| == LineCount(|messageContent|, MaxChars)
    ensures area.bubbleHeight == BubbleHeight(|area.lines|)
    ensures forall j :: 0 <= j < |area.lines| ==>
      area.lines[j].x == area.bubbleX + TextPadding &&
      area.lines[j].y == area.bubbleY + 20 + 20 * j
    ensures forall j :: 0 <= j < |area.lines| ==>
      area.bubbleY < area.lines[j].y &&
      area.lines[j].y + LineHeight <= area.bubbleY + area.bubbleHeight
    ensures area.tailTopY == area.bubbleY + area.bubbleHeight - BubbleRadius
    ensures area.bubbleY < area.tailTopY < area.bubbleY + area.bubbleHeight
    ensures area.tailTipY == area.bubbleY + area.bubbleHeight + TailSize / 2
    ensures area.timestampBottom == area.bubbleY + area.bubbleHeight - TextPadding
  {
    var startY := StatusBarHeight + HeaderHeight;
    var bubbleX := Padding;
    var bubbleY := startY + Padding;
    var lines := WrapText(messageContent, MaxChars);
    var bubbleHeight := (|lines| * LineHeight) + (2 * TextPadding) + ExtraTextOffset;
    var drawn := DrawWrappedText(messageContent, bubbleX + TextPadding,
      bubbleY + TextPadding + ExtraTextOffset + TextNudge, MaxChars, LineHeight);
    assert Texts(drawn) == lines;
    area := ChatArea(bubbleX, bubbleY, bubbleHeight, drawn,
      bubbleY + bubbleHeight - BubbleRadius, bubbleY + bubbleHeight + TailSize / 2, bubbleY + bubbleHeight - TextPadding);
  }

  /** The bubble ends above the input bar exactly when the message has at most
      31 lines, that is at most 930 characters; a longer message runs under the
      input bar, which is drawn later and covers it. */
  lemma BubbleFitsChatArea(messageContent: string)
    ensures ChatTop() + Padding + BubbleHeight(LineCount(|messageContent|, MaxChars)) <= InputBarTop()
        <==> |messageContent| <= 31 * MaxChars
  {
  }
}

/**
 * Placement of the converter window at one of eight screen positions,
 * in Java int arithmetic: division truncates toward zero and subtraction
 * wraps around at 32 bits.
 */
module Align {
  type Int32 = x: int | -0x8000_0000 <= x < 0x8000_0000

  /** The int a mathematical integer becomes in 32-bit two's complement. */
  function Wrap(x: int): Int32
  {
    var m := x % 0x1_0000_0000;
    if m >= 0x8000_0000 then m - 0x1_0000_0000 else m
  }

  /** Java's a - b on int. */
  function Sub(a: Int32, b: Int32): Int32
  {
    Wrap(a - b)
  }

  /** Java's a / 2 on int, which truncates toward zero. */
  function Half(a: Int32): Int32
  {
    if a >= 0 then a / 2 else -((-(a as int)) / 2)
  }

  datatype Dimension = Dimension(width: Int32, height: Int32)

  datatype Position = UpperLeft | Upper | UpperRight | Right | LowerRight | Lower | LowerLeft | Left

  /** The arguments of setBounds. */
  datatype Bounds = Bounds(x: Int32, y: Int32, width: Int32, height: Int32)

  /** Where a position puts the window along one axis. */
  datatype Anchor = Start | Centre | End

  function HorizontalAnchor(p: Position): Anchor
  {
    match p
    case UpperLeft | LowerLeft | Left => Start
    case Upper | Lower => Centre
    case UpperRight | Right | LowerRight => End
  }

  function VerticalAnchor(p: Position): Anchor
  {
    match p
    case UpperLeft | Upper | UpperRight => Start
    case Left | Right => Centre
    case LowerLeft | Lower | LowerRight => End
  }

  /** The offset along one axis for an anchor, in Java int arithmetic. */
  function Offset(a: Anchor, screen: Int32, frame: Int32): Int32
  {
    match a
    case Start => 0
    case Centre => Sub(Half(screen), Half(frame))
    case End => Sub(screen, frame)
  }

  /** alignWindow: the bounds the window is given. */
  function AlignWindow(frameSize: Dimension, screenSize: Dimension, position: Position): (b: Bounds)
    ensures b.width == frameSize.width && b.height == frameSize.height
    ensures b.x == Offset(HorizontalAnchor(position), screenSize.width, frameSize.width)
    ensures b.y == Offset(VerticalAnchor(position), screenSize.height, frameSize.height)
  {
    var width := screenSize.width;
    var height := screenSize.height;
    var (x, y) :=
      match position
      case UpperLeft => (0, 0)
      case Upper => (Sub(Half(width), Half(frameSize.width)), 0)
      case UpperRight => (Sub(width, frameSize.width), 0)
      case Right => (Sub(width, frameSize.width), Sub(Half(height), Half(frameSize.height)))
      case LowerRight => (Sub(width, frameSize.width), Sub(height, frameSize.height))
      case Lower => (Sub(Half(width), Half(frameSize.width)), Sub(height, frameSize.height))
      case LowerLeft => (0, Sub(height, frameSize.height))
      case Left => (0, Sub(Half(height), Half(frameSize.height)));
    Bounds(x, y, frameSize.width, frameSize.height)
  }

  lemma WrapInRange(x: int)
    requires -0x8000_0000 <= x < 0x8000_0000
    ensures Wrap(x) == x
  {
    if x < 0 {
      assert x % 0x1_0000_0000 == x + 0x1_0000_0000;
    } else {
      assert x % 0x1_0000_0000 == x;
    }
  }

  /**
   * For non-negative sizes no subtraction wraps: the window sits flush
   * with the start or the end of the axis, or centred with margins that
   * differ by at most one.
   */
  lemma OffsetPlacement(a: Anchor, screen: Int32, frame: Int32)
    requires 0 <= screen && 0 <= frame
    ensures var o := Offset(a, screen, frame);
      match a
      case Start => o == 0
      case End => o + frame == screen
      case Centre => -1 <= (screen - (o + frame)) - o <= 1
  {
    match a
    case Start =>
    case End => WrapInRange(screen - frame);
    case Centre => WrapInRange(screen / 2 - frame / 2);
  }

  /** A window no larger than the screen ends up entirely on the screen. */
  lemma OffsetInsideScreen(a: Anchor, screen: Int32, frame: Int32)
    requires 0 <= frame <= screen
    ensures 0 <= Offset(a, screen, frame) && Offset(a, screen, frame) + frame <= screen
  {
    OffsetPlacement(a, screen, frame);
  }

  /** Both axes at once: the bounds lie on the screen whenever the window fits. */
  lemma AlignedInsideScreen(frameSize: Dimension, screenSize: Dimension, position: Position)
    requires 0 <= frameSize.width <= screenSize.width
    requires 0 <= frameSize.height <= screenSize.height
    ensures var b := AlignWindow(frameSize, screenSize, position);
      0 <= b.x && b.x + b.width <= screenSize.width &&
      0 <= b.y && b.y + b.height <= screenSize.height
  {
    OffsetInsideScreen(HorizontalAnchor(position), screenSize.width, frameSize.width);
    OffsetInsideScreen(VerticalAnchor(position), screenSize.height, frameSize.height);
  }
}

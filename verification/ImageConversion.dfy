/** From an image message to the bytes the encoder gets: row padding is removed, and the recorder
    checks the shape of what comes out. */
module ImageConversion {
  import opened Frames
  import opened Wrappers

  datatype PixelFormat = BGR8 | RGB8 | BGRA8 | RGBA8 | MONO8

  /** step is the length of a row in data, padding included. */
  datatype ImageMsg = ImageMsg(height: nat, width: nat, step: nat, data: seq<byte>)

  /** A contiguous array of bytes. */
  datatype NdArray = NdArray(shape: seq<nat>, bytes: seq<byte>)

  datatype ConversionError =
    | BufferTooSmall(got: nat, expected: nat) | StepTooSmall(step: nat, expectedRow: nat) | CannotReshape

  /** What the encoder reads per pixel. */
  function ChannelsFor(format: PixelFormat): nat {
    match format
    case MONO8 => 1
    case BGR8 => 3
    case RGB8 => 3
    case BGRA8 => 4
    case RGBA8 => 4
  }

  /** What the nodes assume when they convert: everything but mono8 has three channels. */
  function ConvertedChannels(format: PixelFormat): nat {
    if format == MONO8 then 1 else 3
  }

  function Times(a: nat, b: nat): nat {
    a * b
  }

  lemma TimesNext(n: nat, row: nat)
    ensures Times(n + 1, row) == Times(n, row) + row
    ensures Times(0, row) == 0
  {
  }

  lemma TimesMono(a: nat, b: nat, row: nat)
    requires a <= b
    ensures Times(a, row) <= Times(b, row)
  {
    assert (b - a) * row >= 0;
    assert (b - a) * row == b * row - a * row;
  }

  /** The first row bytes of each of the first n rows. */
  function Rows(data: seq<byte>, step: nat, row: nat, n: nat): seq<byte>
    requires row <= step && Times(n, step) <= |data|
  {
    if n == 0 then []
    else
      TimesNext(n - 1, step);
      Rows(data, step, row, n - 1) + data[Times(n - 1, step)..Times(n - 1, step) + row]
  }

  /** The node's conversion.  Only one of the two recorder nodes checks the step; for the other a
      step shorter than a row yields an array that is too narrow. */
  function ToNdarray(checksStep: bool, format: PixelFormat, msg: ImageMsg): Result<NdArray, ConversionError> {
    var channels := ConvertedChannels(format);
    var row := Times(msg.width, channels);
    var size := Times(msg.height, msg.step);
    var narrow := if row < msg.step then row else msg.step;
    if |msg.data| < size then Err(BufferTooSmall(|msg.data|, size))
    else if checksStep && msg.step < row then Err(StepTooSmall(msg.step, row))
    else if msg.step == row then
      Ok(NdArray(if channels == 1 then [msg.height, msg.width] else [msg.height, msg.width, 3], msg.data[..size]))
    else if channels == 3 then
      if Times(msg.height, narrow) == Times(msg.height, row)
      then Ok(NdArray([msg.height, msg.width, 3], Rows(msg.data, msg.step, narrow, msg.height)))
      else Err(CannotReshape)
    else Ok(NdArray([msg.height, narrow], Rows(msg.data, msg.step, narrow, msg.height)))
  }

  /** The recorder's check for its configured size: the bytes, or None for an invalid frame. */
  function PrepareFrameBytes(format: PixelFormat, height: nat, width: nat, image: NdArray): Option<seq<byte>> {
    var valid :=
      match format
      case MONO8 => image.shape == [height, width, 1] || image.shape == [height, width]
      case BGR8 => image.shape == [height, width, 3]
      case RGB8 => image.shape == [height, width, 3]
      case BGRA8 => image.shape == [height, width, 4]
      case RGBA8 => image.shape == [height, width, 4];
    if valid then Some(image.bytes) else None
  }

  /** What reaches the recorder's queue from a message of the configured size. */
  function Payload(checksStep: bool, format: PixelFormat, msg: ImageMsg): Option<seq<byte>> {
    var image := ToNdarray(checksStep, format, msg);
    if image.Err? then None else PrepareFrameBytes(format, msg.height, msg.width, image.value)
  }

  /** Which messages a conversion refuses, and for what reason: the buffer is checked before the step. */
  lemma ConversionErrors(checksStep: bool, format: PixelFormat, msg: ImageMsg)
    ensures var r, row := ToNdarray(checksStep, format, msg), Times(msg.width, if format == MONO8 then 1 else 3);
            && (|msg.data| < Times(msg.height, msg.step) <==> r == Err(BufferTooSmall(|msg.data|, Times(msg.height, msg.step))))
            && (|msg.data| >= Times(msg.height, msg.step) && msg.step < row && checksStep
                <==> r == Err(StepTooSmall(msg.step, row)))
            && (r == Err(CannotReshape) ==> !checksStep && format != MONO8 && msg.step < row)
  {
  }

  /** The recorder takes arrays of its size with the format's channels; a mono image with or without a
      channel axis. */
  lemma PrepareAcceptsIff(format: PixelFormat, height: nat, width: nat, image: NdArray)
    ensures PrepareFrameBytes(format, height, width, image)
         == (if image.shape == [height, width, ChannelsFor(format)] || (format == MONO8 && image.shape == [height, width])
             then Some(image.bytes) else None)
  {
  }

  lemma {:induction false} RowsAt(data: seq<byte>, step: nat, row: nat, n: nat, r: nat, i: nat)
    requires row <= step && Times(n, step) <= |data| && r < n && i < row
    ensures |Rows(data, step, row, n)| == Times(n, row)
    ensures Times(r, row) + i < Times(n, row) && Times(r, step) + i < Times(n, step)
    ensures Rows(data, step, row, n)[Times(r, row) + i] == data[Times(r, step) + i]
    decreases n
  {
    hide Times;
    TimesNext(n - 1, step);
    TimesNext(n - 1, row);
    RowsLength(data, step, row, n - 1);
    if r < n - 1 {
      RowsAt(data, step, row, n - 1, r, i);
    }
  }

  lemma {:induction false} RowsLength(data: seq<byte>, step: nat, row: nat, n: nat)
    requires row <= step && Times(n, step) <= |data|
    ensures |Rows(data, step, row, n)| == Times(n, row)
    decreases n
  {
    hide Times;
    TimesNext(0, row);
    if n > 0 {
      TimesNext(n - 1, step);
      TimesNext(n - 1, row);
      RowsLength(data, step, row, n - 1);
    }
  }

  /** For every message of a positive size and both nodes: a payload is produced exactly when the
      format has the channels the nodes assume, the buffer is long enough and the rows are not too
      short. */
  lemma PayloadIff(checksStep: bool, format: PixelFormat, msg: ImageMsg)
    requires msg.height > 0 && msg.width > 0
    ensures Payload(checksStep, format, msg).Some?
            <==> && ChannelsFor(format) == ConvertedChannels(format)
                 && Times(msg.height, msg.step) <= |msg.data|
                 && Times(msg.width, ChannelsFor(format)) <= msg.step
  {
    var row := Times(msg.width, ConvertedChannels(format));
    if msg.step < row {
      TimesStrict(msg.step, row, msg.height);
      if format == MONO8 {
        assert row == msg.width;
      }
    }
  }

  lemma TimesStrict(a: nat, b: nat, height: nat)
    requires a < b && height > 0
    ensures Times(height, a) < Times(height, b)
  {
    var gap := b - a;
    assert height * gap > 0;
    assert height * gap == height * b - height * a;
  }

  /** Padding removal is exact, on the padded and the unpadded path: the payload has the length the
      encoder expects, and byte (r W + c) channels + k of it is byte r step + c channels + k of the
      message. */
  lemma PayloadIsExact(checksStep: bool, format: PixelFormat, msg: ImageMsg, payload: seq<byte>, r: nat, c: nat, k: nat)
    requires msg.height > 0 && msg.width > 0 && Payload(checksStep, format, msg) == Some(payload)
    requires r < msg.height && c < msg.width && k < ChannelsFor(format)
    ensures var channels := ChannelsFor(format);
            && |payload| == Times(Times(msg.height, msg.width), channels)
            && Times(Times(r, msg.width) + c, channels) + k < |payload|
            && Times(r, msg.step) + Times(c, channels) + k < |msg.data|
            && payload[Times(Times(r, msg.width) + c, channels) + k] == msg.data[Times(r, msg.step) + Times(c, channels) + k]
  {
    PayloadIff(checksStep, format, msg);
    var channels := ChannelsFor(format);
    var row := Times(msg.width, channels);
    var i := Times(c, channels) + k;
    PixelIndex(msg.width, channels, msg.height, r, c, k);
    RowsAt(msg.data, msg.step, row, msg.height, r, i);
  }

  lemma PixelIndex(width: nat, channels: nat, height: nat, r: nat, c: nat, k: nat)
    requires c < width && k < channels
    ensures Times(c, channels) + k < Times(width, channels)
    ensures Times(Times(r, width) + c, channels) + k == Times(r, Times(width, channels)) + (Times(c, channels) + k)
    ensures Times(Times(height, width), channels) == Times(height, Times(width, channels))
  {
    TimesMono(c + 1, width, channels);
    TimesNext(c, channels);
  }
}

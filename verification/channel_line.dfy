/**
  The three display lines of the sensor task, one per sensor channel, each
  produced by `sprintf_s` with a `%-5d` conversion into the 20-byte display
  buffer after the buffer has been cleared with `memset_s`.
 */
module ChannelLine {
  import opened Wrappers
  import opened Decimal
  import opened Printf
  import opened SafeString

  /** The C `uint16_t` type of the three reading variables. */
  type uint16 = x: nat | x < 0x1_0000

  /** `sizeof(displayBuff)`. */
  const BufferSize: nat := 20

  /** The field width of the `%-5d` conversion. */
  const FieldWidth: nat := 5

  datatype Channel = IR | ALS | PS

  /** The text before the number on each channel's line. */
  function Label(ch: Channel): string {
    match ch
    case IR => " IR: "
    case ALS => " ALS: "
    case PS => " PS: "
  }

  /** The format string passed to `sprintf_s` for each channel. */
  function FormatString(ch: Channel): string {
    match ch
    case IR => " IR: %-5d "
    case ALS => " ALS: %-5d "
    case PS => " PS: %-5d "
  }

  /** The length every line of a channel has, whatever the value. */
  function LineWidth(ch: Channel): nat {
    match ch
    case IR => 11
    case ALS => 12
    case PS => 11
  }

  /** What follows the digits of a number `n` digits long: spaces up to the
      field width, then the trailing space of the format. */
  function Padding(n: nat): string
    requires n <= FieldWidth
  {
    Spaces(FieldWidth - n) + " "
  }

  /** The line a channel value is shown as: the label, the decimal digits of
      the value, spaces up to the field width, and one trailing space. */
  function ChannelText(ch: Channel, v: uint16): (t: string)
    ensures |t| == LineWidth(ch)
  {
    DigitsLengthBound(v, FieldWidth);
    Label(ch) + (Digits(v) + Padding(|Digits(v)|))
  }

  /** The format strings are the label followed by `%-5d `. */
  lemma FormatStringShape(ch: Channel)
    ensures FormatString(ch) == Label(ch) + "%-5d "
    ensures forall i :: 0 <= i < |Label(ch)| ==> Label(ch)[i] != '%'
  {
  }

  /** `sprintf_s`'s formatting of each channel's format string writes exactly the channel line. */
  lemma FormatIsChannelText(ch: Channel, v: uint16)
    ensures Format(FormatString(ch), [v]) == Some(ChannelText(ch, v))
  {
    FormatStringShape(ch);
    LeftJustifiedFormat(Label(ch), v);
    var d := Digits(v);
    DigitsLengthBound(v, FieldWidth);
    assert ConvertD(v) == d;
    if |d| == FieldWidth {
      assert d + Spaces(0) == d;
    }
    assert Field(ConvSpec(true, 5), v) == d + Spaces(FieldWidth - |d|);
    assert Label(ch) + (d + Spaces(FieldWidth - |d|)) + " " == ChannelText(ch, v);
  }

  /** Every line of a channel has the channel's fixed width, and with its NUL it fits the buffer. */
  lemma ChannelTextLength(ch: Channel, v: uint16)
    ensures |ChannelText(ch, v)| == LineWidth(ch)
    ensures |ChannelText(ch, v)| + 1 <= BufferSize
  {
    DigitsLengthBound(v, FieldWidth);
  }

  /** Reads the part of a channel line after the label: a canonical digit
      run of at most five digits, then exactly the padding it leaves; the
      number must fit in 16 bits. */
  function ParseField(rest: string): Option<uint16> {
    var run := DigitRun(rest);
    if !Canonical(run) || |run| > FieldWidth then None
    else if rest[|run|..] != Padding(|run|) then None
    else if ParseDigits(run) >= 0x1_0000 then None
    else Some(ParseDigits(run))
  }

  /** Reads a channel line back: its label, then the field. */
  function ParseChannelText(ch: Channel, s: string): Option<uint16> {
    var p := Label(ch);
    if |s| < |p| || s[..|p|] != p then None else ParseField(s[|p|..])
  }

  lemma ParseFieldRoundTrip(v: uint16)
    requires |Digits(v)| <= FieldWidth
    ensures ParseField(Digits(v) + Padding(|Digits(v)|)) == Some(v)
  {
    var d := Digits(v);
    var pad := Padding(|d|);
    DigitRunOfDigitsThen(d, pad);
    assert (d + pad)[|d|..] == pad;
    ParseDigitsOfDigits(v);
  }

  lemma ParseFieldExact(rest: string, v: uint16)
    requires ParseField(rest) == Some(v)
    ensures |Digits(v)| <= FieldWidth
    ensures rest == Digits(v) + Padding(|Digits(v)|)
  {
    var run := DigitRun(rest);
    DigitsOfParseDigits(run);
    SplitAt(rest, |run|);
  }

  /** Parsing the line of a value gives the value back. */
  lemma ParseChannelTextRoundTrip(ch: Channel, v: uint16)
    ensures ParseChannelText(ch, ChannelText(ch, v)) == Some(v)
  {
    var p := Label(ch);
    DigitsLengthBound(v, FieldWidth);
    var f := Digits(v) + Padding(|Digits(v)|);
    assert ChannelText(ch, v) == p + f;
    assert (p + f)[..|p|] == p && (p + f)[|p|..] == f;
    ParseFieldRoundTrip(v);
  }

  /** Only the exact line of a value parses to that value: the parser accepts
      nothing but channel lines. */
  lemma ParseChannelTextExact(ch: Channel, s: string, v: uint16)
    requires ParseChannelText(ch, s) == Some(v)
    ensures s == ChannelText(ch, v)
  {
    var p := Label(ch);
    ParseFieldExact(s[|p|..], v);
    SplitAt(s, |p|);
  }

  lemma SplitAt(s: string, k: nat)
    requires k <= |s|
    ensures s == s[..k] + s[k..]
  {
  }

  /** Different values give different lines. */
  lemma ChannelTextInjective(ch: Channel, a: uint16, b: uint16)
    requires ChannelText(ch, a) == ChannelText(ch, b)
    ensures a == b
  {
    ParseChannelTextRoundTrip(ch, a);
    ParseChannelTextRoundTrip(ch, b);
  }

  /** The buffer as the source leaves it for the channel: the line, then NULs to the end. */
  function LineBuffer(ch: Channel, v: uint16): (b: seq<char>)
    ensures |b| == BufferSize
  {
    ChannelTextLength(ch, v);
    ChannelText(ch, v) + seq(BufferSize - LineWidth(ch), _ => Nul)
  }

  /** Clearing the display buffer with `memset_s` and formatting one channel
      into it with `sprintf_s`. The call never hits a runtime-constraint
      violation, returns the line length, and leaves the line followed only by
      NULs, whatever the buffer held before. */
  function FormatIntoBuffer(buf: seq<char>, ch: Channel, v: uint16): (r: Written)
    requires |buf| == BufferSize
    ensures |r.buf| == BufferSize
    ensures !r.violation && r.count == LineWidth(ch)
    ensures r.buf[..LineWidth(ch)] == ChannelText(ch, v)
    ensures forall i :: LineWidth(ch) <= i < BufferSize ==> r.buf[i] == Nul
  {
    FormatIsChannelText(ch, v);
    ChannelTextLength(ch, v);
    var cleared := MemsetS(buf, BufferSize, Nul, BufferSize);
    SprintfS(cleared.buf, BufferSize, FormatString(ch), [v])
  }

  /** Formatting a value leaves the same buffer whatever the buffer held
      before, so formatting a value twice gives byte-identical buffers. */
  lemma FormatIntoBufferIsLineBuffer(buf: seq<char>, ch: Channel, v: uint16)
    requires |buf| == BufferSize
    ensures FormatIntoBuffer(buf, ch, v).buf == LineBuffer(ch, v)
  {
    var r := FormatIntoBuffer(buf, ch, v);
    var b := LineBuffer(ch, v);
    assert |r.buf| == BufferSize;
    forall i | 0 <= i < BufferSize
      ensures r.buf[i] == b[i]
    {
      if i < LineWidth(ch) {
        assert r.buf[i] == r.buf[..LineWidth(ch)][i];
      }
    }
  }

  /** The text a reader of the buffer sees is exactly the channel line. */
  lemma LineBufferText(ch: Channel, v: uint16)
    ensures CString(LineBuffer(ch, v)) == Some(ChannelText(ch, v))
  {
    var t := ChannelText(ch, v);
    var zeros := seq(BufferSize - LineWidth(ch), _ => Nul);
    assert NoNul(t);
    assert zeros == [Nul] + zeros[1..];
    assert LineBuffer(ch, v) == t + [Nul] + zeros[1..];
    CStringOfTerminated(t, zeros[1..]);
  }
}

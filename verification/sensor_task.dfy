/**
  The start-up function and the display task of the sensor demo, as the
  sequence of device calls they make. Driver calls are opaque events; the
  values the sensor variables hold after each read are an input, one reading
  per loop iteration, and the endless loop is cut to as many iterations as
  readings are given.
 */
module SensorTask {
  import opened Wrappers
  import opened SafeString
  import opened ChannelLine
  import opened Display
  import opened Decimal
  import Printf

  /** The I/O expander, the light/proximity sensor and the OLED display. */
  datatype Device = Pcf8574 | Ap3216c | Ssd1306

  /** Character size argument of the draw calls; the task only uses the 16-pixel size. */
  datatype TextSize = TextSize16

  datatype Event =
    | Init(device: Device)
    | CreateTask
    | ClearScreen
    | ShowStr(col: nat, row: nat, buf: seq<char>, size: TextSize)
    | ReadData
    | Sleep(seconds: nat)

  /** The three channel variables after one `AP3216C_ReadData` call. */
  datatype Reading = Reading(ir: uint16, als: uint16, ps: uint16)

  const Title: string := " AP3216C Sensor "

  /** The title string literal as stored, with its NUL. */
  const TitleBuffer: seq<char> := Title + [Nul]

  /** The display row each channel is drawn on; row 0 holds the title. */
  function Row(ch: Channel): nat {
    match ch
    case IR => 1
    case ALS => 2
    case PS => 3
  }

  function Value(r: Reading, ch: Channel): uint16 {
    match ch
    case IR => r.ir
    case ALS => r.als
    case PS => r.ps
  }

  /** The device an event talks to; creating the task and sleeping touch none. */
  function DeviceOf(e: Event): Option<Device> {
    match e
    case Init(d) => Some(d)
    case ClearScreen => Some(Ssd1306)
    case ShowStr(_, _, _, _) => Some(Ssd1306)
    case ReadData => Some(Ap3216c)
    case CreateTask => None
    case Sleep(_) => None
  }

  /** What the start-up function does: the three driver inits, then the task is created. */
  function StartupTrace(): seq<Event> {
    [Init(Pcf8574), Init(Ap3216c), Init(Ssd1306), CreateTask]
  }

  /** The task's prologue: clear the screen, then draw the title on row 0. */
  function TitleEvents(): seq<Event> {
    [ClearScreen, ShowStr(0, 0, TitleBuffer, TextSize16)]
  }

  function DrawChannel(r: Reading, ch: Channel): Event {
    ShowStr(0, Row(ch), LineBuffer(ch, Value(r, ch)), TextSize16)
  }

  /** One loop iteration: read, draw rows 1, 2 and 3, sleep one second. */
  function IterationEvents(r: Reading): seq<Event> {
    [ReadData, DrawChannel(r, IR), DrawChannel(r, ALS), DrawChannel(r, PS), Sleep(1)]
  }

  /** The loop iterations for the readings, in order. */
  function LoopEvents(rs: seq<Reading>): (t: seq<Event>)
    ensures |t| == 5 * |rs|
  {
    if rs == [] then [] else LoopEvents(rs[..|rs| - 1]) + IterationEvents(rs[|rs| - 1])
  }

  function TaskTrace(rs: seq<Reading>): seq<Event> {
    TitleEvents() + LoopEvents(rs)
  }

  /** The start-up function followed by the task it starts. */
  function SystemTrace(rs: seq<Reading>): seq<Event> {
    StartupTrace() + TaskTrace(rs)
  }

  /** One pass of the task's loop body, as the source runs it: the read, then
      for each channel the display buffer cleared and formatted in place and
      handed to the draw call, then the sleep. Whatever the buffer held
      before, the calls are exactly `IterationEvents(r)`. */
  method RenderIteration(displayBuff: seq<char>, r: Reading) returns (buf: seq<char>, events: seq<Event>)
    requires |displayBuff| == BufferSize
    ensures |buf| == BufferSize
    ensures events == IterationEvents(r)
  {
    events := [ReadData];
    var ir, als, ps := r.ir, r.als, r.ps;

    FormatIntoBufferIsLineBuffer(displayBuff, IR, ir);
    buf := FormatIntoBuffer(displayBuff, IR, ir).buf;
    events := events + [ShowStr(0, 1, buf, TextSize16)];

    FormatIntoBufferIsLineBuffer(buf, ALS, als);
    buf := FormatIntoBuffer(buf, ALS, als).buf;
    events := events + [ShowStr(0, 2, buf, TextSize16)];

    FormatIntoBufferIsLineBuffer(buf, PS, ps);
    buf := FormatIntoBuffer(buf, PS, ps).buf;
    events := events + [ShowStr(0, 3, buf, TextSize16)];

    events := events + [Sleep(1)];
  }

  /** The display task as the source runs it, with one display buffer shared
      by all iterations. Its calls are exactly `TaskTrace(readings)`. */
  method SensorDisplayTask(readings: seq<Reading>) returns (trace: seq<Event>)
    ensures trace == TaskTrace(readings)
  {
    var displayBuff := seq(BufferSize, _ => Nul);
    trace := [ClearScreen, ShowStr(0, 0, TitleBuffer, TextSize16)];
    var i := 0;
    while i < |readings|
      invariant 0 <= i <= |readings|
      invariant |displayBuff| == BufferSize
      invariant trace == TaskTrace(readings[..i])
    {
      var events;
      displayBuff, events := RenderIteration(displayBuff, readings[i]);
      TaskTraceSnoc(readings, i);
      trace := trace + events;
      i := i + 1;
    }
    assert readings[..i] == readings;
  }

  lemma TaskTraceSnoc(rs: seq<Reading>, i: nat)
    requires i < |rs|
    ensures TaskTrace(rs[..i + 1]) == TaskTrace(rs[..i]) + IterationEvents(rs[i])
  {
    assert rs[..i + 1][..i] == rs[..i];
    TaskTraceAppend(rs[..i + 1]);
  }

  /** Iteration `k` of the loop occupies positions 5k to 5k+4 of the loop events. */
  lemma {:induction false} LoopEventsIteration(rs: seq<Reading>, k: nat)
    requires k < |rs|
    ensures LoopEvents(rs)[5 * k..5 * k + 5] == IterationEvents(rs[k])
  {
    var init := rs[..|rs| - 1];
    var a := LoopEvents(init);
    var last := IterationEvents(rs[|rs| - 1]);
    assert LoopEvents(rs) == a + last;
    if k < |rs| - 1 {
      LoopEventsIteration(init, k);
      assert init[k] == rs[k];
      SliceOfAppendLeft(a, last, 5 * k, 5 * k + 5);
    } else {
      SliceOfAppendRight(a, last);
    }
  }

  lemma SliceOfAppendLeft<T>(a: seq<T>, b: seq<T>, i: nat, j: nat)
    requires i <= j <= |a|
    ensures (a + b)[i..j] == a[i..j]
  {
  }

  lemma SliceOfAppendRight<T>(a: seq<T>, b: seq<T>)
    ensures (a + b)[|a|..|a| + |b|] == b
  {
  }

  /** The task trace: the title prologue, then each reading's iteration in turn. */
  lemma TaskTraceShape(rs: seq<Reading>)
    ensures |TaskTrace(rs)| == 2 + 5 * |rs|
    ensures TaskTrace(rs)[..2] == TitleEvents()
    ensures forall k :: 0 <= k < |rs| ==>
      TaskTrace(rs)[2 + 5 * k..2 + 5 * k + 5] == IterationEvents(rs[k])
  {
    forall k | 0 <= k < |rs|
      ensures TaskTrace(rs)[2 + 5 * k..2 + 5 * k + 5] == IterationEvents(rs[k])
    {
      LoopEventsIteration(rs, k);
      assert TaskTrace(rs)[2 + 5 * k..2 + 5 * k + 5] == LoopEvents(rs)[5 * k..5 * k + 5];
    }
  }

  /** Each loop event is a read, a one-second sleep, or a draw at column 0 of
      row 1, 2 or 3 with text size 16. */
  predicate LoopEvent(e: Event) {
    || e == ReadData
    || e == Sleep(1)
    || (e.ShowStr? && e.col == 0 && 1 <= e.row <= 3 && e.size == TextSize16)
  }

  lemma {:induction false} LoopEventsKinds(rs: seq<Reading>)
    ensures forall i :: 0 <= i < |LoopEvents(rs)| ==> LoopEvent(LoopEvents(rs)[i])
  {
    if rs != [] {
      var init := rs[..|rs| - 1];
      LoopEventsKinds(init);
      IterationEventsKinds(rs[|rs| - 1]);
      AllOfAppend(LoopEvents(init), IterationEvents(rs[|rs| - 1]));
    }
  }

  lemma IterationEventsKinds(r: Reading)
    ensures forall i :: 0 <= i < |IterationEvents(r)| ==> LoopEvent(IterationEvents(r)[i])
  {
  }

  lemma AllOfAppend(a: seq<Event>, b: seq<Event>)
    requires forall i :: 0 <= i < |a| ==> LoopEvent(a[i])
    requires forall i :: 0 <= i < |b| ==> LoopEvent(b[i])
    ensures forall i :: 0 <= i < |a + b| ==> LoopEvent((a + b)[i])
  {
  }

  /** The screen is cleared exactly once and the title drawn exactly once,
      both before the first read; nothing in the loop draws on row 0. */
  lemma TitleOnce(rs: seq<Reading>)
    ensures forall i :: 0 <= i < |TaskTrace(rs)| ==> (TaskTrace(rs)[i] == ClearScreen <==> i == 0)
    ensures forall i :: 0 <= i < |TaskTrace(rs)| ==>
      (TaskTrace(rs)[i].ShowStr? && TaskTrace(rs)[i].row == 0 <==> i == 1)
    ensures forall i :: 0 <= i < |TaskTrace(rs)| && TaskTrace(rs)[i] == ReadData ==> i >= 2
    ensures TaskTrace(rs)[1] == ShowStr(0, 0, TitleBuffer, TextSize16)
  {
    var t := TaskTrace(rs);
    LoopEventsKinds(rs);
    forall i | 2 <= i < |t|
      ensures LoopEvent(t[i])
    {
      assert t[i] == LoopEvents(rs)[i - 2];
    }
  }

  /** Start-up initializes the expander, then the sensor, then the display,
      then creates the task; no init or task creation happens afterwards. */
  lemma StartupOrder(rs: seq<Reading>)
    ensures SystemTrace(rs)[..4] == [Init(Pcf8574), Init(Ap3216c), Init(Ssd1306), CreateTask]
    ensures forall i :: 4 <= i < |SystemTrace(rs)| ==>
      !SystemTrace(rs)[i].Init? && SystemTrace(rs)[i] != CreateTask
  {
    var t := SystemTrace(rs);
    LoopEventsKinds(rs);
    forall i | 4 <= i < |t|
      ensures !t[i].Init? && t[i] != CreateTask
    {
      if i >= 6 {
        assert t[i] == LoopEvents(rs)[i - 6];
      }
    }
  }

  /** Every call to a device comes after that device's init. */
  predicate InitializedBeforeUse(t: seq<Event>) {
    forall i :: 0 <= i < |t| && DeviceOf(t[i]).Some? && !t[i].Init? ==>
      exists j :: 0 <= j < i && t[j] == Init(DeviceOf(t[i]).value)
  }

  lemma SystemInitializedBeforeUse(rs: seq<Reading>)
    ensures InitializedBeforeUse(SystemTrace(rs))
  {
    var t := SystemTrace(rs);
    StartupOrder(rs);
    assert t[0] == Init(Pcf8574) && t[1] == Init(Ap3216c) && t[2] == Init(Ssd1306);
    forall i | 0 <= i < |t| && DeviceOf(t[i]).Some? && !t[i].Init?
      ensures exists j :: 0 <= j < i && t[j] == Init(DeviceOf(t[i]).value)
    {
      assert i >= 4;
      match DeviceOf(t[i]).value
      case Pcf8574 => assert t[0] == Init(Pcf8574);
      case Ap3216c => assert t[1] == Init(Ap3216c);
      case Ssd1306 => assert t[2] == Init(Ssd1306);
    }
  }

  /** The effect of one event on the display surface. A draw shows the
      characters of its buffer before the first NUL; a buffer without a NUL
      would be read past its end, which stops the replay. */
  function Step(s: Screen, e: Event): Option<Screen> {
    match e
    case ClearScreen => Some(Blank)
    case ShowStr(col, row, buf, _) =>
      (match CString(buf)
       case None => None
       case Some(text) => Some(Draw(s, col, row, text)))
    case _ => Some(s)
  }

  function Replay(s: Screen, t: seq<Event>): Option<Screen>
    decreases |t|
  {
    if t == [] then Some(s)
    else match Step(s, t[0])
      case None => None
      case Some(s') => Replay(s', t[1..])
  }

  lemma {:induction false} ReplayAppend(s: Screen, a: seq<Event>, b: seq<Event>)
    ensures Replay(s, a + b) ==
      match Replay(s, a)
      case None => None
      case Some(s') => Replay(s', b)
    decreases |a|
  {
    if a == [] {
      assert a + b == b;
    } else {
      assert (a + b)[0] == a[0];
      assert (a + b)[1..] == a[1..] + b;
      match Step(s, a[0])
      case None =>
      case Some(s') => ReplayAppend(s', a[1..], b);
    }
  }

  /** The screen after drawing the three lines of a reading over `s`. */
  function DrawReading(s: Screen, r: Reading): Screen {
    s[1 := ChannelText(IR, r.ir)][2 := ChannelText(ALS, r.als)][3 := ChannelText(PS, r.ps)]
  }

  /** What the display shows after the task has run through the readings:
      the title on row 0 and, once a reading was taken, the last reading's
      three lines on rows 1 to 3, with no characters of earlier readings. */
  function ShownScreen(rs: seq<Reading>): Screen {
    var titled := map[0 := Title];
    if rs == [] then titled else DrawReading(titled, rs[|rs| - 1])
  }

  lemma DrawReadingTwice(s: Screen, a: Reading, b: Reading)
    ensures DrawReading(DrawReading(s, a), b) == DrawReading(s, b)
  {
  }

  /** Replaying two events whose steps are known. */
  lemma ReplayTwo(s0: Screen, s1: Screen, s2: Screen, e1: Event, e2: Event)
    requires Step(s0, e1) == Some(s1) && Step(s1, e2) == Some(s2)
    ensures Replay(s0, [e1, e2]) == Some(s2)
  {
    var t := [e1, e2];
    assert Replay(s2, t[2..]) == Some(s2);
    assert Replay(s1, t[1..]) == Some(s2);
  }

  lemma TitleScreen(s0: Screen)
    ensures Replay(s0, TitleEvents()) == Some(map[0 := Title])
  {
    assert NoNul(Title);
    assert TitleBuffer == Title + [Nul] + [];
    CStringOfTerminated(Title, []);
    OverlayCovers("", Title);
    assert RowText(Blank, 0) == "";
    assert Blank[0 := Title] == map[0 := Title];
    assert Step(Blank, ShowStr(0, 0, TitleBuffer, TextSize16)) == Some(map[0 := Title]);
    ReplayTwo(s0, Blank, map[0 := Title], ClearScreen, ShowStr(0, 0, TitleBuffer, TextSize16));
  }

  /** Drawing a channel's line over a screen whose row shows nothing or a line
      of the same channel leaves exactly the new line on that row. */
  lemma DrawChannelStep(s: Screen, r: Reading, ch: Channel)
    requires |RowText(s, Row(ch))| <= LineWidth(ch)
    ensures Step(s, DrawChannel(r, ch)) == Some(s[Row(ch) := ChannelText(ch, Value(r, ch))])
  {
    var line := ChannelText(ch, Value(r, ch));
    LineBufferText(ch, Value(r, ch));
    StepShowStr(s, 0, Row(ch), LineBuffer(ch, Value(r, ch)), TextSize16, line);
    OverlayCovers(RowText(s, Row(ch)), line);
  }

  lemma StepShowStr(s: Screen, col: nat, row: nat, buf: seq<char>, size: TextSize, text: string)
    requires CString(buf) == Some(text)
    ensures Step(s, ShowStr(col, row, buf, size)) == Some(s[row := Overlay(RowText(s, row), col, text)])
  {
  }

  lemma IterationReplay(s0: Screen, r: Reading)
    requires |RowText(s0, 1)| <= LineWidth(IR)
    requires |RowText(s0, 2)| <= LineWidth(ALS)
    requires |RowText(s0, 3)| <= LineWidth(PS)
    ensures Replay(s0, IterationEvents(r)) == Some(DrawReading(s0, r))
  {
    var s1 := s0[1 := ChannelText(IR, r.ir)];
    var s2 := s1[2 := ChannelText(ALS, r.als)];
    var s3 := s2[3 := ChannelText(PS, r.ps)];
    assert RowText(s1, 2) == RowText(s0, 2);
    assert RowText(s2, 3) == RowText(s0, 3);
    DrawChannelStep(s0, r, IR);
    DrawChannelStep(s1, r, ALS);
    DrawChannelStep(s2, r, PS);
    ReplayIteration(s0, s1, s2, s3, DrawChannel(r, IR), DrawChannel(r, ALS), DrawChannel(r, PS));
  }

  /** Replaying an iteration whose three draws have known effects. */
  lemma ReplayIteration(s0: Screen, s1: Screen, s2: Screen, s3: Screen, d1: Event, d2: Event, d3: Event)
    requires Step(s0, d1) == Some(s1) && Step(s1, d2) == Some(s2) && Step(s2, d3) == Some(s3)
    ensures Replay(s0, [ReadData, d1, d2, d3, Sleep(1)]) == Some(s3)
  {
    var t := [ReadData, d1, d2, d3, Sleep(1)];
    assert Step(s0, t[0]) == Some(s0);
    assert Step(s3, t[4]) == Some(s3);
    ReplayFive(s0, s0, s1, s2, s3, s3, t);
  }

  /** Replaying five events whose steps are known. */
  lemma ReplayFive(s0: Screen, s1: Screen, s2: Screen, s3: Screen, s4: Screen, s5: Screen, t: seq<Event>)
    requires |t| == 5
    requires Step(s0, t[0]) == Some(s1) && Step(s1, t[1]) == Some(s2)
    requires Step(s2, t[2]) == Some(s3) && Step(s3, t[3]) == Some(s4)
    requires Step(s4, t[4]) == Some(s5)
    ensures Replay(s0, t) == Some(s5)
  {
    assert Replay(s5, t[5..]) == Some(s5);
    assert Replay(s4, t[4..]) == Some(s5);
    assert Replay(s3, t[3..]) == Some(s5);
    assert Replay(s2, t[2..]) == Some(s5);
    assert Replay(s1, t[1..]) == Some(s5);
  }

  lemma ShownScreenRows(rs: seq<Reading>)
    ensures |RowText(ShownScreen(rs), 1)| <= LineWidth(IR)
    ensures |RowText(ShownScreen(rs), 2)| <= LineWidth(ALS)
    ensures |RowText(ShownScreen(rs), 3)| <= LineWidth(PS)
  {
    if rs != [] {
      var p := rs[|rs| - 1];
      ChannelTextLength(IR, p.ir);
      ChannelTextLength(ALS, p.als);
      ChannelTextLength(PS, p.ps);
    }
  }

  lemma ShownScreenSnoc(rs: seq<Reading>, r: Reading)
    ensures ShownScreen(rs + [r]) == DrawReading(ShownScreen(rs), r)
  {
    assert (rs + [r])[|rs + [r]| - 1] == r;
    if rs != [] {
      DrawReadingTwice(map[0 := Title], rs[|rs| - 1], r);
    }
  }

  lemma IterationScreen(rs: seq<Reading>, r: Reading)
    ensures Replay(ShownScreen(rs), IterationEvents(r)) == Some(ShownScreen(rs + [r]))
  {
    ShownScreenRows(rs);
    IterationReplay(ShownScreen(rs), r);
    ShownScreenSnoc(rs, r);
  }

  /** Whatever the display showed before, after the task has run through the
      readings it shows the title and the last reading's lines, and nothing else. */
  lemma {:induction false} TaskScreen(s0: Screen, rs: seq<Reading>)
    ensures Replay(s0, TaskTrace(rs)) == Some(ShownScreen(rs))
  {
    if rs == [] {
      TaskTraceEmpty();
      TitleScreen(s0);
    } else {
      var init := rs[..|rs| - 1];
      var r := rs[|rs| - 1];
      assert rs == init + [r];
      TaskScreen(s0, init);
      ScreenAfterIteration(s0, init, r);
    }
  }

  lemma ScreenAfterIteration(s0: Screen, init: seq<Reading>, r: Reading)
    requires Replay(s0, TaskTrace(init)) == Some(ShownScreen(init))
    ensures Replay(s0, TaskTrace(init + [r])) == Some(ShownScreen(init + [r]))
  {
    var rs := init + [r];
    assert rs[..|rs| - 1] == init && rs[|rs| - 1] == r;
    TaskTraceAppend(rs);
    ReplayAppend(s0, TaskTrace(init), IterationEvents(r));
    IterationScreen(init, r);
  }

  lemma TaskTraceEmpty()
    ensures TaskTrace([]) == TitleEvents()
  {
    assert TitleEvents() + [] == TitleEvents();
  }

  lemma TaskTraceAppend(rs: seq<Reading>)
    requires rs != []
    ensures TaskTrace(rs) == TaskTrace(rs[..|rs| - 1]) + IterationEvents(rs[|rs| - 1])
  {
    var init := rs[..|rs| - 1];
    assert LoopEvents(rs) == LoopEvents(init) + IterationEvents(rs[|rs| - 1]);
  }

  /** A channel line drawn over a longer-valued line of the same channel
      leaves no stale digits: the row ends up as if only the new line was drawn. */
  lemma NoStaleDigits(ch: Channel, a: uint16, b: uint16, shown: string)
    ensures Overlay(Overlay(shown, 0, ChannelText(ch, a)), 0, ChannelText(ch, b))
      == Overlay(shown, 0, ChannelText(ch, b))
  {
    ChannelTextLength(ch, a);
    ChannelTextLength(ch, b);
    OverlaySameLength(shown, ChannelText(ch, a), ChannelText(ch, b));
  }

  /** A reading of ir 1234, als 56 and ps 7 is shown as these three lines. */
  lemma ExampleReading()
    ensures ShownScreen([Reading(1234, 56, 7)]) == map[
      0 := " AP3216C Sensor ",
      1 := " IR: 1234  ",
      2 := " ALS: 56    ",
      3 := " PS: 7     "]
  {
    assert Digits(1234) == "1234";
    assert Digits(56) == "56";
    assert Digits(7) == "7";
    assert ChannelText(IR, 1234) == " IR: 1234  ";
    assert ChannelText(ALS, 56) == " ALS: 56    " by {
      assert Printf.Spaces(3) == "   ";
    }
    assert ChannelText(PS, 7) == " PS: 7     ";
  }
}

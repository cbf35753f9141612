// Vocabulary shared by the three controllers: pipeline states, bus messages,
// query answers and the calls a controller issues towards GStreamer.
// GStreamer itself is not modelled: whatever it answers is an input, and
// whatever the controller asks of it is recorded as a `Call`.
module Gst {

  datatype Option<T> = None | Some(value: T)

  /** GstState, without VOID_PENDING. */
  datatype State = Null | Ready | Paused | Playing

  /** The numeric value of each GstState; Python compares states by it. */
  function Rank(s: State): (r: nat)
    ensures 1 <= r <= 4
  {
    match s
    case Null => 1
    case Ready => 2
    case Paused => 3
    case Playing => 4
  }

  predicate Below(a: State, b: State) {
    Rank(a) < Rank(b)
  }

  /** Null < Ready < Paused < Playing, and nothing else. */
  lemma BelowIsStrictTotalOrder(a: State, b: State, c: State)
    ensures !Below(a, a)
    ensures Below(a, b) && Below(b, c) ==> Below(a, c)
    ensures a == b || Below(a, b) || Below(b, a)
    ensures Below(Null, Ready) && Below(Ready, Paused) && Below(Paused, Playing)
  {
  }

  /** GstStateChangeReturn. */
  datatype StateChangeReturn = Failure | Success | Async | NoPreroll

  /** Which element posted a message: the top-level pipeline (the playbin or
      the "test-pipeline" bin) or one of its children. */
  datatype Origin = Pipeline | Child(name: string)

  /** The bus messages the controllers look at. `Other` stands for every other
      message type, which no controller acts on. */
  datatype Message =
    | Error(src: Origin, text: string, debug: Option<string>)
    | Eos(src: Origin)
    | DurationChanged(src: Origin)
    | StateChanged(src: Origin, oldState: State, newState: State)
    | Application(src: Origin, name: string)
    | Other(src: Origin)

  predicate IsTerminal(m: Message) {
    m.Error? || m.Eos?
  }

  /** The (success, value) pair a position or duration query returns. When
      `ok` is false, `value` is whatever the binding hands back. */
  datatype QueryResult = QueryResult(ok: bool, value: int)

  /** GST_SECOND, in nanoseconds. */
  const Second: int := 1_000_000_000

  /** Gst.CLOCK_TIME_NONE as Python sees it: the unsigned 64-bit all-ones value. */
  const ClockTimeNone: int := 0xFFFF_FFFF_FFFF_FFFF

  predicate IsInt64(v: int) {
    -0x8000_0000_0000_0000 <= v < 0x8000_0000_0000_0000
  }

  /** A signed 64-bit query value never equals CLOCK_TIME_NONE. */
  lemma Int64IsNeverClockTimeNone(v: int)
    requires IsInt64(v)
    ensures v != ClockTimeNone
  {
  }

  /** What a controller asks of GStreamer (or of its own UI), in issue order. */
  datatype Call =
    | SetState(target: State)
    | QuerySeeking
    | QueryPosition
    | QueryDuration
    | Seek(position: int)
    | LinkElements(upstream: string, downstream: string)
    | SetSliderRange(upper: int)
    | SetSliderValue(value: int)
    | Post(msg: Message)
    | Print(line: string)

  /** How a run of a program ends: it exited with a status code, or it is
      still waiting on the bus when its input runs out. */
  datatype Status = Exited(code: int) | Running

  /** The number of seeks in a call trace. */
  function SeekCount(calls: seq<Call>): (n: nat)
    ensures n <= |calls|
  {
    if calls == [] then 0
    else SeekCount(calls[..|calls| - 1]) + (if calls[|calls| - 1].Seek? then 1 else 0)
  }

  lemma {:induction false} SeekCountAppend(a: seq<Call>, b: seq<Call>)
    ensures SeekCount(a + b) == SeekCount(a) + SeekCount(b)
    decreases |b|
  {
    if b == [] {
      assert a + b == a;
    } else {
      assert (a + b)[..|a + b| - 1] == a + b[..|b| - 1];
      SeekCountAppend(a, b[..|b| - 1]);
    }
  }

  /** Python's str.startswith. */
  predicate StartsWith(s: string, prefix: string) {
    |prefix| <= |s| && s[..|prefix|] == prefix
  }

  /** Appending text keeps every prefix. */
  lemma StartsWithAppend(s: string, prefix: string, more: string)
    requires StartsWith(s, prefix)
    ensures StartsWith(s + more, prefix)
  {
    assert (s + more)[..|prefix|] == s[..|prefix|];
  }
}

// Basic tutorial 4, "time management" (four.py): a playbin watched by a
// polling bus loop. Bus messages update a small record of flags; whenever the
// bus stays quiet for a poll interval the loop queries the position, caches
// the duration and, once, seeks from past 10 s to 20 s.
module TimeManagement {
  import opened Gst

  /** The controller state held in CustomData (four.py:10-17), as a value. */
  datatype Session = Session(
    playing: bool,
    terminate: bool,
    seekEnabled: bool,
    seekDone: bool,
    duration: int)

  /** CustomData right after construction: duration unknown, every flag false. */
  const Initial := Session(false, false, false, false, ClockTimeNone)

  /** The position past which the automatic seek fires, and its target. */
  const SeekThreshold: int := 10 * Second
  const SeekTarget: int := 20 * Second

  class CustomData {
    var playing: bool
    var terminate: bool
    var seekEnabled: bool
    var seekDone: bool
    var duration: int

    constructor ()
      ensures View() == Initial
    {
      playing := false;
      terminate := false;
      seekEnabled := false;
      seekDone := false;
      duration := ClockTimeNone;
    }

    function View(): Session
      reads this
    {
      Session(playing, terminate, seekEnabled, seekDone, duration)
    }
  }

  /** A new session together with the calls issued on the way to it. */
  datatype Transition = Transition(session: Session, calls: seq<Call>)

  /** A state change of the playbin itself into PLAYING. */
  predicate EntersPlaying(m: Message) {
    m.StateChanged? && m.src == Pipeline && m.newState == Playing
  }

  /** handle_message (four.py:19-52). `seeking` is the answer to the seeking
      query the handler issues on entering PLAYING: None when the query fails,
      Some(enabled) when it succeeds. */
  function AfterMessage(s: Session, m: Message, seeking: Option<bool>): (r: Transition)
    // an error or end-of-stream terminates, and nothing un-terminates
    ensures r.session.terminate == (s.terminate || IsTerminal(m))
    ensures IsTerminal(m) ==> r == Transition(s.(terminate := true), [])
    // a duration change only forgets the duration, and nothing else touches it
    ensures m.DurationChanged? ==> r == Transition(s.(duration := ClockTimeNone), [])
    ensures !m.DurationChanged? ==> r.session.duration == s.duration
    // state changes of children are ignored
    ensures m.StateChanged? && m.src != Pipeline ==> r == Transition(s, [])
    ensures m.StateChanged? && m.src == Pipeline ==> r.session.playing == (m.newState == Playing)
    // the seeking query is issued exactly on entering PLAYING, and only its
    // success rewrites seekEnabled
    ensures r.calls == (if EntersPlaying(m) then [QuerySeeking] else [])
    ensures r.session.seekEnabled
              == if EntersPlaying(m) && seeking.Some? then seeking.value else s.seekEnabled
    // no message performs or forgets the automatic seek
    ensures r.session.seekDone == s.seekDone
    // every other message type changes nothing
    ensures m.Application? || m.Other? ==> r == Transition(s, [])
  {
    match m
    case Error(_, _, _) => Transition(s.(terminate := true), [])
    case Eos(_) => Transition(s.(terminate := true), [])
    case DurationChanged(_) => Transition(s.(duration := ClockTimeNone), [])
    case StateChanged(src, _, newState) =>
      if src != Pipeline then Transition(s, [])
      else if newState != Playing then Transition(s.(playing := false), [])
      else
        var enabled := if seeking.Some? then seeking.value else s.seekEnabled;
        Transition(s.(playing := true, seekEnabled := enabled), [QuerySeeking])
    case Application(_, _) => Transition(s, [])
    case Other(_) => Transition(s, [])
  }

  /** The conditions under which one poll tick performs the automatic seek. */
  predicate SeekDue(s: Session, position: QueryResult, duration: QueryResult) {
    && s.playing
    && position.ok
    && (s.duration != ClockTimeNone || duration.ok)
    && s.seekEnabled && !s.seekDone
    && position.value > SeekThreshold
  }

  /** One pass through the idle branch of the bus loop (four.py:82-104), given
      the answers to the position and duration queries. */
  function AfterTick(s: Session, position: QueryResult, duration: QueryResult): (r: Transition)
    ensures !s.playing ==> r == Transition(s, [])
    ensures s.playing ==> |r.calls| > 0 && r.calls[0] == QueryPosition
    // playing, terminate and seekEnabled are never touched here
    ensures r.session.playing == s.playing && r.session.terminate == s.terminate
    ensures r.session.seekEnabled == s.seekEnabled
    // the duration is asked for only while it is unknown, and the answer is
    // stored whether the query succeeded or not
    ensures (QueryDuration in r.calls) <==> s.playing && position.ok && s.duration == ClockTimeNone
    ensures r.session.duration
              == if s.playing && position.ok && s.duration == ClockTimeNone then duration.value
                 else s.duration
    // the automatic seek is remembered exactly when it is due
    ensures r.session.seekDone == (s.seekDone || SeekDue(s, position, duration))
  {
    if !s.playing then Transition(s, [])
    else if !position.ok then Transition(s, [QueryPosition])
    else if s.duration == ClockTimeNone && !duration.ok then
      Transition(s.(duration := duration.value), [QueryPosition, QueryDuration])
    else
      var known := if s.duration == ClockTimeNone then s.(duration := duration.value) else s;
      var asked := if s.duration == ClockTimeNone then [QueryPosition, QueryDuration] else [QueryPosition];
      if known.seekEnabled && !known.seekDone && position.value > SeekThreshold then
        Transition(known.(seekDone := true), asked + [Seek(SeekTarget)])
      else
        Transition(known, asked)
  }

  /** One tick seeks exactly when the seek is due, once, last, and to 20 s. */
  lemma TickSeeks(s: Session, position: QueryResult, duration: QueryResult)
    ensures var r := AfterTick(s, position, duration);
      && SeekCount(r.calls) == (if SeekDue(s, position, duration) then 1 else 0)
      && (SeekDue(s, position, duration) ==> r.calls[|r.calls| - 1] == Seek(SeekTarget))
      && (forall c :: c in r.calls && c.Seek? ==> c.position == SeekTarget)
  {
    var r := AfterTick(s, position, duration);
    if s.playing && position.ok && (s.duration != ClockTimeNone || duration.ok) {
      var asked := if s.duration == ClockTimeNone then [QueryPosition, QueryDuration] else [QueryPosition];
      assert SeekCount(asked) == 0 by {
        assert asked[..|asked| - 1] == [] || asked[..|asked| - 1] == [QueryPosition];
      }
      if SeekDue(s, position, duration) {
        assert r.calls == asked + [Seek(SeekTarget)];
        SeekCountAppend(asked, [Seek(SeekTarget)]);
        assert [Seek(SeekTarget)][..0] == [];
      } else {
        assert r.calls == asked;
      }
    } else {
      assert SeekCount(r.calls) == 0 by {
        assert r.calls == [] || r.calls == [QueryPosition] || r.calls == [QueryPosition, QueryDuration];
        assert [QueryPosition, QueryDuration][..1] == [QueryPosition] && [QueryPosition][..0] == [];
      }
    }
  }

  /** What one turn of the bus loop sees: either a message (with the answer the
      seeking query would give, should the message trigger one) or a 100 ms
      timeout (with the answers to the poll queries). */
  datatype Event =
    | Popped(msg: Message, seeking: Option<bool>)
    | TimedOut(position: QueryResult, duration: QueryResult)

  predicate Terminates(e: Event) {
    e.Popped? && IsTerminal(e.msg)
  }

  function AfterEvent(s: Session, e: Event): Transition {
    match e
    case Popped(m, seeking) => AfterMessage(s, m, seeking)
    case TimedOut(position, duration) => AfterTick(s, position, duration)
  }

  /** Where the bus loop stands after draining a prefix of the events: the
      session, every call issued, and how many events were consumed. */
  datatype Drain = Drain(session: Session, calls: seq<Call>, consumed: nat)

  /** `while not data.terminate` (four.py:74-104) run over a finite sequence
      of events; it stops early once terminate is set. */
  function AfterEvents(s: Session, events: seq<Event>): (r: Drain)
    ensures r.consumed <= |events|
    ensures r.consumed == 0 <==> s.terminate || events == []
    decreases |events|
  {
    if s.terminate || events == [] then Drain(s, [], 0)
    else
      var t := AfterEvent(s, events[0]);
      var rest := AfterEvents(t.session, events[1..]);
      Drain(rest.session, t.calls + rest.calls, rest.consumed + 1)
  }

  /** One turn of the loop, seen from position `i` of the input. */
  lemma AfterEventsStep(s: Session, events: seq<Event>, i: nat)
    requires i < |events| && !s.terminate
    ensures var t := AfterEvent(s, events[i]);
      var rest := AfterEvents(t.session, events[i + 1..]);
      AfterEvents(s, events[i..]) == Drain(rest.session, t.calls + rest.calls, rest.consumed + 1)
  {
    assert events[i..][0] == events[i] && events[i..][1..] == events[i + 1..];
  }

  /** Termination is sticky: a terminated session consumes nothing. */
  lemma TerminatedSessionIsInert(s: Session, events: seq<Event>)
    requires s.terminate
    ensures AfterEvents(s, events) == Drain(s, [], 0)
  {
  }

  /** The loop consumes events up to and including the first ERROR or EOS
      message, and all of them when there is none. */
  lemma {:induction false} DrainStopsAtFirstTerminal(s: Session, events: seq<Event>)
    requires !s.terminate
    ensures var r := AfterEvents(s, events);
      && (forall j :: 0 <= j < r.consumed - 1 ==> !Terminates(events[j]))
      && (r.session.terminate <==> r.consumed > 0 && Terminates(events[r.consumed - 1]))
      && (!r.session.terminate ==> r.consumed == |events|)
    decreases |events|
  {
    if events != [] {
      var t := AfterEvent(s, events[0]);
      if !t.session.terminate {
        DrainStopsAtFirstTerminal(t.session, events[1..]);
        var r := AfterEvents(s, events);
        forall j | 0 <= j < r.consumed - 1 ensures !Terminates(events[j]) {
          if j > 0 { assert events[j] == events[1..][j - 1]; }
        }
      }
    }
  }

  /** seekDone records exactly whether the automatic seek has been issued:
      over any run the number of seeks is the number of times the flag went
      from false to true, which is at most one. */
  lemma {:induction false} SeekDoneCountsSeeks(s: Session, events: seq<Event>)
    ensures var r := AfterEvents(s, events);
      && (s.seekDone ==> r.session.seekDone)
      && SeekCount(r.calls) == (if r.session.seekDone && !s.seekDone then 1 else 0)
    decreases |events|
  {
    if !s.terminate && events != [] {
      var t := AfterEvent(s, events[0]);
      var rest := AfterEvents(t.session, events[1..]);
      SeekDoneCountsSeeks(t.session, events[1..]);
      SeekCountAppend(t.calls, rest.calls);
      match events[0]
      case Popped(m, seeking) =>
        assert t.calls == [] || t.calls == [QuerySeeking];
        assert SeekCount(t.calls) == 0;
      case TimedOut(position, duration) =>
        TickSeeks(s, position, duration);
    }
  }

  /** The scripted property of the tutorial: a run from a fresh CustomData
      issues at most one seek. */
  lemma AtMostOneSeek(events: seq<Event>)
    ensures SeekCount(AfterEvents(Initial, events).calls) <= 1
  {
    SeekDoneCountsSeeks(Initial, events);
  }

  /** Every seek of a run targets 20 s. */
  lemma {:induction false} SeeksTargetTwentySeconds(s: Session, events: seq<Event>)
    ensures forall c :: c in AfterEvents(s, events).calls && c.Seek? ==> c.position == SeekTarget
    decreases |events|
  {
    if !s.terminate && events != [] {
      var t := AfterEvent(s, events[0]);
      SeeksTargetTwentySeconds(t.session, events[1..]);
      if events[0].TimedOut? {
        TickSeeks(s, events[0].position, events[0].duration);
      }
    }
  }

  predicate ChangesDuration(e: Event) {
    e.Popped? && e.msg.DurationChanged?
  }

  /** Once the duration is known it is reused: without a DURATION_CHANGED
      message it stays as it is and is never queried again. */
  lemma {:induction false} KnownDurationIsReused(s: Session, events: seq<Event>)
    requires s.duration != ClockTimeNone
    requires forall j :: 0 <= j < |events| ==> !ChangesDuration(events[j])
    ensures AfterEvents(s, events).session.duration == s.duration
    ensures QueryDuration !in AfterEvents(s, events).calls
    decreases |events|
  {
    if !s.terminate && events != [] {
      var t := AfterEvent(s, events[0]);
      assert !ChangesDuration(events[0]);
      assert t.session.duration == s.duration;
      assert QueryDuration !in t.calls;
      forall j | 0 <= j < |events[1..]| ensures !ChangesDuration(events[1..][j]) {
        assert events[1..][j] == events[j + 1];
      }
      KnownDurationIsReused(t.session, events[1..]);
    }
  }

  /** As written, a failed duration query still overwrites the "unknown"
      marker (four.py:90): if the value handed back is not CLOCK_TIME_NONE —
      and no signed 64-bit value is — the next tick does not ask again. */
  lemma FailedDurationQueryIsNotRetried(
    s: Session, position: QueryResult, failed: QueryResult, position': QueryResult, duration': QueryResult)
    requires s.playing && position.ok && s.duration == ClockTimeNone
    requires !failed.ok && IsInt64(failed.value)
    ensures var t := AfterTick(s, position, failed);
      && t.calls == [QueryPosition, QueryDuration]
      && QueryDuration !in AfterTick(t.session, position', duration').calls
  {
    Int64IsNeverClockTimeNone(failed.value);
  }

  /** handle_message (four.py:19-52) on the CustomData object. */
  method HandleMessage(data: CustomData, msg: Message, seeking: Option<bool>) returns (calls: seq<Call>)
    modifies data
    ensures Transition(data.View(), calls) == AfterMessage(old(data.View()), msg, seeking)
  {
    calls := [];
    match msg {
      case Error(_, _, _) =>
        data.terminate := true;
      case Eos(_) =>
        data.terminate := true;
      case DurationChanged(_) =>
        data.duration := ClockTimeNone;
      case StateChanged(src, _, newState) =>
        if src == Pipeline {
          data.playing := newState == Playing;
          if data.playing {
            calls := [QuerySeeking];
            if seeking.Some? {
              data.seekEnabled := seeking.value;
            }
          }
        }
      case Application(_, _) =>
      case Other(_) =>
    }
  }

  /** The idle branch of the bus loop (four.py:82-104), run when no message
      arrived within the poll interval. */
  method Poll(data: CustomData, position: QueryResult, duration: QueryResult) returns (calls: seq<Call>)
    modifies data
    ensures Transition(data.View(), calls) == AfterTick(old(data.View()), position, duration)
  {
    calls := [];
    if data.playing {
      calls := [QueryPosition];
      if position.ok {
        var known := true;
        if data.duration == ClockTimeNone {
          calls := calls + [QueryDuration];
          data.duration := duration.value;
          known := duration.ok;
        }
        if known && data.seekEnabled && !data.seekDone && position.value > SeekThreshold {
          calls := calls + [Seek(SeekTarget)];
          data.seekDone := true;
        }
      }
    }
  }

  /** main (four.py:54-109). `created` says whether the playbin could be made,
      `started` is what set_state(PLAYING) returned, and `events` is what the
      bus loop sees, turn by turn. */
  method Run(created: bool, started: StateChangeReturn, events: seq<Event>)
    returns (status: Status, calls: seq<Call>)
    ensures !created ==> status == Exited(1) && calls == []
    ensures created && started == Failure ==>
      status == Exited(1) && calls == [SetState(Playing), SetState(Null)]
    ensures created && started != Failure ==>
      var d := AfterEvents(Initial, events);
      && status == (if d.session.terminate then Exited(0) else Running)
      && calls == [SetState(Playing)] + d.calls + (if d.session.terminate then [SetState(Null)] else [])
  {
    if !created {
      return Exited(1), [];
    }
    var data := new CustomData();
    calls := [SetState(Playing)];
    if started == Failure {
      return Exited(1), calls + [SetState(Null)];
    }
    var i := 0;
    while !data.terminate && i < |events|
      invariant 0 <= i <= |events|
      invariant AfterEvents(Initial, events).session == AfterEvents(data.View(), events[i..]).session
      invariant [SetState(Playing)] + AfterEvents(Initial, events).calls
                  == calls + AfterEvents(data.View(), events[i..]).calls
    {
      var e := events[i];
      ghost var before := data.View();
      var issued;
      if e.Popped? {
        issued := HandleMessage(data, e.msg, e.seeking);
      } else {
        issued := Poll(data, e.position, e.duration);
      }
      assert Transition(data.View(), issued) == AfterEvent(before, e);
      ghost var rest := AfterEvents(data.View(), events[i + 1..]);
      assert AfterEvents(before, events[i..]) == Drain(rest.session, issued + rest.calls, rest.consumed + 1) by {
        AfterEventsStep(before, events, i);
      }
      assert calls + (issued + rest.calls) == calls + issued + rest.calls;
      calls := calls + issued;
      i := i + 1;
    }
    if data.terminate {
      calls := calls + [SetState(Null)];
      status := Exited(0);
    } else {
      status := Running;
    }
  }
}

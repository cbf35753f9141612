// Basic tutorial 5, "GUI toolkit integration" (five.py): a playbin behind a
// window with play, pause and stop buttons, a position slider refreshed once a
// second, and a text view listing the streams. The controller keeps the
// pipeline state it last saw reported, a cached duration, and the text.
module Player {
  import opened Gst
  import opened StreamInfo

  /** The fields of MediaPlayer the handlers update, as a value: the
      playbin's last reported state, the duration, and the stream text. */
  datatype PlayerState = PlayerState(state: State, duration: int, text: string)

  /** A MediaPlayer right after construction (five.py:14-15). */
  const Initial := PlayerState(Null, ClockTimeNone, "")

  /** The new player state together with the calls issued on the way to it. */
  datatype Reaction = Reaction(player: PlayerState, calls: seq<Call>)

  /** The application message the tag callback posts to marshal its work
      onto the main loop. */
  const TagsChangedName := "tags-changed"
  const TagsChanged := Application(Pipeline, TagsChangedName)

  /** _refresh_ui (five.py:151-167), given the answers to the duration and
      position queries. */
  function Refreshed(p: PlayerState, duration: QueryResult, position: QueryResult): (r: Reaction)
    // before PAUSED nothing at all happens
    ensures Below(p.state, Paused) ==> r == Reaction(p, [])
    ensures r.player.state == p.state && r.player.text == p.text
    // the duration is asked for only while unknown, and then it is the
    // query's value that is kept, whether the query succeeded or not
    ensures r.player.duration
              == if !Below(p.state, Paused) && p.duration == ClockTimeNone then duration.value else p.duration
  {
    if Below(p.state, Paused) then Reaction(p, [])
    else if p.duration != ClockTimeNone then Reaction(p, PositionCalls(position))
    else Reaction(p.(duration := duration.value), DurationCalls(duration) + PositionCalls(position))
  }

  /** The queries of one refresh: the duration only while it is unknown, the
      position on every refresh from PAUSED on. */
  lemma RefreshedQueries(p: PlayerState, duration: QueryResult, position: QueryResult)
    ensures var r := Refreshed(p, duration, position);
      && multiset(r.calls)[QueryDuration]
           == (if !Below(p.state, Paused) && p.duration == ClockTimeNone then 1 else 0)
      && ((QueryPosition in r.calls) <==> !Below(p.state, Paused))
  {
    if !Below(p.state, Paused) && p.duration == ClockTimeNone {
      var dc, pc := DurationCalls(duration), PositionCalls(position);
      assert multiset(dc + pc) == multiset(dc) + multiset(pc);
    }
  }

  /** The slider moves of one refresh: its range only from a successful
      duration query, its value only from a successful position query; a
      refresh never changes the pipeline's state nor seeks. */
  lemma RefreshedSlider(p: PlayerState, duration: QueryResult, position: QueryResult)
    ensures var r := Refreshed(p, duration, position);
      && (forall c :: c in r.calls && c.SetSliderRange? ==>
            QueryDuration in r.calls && duration.ok && c.upper == duration.value)
      && (QueryDuration in r.calls && duration.ok ==> SetSliderRange(duration.value) in r.calls)
      && (forall c :: c in r.calls && c.SetSliderValue? ==> position.ok && c.value == position.value)
      && (!Below(p.state, Paused) && position.ok ==> SetSliderValue(position.value) in r.calls)
      && (forall c :: c in r.calls ==> !c.SetState? && !c.Seek?)
  {
    var r := Refreshed(p, duration, position);
    if !Below(p.state, Paused) {
      var dc, pc := DurationCalls(duration), PositionCalls(position);
      if p.duration == ClockTimeNone {
        assert r.calls == dc + pc;
        assert forall c :: c in r.calls <==> c in dc || c in pc;
      } else {
        assert r.calls == pc;
        assert QueryDuration !in r.calls;
      }
    }
  }

  /** The duration half of a refresh: query, then set the slider's range on
      success. */
  function DurationCalls(duration: QueryResult): (calls: seq<Call>)
    ensures multiset(calls)[QueryDuration] == 1 && QueryPosition !in calls
    ensures forall c :: c in calls ==> c == QueryDuration || (duration.ok && c == SetSliderRange(duration.value))
    ensures duration.ok ==> SetSliderRange(duration.value) in calls
  {
    if duration.ok then [QueryDuration, SetSliderRange(duration.value)] else [QueryDuration]
  }

  /** The position half of a refresh: query, then move the slider on success. */
  function PositionCalls(position: QueryResult): (calls: seq<Call>)
    ensures multiset(calls)[QueryDuration] == 0 && QueryPosition in calls
    ensures forall c :: c in calls ==> c == QueryPosition || (position.ok && c == SetSliderValue(position.value))
    ensures position.ok ==> SetSliderValue(position.value) in calls
  {
    if position.ok then [QueryPosition, SetSliderValue(position.value)] else [QueryPosition]
  }

  /** _on_state_changed (five.py:185-191). */
  function AfterStateChanged(
    p: PlayerState, src: Origin, oldState: State, newState: State,
    duration: QueryResult, position: QueryResult): (r: Reaction)
    // only the playbin's own state changes are tracked
    ensures src != Pipeline ==> r == Reaction(p, [])
    ensures src == Pipeline ==> r.player.state == newState
    // READY -> PAUSED, and no other change, refreshes the UI at once
    ensures r.calls != [] <==> src == Pipeline && oldState == Ready && newState == Paused
    ensures src == Pipeline && oldState == Ready && newState == Paused ==>
              r == Refreshed(p.(state := Paused), duration, position)
    ensures r.player.text == p.text
  {
    if src != Pipeline then Reaction(p, [])
    else
      var tracked := p.(state := newState);
      if oldState == Ready && newState == Paused then Refreshed(tracked, duration, position)
      else Reaction(tracked, [])
  }

  /** _on_application (five.py:193-195) followed by _analyze_streams: only
      the "tags-changed" message rebuilds the text, from scratch. */
  function AfterApplication(p: PlayerState, name: string, streams: Streams): (r: Reaction)
    ensures r.calls == []
    ensures name == TagsChangedName ==> r.player == p.(text := Render(streams))
    ensures name != TagsChangedName ==> r.player == p
  {
    if name == TagsChangedName then Reaction(p.(text := Render(streams)), []) else Reaction(p, [])
  }

  /** Python's truth value of the debug string: present and non-empty. */
  predicate HasDebug(debug: Option<string>) {
    debug.Some? && debug.value != ""
  }

  /** _on_error (five.py:174-179): the error text verbatim, the debug text
      when there is any, then a request for READY. */
  function ErrorCalls(text: string, debug: Option<string>): (calls: seq<Call>)
    ensures |calls| == if HasDebug(debug) then 3 else 2
    ensures calls[0] == Print("Error: " + text)
    ensures HasDebug(debug) ==> calls[1] == Print("Debug info: " + debug.value)
    ensures calls[|calls| - 1] == SetState(Ready)
  {
    [Print("Error: " + text)]
      + (if HasDebug(debug) then [Print("Debug info: " + debug.value)] else [])
      + [SetState(Ready)]
  }

  class MediaPlayer {
    var state: State
    var duration: int
    var streamsText: string

    constructor ()
      ensures View() == Initial
    {
      state := Null;
      duration := ClockTimeNone;
      streamsText := "";
    }

    function View(): PlayerState
      reads this
    {
      PlayerState(state, duration, streamsText)
    }

    /** _on_play, _on_pause and _on_stop (five.py:130-137). */
    method OnPlay() returns (calls: seq<Call>)
      ensures calls == React(View(), PlayClicked).calls
    {
      calls := [SetState(Playing)];
    }

    method OnPause() returns (calls: seq<Call>)
      ensures calls == React(View(), PauseClicked).calls
    {
      calls := [SetState(Paused)];
    }

    method OnStop() returns (calls: seq<Call>)
      ensures calls == React(View(), StopClicked).calls
    {
      calls := [SetState(Ready)];
    }

    /** _refresh_ui (five.py:151-167). It always answers True, so the
        periodic timer stays installed. */
    method RefreshUi(durationAnswer: QueryResult, positionAnswer: QueryResult)
      returns (keep: bool, calls: seq<Call>)
      modifies this
      ensures keep
      ensures Reaction(View(), calls) == Refreshed(old(View()), durationAnswer, positionAnswer)
    {
      keep := true;
      calls := [];
      if Below(state, Paused) {
        return;
      }
      if duration == ClockTimeNone {
        calls := [QueryDuration];
        duration := durationAnswer.value;
        if durationAnswer.ok {
          calls := calls + [SetSliderRange(duration)];
        }
        assert calls == DurationCalls(durationAnswer);
      }
      ghost var durationCalls := calls;
      calls := calls + [QueryPosition];
      if positionAnswer.ok {
        calls := calls + [SetSliderValue(positionAnswer.value)];
      }
      assert calls == durationCalls + PositionCalls(positionAnswer);
    }

    /** _tags_cb (five.py:169-172): post an application message rather than
        touch the UI from the streaming thread. */
    method TagsCb() returns (calls: seq<Call>)
      ensures calls == React(View(), TagsSignal).calls
    {
      calls := [Post(Application(Pipeline, TagsChangedName))];
    }

    /** _on_error (five.py:174-179). */
    method OnError(text: string, debug: Option<string>) returns (calls: seq<Call>)
      ensures calls == React(View(), BusError(text, debug)).calls
    {
      calls := [Print("Error: " + text)];
      if debug.Some? && debug.value != "" {
        calls := calls + [Print("Debug info: " + debug.value)];
      }
      calls := calls + [SetState(Ready)];
    }

    /** _on_eos (five.py:181-183). */
    method OnEos() returns (calls: seq<Call>)
      ensures calls == React(View(), BusEos).calls
    {
      calls := [SetState(Ready)];
    }

    /** _on_state_changed (five.py:185-191); the answers are those the refresh
        would get, should the change be READY -> PAUSED. */
    method OnStateChanged(
      src: Origin, oldState: State, newState: State,
      durationAnswer: QueryResult, positionAnswer: QueryResult)
      returns (calls: seq<Call>)
      modifies this
      ensures Reaction(View(), calls)
              == AfterStateChanged(old(View()), src, oldState, newState, durationAnswer, positionAnswer)
    {
      calls := [];
      if src == Pipeline {
        state := newState;
        if oldState == Ready && newState == Paused {
          var keep;
          keep, calls := RefreshUi(durationAnswer, positionAnswer);
        }
      }
    }

    /** _on_application (five.py:193-195). */
    method OnApplication(name: string, streams: Streams)
      modifies this
      ensures View() == AfterApplication(old(View()), name, streams).player
    {
      if name == TagsChangedName {
        AnalyzeStreams(streams);
      }
    }

    /** _analyze_streams (five.py:197-231): clear the text, then one loop per
        stream kind (video, audio, subtitles), each appending a section for
        every stream of that kind that has tags. */
    method AnalyzeStreams(streams: Streams)
      modifies this
      ensures streamsText == Render(streams)
      ensures state == old(state) && duration == old(duration)
    {
      streamsText := "";
      AppendSections(Video, streams.video);
      ghost var afterVideo := streamsText;
      AppendSections(Audio, streams.audio);
      ghost var afterAudio := streamsText;
      AppendSections(Subtitle, streams.text);
      RenderByKind(streams);
      assert "" + Text(KindSections(Video, streams.video)) == Text(KindSections(Video, streams.video));
    }

    /** One of _analyze_streams's three loops (five.py:205-209, 211-222,
        224-231): stream `i` of kind `k` adds its section when it has tags. */
    method AppendSections(k: Kind, table: seq<Option<TagList>>)
      modifies this
      ensures streamsText == old(streamsText) + Text(KindSections(k, table))
      ensures state == old(state) && duration == old(duration)
    {
      assert table[..0] == [];
      assert Text([]) == "";
      for i := 0 to |table|
        invariant streamsText == old(streamsText) + Text(KindSections(k, table[..i]))
        invariant state == old(state) && duration == old(duration)
      {
        var tags := table[i];
        if tags.Some? {
          assert streamsText + Format(SectionOf(k, i, tags.value))
                 == old(streamsText) + Text(KindSections(k, table[..i + 1])) by {
            TextSnocStream(k, table, i);
            AppendAssociative(old(streamsText), Text(KindSections(k, table[..i])), Format(SectionOf(k, i, tags.value)));
          }
          streamsText := streamsText + Format(SectionOf(k, i, tags.value));
        } else {
          assert Text(KindSections(k, table[..i + 1])) == Text(KindSections(k, table[..i])) by {
            TextSnocStream(k, table, i);
          }
        }
      }
      assert table[..|table|] == table;
    }
  }

  /** What reaches the player from the toolkit's main loop: button clicks,
      the one-second timer, the playbin's tag signals and bus messages. Query
      answers travel with the event that may need them. */
  datatype UiEvent =
    | PlayClicked
    | PauseClicked
    | StopClicked
    | TimerFired(duration: QueryResult, position: QueryResult)
    | TagsSignal
    | BusError(text: string, debug: Option<string>)
    | BusEos
    | BusStateChanged(src: Origin, oldState: State, newState: State, duration: QueryResult, position: QueryResult)
    | BusApplication(name: string, streams: Streams)

  /** The handler each event is connected to (five.py:41-57, 101-126). */
  function React(p: PlayerState, e: UiEvent): (r: Reaction)
    // only the playbin's own state changes move the tracked state
    ensures r.player.state == if ReportsPipelineState(e) then e.newState else p.state
    // only a "tags-changed" application message rewrites the text
    ensures r.player.text
              == if e.BusApplication? && e.name == TagsChangedName then Render(e.streams) else p.text
    // only the timer and the READY -> PAUSED change refresh the duration
    ensures r.player.duration != p.duration ==>
              e.TimerFired? || (ReportsPipelineState(e) && e.oldState == Ready && e.newState == Paused)
  {
    match e
    case PlayClicked => Reaction(p, [SetState(Playing)])
    case PauseClicked => Reaction(p, [SetState(Paused)])
    case StopClicked => Reaction(p, [SetState(Ready)])
    case TimerFired(duration, position) => Refreshed(p, duration, position)
    case TagsSignal => Reaction(p, [Post(TagsChanged)])
    case BusError(text, debug) => Reaction(p, ErrorCalls(text, debug))
    case BusEos => Reaction(p, [SetState(Ready)])
    case BusStateChanged(src, oldState, newState, duration, position) =>
      AfterStateChanged(p, src, oldState, newState, duration, position)
    case BusApplication(name, streams) => AfterApplication(p, name, streams)
  }

  /** The state a play, pause, stop, error or end-of-stream asks for. */
  function Requested(e: UiEvent): Option<State> {
    match e
    case PlayClicked => Some(Playing)
    case PauseClicked => Some(Paused)
    case StopClicked => Some(Ready)
    case BusError(_, _) => Some(Ready)
    case BusEos => Some(Ready)
    case _ => None
  }

  /** Play asks for PLAYING, pause for PAUSED, and stop, error and
      end-of-stream all for READY; no other event requests a state. */
  lemma RequestsMatchEvents(p: PlayerState, e: UiEvent)
    ensures forall c :: c in React(p, e).calls && c.SetState? ==> Requested(e) == Some(c.target)
    ensures Requested(e).Some? ==> SetState(Requested(e).value) in React(p, e).calls
  {
    match e
    case TimerFired(duration, position) =>
      RefreshedSlider(p, duration, position);
    case BusStateChanged(src, oldState, newState, duration, position) =>
      if src == Pipeline && oldState == Ready && newState == Paused {
        RefreshedSlider(p.(state := Paused), duration, position);
      }
    case BusError(text, debug) =>
      var calls := ErrorCalls(text, debug);
      assert forall c :: c in calls && c.SetState? ==> c == SetState(Ready);
    case _ =>
  }

  /** The message the tag callback posts is the one _on_application acts on:
      once it comes back off the bus, the text is rebuilt from the streams. */
  lemma TagsSignalRebuildsText(p: PlayerState, streams: Streams)
    ensures React(p, TagsSignal).calls == [Post(TagsChanged)]
    ensures React(p, BusApplication(TagsChanged.name, streams)).player.text == Render(streams)
  {
  }

  /** Events handled one after another, in order. */
  function ReactAll(p: PlayerState, events: seq<UiEvent>): (r: Reaction)
    decreases |events|
  {
    if events == [] then Reaction(p, [])
    else
      var before := ReactAll(p, events[..|events| - 1]);
      var last := React(before.player, events[|events| - 1]);
      Reaction(last.player, before.calls + last.calls)
  }

  predicate ReportsPipelineState(e: UiEvent) {
    e.BusStateChanged? && e.src == Pipeline
  }

  /** The new state of the last state change the playbin itself reported
      among `events`, or `initial` when there is none. */
  function LastReported(initial: State, events: seq<UiEvent>): State
    decreases |events|
  {
    if events == [] then initial
    else if ReportsPipelineState(events[|events| - 1]) then events[|events| - 1].newState
    else LastReported(initial, events[..|events| - 1])
  }

  /** The tracked state is always the one the playbin last reported: state
      changes of child elements and every other event leave it alone. */
  lemma {:induction false} StateIsLastReported(p: PlayerState, events: seq<UiEvent>)
    ensures ReactAll(p, events).player.state == LastReported(p.state, events)
    decreases |events|
  {
    if events != [] {
      StateIsLastReported(p, events[..|events| - 1]);
    }
  }

  /** Whether every query answer carried by the events is a signed 64-bit
      value, as the query functions return. */
  predicate AnswersAreInt64(e: UiEvent) {
    (e.TimerFired? || e.BusStateChanged?) ==> IsInt64(e.duration.value)
  }

  /** One reaction keeps a known duration, and queries the duration exactly
      when it goes from unknown to known. */
  predicate QueriesDurationOnChange(p: PlayerState, r: Reaction) {
    && (p.duration != ClockTimeNone ==> r.player.duration == p.duration)
    && multiset(r.calls)[QueryDuration]
         == if p.duration == ClockTimeNone && r.player.duration != ClockTimeNone then 1 else 0
  }

  /** Every handler keeps to that, given int64 query answers. */
  lemma ReactDuration(p: PlayerState, e: UiEvent)
    requires AnswersAreInt64(e)
    ensures QueriesDurationOnChange(p, React(p, e))
  {
    if e.TimerFired? || e.BusStateChanged? {
      RefreshingEventDuration(p, e);
    } else {
      QuietEventDuration(p, e);
    }
  }

  lemma RefreshingEventDuration(p: PlayerState, e: UiEvent)
    requires e.TimerFired? || e.BusStateChanged?
    requires IsInt64(e.duration.value)
    ensures QueriesDurationOnChange(p, React(p, e))
  {
    Int64IsNeverClockTimeNone(e.duration.value);
    if e.TimerFired? {
      RefreshedQueries(p, e.duration, e.position);
    } else if e.src == Pipeline && e.oldState == Ready && e.newState == Paused {
      RefreshedQueries(p.(state := Paused), e.duration, e.position);
    }
  }

  lemma QuietEventDuration(p: PlayerState, e: UiEvent)
    requires !e.TimerFired? && !e.BusStateChanged?
    ensures QueriesDurationOnChange(p, React(p, e))
  {
    var r := React(p, e);
    assert r.player == p || e.BusApplication?;
    assert QueryDuration !in r.calls;
  }

  /** five.py never forgets the duration (it does not handle DURATION_CHANGED)
      and stores the value even of a failed query: over the player's whole
      life the duration is queried at most once. */
  lemma {:induction false} DurationQueriedAtMostOnce(p: PlayerState, events: seq<UiEvent>)
    requires forall j :: 0 <= j < |events| ==> AnswersAreInt64(events[j])
    ensures ReactAll(p, events).player.duration == p.duration || p.duration == ClockTimeNone
    ensures multiset(ReactAll(p, events).calls)[QueryDuration]
              == if p.duration == ClockTimeNone && ReactAll(p, events).player.duration != ClockTimeNone
                 then 1 else 0
    decreases |events|
  {
    if events != [] {
      var n := |events| - 1;
      var prefix := events[..n];
      forall j | 0 <= j < n ensures AnswersAreInt64(prefix[j]) {
        assert prefix[j] == events[j];
      }
      DurationQueriedAtMostOnce(p, prefix);
      var before := ReactAll(p, prefix);
      assert AnswersAreInt64(events[n]);
      ReactDuration(before.player, events[n]);
    }
  }

  /** The start-up sequence the pipeline reports after set_state(PLAYING):
      the tracked state ends at PLAYING and the only calls are those of the
      one refresh on the READY -> PAUSED step. */
  lemma StartupReachesPlaying(
    d1: QueryResult, p1: QueryResult, d2: QueryResult, p2: QueryResult, d3: QueryResult, p3: QueryResult)
    ensures ReactAll(Initial, [
        BusStateChanged(Pipeline, Null, Ready, d1, p1),
        BusStateChanged(Pipeline, Ready, Paused, d2, p2),
        BusStateChanged(Pipeline, Paused, Playing, d3, p3)])
      == Reaction(PlayerState(Playing, d2.value, ""), Refreshed(Initial.(state := Paused), d2, p2).calls)
  {
    var e1 := BusStateChanged(Pipeline, Null, Ready, d1, p1);
    var e2 := BusStateChanged(Pipeline, Ready, Paused, d2, p2);
    var e3 := BusStateChanged(Pipeline, Paused, Playing, d3, p3);
    assert [e1, e2, e3][..2] == [e1, e2] && [e1, e2][..1] == [e1] && [e1][..0] == [];
    var ready := ReactAll(Initial, [e1]);
    assert ready == Reaction(Initial.(state := Ready), []) by {
      assert ReactAll(Initial, []) == Reaction(Initial, []);
      assert React(Initial, e1) == Reaction(Initial.(state := Ready), []);
    }
    var refresh := Refreshed(Initial.(state := Paused), d2, p2);
    assert refresh.player == PlayerState(Paused, d2.value, "");
    assert ReactAll(Initial, [e1, e2]) == refresh by {
      assert React(ready.player, e2) == refresh;
    }
    assert React(refresh.player, e3) == Reaction(PlayerState(Playing, d2.value, ""), []);
  }
}

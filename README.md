# GStreamer tutorial controllers

A model of the controller logic of three GStreamer basic tutorials written in
Python:

- `four.py` (time management): `handle_message` folds each bus message into the
  `CustomData` record (`playing`, `terminate`, `seek_enabled`, `seek_done`,
  `duration`). When the bus stays quiet, the idle branch of the bus loop
  queries the position, caches the duration, and seeks once to 20 s after
  the position passes 10 s.
- `three.py` (dynamic pipelines): `pad_added_handler` decides whether a newly
  exposed decodebin pad is linked to the audio chain, the video chain or
  neither. `main` fails fast during setup, drains the bus until ERROR or EOS,
  then sets the pipeline to NULL.
- `five.py` (GUI toolkit integration): the `MediaPlayer` controller tracks the
  playbin's reported state and caches the duration. It refreshes the slider
  once a second from PAUSED on, maps the buttons, errors and end-of-stream to
  state requests, and rebuilds the stream-information text when tags change.

GStreamer is not modelled. Each answer it gives is an input to the model:

- a position or duration query is a `QueryResult(ok, value)`;
- the seeking query is an `Option<bool>`;
- caps negotiation is a `compatible(mediaType, chain)` oracle;
- a stream's tag list is an `Option<TagList>`;
- a bus message is a `Message` value.

The controllers' outward calls are recorded in order as `Call`s in a
returned trace: state requests (set_state), the position, duration and
seeking queries, seeks, the static element links of `main`, slider updates,
posted application messages, and the printed error text. The rest of what
the controllers do towards GStreamer or the UI takes other forms:

- the pad links `pad_added_handler` attempts are returned as the list of
  chains tried (`Decision.attempts`), and their effect as the pads' linked
  flags;
- the pad's own queries in that handler (its sink pads, whether they are
  linked, its current caps) are the `Pads` flags and the media type passed
  in, not calls;
- the reads of `_analyze_streams` (the stream counts and the per-stream tag
  lists) are the `Streams` input, and its writes to the text buffer are the
  `streamsText` field.

Files:

- `gst.dfy`: the shared vocabulary. It covers states ordered Null < Ready <
  Paused < Playing, messages, query answers, calls, `CLOCK_TIME_NONE` and
  `GST_SECOND`.
- `time_management.dfy`: four.py. It has the `CustomData` class, the
  `HandleMessage` and `Poll` steps, `Run` for `main`, and the pure
  specifications `AfterMessage`, `AfterTick` and `AfterEvents`.
- `dynamic_pipeline.dfy`: three.py. It has `Pad` objects with a linked flag,
  the `Link` primitive, `PadAddedHandler` and its specification `PadAdded`,
  `BusLoop`, and `Run` for `main`.
- `stream_info.dfy`: the text `_analyze_streams` writes, as a pure function of
  the three tag tables (`Render`).
- `player.dfy`: five.py. It has the `MediaPlayer` class and its handlers, the
  pure specifications of the handlers (`Refreshed`, `AfterStateChanged`,
  `AfterApplication`, `React`), and properties of whole event sequences
  (`ReactAll`).

The step methods of the two controllers (`HandleMessage`, `Poll`,
`PadAddedHandler` and the `MediaPlayer` handlers) are proved to leave their
object in the state a matching pure function computes from the old state,
and to issue the same calls; the properties are proved about those
functions. `Link`, `BusLoop` and `DynamicPipeline.Run` have no such
function: their ensures state their result directly. `TimeManagement.Run`
is tied to `AfterEvents`.

Two behaviours of the code are modelled as written:

- four.py:90 and five.py:156 store the duration query's value even when the
  query fails. That value is a gint64 and never equals `CLOCK_TIME_NONE`, so
  a failed duration query is not retried
  (`FailedDurationQueryIsNotRetried`, `DurationQueriedAtMostOnce`).
- three.py:85-88 exits on a failed start without setting NULL; four.py:66-69
  sets NULL first.

## Model

| member | source | states |
|---|---|---|
| Gst.BelowIsStrictTotalOrder | src/gstreamer_tutorials/basics/five.py:152 | the state order five.py compares with `<` is strict and total, with Null < Ready < Paused < Playing |
| Gst.Int64IsNeverClockTimeNone | src/gstreamer_tutorials/basics/four.py:89-90 | no signed 64-bit query value equals CLOCK_TIME_NONE, so a stored query answer always counts as a known duration |
| TimeManagement.CustomData.constructor | src/gstreamer_tutorials/basics/four.py:10-17 | a new record has every flag false and the duration unknown |
| TimeManagement.AfterMessage | src/gstreamer_tutorials/basics/four.py:19-52 | ERROR and EOS set terminate, change nothing else and issue nothing, and nothing clears terminate. DURATION_CHANGED only forgets the duration, and no other message touches it. Child state changes change nothing. A playbin state change sets playing to exactly `new == PLAYING`. The seeking query is issued exactly on entering PLAYING, and only its success rewrites seekEnabled. seekDone is never touched. Other messages change nothing |
| TimeManagement.AfterTick | src/gstreamer_tutorials/basics/four.py:80-104 | nothing happens unless playing. The position is queried first. The duration is queried iff playing, the position query succeeded and the duration is unknown, and the answer is stored either way. playing, terminate and seekEnabled are untouched. seekDone becomes true iff the seek is due (enabled, not done, position past 10 s, no failed query this tick) |
| TimeManagement.TickSeeks | src/gstreamer_tutorials/basics/four.py:97-104 | one tick issues exactly one seek iff the seek is due, and none otherwise. The seek is the tick's last call and targets 20 s |
| TimeManagement.AfterEvents | src/gstreamer_tutorials/basics/four.py:74-104 | the loop consumes no event iff it is already terminated or has no input, and never more than it is given |
| TimeManagement.TerminatedSessionIsInert | src/gstreamer_tutorials/basics/four.py:74 | once terminate is set, the loop consumes nothing and issues nothing |
| TimeManagement.DrainStopsAtFirstTerminal | src/gstreamer_tutorials/basics/four.py:21-29 | the loop consumes events up to and including the first ERROR or EOS. It ends terminated iff that last event is ERROR or EOS, and otherwise consumes everything |
| TimeManagement.SeekDoneCountsSeeks | src/gstreamer_tutorials/basics/four.py:97-104 | over any run, seekDone is never cleared. The number of seeks issued is 1 if seekDone went from false to true, and 0 otherwise |
| TimeManagement.AtMostOneSeek | src/gstreamer_tutorials/basics/four.py:97-104 | a run from a fresh record issues at most one seek |
| TimeManagement.SeeksTargetTwentySeconds | src/gstreamer_tutorials/basics/four.py:99-103 | every seek of any run targets 20 s |
| TimeManagement.KnownDurationIsReused | src/gstreamer_tutorials/basics/four.py:89-93 | with the duration known and no DURATION_CHANGED message, the duration stays as it is and is never queried |
| TimeManagement.FailedDurationQueryIsNotRetried | src/gstreamer_tutorials/basics/four.py:89-93 | a failed duration query (the tick then skips the seek check) still overwrites the unknown marker, so the next tick does not query the duration again |
| TimeManagement.HandleMessage | src/gstreamer_tutorials/basics/four.py:19-52 | updating the CustomData object in place gives the record and calls of AfterMessage |
| TimeManagement.Poll | src/gstreamer_tutorials/basics/four.py:82-104 | the idle branch on the object gives the record and calls of AfterTick |
| TimeManagement.Run | src/gstreamer_tutorials/basics/four.py:54-109 | a missing playbin exits 1 with no call. A failed start exits 1 after PLAYING and NULL. Otherwise the loop's calls equal those of AfterEvents from a fresh record, and NULL follows exactly when the loop terminated, with exit 0 |
| DynamicPipeline.Link | src/gstreamer_tutorials/basics/three.py:38-39 | a link succeeds iff the caps are compatible and neither pad has a peer yet. It marks both pads linked only on success |
| DynamicPipeline.PadAdded | src/gstreamer_tutorials/basics/three.py:23-45 | with both sinks linked nothing is attempted. A type that starts with neither "audio/x-raw" nor "video/x-raw" is never linked. Otherwise both links are attempted, audio then video. Success is reported iff some link was made, and failure iff none was. Links are never undone. For a raw pad, the audio sink gains a peer iff pad and sink are free and the caps are accepted; the video sink iff the audio link was not made, pad and sink are free and the caps are accepted. No pad takes both sinks |
| DynamicPipeline.PadAddedIsIdempotent | src/gstreamer_tutorials/basics/three.py:26-28 | re-running the handler on its own result changes nothing, and with both sinks taken every pad is ignored |
| DynamicPipeline.PadAddedHandler | src/gstreamer_tutorials/basics/three.py:23-45 | the handler on the pad objects reports, attempts and leaves linked flags exactly as PadAdded says |
| DynamicPipeline.Discover | src/gstreamer_tutorials/basics/three.py:23-45 | over a sequence of new pads, each sink is held by at most one pad, which is one of the pads seen |
| DynamicPipeline.DiscoverClaims | src/gstreamer_tutorials/basics/three.py:35-39 | a sink is held only by a raw pad that chain accepts. No pad holds both sinks. The audio sink stays free iff no pad seen was raw and audio-compatible; the video sink stays free iff no pad seen, other than the one holding the audio sink, was raw and video-compatible |
| DynamicPipeline.BusLoop | src/gstreamer_tutorials/basics/three.py:92-112 | the loop ends right after the first ERROR or EOS, and ends terminated iff it saw one. Every earlier message, state changes from the pipeline or a child included, is passed over. Without ERROR or EOS every pop is consumed |
| DynamicPipeline.Run | src/gstreamer_tutorials/basics/three.py:48-114 | a missing element exits 1 before any link. The first failing static link, in the order convert→resample, resample→sink, vcon→vsink, exits 1 before any state change. A failed start exits 1 without NULL and without entering the bus loop. Otherwise NULL is set exactly when an ERROR or EOS arrived, with exit 0 |
| StreamInfo.SectionOf | src/gstreamer_tutorials/basics/five.py:205-231 | a stream's section has the stream's kind and index |
| StreamInfo.KindSections | src/gstreamer_tutorials/basics/five.py:205-231 | one kind's loop writes at most one section per stream, each of that kind with an index inside the table |
| StreamInfo.KindSectionsOrdered | src/gstreamer_tutorials/basics/five.py:205-231 | one kind's sections come in strictly ascending stream index |
| StreamInfo.KindSectionsComplete | src/gstreamer_tutorials/basics/five.py:205-231 | one kind's sections are exactly one per stream that has tags: untagged streams are skipped, and each section carries that stream's tags |
| StreamInfo.SectionsOrdered | src/gstreamer_tutorials/basics/five.py:197-231 | the whole text lists video sections, then audio, then subtitles, each by ascending index |
| StreamInfo.SectionsComplete | src/gstreamer_tutorials/basics/five.py:197-231 | a section appears for a stream iff that stream has tags, and it shows those tags |
| StreamInfo.FormatLayout | src/gstreamer_tutorials/basics/five.py:209-231 | each section's text opens with its kind's heading ("video stream ", "\naudio stream ", "\nsubtitle stream ") and the stream's index, and ends with a line break |
| StreamInfo.Decimal | src/gstreamer_tutorials/basics/five.py:209 | the decimal rendering of an index or bitrate is a non-empty string of digits |
| StreamInfo.DecimalRoundTrip | src/gstreamer_tutorials/basics/five.py:209 | reading the rendered digits back gives the number |
| StreamInfo.RenderByKind | src/gstreamer_tutorials/basics/five.py:197-231 | the rendered text is the video text, then the audio text, then the subtitle text |
| Player.Refreshed | src/gstreamer_tutorials/basics/five.py:151-167 | before PAUSED a refresh does nothing. It never changes the tracked state or text. The duration is replaced by the query's answer iff it was unknown, failed query or not |
| Player.RefreshedQueries | src/gstreamer_tutorials/basics/five.py:152-160 | the duration is queried once iff the state is at least PAUSED and the duration unknown. The position is queried iff the state is at least PAUSED |
| Player.RefreshedSlider | src/gstreamer_tutorials/basics/five.py:155-165 | the slider range is set iff the duration was queried and succeeded, to its answer. The slider value is set iff the position query succeeded, to its answer. A refresh neither requests a state nor seeks |
| Player.AfterStateChanged | src/gstreamer_tutorials/basics/five.py:185-191 | only the playbin's own messages update the state, to the new state. Exactly the READY→PAUSED change refreshes at once |
| Player.AfterApplication | src/gstreamer_tutorials/basics/five.py:193-195 | only "tags-changed" rebuilds the text, to the rendering of the current tags. Other names change nothing |
| Player.ErrorCalls | src/gstreamer_tutorials/basics/five.py:174-179 | the error text is printed verbatim, then the debug text if non-empty, and READY is requested last |
| Player.MediaPlayer.constructor | src/gstreamer_tutorials/basics/five.py:13-15 | a new player has state NULL, an unknown duration and an empty text |
| Player.MediaPlayer.OnPlay | src/gstreamer_tutorials/basics/five.py:130-131 | the play button requests PLAYING |
| Player.MediaPlayer.OnPause | src/gstreamer_tutorials/basics/five.py:133-134 | the pause button requests PAUSED |
| Player.MediaPlayer.OnStop | src/gstreamer_tutorials/basics/five.py:136-137 | the stop button requests READY |
| Player.MediaPlayer.RefreshUi | src/gstreamer_tutorials/basics/five.py:151-167 | always answers True, so the timer stays installed. It updates the object and issues the calls as Refreshed says |
| Player.MediaPlayer.TagsCb | src/gstreamer_tutorials/basics/five.py:169-172 | a tag signal only posts the "tags-changed" application message |
| Player.MediaPlayer.OnError | src/gstreamer_tutorials/basics/five.py:174-179 | the error handler issues exactly what React gives for an error: the error text, the debug text if any, then a request for READY |
| Player.MediaPlayer.OnEos | src/gstreamer_tutorials/basics/five.py:181-183 | end-of-stream requests READY |
| Player.MediaPlayer.OnStateChanged | src/gstreamer_tutorials/basics/five.py:185-191 | the object and calls end as AfterStateChanged says |
| Player.MediaPlayer.OnApplication | src/gstreamer_tutorials/basics/five.py:193-195 | the object ends as AfterApplication says |
| Player.MediaPlayer.AnalyzeStreams | src/gstreamer_tutorials/basics/five.py:197-231 | the text is cleared, then rebuilt by the three loops into exactly Render of the tag tables. State and duration are untouched |
| Player.MediaPlayer.AppendSections | src/gstreamer_tutorials/basics/five.py:205-231 | one kind's loop appends exactly that kind's section text to what was there |
| Player.React | src/gstreamer_tutorials/basics/five.py:41-57 | each event reaches its handler: only the playbin's own state changes move the tracked state, only a "tags-changed" message rewrites the text, and only the timer and the READY→PAUSED change can change the duration |
| Player.RequestsMatchEvents | src/gstreamer_tutorials/basics/five.py:130-137 | play requests PLAYING, pause PAUSED, and stop, error and EOS READY. These events always make their request, and no other event requests a state |
| Player.TagsSignalRebuildsText | src/gstreamer_tutorials/basics/five.py:169-172 | the message a tag signal posts is the one that, drained, rebuilds the text from the tags |
| Player.StateIsLastReported | src/gstreamer_tutorials/basics/five.py:185-188 | after any event sequence, the tracked state is the new state of the playbin's last state change, or the initial one if there is none |
| Player.ReactDuration | src/gstreamer_tutorials/basics/five.py:155-158 | no handler forgets a known duration. Each queries the duration exactly when it goes from unknown to known |
| Player.DurationQueriedAtMostOnce | src/gstreamer_tutorials/basics/five.py:155-158 | over any event sequence a known duration never changes, and the duration is queried at most once: once iff it goes from unknown to known |
| Player.StartupReachesPlaying | src/gstreamer_tutorials/basics/five.py:185-191 | the start-up reports NULL→READY→PAUSED→PLAYING leave the state PLAYING, the duration from the one refresh at READY→PAUSED, and only that refresh's calls |

## Left out

- Printing and logging are not modelled, with two exceptions: five.py's error handler prints the error and debug text, and that text is modelled.
- The bus and the event loops are not modelled: `timed_pop_filtered` with its type filter and timeouts, `add_signal_watch`, `GLib.timeout_add_seconds` and `Gtk.main`. Each turn of a loop is an input event. A run whose input ends before ERROR or EOS is reported as `Running`, still waiting on the bus.
- Concurrency is not modelled. Tag signals arrive on streaming threads; all handlers here run one at a time.
- GTK construction and video-sink selection are not modelled: `_build_ui`, `_create_video_sink`, `_on_delete_event` and the slider's handler blocking (five.py:59-128, 139-141, 163-165).
- `_on_slider_changed` (five.py:143-149) is not modelled: it seeks to a floating-point slider value.
- Player.RefreshedSlider: the slider range and value are recorded as the raw nanosecond answers, not divided by GST_SECOND as floats (five.py:158, 164).
- five.py's constructor (five.py:13-57) is modelled only as its initial field values. Its creation failures, property settings, signal connections and initial PLAYING request are left out; `StartupReachesPlaying` starts after that request, from the first state change the playbin reports.
- Element creation, `pipeline.add`, `set_property("uri", …)` and `connect` are not modelled. Whether all elements could be created is one boolean input to each `Run`.
- The seek flags (FLUSH | KEY_UNIT) and the seek format are not modelled; a seek is recorded with its target only.
- Caps negotiation and link rules are the `compatible` oracle. The case where `get_current_caps` returns None (three.py:30) is not modelled; the pad's type is taken as known.
- The pending state of state-changed messages is not modelled.
- TimeManagement.Run does not model exceptions raised inside the loop. The `finally` clause (four.py:105-107) is modelled only for a normal exit.
- four.py's message texts (the seeking range, the position line) are not modelled; only whether a query or seek is issued is.
- A falsy but present tag list (`if tags:` on an empty list) is modelled as a stream without tags.
- A missing string tag is shown as "None" and a missing bitrate as "0", as the Python binding returns them.
- two.py and concepts.c are not part of this model: they create, link and start elements in a straight line, with no decisions beyond failing fast.

// Basic tutorial 3, "dynamic pipelines" (three.py): a uridecodebin whose
// source pads appear only once it has looked into the media, an audio chain
// (audioconvert -> audioresample -> autoaudiosink) and a video chain
// (videoconvert -> autovideosink). The pad-added handler decides whether a
// new pad is linked; main sets the pipeline up, fails fast, and drains the
// bus until an error or end-of-stream.
module DynamicPipeline {
  import opened Gst

  /** The two downstream chains whose sink pads a new pad may be linked to. */
  datatype Chain = AudioChain | VideoChain

  const AudioPrefix := "audio/x-raw"
  const VideoPrefix := "video/x-raw"

  /** The media types the handler accepts (three.py:35). */
  predicate IsRaw(mediaType: string) {
    StartsWith(mediaType, AudioPrefix) || StartsWith(mediaType, VideoPrefix)
  }

  /** A pad: the name of the first structure of its current caps, and whether
      it has a peer. */
  class Pad {
    const mediaType: string
    var linked: bool

    constructor (mediaType: string, linked: bool)
      ensures this.mediaType == mediaType && this.linked == linked
    {
      this.mediaType := mediaType;
      this.linked := linked;
    }
  }

  /** gst_pad_link. Caps negotiation is not modelled: `compatible` is its
      verdict. A pad that already has a peer refuses a second one. */
  method Link(src: Pad, sink: Pad, compatible: bool) returns (ok: bool)
    modifies src, sink
    ensures ok == (compatible && !old(src.linked) && !old(sink.linked))
    ensures src.linked == (old(src.linked) || ok)
    ensures sink.linked == (old(sink.linked) || ok)
  {
    ok := compatible && !src.linked && !sink.linked;
    if ok {
      src.linked := true;
      sink.linked := true;
    }
  }

  /** The linked flags of the new pad and of the two chains' sink pads. */
  datatype Pads = Pads(pad: bool, audio: bool, video: bool)

  /** What the handler logs: both sinks taken, type ignored, link succeeded,
      link failed. */
  datatype Report = AlreadyLinked | NotRaw | LinkSucceeded | LinkFailed

  /** The handler's effect: its report, the linked flags afterwards, and the
      chains it tried to link to, in order. */
  datatype Decision = Decision(report: Report, after: Pads, attempts: seq<Chain>)

  /** pad_added_handler (three.py:23-45) on the linked flags. Both links are
      attempted, audio first, whatever the raw type is. */
  function PadAdded(before: Pads, mediaType: string, compatible: (string, Chain) -> bool): (d: Decision)
    // both sinks already taken: nothing is attempted and nothing changes
    ensures before.audio && before.video ==> d == Decision(AlreadyLinked, before, [])
    // a type that is neither raw audio nor raw video is never linked
    ensures !(before.audio && before.video) && !IsRaw(mediaType) ==> d == Decision(NotRaw, before, [])
    // otherwise both links are attempted, audio then video
    ensures !(before.audio && before.video) && IsRaw(mediaType) ==> d.attempts == [AudioChain, VideoChain]
    // success is reported exactly when a link was made
    ensures d.report == LinkSucceeded <==> d.after != before
    ensures d.report == LinkFailed <==> !(before.audio && before.video) && IsRaw(mediaType) && d.after == before
    // links are never undone
    ensures (before.pad ==> d.after.pad) && (before.audio ==> d.after.audio) && (before.video ==> d.after.video)
    // a sink gains a peer only from an unlinked, raw pad whose caps it accepts,
    // and never both sinks at once
    ensures d.after.audio != before.audio ==>
      !before.pad && d.after.pad && IsRaw(mediaType) && compatible(mediaType, AudioChain)
    ensures d.after.video != before.video ==>
      !before.pad && d.after.pad && IsRaw(mediaType) && compatible(mediaType, VideoChain)
    ensures !(d.after.audio != before.audio && d.after.video != before.video)
    // and such a pad does take the audio sink when it is free, or else the
    // video sink when that one is free
    ensures !(before.audio && before.video) && IsRaw(mediaType) ==>
      (d.after.audio != before.audio <==> !before.pad && !before.audio && compatible(mediaType, AudioChain))
    ensures !(before.audio && before.video) && IsRaw(mediaType) ==>
      (d.after.video != before.video <==>
         !before.pad && !before.video && compatible(mediaType, VideoChain) && d.after.audio == before.audio)
    ensures d.after.pad != before.pad ==> d.after.audio != before.audio || d.after.video != before.video
  {
    if before.audio && before.video then Decision(AlreadyLinked, before, [])
    else if !IsRaw(mediaType) then Decision(NotRaw, before, [])
    else
      var aret := compatible(mediaType, AudioChain) && !before.pad && !before.audio;
      var afterAudio := Pads(before.pad || aret, before.audio || aret, before.video);
      var vret := compatible(mediaType, VideoChain) && !afterAudio.pad && !afterAudio.video;
      var after := Pads(afterAudio.pad || vret, afterAudio.audio, afterAudio.video || vret);
      Decision(if aret || vret then LinkSucceeded else LinkFailed, after, [AudioChain, VideoChain])
  }

  /** A pad that has been through the handler once gains nothing from a second
      run, and once both sinks are taken every later pad is a no-op. */
  lemma PadAddedIsIdempotent(before: Pads, mediaType: string, compatible: (string, Chain) -> bool)
    ensures var d := PadAdded(before, mediaType, compatible);
      PadAdded(d.after, mediaType, compatible).after == d.after
    ensures before.audio && before.video ==>
      forall t :: PadAdded(before, t, compatible) == Decision(AlreadyLinked, before, [])
  {
  }

  /** pad_added_handler on the pad objects. */
  method PadAddedHandler(newPad: Pad, audioSink: Pad, videoSink: Pad, compatible: (string, Chain) -> bool)
    returns (report: Report, attempts: seq<Chain>)
    requires newPad != audioSink && newPad != videoSink && audioSink != videoSink
    modifies newPad, audioSink, videoSink
    ensures Decision(report, Pads(newPad.linked, audioSink.linked, videoSink.linked), attempts)
            == PadAdded(old(Pads(newPad.linked, audioSink.linked, videoSink.linked)), newPad.mediaType, compatible)
  {
    if audioSink.linked && videoSink.linked {
      return AlreadyLinked, [];
    }
    var mediaType := newPad.mediaType;
    if !StartsWith(mediaType, AudioPrefix) && !StartsWith(mediaType, VideoPrefix) {
      return NotRaw, [];
    }
    var aret := Link(newPad, audioSink, compatible(mediaType, AudioChain));
    var vret := Link(newPad, videoSink, compatible(mediaType, VideoChain));
    attempts := [AudioChain, VideoChain];
    if aret {
      report := LinkSucceeded;
    } else if vret {
      report := LinkSucceeded;
    } else {
      report := LinkFailed;
    }
  }

  /** Which discovered pad, by its position in discovery order, holds each
      sink pad. */
  datatype Claims = Claims(audio: Option<nat>, video: Option<nat>)

  /** The handler run once per pad the decodebin exposes, each pad new and
      unlinked, starting with both sink pads free. */
  function Discover(types: seq<string>, compatible: (string, Chain) -> bool): (c: Claims)
    ensures c.audio.Some? ==> c.audio.value < |types|
    ensures c.video.Some? ==> c.video.value < |types|
    decreases |types|
  {
    if types == [] then Claims(None, None)
    else
      var last := |types| - 1;
      var c := Discover(types[..last], compatible);
      var d := PadAdded(Pads(false, c.audio.Some?, c.video.Some?), types[last], compatible);
      Claims(
        if c.audio.None? && d.after.audio then Some(last) else c.audio,
        if c.video.None? && d.after.video then Some(last) else c.video)
  }

  /** The type filter over a whole run: a sink pad is only ever held by a raw
      pad whose caps that chain accepts, no pad holds both sink pads, and the
      audio sink stays free exactly when no discovered pad could take it. */
  lemma {:induction false} DiscoverClaims(types: seq<string>, compatible: (string, Chain) -> bool)
    ensures var c := Discover(types, compatible);
      && (c.audio.Some? ==> IsRaw(types[c.audio.value]) && compatible(types[c.audio.value], AudioChain))
      && (c.video.Some? ==> IsRaw(types[c.video.value]) && compatible(types[c.video.value], VideoChain))
      && (c.audio.Some? && c.video.Some? ==> c.audio.value != c.video.value)
      && (c.audio.None? <==>
            forall i :: 0 <= i < |types| ==> !(IsRaw(types[i]) && compatible(types[i], AudioChain)))
      && (c.video.None? <==>
            forall i :: 0 <= i < |types| ==>
              !(IsRaw(types[i]) && compatible(types[i], VideoChain) && c.audio != Some(i)))
    decreases |types|
  {
    if types != [] {
      var last := |types| - 1;
      var prefix := types[..last];
      DiscoverClaims(prefix, compatible);
      var c := Discover(prefix, compatible);
      forall i | 0 <= i < last ensures types[i] == prefix[i] { }
      var d := PadAdded(Pads(false, c.audio.Some?, c.video.Some?), types[last], compatible);
      if c.audio.None? && IsRaw(types[last]) && compatible(types[last], AudioChain) {
        assert d.after.audio;
      }
      if c.video.None? && IsRaw(types[last]) && compatible(types[last], VideoChain) && !d.after.audio {
        assert d.after.video;
      }
    }
  }

  predicate PopTerminates(m: Option<Message>) {
    m.Some? && IsTerminal(m.value)
  }

  /** `while not terminate` (three.py:92-112) over what the bus pops, in
      order; a None pop is skipped. The loop ends right after the first ERROR
      or EOS message; state changes, from the pipeline or a child, and any
      other message only produce a log line. */
  method BusLoop(messages: seq<Option<Message>>) returns (consumed: nat, terminate: bool)
    ensures consumed <= |messages|
    ensures terminate <==> consumed > 0 && PopTerminates(messages[consumed - 1])
    ensures forall j :: 0 <= j < consumed && j != consumed - 1 ==> !PopTerminates(messages[j])
    ensures !terminate ==> consumed == |messages| && forall j :: 0 <= j < |messages| ==> !PopTerminates(messages[j])
  {
    terminate := false;
    consumed := 0;
    while !terminate && consumed < |messages|
      invariant consumed <= |messages|
      invariant forall j :: 0 <= j < consumed && j != consumed - 1 ==> !PopTerminates(messages[j])
      invariant terminate <==> consumed > 0 && PopTerminates(messages[consumed - 1])
    {
      var msg := messages[consumed];
      if msg.Some? {
        match msg.value {
          case Error(_, _, _) =>
            terminate := true;
          case Eos(_) =>
            terminate := true;
          case StateChanged(_, _, _) =>
          case DurationChanged(_) =>
          case Application(_, _) =>
          case Other(_) =>
        }
      }
      consumed := consumed + 1;
    }
  }

  /** The three static links main makes, by element name (three.py:53-57). */
  const ConvertToResample := LinkElements("convert", "resample")
  const ResampleToSink := LinkElements("resample", "sink")
  const VconvertToVsink := LinkElements("vcon", "vsink")

  /** main (three.py:48-114). `created` says whether all seven elements could be
      made, the three booleans are the results of the static links, `started`
      what set_state(PLAYING) returned and `messages` what the bus pops. */
  method Run(
    created: bool, convertToResample: bool, resampleToSink: bool, vconvertToVsink: bool,
    started: StateChangeReturn, messages: seq<Option<Message>>)
    returns (status: Status, calls: seq<Call>)
    // any missing element: exit before any link
    ensures !created ==> status == Exited(1) && calls == []
    // the first failing static link ends setup, before any state change
    ensures created && !convertToResample ==> status == Exited(1) && calls == [ConvertToResample]
    ensures created && convertToResample && !resampleToSink ==>
      status == Exited(1) && calls == [ConvertToResample, ResampleToSink]
    ensures created && convertToResample && resampleToSink && !vconvertToVsink ==>
      status == Exited(1) && calls == [ConvertToResample, ResampleToSink, VconvertToVsink]
    // a failed start exits without entering the bus loop, and without NULL
    ensures created && convertToResample && resampleToSink && vconvertToVsink && started == Failure ==>
      status == Exited(1) && calls == [ConvertToResample, ResampleToSink, VconvertToVsink, SetState(Playing)]
    // otherwise the loop runs until an ERROR or EOS, then the pipeline goes to NULL
    ensures created && convertToResample && resampleToSink && vconvertToVsink && started != Failure ==>
      var terminated := exists j :: 0 <= j < |messages| && PopTerminates(messages[j]);
      && status == (if terminated then Exited(0) else Running)
      && calls == [ConvertToResample, ResampleToSink, VconvertToVsink, SetState(Playing)]
                  + (if terminated then [SetState(Null)] else [])
  {
    if !created {
      return Exited(1), [];
    }
    calls := [ConvertToResample];
    if !convertToResample {
      return Exited(1), calls;
    }
    calls := calls + [ResampleToSink];
    if !resampleToSink {
      return Exited(1), calls;
    }
    calls := calls + [VconvertToVsink];
    if !vconvertToVsink {
      return Exited(1), calls;
    }
    calls := calls + [SetState(Playing)];
    if started == Failure {
      return Exited(1), calls;
    }
    var consumed, terminate := BusLoop(messages);
    if terminate {
      calls := calls + [SetState(Null)];
      status := Exited(0);
    } else {
      status := Running;
    }
  }
}

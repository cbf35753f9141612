// The stream-information text of basic tutorial 5 (five.py, _analyze_streams):
// one section per video, audio and subtitle stream that has tags, video
// first, then audio, then subtitles, each kind by ascending stream index.
module StreamInfo {
  import opened Gst

  /** A stream's tag list: string-valued and unsigned-valued tags by name. */
  datatype TagList = TagList(strings: map<string, string>, uints: map<string, nat>)

  /** The GST_TAG_* names the text shows. */
  const VideoCodecTag := "video-codec"
  const AudioCodecTag := "audio-codec"
  const LanguageCodeTag := "language-code"
  const BitrateTag := "bitrate"

  function GetString(tags: TagList, key: string): Option<string> {
    if key in tags.strings then Some(tags.strings[key]) else None
  }

  function GetUint(tags: TagList, key: string): Option<nat> {
    if key in tags.uints then Some(tags.uints[key]) else None
  }

  /** What playbin reports when the streams are analysed: one entry per stream
      (so the length is n-video, n-audio or n-text), None where the
      get-*-tags action signal yields no tags. */
  datatype Streams = Streams(
    video: seq<Option<TagList>>,
    audio: seq<Option<TagList>>,
    text: seq<Option<TagList>>)

  datatype Kind = Video | Audio | Subtitle

  function KindRank(k: Kind): nat {
    match k
    case Video => 0
    case Audio => 1
    case Subtitle => 2
  }

  function Table(t: Streams, k: Kind): seq<Option<TagList>> {
    match k
    case Video => t.video
    case Audio => t.audio
    case Subtitle => t.text
  }

  /** One section of the text, with the tag values it shows. */
  datatype Section =
    | VideoSection(index: nat, codec: Option<string>)
    | AudioSection(index: nat, codec: Option<string>, language: Option<string>, bitrate: Option<nat>)
    | SubtitleSection(index: nat, language: Option<string>)

  function KindOf(s: Section): Kind {
    match s
    case VideoSection(_, _) => Video
    case AudioSection(_, _, _, _) => Audio
    case SubtitleSection(_, _) => Subtitle
  }

  /** The section stream `index` of kind `k` gets from its tags. */
  function SectionOf(k: Kind, index: nat, tags: TagList): (s: Section)
    ensures KindOf(s) == k && s.index == index
  {
    match k
    case Video => VideoSection(index, GetString(tags, VideoCodecTag))
    case Audio =>
      AudioSection(index, GetString(tags, AudioCodecTag), GetString(tags, LanguageCodeTag), GetUint(tags, BitrateTag))
    case Subtitle => SubtitleSection(index, GetString(tags, LanguageCodeTag))
  }

  /** The sections of one `for i in range(n)` loop: a section for every
      stream with tags, in index order. */
  function KindSections(k: Kind, table: seq<Option<TagList>>): (r: seq<Section>)
    ensures |r| <= |table|
    ensures forall j :: 0 <= j < |r| ==> KindOf(r[j]) == k && r[j].index < |table|
    decreases |table|
  {
    if table == [] then []
    else
      var last := |table| - 1;
      KindSections(k, table[..last])
        + (if table[last].Some? then [SectionOf(k, last, table[last].value)] else [])
  }

  /** All sections, in the order _analyze_streams writes them. */
  function Sections(t: Streams): seq<Section> {
    KindSections(Video, t.video) + KindSections(Audio, t.audio) + KindSections(Subtitle, t.text)
  }

  /** Section `a` is written before section `b`. */
  predicate Precedes(a: Section, b: Section) {
    KindRank(KindOf(a)) < KindRank(KindOf(b))
    || (KindOf(a) == KindOf(b) && a.index < b.index)
  }

  /** Stream indices strictly increase along `r`. */
  predicate Ascending(r: seq<Section>) {
    forall i, j :: 0 <= i < j < |r| ==> r[i].index < r[j].index
  }

  lemma {:induction false} KindSectionsOrdered(k: Kind, table: seq<Option<TagList>>)
    ensures Ascending(KindSections(k, table))
    decreases |table|
  {
    if table != [] {
      var last := |table| - 1;
      KindSectionsOrdered(k, table[..last]);
      var r, rp := KindSections(k, table), KindSections(k, table[..last]);
      var tail := if table[last].Some? then [SectionOf(k, last, table[last].value)] else [];
      assert r == rp + tail;
      forall i, j | 0 <= i < j < |r| ensures r[i].index < r[j].index {
        if j < |rp| {
          assert r[i] == rp[i] && r[j] == rp[j];
        } else {
          assert r[i] == rp[i] && r[j] == tail[0];
        }
      }
    }
  }

  /** `sec` is the section of one of the streams in `table`, built from that
      stream's own tags. */
  predicate ShowsStream(table: seq<Option<TagList>>, k: Kind, sec: Section) {
    && KindOf(sec) == k
    && sec.index < |table|
    && table[sec.index].Some?
    && sec == SectionOf(k, sec.index, table[sec.index].value)
  }

  /** Every section in `r` belongs to a stream of `table` that has tags. */
  predicate OnlyTaggedStreams(table: seq<Option<TagList>>, k: Kind, r: seq<Section>) {
    forall j :: 0 <= j < |r| ==> ShowsStream(table, k, r[j])
  }

  /** Every stream of `table` that has tags has its section in `r`. */
  predicate EveryTaggedStream(table: seq<Option<TagList>>, k: Kind, r: seq<Section>) {
    forall i :: 0 <= i < |table| && table[i].Some? ==> SectionOf(k, i, table[i].value) in r
  }

  /** Every stream with tags gets its section, and every section belongs to a
      stream with tags. */
  lemma {:induction false} KindSectionsComplete(k: Kind, table: seq<Option<TagList>>)
    ensures OnlyTaggedStreams(table, k, KindSections(k, table))
    ensures EveryTaggedStream(table, k, KindSections(k, table))
    decreases |table|
  {
    if table != [] {
      var last := |table| - 1;
      var prefix := table[..last];
      KindSectionsComplete(k, prefix);
      var r, rp := KindSections(k, table), KindSections(k, prefix);
      var tail := if table[last].Some? then [SectionOf(k, last, table[last].value)] else [];
      assert r == rp + tail;
      forall j | 0 <= j < |r| ensures ShowsStream(table, k, r[j]) {
        if j < |rp| {
          assert r[j] == rp[j] && ShowsStream(prefix, k, rp[j]);
          assert table[rp[j].index] == prefix[rp[j].index];
        } else {
          assert r[j] == tail[0];
        }
      }
      forall i | 0 <= i < |table| && table[i].Some? ensures SectionOf(k, i, table[i].value) in r {
        if i < last {
          assert table[i] == prefix[i];
          assert SectionOf(k, i, prefix[i].value) in rp;
        } else {
          assert r[|r| - 1] == SectionOf(k, i, table[i].value);
        }
      }
    }
  }

  /** Sections appear in presentation order. */
  predicate InPresentationOrder(s: seq<Section>) {
    forall i, j :: 0 <= i < j < |s| ==> Precedes(s[i], s[j])
  }

  /** The presentation order: video, then audio, then subtitle sections, each
      kind by ascending index, so no stream appears twice. */
  lemma SectionsOrdered(t: Streams)
    ensures InPresentationOrder(Sections(t))
  {
    var v, a, x := KindSections(Video, t.video), KindSections(Audio, t.audio), KindSections(Subtitle, t.text);
    KindSectionsOrdered(Video, t.video);
    KindSectionsOrdered(Audio, t.audio);
    KindSectionsOrdered(Subtitle, t.text);
    var s := Sections(t);
    assert s == v + a + x;
    forall i, j | 0 <= i < j < |s| ensures Precedes(s[i], s[j]) {
      if j < |v| {
        assert s[i] == v[i] && s[j] == v[j];
      } else if j < |v| + |a| {
        assert s[j] == a[j - |v|];
        if i < |v| {
          assert s[i] == v[i];
        } else {
          assert s[i] == a[i - |v|];
        }
      } else {
        assert s[j] == x[j - |v| - |a|];
        if i < |v| {
          assert s[i] == v[i];
        } else if i < |v| + |a| {
          assert s[i] == a[i - |v|];
        } else {
          assert s[i] == x[i - |v| - |a|];
        }
      }
    }
  }

  /** Each section shows the tags of its own stream, and every stream with
      tags, of every kind, has its section. */
  lemma SectionsComplete(t: Streams)
    ensures forall j :: 0 <= j < |Sections(t)| ==>
      ShowsStream(Table(t, KindOf(Sections(t)[j])), KindOf(Sections(t)[j]), Sections(t)[j])
    ensures forall k: Kind :: EveryTaggedStream(Table(t, k), k, Sections(t))
  {
    var v, a, x := KindSections(Video, t.video), KindSections(Audio, t.audio), KindSections(Subtitle, t.text);
    KindSectionsComplete(Video, t.video);
    KindSectionsComplete(Audio, t.audio);
    KindSectionsComplete(Subtitle, t.text);
    var s := Sections(t);
    assert s == v + a + x;
    forall j | 0 <= j < |s| ensures ShowsStream(Table(t, KindOf(s[j])), KindOf(s[j]), s[j]) {
      if j < |v| {
        assert s[j] == v[j] && ShowsStream(t.video, Video, v[j]);
      } else if j < |v| + |a| {
        assert s[j] == a[j - |v|] && ShowsStream(t.audio, Audio, a[j - |v|]);
      } else {
        assert s[j] == x[j - |v| - |a|] && ShowsStream(t.text, Subtitle, x[j - |v| - |a|]);
      }
    }
    forall k: Kind ensures EveryTaggedStream(Table(t, k), k, s) {
      var r := KindSections(k, Table(t, k));
      assert forall sec :: sec in r ==> sec in s;
    }
  }

  /** Python's str() of a non-negative integer. */
  function Decimal(n: nat): (s: string)
    ensures |s| > 0 && IsDigits(s)
    decreases n
  {
    if n < 10 then [DigitChar(n)] else Decimal(n / 10) + [DigitChar(n % 10)]
  }

  function DigitChar(d: nat): (c: char)
    requires d < 10
    ensures '0' <= c <= '9'
  {
    "0123456789"[d]
  }

  predicate IsDigits(s: string) {
    forall i :: 0 <= i < |s| ==> '0' <= s[i] <= '9'
  }

  /** Reading decimal digits back. */
  function DecimalValue(s: string): nat
    requires IsDigits(s)
    decreases |s|
  {
    if s == [] then 0 else 10 * DecimalValue(s[..|s| - 1]) + (s[|s| - 1] as int - '0' as int)
  }

  /** The text written for a number reads back as that number. */
  lemma {:induction false} DecimalRoundTrip(n: nat)
    ensures DecimalValue(Decimal(n)) == n
    decreases n
  {
    if n >= 10 {
      DecimalRoundTrip(n / 10);
      var s := Decimal(n);
      assert s[..|s| - 1] == Decimal(n / 10);
    }
  }

  /** How an f-string shows a get_string result: None when the tag is missing. */
  function ShowString(v: Option<string>): string {
    if v.Some? then v.value else "None"
  }

  /** How an f-string shows a get_uint result: 0 when the tag is missing. */
  function ShowUint(v: Option<nat>): string {
    if v.Some? then Decimal(v.value) else "0"
  }

  /** The heading that opens a section of each kind; audio and subtitle
      sections are set off from what precedes them by an empty line. */
  function Heading(k: Kind): string {
    match k
    case Video => "video stream "
    case Audio => "\naudio stream "
    case Subtitle => "\nsubtitle stream "
  }

  /** The text of one section (five.py:209, 217-222, 228-231). */
  function Format(s: Section): string {
    match s
    case VideoSection(i, codec) =>
      "video stream " + Decimal(i) + ":\n  codec: " + ShowString(codec) + "\n"
    case AudioSection(i, codec, language, bitrate) =>
      "\naudio stream " + Decimal(i) + ":\n"
        + "  codec: " + ShowString(codec) + "\n"
        + "  language: " + ShowString(language) + "\n"
        + "  bitrate: " + ShowUint(bitrate) + "\n"
    case SubtitleSection(i, language) =>
      "\nsubtitle stream " + Decimal(i) + ":\n  language: " + ShowString(language) + "\n"
  }

  /** Every section opens with its kind's heading and the stream's index, and
      ends with a line break. */
  lemma FormatLayout(s: Section)
    ensures StartsWith(Format(s), Heading(KindOf(s)) + Decimal(s.index))
    ensures |Format(s)| > 0 && Format(s)[|Format(s)| - 1] == '\n'
  {
    var opening := Heading(KindOf(s)) + Decimal(s.index);
    assert StartsWith(opening, opening);
    match s
    case VideoSection(i, codec) =>
      var a := opening + ":\n  codec: ";
      var b := a + ShowString(codec);
      StartsWithAppend(opening, opening, ":\n  codec: ");
      StartsWithAppend(a, opening, ShowString(codec));
      StartsWithAppend(b, opening, "\n");
      assert Format(s) == b + "\n";
    case AudioSection(i, codec, language, bitrate) =>
      var a1 := opening + ":\n";
      var a2 := a1 + "  codec: ";
      var a3 := a2 + ShowString(codec);
      var a4 := a3 + "\n";
      var a5 := a4 + "  language: ";
      var a6 := a5 + ShowString(language);
      var a7 := a6 + "\n";
      var a8 := a7 + "  bitrate: ";
      var a9 := a8 + ShowUint(bitrate);
      StartsWithAppend(opening, opening, ":\n");
      StartsWithAppend(a1, opening, "  codec: ");
      StartsWithAppend(a2, opening, ShowString(codec));
      StartsWithAppend(a3, opening, "\n");
      StartsWithAppend(a4, opening, "  language: ");
      StartsWithAppend(a5, opening, ShowString(language));
      StartsWithAppend(a6, opening, "\n");
      StartsWithAppend(a7, opening, "  bitrate: ");
      StartsWithAppend(a8, opening, ShowUint(bitrate));
      StartsWithAppend(a9, opening, "\n");
      assert Format(s) == a9 + "\n";
    case SubtitleSection(i, language) =>
      var a := opening + ":\n  language: ";
      var b := a + ShowString(language);
      StartsWithAppend(opening, opening, ":\n  language: ");
      StartsWithAppend(a, opening, ShowString(language));
      StartsWithAppend(b, opening, "\n");
      assert Format(s) == b + "\n";
  }

  /** Pieces of text, one after the other. */
  function Concat(pieces: seq<string>): string
    decreases |pieces|
  {
    if pieces == [] then "" else Concat(pieces[..|pieces| - 1]) + pieces[|pieces| - 1]
  }

  lemma {:induction false} ConcatAppend(a: seq<string>, b: seq<string>)
    ensures Concat(a + b) == Concat(a) + Concat(b)
    decreases |b|
  {
    if b == [] {
      assert a + b == a;
    } else {
      var n := |b| - 1;
      assert (a + b)[..|a + b| - 1] == a + b[..n];
      ConcatAppend(a, b[..n]);
    }
  }

  /** The text of each section, in order. */
  function Pieces(sections: seq<Section>): (r: seq<string>)
    ensures |r| == |sections|
    decreases |sections|
  {
    if sections == [] then []
    else Pieces(sections[..|sections| - 1]) + [Format(sections[|sections| - 1])]
  }

  lemma {:induction false} PiecesAppend(a: seq<Section>, b: seq<Section>)
    ensures Pieces(a + b) == Pieces(a) + Pieces(b)
    decreases |b|
  {
    if b == [] {
      assert a + b == a;
    } else {
      var n := |b| - 1;
      assert (a + b)[..|a + b| - 1] == a + b[..n];
      PiecesAppend(a, b[..n]);
    }
  }

  function Text(sections: seq<Section>): string {
    Concat(Pieces(sections))
  }

  lemma TextAppend(a: seq<Section>, b: seq<Section>)
    ensures Text(a + b) == Text(a) + Text(b)
  {
    PiecesAppend(a, b);
    ConcatAppend(Pieces(a), Pieces(b));
  }

  /** Writing one more section appends its text. */
  lemma TextSnoc(a: seq<Section>, sec: Section)
    ensures Text(a + [sec]) == Text(a) + Format(sec)
  {
    var pieces := Pieces(a);
    assert (a + [sec])[..|a|] == a;
    assert Pieces(a + [sec]) == pieces + [Format(sec)];
    assert (pieces + [Format(sec)])[..|pieces|] == pieces;
  }

  /** One more stream in a table adds its section, if it has tags. */
  lemma KindSectionsSnoc(k: Kind, table: seq<Option<TagList>>, i: nat)
    requires i < |table|
    ensures KindSections(k, table[..i + 1])
            == KindSections(k, table[..i])
               + (if table[i].Some? then [SectionOf(k, i, table[i].value)] else [])
  {
    assert table[..i + 1][..i] == table[..i];
  }

  /** One more stream in a table adds the text of its section, if it has tags. */
  lemma TextSnocStream(k: Kind, table: seq<Option<TagList>>, i: nat)
    requires i < |table|
    ensures Text(KindSections(k, table[..i + 1]))
            == Text(KindSections(k, table[..i]))
               + (if table[i].Some? then Format(SectionOf(k, i, table[i].value)) else "")
  {
    KindSectionsSnoc(k, table, i);
    if table[i].Some? {
      TextSnoc(KindSections(k, table[..i]), SectionOf(k, i, table[i].value));
    } else {
      assert KindSections(k, table[..i + 1]) == KindSections(k, table[..i]);
    }
  }

  lemma AppendAssociative(a: string, b: string, c: string)
    ensures a + (b + c) == a + b + c
  {
  }

  /** The whole stream-information text for the given streams. */
  function Render(t: Streams): string {
    Text(Sections(t))
  }

  /** The rendered text is the video, audio and subtitle texts in that order. */
  lemma RenderByKind(t: Streams)
    ensures Render(t) == Text(KindSections(Video, t.video)) + Text(KindSections(Audio, t.audio))
                         + Text(KindSections(Subtitle, t.text))
  {
    var v, a, x := KindSections(Video, t.video), KindSections(Audio, t.audio), KindSections(Subtitle, t.text);
    TextAppend(v + a, x);
    TextAppend(v, a);
  }
}

/**
 * The caption loader for video URLs: extract a video id, list the caption
 * tracks, use an English track as it is, otherwise translate the first
 * generated track found in a fixed language order, and join the segment texts
 * into one transcript. Every internal failure is swallowed to `None`; `Load`
 * turns that `None` (and an empty segment list) into one TranscriptionError.
 *
 * The id extractor, the caption listing service and the translating model are
 * parameters: `extract(url)` is None when extraction raised, `translate(prompt)`
 * is None when the model call raised.
 */
module Youtube {
  import opened Wrappers
  import opened Text
  import opened Loaders

  /** A caption segment. Segments rebuilt from a translation carry no timing. */
  datatype Segment = Segment(text: string, start: Option<real>, duration: Option<real>)

  /**
   * A listed caption track: its language code, whether it was generated
   * automatically, and what its `fetch()` yields (None when the fetch raised).
   */
  datatype Track = Track(language: string, isGenerated: bool, fetched: Option<seq<Segment>>)

  /** What `list_transcripts(video_id)` yields: one of the errors it raises, or the tracks. */
  datatype Listing =
    | TranscriptsDisabled
    | NoTranscriptFound
    | ListingFailed(msg: string)
    | Listed(tracks: seq<Track>)

  const InvalidYoutubeUrl := "Invalid YouTube URL"
  const NoTranscriptAvailable := "No transcript available"
  const TranslationInstruction := "Translate the following transcript into English:\n"
  const English := "en"
  /** The languages searched, in this order, among generated tracks when there is no English one. */
  const GeneratedCandidates: seq<string> := ["en", "ja", "ko", "es", "fr", "de", "hi"]

  /** Some listed track has this language and origin. */
  predicate HasTrack(tracks: seq<Track>, language: string, generated: bool) {
    exists i :: 0 <= i < |tracks| && tracks[i].language == language && tracks[i].isGenerated == generated
  }

  /** Some listed track, of either origin, has this language. */
  predicate HasLanguage(tracks: seq<Track>, language: string) {
    HasTrack(tracks, language, false) || HasTrack(tracks, language, true)
  }

  /** The first listed track of the given language and origin, if any. */
  function FirstTrack(tracks: seq<Track>, language: string, generated: bool): (r: Option<Track>)
    ensures r.Some? ==> r.value in tracks && r.value.language == language && r.value.isGenerated == generated
    ensures r.None? <==> !HasTrack(tracks, language, generated)
  {
    if tracks == [] then None
    else if tracks[0].language == language && tracks[0].isGenerated == generated then Some(tracks[0])
    else
      var r := FirstTrack(tracks[1..], language, generated);
      assert HasTrack(tracks, language, generated) ==> HasTrack(tracks[1..], language, generated) by {
        if HasTrack(tracks, language, generated) {
          var i :| 0 <= i < |tracks| && tracks[i].language == language && tracks[i].isGenerated == generated;
          assert tracks[1..][i - 1] == tracks[i];
        }
      }
      r
  }

  /**
   * The caption library's `find_transcript(codes)`: the codes are tried in
   * order (see FindTranscriptPrefersEarlierCode) and, for each, a manually
   * created track before a generated one.
   */
  function FindTranscript(tracks: seq<Track>, codes: seq<string>): (r: Option<Track>)
    ensures r.Some? ==> r.value in tracks && r.value.language in codes
    ensures r.Some? && r.value.isGenerated ==> !HasTrack(tracks, r.value.language, false)
    ensures r.None? <==> forall i :: 0 <= i < |codes| ==> !HasLanguage(tracks, codes[i])
  {
    if codes == [] then None
    else match FirstTrack(tracks, codes[0], false)
      case Some(t) => Some(t)
      case None =>
        match FirstTrack(tracks, codes[0], true)
        case Some(t) => Some(t)
        case None =>
          var r := FindTranscript(tracks, codes[1..]);
          assert forall i :: 1 <= i < |codes| ==> codes[i] == codes[1..][i - 1];
          r
  }

  /** No track with a language earlier in the list than the chosen one's is passed over. */
  lemma {:induction false} FindTranscriptPrefersEarlierCode(tracks: seq<Track>, codes: seq<string>, i: nat)
    requires i < |codes| && HasLanguage(tracks, codes[i])
    ensures FindTranscript(tracks, codes).Some?
    ensures FindTranscript(tracks, codes).value.language in codes[..i + 1]
  {
    if FirstTrack(tracks, codes[0], false).None? && FirstTrack(tracks, codes[0], true).None? {
      assert i > 0;
      assert codes[1..][i - 1] == codes[i];
      FindTranscriptPrefersEarlierCode(tracks, codes[1..], i - 1);
      assert codes[1..][..i] == codes[1..i + 1];
    }
  }

  /** The caption library's `find_generated_transcript(codes)`: the first code, in order, with a generated track. */
  function FindGeneratedTranscript(tracks: seq<Track>, codes: seq<string>): (r: Option<Track>)
    ensures r.Some? ==> r.value in tracks && r.value.isGenerated && r.value.language in codes
    ensures r.None? <==> forall i :: 0 <= i < |codes| ==> !HasTrack(tracks, codes[i], true)
  {
    if codes == [] then None
    else match FirstTrack(tracks, codes[0], true)
      case Some(t) => Some(t)
      case None =>
        var r := FindGeneratedTranscript(tracks, codes[1..]);
        assert forall i :: 1 <= i < |codes| ==> codes[i] == codes[1..][i - 1];
        r
  }

  /** No generated track with a language earlier in the list than the chosen one's is passed over. */
  lemma {:induction false} FindGeneratedPrefersEarlierCode(tracks: seq<Track>, codes: seq<string>, i: nat)
    requires i < |codes| && HasTrack(tracks, codes[i], true)
    ensures FindGeneratedTranscript(tracks, codes).Some?
    ensures FindGeneratedTranscript(tracks, codes).value.language in codes[..i + 1]
  {
    if FirstTrack(tracks, codes[0], true).None? {
      assert i > 0;
      assert codes[1..][i - 1] == codes[i];
      FindGeneratedPrefersEarlierCode(tracks, codes[1..], i - 1);
      assert codes[1..][..i] == codes[1..i + 1];
    }
  }

  /** The texts of the segments, in order. */
  function Texts(segments: seq<Segment>): (r: seq<string>)
    ensures |r| == |segments|
    ensures forall i :: 0 <= i < |r| ==> r[i] == segments[i].text
  {
    seq(|segments|, i requires 0 <= i < |segments| => segments[i].text)
  }

  /** `' '.join([entry['text'] for entry in transcript])`. */
  function JoinTexts(segments: seq<Segment>): string {
    Join(Texts(segments), " ")
  }

  /** A joined transcript is as long as all texts together plus one space between each two. */
  lemma TranscriptLength(segments: seq<Segment>)
    requires segments != []
    ensures |JoinTexts(segments)| == TotalLength(Texts(segments)) + |segments| - 1
  {
    JoinLength(Texts(segments), " ");
  }

  /** The prompt `_translate_transcript` sends: the fixed instruction, then the joined texts. */
  function TranslationPrompt(segments: seq<Segment>): (p: string)
    ensures StartsWith(p, TranslationInstruction)
    ensures p[|TranslationInstruction|..] == JoinTexts(segments)
  {
    TranslationInstruction + JoinTexts(segments)
  }

  /** `[{"text": line} for line in reply.strip().split('\n') if line.strip()]`. */
  function SegmentsFromReply(reply: string): seq<Segment> {
    var lines := NonBlankLines(Split(Strip(reply), '\n'));
    seq(|lines|, i requires 0 <= i < |lines| => Segment(lines[i], None, None))
  }

  /**
   * The rebuilt segments are the lines of the stripped reply that are not
   * whitespace only, in their order and unchanged, with no timing; those lines
   * joined by line breaks give back the stripped reply.
   */
  lemma SegmentsFromReplySpec(reply: string)
    ensures Texts(SegmentsFromReply(reply)) == NonBlankLines(Split(Strip(reply), '\n'))
    ensures Join(Split(Strip(reply), '\n'), "\n") == Strip(reply)
    ensures forall i :: 0 <= i < |SegmentsFromReply(reply)| ==>
      var s := SegmentsFromReply(reply)[i];
      s.start.None? && s.duration.None? && !AllSpace(s.text) && '\n' !in s.text
      && s.text in Split(Strip(reply), '\n')
    ensures forall j :: 0 <= j < |Split(Strip(reply), '\n')| && !AllSpace(Split(Strip(reply), '\n')[j]) ==>
      exists i :: 0 <= i < |SegmentsFromReply(reply)| && SegmentsFromReply(reply)[i].text == Split(Strip(reply), '\n')[j]
  {
    var lines := Split(Strip(reply), '\n');
    var kept := NonBlankLines(lines);
    var segments := SegmentsFromReply(reply);
    NonBlankLinesMembers(lines);
    JoinSplit(Strip(reply), '\n');
    assert Texts(segments) == kept;
    forall j | 0 <= j < |lines| && !AllSpace(lines[j])
      ensures exists i :: 0 <= i < |segments| && segments[i].text == lines[j]
    {
      var i :| 0 <= i < |kept| && kept[i] == lines[j];
      assert segments[i].text == lines[j];
    }
  }

  /** `_translate_transcript(segments)`: ask for a translation and rebuild segments from the reply. */
  function TranslateTranscript(segments: seq<Segment>, translate: string -> Option<string>): Option<seq<Segment>> {
    match translate(TranslationPrompt(segments))
    case None => None
    case Some(reply) => Some(SegmentsFromReply(reply))
  }

  /** `_handle_non_english_transcript(tracks)`: translate the preferred generated track, if any. */
  function HandleNonEnglishTranscript(tracks: seq<Track>, translate: string -> Option<string>): Option<seq<Segment>> {
    match FindGeneratedTranscript(tracks, GeneratedCandidates)
    case None => None
    case Some(t) =>
      match t.fetched
      case None => None
      case Some(segments) => TranslateTranscript(segments, translate)
  }

  /** `_fetch_transcript(video_id)` given what listing the id's tracks yields. */
  function FetchTranscript(listing: Listing, translate: string -> Option<string>): Option<seq<Segment>> {
    match listing
    case Listed(tracks) =>
      (match FindTranscript(tracks, [English])
       case Some(t) => t.fetched
       case None => HandleNonEnglishTranscript(tracks, translate))
    case _ => None
  }

  /**
   * `YoutubeTranscriptLoader.load(video_url)`: an id that is missing or empty
   * raises DocumentLoaderError("Invalid YouTube URL"); past that, the only error
   * is TranscriptionError("No transcript available"), raised exactly when the
   * fetch gave nothing or an empty segment list; otherwise the joined texts.
   */
  function Load(url: string, extract: string -> Option<string>, listTranscripts: string -> Listing,
                translate: string -> Option<string>): (r: Result<LoadResult, Error>)
    ensures !Usable(extract(url)) <==> r == Failure(DocumentLoaderError(InvalidYoutubeUrl))
    ensures Usable(extract(url)) ==> r.Success? || r == Failure(TranscriptionError(NoTranscriptAvailable))
    ensures r.Success? <==> Usable(extract(url))
                             && FetchTranscript(listTranscripts(extract(url).value), translate).Some?
                             && FetchTranscript(listTranscripts(extract(url).value), translate).value != []
    ensures r.Success? ==>
              r.value == VideoTranscript(JoinTexts(FetchTranscript(listTranscripts(extract(url).value), translate).value))
  {
    var videoId := extract(url);
    if videoId.None? || videoId.value == "" then Failure(DocumentLoaderError(InvalidYoutubeUrl))
    else
      var transcript := FetchTranscript(listTranscripts(videoId.value), translate);
      if transcript.None? || transcript.value == [] then Failure(TranscriptionError(NoTranscriptAvailable))
      else Success(VideoTranscript(JoinTexts(transcript.value)))
  }

  /** A URL without a usable id is refused before the caption service or the model is consulted. */
  lemma InvalidUrlNeedsNoLookup(url: string, extract: string -> Option<string>,
                                list1: string -> Listing, list2: string -> Listing,
                                translate1: string -> Option<string>, translate2: string -> Option<string>)
    requires !Usable(extract(url))
    ensures Load(url, extract, list1, translate1) == Load(url, extract, list2, translate2)
    ensures Load(url, extract, list1, translate1) == Failure(DocumentLoaderError(InvalidYoutubeUrl))
  {
  }

  /** Captions disabled, no track found, or any other listing failure: no transcript. */
  lemma ListingFailureMeansNoTranscript(url: string, extract: string -> Option<string>,
                                        listTranscripts: string -> Listing, translate: string -> Option<string>)
    requires Usable(extract(url)) && !listTranscripts(extract(url).value).Listed?
    ensures Load(url, extract, listTranscripts, translate) == Failure(TranscriptionError(NoTranscriptAvailable))
  {
  }

  /**
   * With an English track listed, the manually created one if there is one is
   * used as it is: the translator is never consulted, and a non-empty segment
   * list gives the transcript of its texts joined by single spaces.
   */
  lemma EnglishTrackUsedAsIs(url: string, extract: string -> Option<string>, listTranscripts: string -> Listing,
                             translate1: string -> Option<string>, translate2: string -> Option<string>)
    requires Usable(extract(url)) && listTranscripts(extract(url).value).Listed?
    requires HasLanguage(listTranscripts(extract(url).value).tracks, English)
    ensures var tracks := listTranscripts(extract(url).value).tracks;
            var t := FindTranscript(tracks, [English]);
            t.Some? && t.value.language == English && t.value in tracks
            && (HasTrack(tracks, English, false) ==> !t.value.isGenerated)
            && FetchTranscript(listTranscripts(extract(url).value), translate1) == t.value.fetched
    ensures Load(url, extract, listTranscripts, translate1) == Load(url, extract, listTranscripts, translate2)
  {
  }

  /**
   * With no English track, the first generated track in the candidate order is
   * the one translated: it is generated, its language is a candidate other than
   * English, and no generated track of an earlier candidate exists; without such
   * a track there is no transcript.
   */
  lemma FallbackPicksGeneratedCandidate(tracks: seq<Track>, translate: string -> Option<string>)
    requires !HasLanguage(tracks, English)
    ensures var g := FindGeneratedTranscript(tracks, GeneratedCandidates);
            g.Some? ==> g.value.isGenerated && g.value.language in GeneratedCandidates[1..]
                        && forall i :: 0 <= i < |GeneratedCandidates| && HasTrack(tracks, GeneratedCandidates[i], true) ==>
                             g.value.language in GeneratedCandidates[..i + 1]
    ensures FindGeneratedTranscript(tracks, GeneratedCandidates).None? ==> FetchTranscript(Listed(tracks), translate).None?
  {
    var g := FindGeneratedTranscript(tracks, GeneratedCandidates);
    forall i | 0 <= i < |GeneratedCandidates| && HasTrack(tracks, GeneratedCandidates[i], true)
      ensures g.Some? && g.value.language in GeneratedCandidates[..i + 1]
    {
      FindGeneratedPrefersEarlierCode(tracks, GeneratedCandidates, i);
    }
    if g.Some? {
      assert g.value.language != English;
    }
    assert FindTranscript(tracks, [English]).None?;
  }

  /**
   * On the fallback path the model is asked exactly one thing, the prompt built
   * from the generated track's segments: any two translators that answer that
   * prompt alike give the same result, which is no transcript when the model
   * fails and otherwise the transcript of the reply's non-blank lines.
   */
  lemma FallbackTranslatesOnce(url: string, extract: string -> Option<string>, listTranscripts: string -> Listing,
                               translate1: string -> Option<string>, translate2: string -> Option<string>,
                               segments: seq<Segment>)
    requires Usable(extract(url)) && listTranscripts(extract(url).value).Listed?
    requires !HasLanguage(listTranscripts(extract(url).value).tracks, English)
    requires FindGeneratedTranscript(listTranscripts(extract(url).value).tracks, GeneratedCandidates).Some?
    requires FindGeneratedTranscript(listTranscripts(extract(url).value).tracks, GeneratedCandidates).value.fetched
             == Some(segments)
    requires translate1(TranslationPrompt(segments)) == translate2(TranslationPrompt(segments))
    ensures Load(url, extract, listTranscripts, translate1) == Load(url, extract, listTranscripts, translate2)
    ensures translate1(TranslationPrompt(segments)).None? ==>
              Load(url, extract, listTranscripts, translate1) == Failure(TranscriptionError(NoTranscriptAvailable))
    ensures translate1(TranslationPrompt(segments)).Some? ==>
              var rebuilt := SegmentsFromReply(translate1(TranslationPrompt(segments)).value);
              Load(url, extract, listTranscripts, translate1)
              == if rebuilt == [] then Failure(TranscriptionError(NoTranscriptAvailable))
                 else Success(VideoTranscript(JoinTexts(rebuilt)))
  {
    var listing := listTranscripts(extract(url).value);
    assert FindTranscript(listing.tracks, [English]).None?;
    assert FetchTranscript(listing, translate1) == TranslateTranscript(segments, translate1);
    assert FetchTranscript(listing, translate2) == TranslateTranscript(segments, translate2);
  }
}

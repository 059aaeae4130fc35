# Content loaders: a Dafny model

This project models the loader layer of a small notebook-style question
answering tool. The layer turns four kinds of source into text for a language
model:

- audio files, through a transcription service;
- text and PDF documents, through document parsers;
- web pages, through a page fetcher that also writes the page text to `output.txt`;
- video URLs, through a caption-track service and, when no English captions
  exist, a generative model that translates a generated track.

Every external service is a parameter of the model:

- the transcription service is `transcribe(path, key)`;
- the parsers are `loadAndSplit(path)` and `loadText(path)`;
- the page fetcher is `fetch(url)`;
- the video-id extractor is `extract(url)`;
- the caption listing is `listTranscripts(id)`;
- the model call is `translate(prompt)`.

Each of these returns what the service produced, or `str(e)` of the exception
it raised (or `None` where the source's own code collapses the exception to
`None`). With those fixed, everything the loaders do is deterministic. That
includes:

- which service is consulted and with what argument;
- the error wrapping;
- the stripping, splitting, filtering and joining of text;
- the caption fallback chain;
- the contents of the output file.

Because the services are functions, "never consulted" can be stated as "the
result does not depend on that parameter".

Modules:

- `Wrappers` (`wrappers.dfy`): `Option` and `Result`.
- `Text` (`text.dfy`): Python's `strip`, `startswith`, `endswith`,
  `split('\n')`, `' '.join` and the `if line.strip()` filter. `startswith`
  and `endswith` are defined directly as slice comparisons. The others come
  with lemmas that characterise them.
- `Loaders` (`loaders.dfy`): the two error kinds, the tagged `LoadResult` (one
  shape per source kind) and the three thin loaders.
  - `AudioLoader` is a class holding `apiKey`.
  - The document loader is a group of functions.
  - `WebpageLoader` is a class whose `sink` field is the contents of `output.txt`.
    Each successful load replaces it.
- `Youtube` (`youtube.dfy`): the caption chain, as functions that follow the
  source's methods: `FetchTranscript`, `HandleNonEnglishTranscript`,
  `TranslateTranscript` and `Load`.

An English track whose segment list is empty (or whose fetch fails) raises
`TranscriptionError("No transcript available")`. It does not give an empty
transcript, because `if not transcript` treats `[]` like `None`.

Another consequence of the code: `"en"` heads the candidate list for generated
tracks, but that search only runs when no English track exists.
`FallbackPicksGeneratedCandidate` proves that the chosen language is one of the
other six.

## Model

| member | source | states |
|---|---|---|
| `Text.TrimStartSpec` | loaders.py:107 | removing leading whitespace keeps a suffix that does not start with whitespace and drops whitespace only |
| `Text.TrimEndSpec` | loaders.py:107 | removing trailing whitespace keeps a prefix that does not end with whitespace and drops whitespace only |
| `Text.StripSpec` | loaders.py:107 | `strip()` returns a slice of the input that neither starts nor ends with whitespace, with whitespace only around it |
| `Text.StripUnique` | loaders.py:107 | that characterisation has exactly one solution, so it is a complete specification of `strip()` |
| `Text.StripIdempotent` | loaders.py:178 | stripping an already stripped string changes nothing |
| `Text.StripEmptyIffAllSpace` | loaders.py:180 | `line.strip()` is empty exactly when the line is whitespace only, so `if line.strip()` keeps the lines with some non-whitespace character |
| `Text.Split` | loaders.py:180 | `split('\n')` always yields at least one piece, and no piece contains the separator |
| `Text.JoinSplit` | loaders.py:180 | joining the pieces of `split('\n')` with `'\n'` gives back the string |
| `Text.SplitJoin` | loaders.py:180 | splitting a join of separator-free pieces gives back exactly those pieces |
| `Text.JoinLength` | loaders.py:133 | a join is as long as all parts together plus one separator between each two parts |
| `Text.NonBlankLinesMembers` | loaders.py:180 | every kept line is a line of the input that is not whitespace only, and every such line is kept |
| `Text.NonBlankLinesAppend` | loaders.py:180 | the filter distributes over concatenation, so kept lines stay in their original order |
| `Text.NonBlankLinesSingle` | loaders.py:180 | one line is kept exactly when it is not whitespace only, and it is kept unchanged |
| `Loaders.WrapFailure` | loaders.py:74-75 | a success passes through; a failure becomes a `DocumentLoaderError` whose message starts with the prefix, and the original message follows the prefix |
| `Loaders.ResolveApiKey` | loaders.py:57-61 | a non-empty explicit key wins over the environment key; when neither is non-empty the result is `DocumentLoaderError("Assembly AI API key not found")` |
| `Loaders.AudioLoader.Create` | loaders.py:57-61 | construction fails with the missing-key error exactly when neither key is usable, and otherwise yields a new loader holding the resolved key |
| `Loaders.AudioLoader.Load` | loaders.py:63-75 | success exactly when the service returns a non-empty list, giving its first document's text and metadata; a service failure, or an empty list (IndexError), gives `"Error transcribing audio: " + message` |
| `Loaders.LoadPdf` | loaders.py:88-91 | the pages are the parser's pages and `pageCount` is their number; a parser failure passes its message on |
| `Loaders.LoadText` | loaders.py:93-96 | the content is the loader's documents; a loader failure passes its message on |
| `Loaders.LoadDocument` | loaders.py:79-86 | a path ending with `.pdf` gives exactly the PDF parser's pages and their number; any other path gives exactly the text loader's documents as content; success follows the chosen parser; a failure is `"Error loading document: " + that parser's message` |
| `Loaders.OnlyChosenParserConsulted` | loaders.py:81-84 | the parser not chosen by the suffix has no influence on the result |
| `Loaders.WebLoad` | loaders.py:100-115 | a URL without `http://` or `https://` gives the unwrapped `DocumentLoaderError("Invalid URL format")` and leaves the file as it was; success returns the stripped first document and leaves exactly it plus `"\n\n"` in the file; a fetch failure, an empty fetch (`IndexError`) and a failure to open the file each give `"Error loading webpage: "` followed by that failure's message, and leave the file unchanged |
| `Loaders.SinkOverwritten` | loaders.py:109-111 | after a successful load neither the result nor the file depends on the file's earlier contents (truncate, not append) |
| `Loaders.WebpageLoader.Load` | loaders.py:100-115 | the returned value and the new `sink` are those of `WebLoad` applied to the old `sink` |
| `Youtube.FirstTrack` | loaders.py:148 | the track found has the requested language and origin and is listed; none is found exactly when no such track is listed |
| `Youtube.FindTranscript` | loaders.py:148 | the track found is listed and has a requested language, and it is generated only when no manual track of that language exists; nothing is found exactly when no track has a requested language |
| `Youtube.FindTranscriptPrefersEarlierCode` | loaders.py:148 | whenever a track of the i-th requested language exists, the chosen language is among the first i+1 requested |
| `Youtube.FindGeneratedTranscript` | loaders.py:162-164 | the track found is listed, generated and of a candidate language; nothing is found exactly when no generated track has a candidate language |
| `Youtube.FindGeneratedPrefersEarlierCode` | loaders.py:162-164 | whenever a generated track of the i-th candidate exists, the chosen language is among the first i+1 candidates |
| `Youtube.TranscriptLength` | loaders.py:133 | the transcript's length is the sum of the segment text lengths plus the number of segments minus one |
| `Youtube.TranslationPrompt` | loaders.py:174-175 | the prompt is `"Translate the following transcript into English:\n"` followed by the space-joined segment texts |
| `Youtube.SegmentsFromReplySpec` | loaders.py:178-180 | the rebuilt segments are the non-blank lines of the stripped reply, in order and unchanged, with no timing, and every non-blank line is among them; the lines joined by `'\n'` give back the stripped reply |
| `Youtube.Load` | loaders.py:124-134 | a missing or empty id gives exactly `DocumentLoaderError("Invalid YouTube URL")`; past a valid id the only error is `TranscriptionError("No transcript available")`, raised exactly when the fetch gives nothing or an empty list; otherwise the result is the space-joined texts |
| `Youtube.InvalidUrlNeedsNoLookup` | loaders.py:124-127 | with no usable id the result is the invalid-URL error whatever the caption service and the model would answer |
| `Youtube.ListingFailureMeansNoTranscript` | loaders.py:143-158 | captions disabled, no transcript found, or any other listing failure all end in `TranscriptionError("No transcript available")` |
| `Youtube.EnglishTrackUsedAsIs` | loaders.py:147-149 | with an English track listed, the manual one is preferred, its fetched segments are used as they are, and the translator has no influence on the result |
| `Youtube.FallbackPicksGeneratedCandidate` | loaders.py:160-170 | with no English track, the track translated is generated, of a candidate language other than English, and no earlier candidate has a generated track; with none, no transcript |
| `Youtube.FallbackTranslatesOnce` | loaders.py:172-183 | on the fallback path the result depends on the model only through its answer to the one prompt; a failed call gives no transcript, a reply gives the transcript of its non-blank lines (or no transcript if there are none) |

## Left out

- Module setup is configuration of external clients and is not modelled: `.env` loading, the Gemini key check, and the model's construction and decoding parameters (loaders.py:14-32). The model call is the `translate` parameter.
- Logging (the logger set-up and every log call) has no effect on results.
- The demo `main()` in loaders.py and the whole of main.py (a script and an interactive loop) are not part of this model.
- `BaseDocumentLoader.load`, which only raises `NotImplementedError`, and `YoutubeTranscriptLoader.__init__`, which only reloads `.env`, are not modelled.
- `_get_video_id` is the `extract` parameter itself: the extractor with its `except` turned into `None`.
- `find_transcript` and `find_generated_transcript` belong to the caption library, which is not part of this model. They are modelled as that library behaves: codes in order, a manual track before a generated one. When the service lists more than one track of the same language and origin, the model takes the first one listed.
- Youtube.EnglishTrackUsedAsIs: a fetch of the English track that raised `NoTranscriptFound` would, in the source, fall back to the generated-track search. The model treats every fetch failure as a generic failure that yields `None`, since the library's fetch raises other errors.
- Loaders.WebpageLoader.Load: `writeError` stands for a failure to open `output.txt`, which leaves the file unchanged. A failure between the two writes, which would leave a truncated or partial file, is not modelled.
- Document metadata is modelled as `map<string, string>`; the source's metadata values may be of any type. Segment timings are `real`, not floating point.
- Text is a sequence of Unicode code points. `strip()` removes the characters `str.isspace` accepts, listed in `Text.IsSpace`.

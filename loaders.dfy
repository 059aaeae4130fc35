/**
 * The thin loaders: audio transcription, text/PDF documents and web pages.
 * Each delegates to an external service, which the model takes as a parameter
 * (a function from its arguments to the documents it returns or the message of
 * the exception it raises), and each turns that service's failures into a
 * `DocumentLoaderError` whose message is a fixed prefix followed by the
 * original message.
 */
module Loaders {
  import opened Wrappers
  import opened Text

  /** The two exception classes of the loaders; each carries only its message. */
  datatype Error = DocumentLoaderError(msg: string) | TranscriptionError(msg: string)

  /** A document as the external parsers and fetchers produce it: its text and its metadata. */
  datatype Doc = Doc(pageContent: string, metadata: map<string, string>)

  /** What a successful `load` returns: one shape per kind of source, no field shared by all. */
  datatype LoadResult =
    | AudioTranscript(text: string, metadata: map<string, string>)
    | TextContent(documents: seq<Doc>)  // the dictionary key is `content`, as for web pages
    | PdfPages(pages: seq<Doc>, pageCount: nat)
    | WebContent(content: string)
    | VideoTranscript(transcript: string)

  /** The outcome of an external call: its documents, or `str(e)` of the exception it raised. */
  type Fetched = Result<seq<Doc>, string>

  const ApiKeyMissing := "Assembly AI API key not found"
  const AudioErrorPrefix := "Error transcribing audio: "
  const DocumentErrorPrefix := "Error loading document: "
  const WebErrorPrefix := "Error loading webpage: "
  const InvalidUrlFormat := "Invalid URL format"
  /** `str(e)` of the IndexError that `docs[0]` raises on an empty list. */
  const IndexOutOfRange := "list index out of range"
  const PdfSuffix := ".pdf"

  /**
   * `except Exception as e: raise DocumentLoaderError(prefix + str(e))`: a success
   * passes through, a failure becomes a DocumentLoaderError whose message starts
   * with `prefix` and from which the original message can be read back.
   */
  function WrapFailure<T>(prefix: string, r: Result<T, string>): (w: Result<T, Error>)
    ensures w.Success? <==> r.Success?
    ensures w.Success? ==> w.value == r.value
    ensures w.Failure? ==> w.error.DocumentLoaderError? && StartsWith(w.error.msg, prefix)
    ensures w.Failure? ==> w.error.msg[|prefix|..] == r.error
  {
    match r
    case Success(v) => Success(v)
    case Failure(m) => Failure(DocumentLoaderError(prefix + m))
  }

  /** `docs[0]`, which raises IndexError on an empty list. */
  function First(docs: seq<Doc>): Result<Doc, string> {
    if docs == [] then Failure(IndexOutOfRange) else Success(docs[0])
  }

  // ---------------------------------------------------------------- AudioLoader

  /** A key is usable when it is present and not the empty string (Python truthiness). */
  predicate Usable(key: Option<string>) {
    key.Some? && key.value != ""
  }

  /**
   * `api_key or os.getenv("ASSEMBLY_API_KEY")` followed by `if not self.api_key: raise`:
   * a usable explicit key wins, otherwise the environment's key is used, and when
   * neither is usable construction fails with the fixed message.
   */
  function ResolveApiKey(explicit: Option<string>, environment: Option<string>): (r: Result<string, Error>)
    ensures r.Success? <==> Usable(explicit) || Usable(environment)
    ensures r.Success? ==> r.value != ""
    ensures Usable(explicit) ==> r == Success(explicit.value)
    ensures !Usable(explicit) && Usable(environment) ==> r == Success(environment.value)
    ensures r.Failure? ==> r.error == DocumentLoaderError(ApiKeyMissing)
  {
    var key := if Usable(explicit) then explicit else environment;
    if Usable(key) then Success(key.value) else Failure(DocumentLoaderError(ApiKeyMissing))
  }

  class AudioLoader {
    /** The transcription service key, fixed once the loader exists. */
    var apiKey: string

    /** The part of `__init__` that runs once a usable key has been resolved. */
    constructor (apiKey: string)
      requires apiKey != ""
      ensures this.apiKey == apiKey
    {
      this.apiKey := apiKey;
    }

    /**
     * `AudioLoader(api_key)`: construction either fails with
     * DocumentLoaderError("Assembly AI API key not found") or yields a new loader
     * holding the resolved key.
     */
    static method Create(explicit: Option<string>, environment: Option<string>) returns (r: Result<AudioLoader, Error>)
      ensures r.Failure? <==> !Usable(explicit) && !Usable(environment)
      ensures r.Failure? ==> r.error == DocumentLoaderError(ApiKeyMissing)
      ensures r.Success? ==> fresh(r.value) && r.value.apiKey == ResolveApiKey(explicit, environment).value
    {
      var key := ResolveApiKey(explicit, environment);
      if key.Failure? {
        return Failure(key.error);
      }
      var loader := new AudioLoader(key.value);
      return Success(loader);
    }

    /**
     * `load(file_path)`: transcribe the file with the stored key and return the
     * text and metadata of the first transcript document. A service failure, and
     * an empty transcript list, become "Error transcribing audio: " + the message.
     */
    function Load(filePath: string, transcribe: (string, string) -> Fetched): (r: Result<LoadResult, Error>)
      reads this
      ensures r.Success? <==> transcribe(filePath, apiKey).Success? && transcribe(filePath, apiKey).value != []
      ensures r.Success? ==> r.value == AudioTranscript(transcribe(filePath, apiKey).value[0].pageContent,
                                                        transcribe(filePath, apiKey).value[0].metadata)
      ensures transcribe(filePath, apiKey).Failure? ==>
                r == Failure(DocumentLoaderError(AudioErrorPrefix + transcribe(filePath, apiKey).error))
      ensures transcribe(filePath, apiKey) == Success([]) ==>
                r == Failure(DocumentLoaderError(AudioErrorPrefix + IndexOutOfRange))
    {
      var first := match transcribe(filePath, apiKey)
        case Failure(m) => Failure(m)
        case Success(docs) => First(docs);
      match WrapFailure(AudioErrorPrefix, first)
      case Failure(e) => Failure(e)
      case Success(doc) => Success(AudioTranscript(doc.pageContent, doc.metadata))
    }
  }

  // -------------------------------------------------------- TextDocumentLoader

  /** `_load_pdf`: the split pages and their number, or the parser's exception message. */
  function LoadPdf(filePath: string, loadAndSplit: string -> Fetched): (r: Result<LoadResult, string>)
    ensures r.Success? <==> loadAndSplit(filePath).Success?
    ensures r.Success? ==> r.value.PdfPages? && r.value.pages == loadAndSplit(filePath).value
    ensures r.Success? ==> r.value.pageCount == |r.value.pages|
    ensures r.Failure? ==> r.error == loadAndSplit(filePath).error
  {
    match loadAndSplit(filePath)
    case Failure(m) => Failure(m)
    case Success(pages) => Success(PdfPages(pages, |pages|))
  }

  /** `_load_text`: the loaded documents as content, or the loader's exception message. */
  function LoadText(filePath: string, loadText: string -> Fetched): (r: Result<LoadResult, string>)
    ensures r.Success? <==> loadText(filePath).Success?
    ensures r.Success? ==> r.value == TextContent(loadText(filePath).value)
    ensures r.Failure? ==> r.error == loadText(filePath).error
  {
    match loadText(filePath)
    case Failure(m) => Failure(m)
    case Success(data) => Success(TextContent(data))
  }

  /**
   * `TextDocumentLoader.load(file_path)`: a path ending in ".pdf" is split into
   * pages, any other path is loaded whole; a failure of the chosen parser becomes
   * "Error loading document: " + its message.
   */
  function LoadDocument(filePath: string, loadAndSplit: string -> Fetched, loadText: string -> Fetched)
    : (r: Result<LoadResult, Error>)
    ensures r.Success? ==> (r.value.PdfPages? <==> EndsWith(filePath, PdfSuffix))
    ensures r.Success? ==> (r.value.PdfPages? || r.value.TextContent?)
    ensures r.Success? && r.value.PdfPages? ==> r.value.pageCount == |r.value.pages|
    ensures EndsWith(filePath, PdfSuffix) ==> (r.Success? <==> loadAndSplit(filePath).Success?)
    ensures !EndsWith(filePath, PdfSuffix) ==> (r.Success? <==> loadText(filePath).Success?)
    ensures EndsWith(filePath, PdfSuffix) && r.Failure? ==>
              r.error == DocumentLoaderError(DocumentErrorPrefix + loadAndSplit(filePath).error)
    ensures !EndsWith(filePath, PdfSuffix) && r.Failure? ==>
              r.error == DocumentLoaderError(DocumentErrorPrefix + loadText(filePath).error)
    ensures r.Success? && EndsWith(filePath, PdfSuffix) ==>
              r.value == PdfPages(loadAndSplit(filePath).value, |loadAndSplit(filePath).value|)
    ensures r.Success? && !EndsWith(filePath, PdfSuffix) ==> r.value == TextContent(loadText(filePath).value)
  {
    var inner := if EndsWith(filePath, PdfSuffix) then LoadPdf(filePath, loadAndSplit) else LoadText(filePath, loadText);
    WrapFailure(DocumentErrorPrefix, inner)
  }

  /** The suffix alone picks the parser: the other one is never consulted. */
  lemma OnlyChosenParserConsulted(filePath: string, pdf1: string -> Fetched, pdf2: string -> Fetched,
                                  text1: string -> Fetched, text2: string -> Fetched)
    requires EndsWith(filePath, PdfSuffix) ==> pdf1(filePath) == pdf2(filePath)
    requires !EndsWith(filePath, PdfSuffix) ==> text1(filePath) == text2(filePath)
    ensures LoadDocument(filePath, pdf1, text1) == LoadDocument(filePath, pdf2, text2)
  {
  }

  // ------------------------------------------------------------- WebpageLoader

  /** `url.startswith(('http://', 'https://'))`. */
  predicate ValidUrl(url: string) {
    StartsWith(url, "http://") || StartsWith(url, "https://")
  }

  /**
   * One `WebpageLoader.load(url)` call given the output file's contents `sink`
   * before it: the value returned (or raised) and the file's contents after it.
   * An invalid URL is refused unwrapped before the fetch; a successful load
   * returns the stripped text of the first fetched document and leaves exactly
   * that text and two newlines in the file; every failure leaves the file as it was.
   * `writeError` is the message of a failure to open the file for writing.
   */
  function WebLoad(url: string, fetch: string -> Fetched, writeError: Option<string>, sink: string)
    : (out: (Result<LoadResult, Error>, string))
    ensures !ValidUrl(url) ==> out == (Failure(DocumentLoaderError(InvalidUrlFormat)), sink)
    ensures out.0.Success? <==> ValidUrl(url) && fetch(url).Success? && fetch(url).value != [] && writeError.None?
    ensures out.0.Success? ==> out.0.value == WebContent(Strip(fetch(url).value[0].pageContent))
    ensures out.0.Success? ==> out.1 == out.0.value.content + "\n\n"
    ensures out.0.Failure? ==> out.1 == sink
    ensures ValidUrl(url) && out.0.Failure? ==>
              out.0.error.DocumentLoaderError? && StartsWith(out.0.error.msg, WebErrorPrefix)
    ensures ValidUrl(url) && fetch(url).Failure? ==>
              out.0 == Failure(DocumentLoaderError(WebErrorPrefix + fetch(url).error))
    ensures ValidUrl(url) && fetch(url) == Success([]) ==>
              out.0 == Failure(DocumentLoaderError(WebErrorPrefix + IndexOutOfRange))
    ensures ValidUrl(url) && fetch(url).Success? && fetch(url).value != [] && writeError.Some? ==>
              out.0 == Failure(DocumentLoaderError(WebErrorPrefix + writeError.value))
  {
    if !ValidUrl(url) then (Failure(DocumentLoaderError(InvalidUrlFormat)), sink)
    else
      var first := match fetch(url)
        case Failure(m) => Failure(m)
        case Success(docs) => First(docs);
      match first
      case Failure(m) => (WrapFailure(WebErrorPrefix, Failure(m)), sink)
      case Success(doc) =>
        var content := Strip(doc.pageContent);
        match writeError
        case Some(m) => (WrapFailure(WebErrorPrefix, Failure(m)), sink)
        case None => (Success(WebContent(content)), content + "\n\n")
  }

  /**
   * The file is opened in truncate mode: after a successful load neither the
   * result nor the file depends on what the file held before.
   */
  lemma SinkOverwritten(url: string, fetch: string -> Fetched, writeError: Option<string>, before1: string, before2: string)
    requires WebLoad(url, fetch, writeError, before1).0.Success?
    ensures WebLoad(url, fetch, writeError, before1) == WebLoad(url, fetch, writeError, before2)
    ensures |WebLoad(url, fetch, writeError, before1).1| == |Strip(fetch(url).value[0].pageContent)| + 2
  {
  }

  class WebpageLoader {
    /** The contents of the output file `output.txt`. */
    var sink: string

    /** A loader over an output file that already holds `existing`. */
    constructor (existing: string)
      ensures sink == existing
    {
      sink := existing;
    }

    /**
     * `load(url)`: checks the scheme, fetches the page, strips the first
     * document's text, rewrites the output file with it followed by a blank
     * line, and returns it.
     */
    method Load(url: string, fetch: string -> Fetched, writeError: Option<string>) returns (r: Result<LoadResult, Error>)
      modifies this
      ensures (r, sink) == WebLoad(url, fetch, writeError, old(sink))
    {
      if !ValidUrl(url) {
        return Failure(DocumentLoaderError(InvalidUrlFormat));
      }
      var fetched := fetch(url);
      if fetched.Failure? {
        return Failure(DocumentLoaderError(WebErrorPrefix + fetched.error));
      }
      if fetched.value == [] {
        return Failure(DocumentLoaderError(WebErrorPrefix + IndexOutOfRange));
      }
      var content := Strip(fetched.value[0].pageContent);
      if writeError.Some? {
        return Failure(DocumentLoaderError(WebErrorPrefix + writeError.value));
      }
      // open(..., "w") truncates; the two writes leave the content, then a blank line
      sink := content;
      sink := sink + "\n\n";
      return Success(WebContent(content));
    }
  }
}

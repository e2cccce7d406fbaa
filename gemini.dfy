/**
 * The model service: request assembly and the streaming delivery loop of
 * `sendMessageStream`, the part scan of `generateImage`, and
 * `extractGroundingLinks`. The SDK client and the network are not modelled:
 * a streamed call is given as the chunks it delivers and the error, if any,
 * that ends it; a single-shot call as the response or the error.
 */
module Gemini {
  import opened Wrappers
  import opened Js
  import opened Types

  // ----- Request assembly -------------------------------------------------

  datatype TurnRole = UserTurn | ModelTurn

  /** A history turn as the caller passes it: a role and the message parts. */
  datatype HistoryTurn = HistoryTurn(role: TurnRole, parts: seq<MessagePart>)

  /** A part as it is sent: a text part or an inline-data part. */
  datatype WirePart = TextPart(text: string) | InlinePart(inlineData: InlineData)

  datatype WireTurn = WireTurn(role: TurnRole, parts: seq<WirePart>)

  datatype Tool = GoogleSearch

  /** The request configuration; `tools` absent is the empty `{}`. */
  datatype Config = Config(tools: Option<seq<Tool>>)

  datatype StreamOptions = StreamOptions(useSearch: Option<bool>)

  datatype Request = Request(model: ModelId, contents: seq<WireTurn>, config: Config)

  predicate SearchRequested(options: Option<StreamOptions>) {
    options.Some? && options.value.useSearch == Some(true)
  }

  function SelectConfig(modelId: ModelId, options: Option<StreamOptions>): (c: Config)
    ensures c.tools.Some? <==> SearchRequested(options) && modelId != GeminiImage
    ensures c.tools.Some? ==> c.tools.value == [GoogleSearch]
  {
    if SearchRequested(options) && modelId != GeminiImage then Config(Some([GoogleSearch]))
    else Config(None)
  }

  function EncodePart(p: MessagePart): (w: WirePart)
    ensures w.InlinePart? <==> !Truthy(p.text) && p.inlineData.Some?
    ensures w.InlinePart? ==> w.inlineData == p.inlineData.value
    ensures w.TextPart? ==> w.text == p.text.GetOr("")
  {
    if Truthy(p.text) then TextPart(p.text.value)
    else if p.inlineData.Some? then InlinePart(p.inlineData.value)
    else TextPart("")
  }

  function EncodeTurn(t: HistoryTurn): WireTurn {
    WireTurn(t.role, seq(|t.parts|, j requires 0 <= j < |t.parts| => EncodePart(t.parts[j])))
  }

  /**
   * The request `sendMessageStream` sends: the history turns in order, each
   * part reduced to its text, else its inline data, else an empty text, then
   * the prompt as one final user turn; the search tool only when asked for and
   * the model is not the image model.
   */
  function BuildRequest(modelId: ModelId, history: seq<HistoryTurn>, prompt: string,
                        options: Option<StreamOptions>): (r: Request)
    ensures r.model == modelId
    ensures r.config.tools.Some? <==> SearchRequested(options) && modelId != GeminiImage
    ensures r.config.tools.Some? ==> r.config.tools.value == [GoogleSearch]
    ensures |r.contents| == |history| + 1
    ensures r.contents[|history|] == WireTurn(UserTurn, [TextPart(prompt)])
    ensures forall i :: 0 <= i < |history| ==>
      r.contents[i].role == history[i].role && |r.contents[i].parts| == |history[i].parts|
    ensures forall i, j :: 0 <= i < |history| && 0 <= j < |history[i].parts| ==>
      var p, w := history[i].parts[j], r.contents[i].parts[j];
      && (Truthy(p.text) ==> w == TextPart(p.text.value))
      && (!Truthy(p.text) && p.inlineData.Some? ==> w == InlinePart(p.inlineData.value))
      && (!Truthy(p.text) && p.inlineData.None? ==> w == TextPart(""))
  {
    var turns := seq(|history|, i requires 0 <= i < |history| => EncodeTurn(history[i]));
    Request(modelId, turns + [WireTurn(UserTurn, [TextPart(prompt)])], SelectConfig(modelId, options))
  }

  // ----- Responses --------------------------------------------------------

  datatype Web = Web(uri: string, title: Option<string>)

  datatype GroundingChunk = GroundingChunk(web: Option<Web>)

  datatype GroundingMetadata = GroundingMetadata(groundingChunks: Option<seq<GroundingChunk>>)

  datatype Content = Content(parts: Option<seq<MessagePart>>)

  datatype Candidate = Candidate(content: Option<Content>, groundingMetadata: Option<GroundingMetadata>)

  /** A response or a streamed chunk of one; `text` is the text the SDK reports for it. */
  datatype Response = Response(text: Option<string>, candidates: Option<seq<Candidate>>)

  /** A thrown value: one raised by the service, or the TypeError of reading a property of `undefined`. */
  datatype Error = ServiceError(message: string) | TypeError

  datatype Result<T> = Ok(value: T) | Err(error: Error)

  // ----- Streaming delivery -----------------------------------------------

  /** What the stream does: the chunks it yields in order, then the error it throws, if any. */
  datatype StreamReply = StreamReply(chunks: seq<Response>, failure: Option<Error>)

  /** One invocation of a caller's callback. */
  datatype Callback = OnChunk(text: string) | OnComplete(response: Response)

  /** `chunk.text || ''`. */
  function ChunkText(chunk: Response): string {
    chunk.text.GetOr("")
  }

  function Fragments(chunks: seq<Response>): seq<string> {
    seq(|chunks|, i requires 0 <= i < |chunks| => ChunkText(chunks[i]))
  }

  /** The concatenation of the fragments, in order. */
  function Concat(ss: seq<string>): string {
    if ss == [] then "" else ss[0] + Concat(ss[1..])
  }

  lemma {:induction false} ConcatAppend(ss: seq<string>, s: string)
    ensures Concat(ss + [s]) == Concat(ss) + s
  {
    if ss == [] {
      assert [s][1..] == [];
    } else {
      assert (ss + [s])[1..] == ss[1..] + [s];
      ConcatAppend(ss[1..], s);
    }
  }

  /** The stream completes when it ended without an error after at least one chunk. */
  predicate Completes(reply: StreamReply) {
    reply.failure.None? && |reply.chunks| > 0
  }

  /**
   * The callbacks `sendMessageStream` makes: one `onChunk` per chunk in
   * arrival order, with its text or the empty string; then at most one
   * `onComplete`, as the very last call, with the last chunk, and only when
   * the stream yielded a chunk and threw nothing.
   */
  function Callbacks(reply: StreamReply): (r: seq<Callback>)
    ensures |r| == |reply.chunks| + (if Completes(reply) then 1 else 0)
    ensures forall i :: 0 <= i < |reply.chunks| ==> r[i] == OnChunk(ChunkText(reply.chunks[i]))
    ensures forall i :: 0 <= i < |r| && r[i].OnComplete? ==>
      i == |r| - 1 && Completes(reply) && r[i].response == reply.chunks[|reply.chunks| - 1]
    ensures Completes(reply) ==> r[|r| - 1].OnComplete?
  {
    seq(|reply.chunks|, i requires 0 <= i < |reply.chunks| => OnChunk(ChunkText(reply.chunks[i])))
    + (if Completes(reply) then [OnComplete(reply.chunks[|reply.chunks| - 1])] else [])
  }

  /**
   * `sendMessageStream`: builds the request, forwards each chunk's text,
   * accumulates `fullText`, keeps the last chunk, completes with it if there
   * was one, and re-throws any error unchanged.
   */
  method SendMessageStream(modelId: ModelId, history: seq<HistoryTurn>, prompt: string,
                           options: Option<StreamOptions>, reply: StreamReply)
    returns (request: Request, calls: seq<Callback>, fullText: string, thrown: Option<Error>)
    ensures request == BuildRequest(modelId, history, prompt, options)
    ensures calls == Callbacks(reply)
    ensures fullText == Concat(Fragments(reply.chunks))
    ensures thrown == reply.failure
  {
    request := BuildRequest(modelId, history, prompt, options);
    var chunks := reply.chunks;
    fullText := "";
    calls := [];
    var lastResponse: Option<Response> := None;
    var i := 0;
    while i < |chunks|
      invariant 0 <= i <= |chunks|
      invariant |calls| == i
      invariant forall k :: 0 <= k < i ==> calls[k] == OnChunk(ChunkText(chunks[k]))
      invariant fullText == Concat(Fragments(chunks[..i]))
      invariant lastResponse == if i == 0 then None else Some(chunks[i - 1])
    {
      var textChunk := ChunkText(chunks[i]);
      assert Fragments(chunks[..i + 1]) == Fragments(chunks[..i]) + [textChunk];
      ConcatAppend(Fragments(chunks[..i]), textChunk);
      fullText := fullText + textChunk;
      calls := calls + [OnChunk(textChunk)];
      lastResponse := Some(chunks[i]);
      i := i + 1;
    }
    assert chunks[..i] == chunks;
    thrown := reply.failure;
    if thrown.None? && lastResponse.Some? {
      calls := calls + [OnComplete(lastResponse.value)];
    }
  }

  // ----- Image generation -------------------------------------------------

  const ImageUrlPrefix: string := "data:image/png;base64,"

  datatype ImageRequest = ImageRequest(model: ModelId, contents: seq<seq<WirePart>>)

  datatype ImageResult = ImageResult(imageUrl: string, description: string)

  /** `response.candidates[0].content.parts`, failing as property access on `undefined` does. */
  function ImageParts(response: Response): (r: Result<seq<MessagePart>>)
    ensures r.Ok? <==> response.candidates.Some? && |response.candidates.value| > 0
                       && response.candidates.value[0].content.Some?
                       && response.candidates.value[0].content.value.parts.Some?
    ensures r.Ok? ==> r.value == response.candidates.value[0].content.value.parts.value
    ensures r.Err? ==> r.error == TypeError
  {
    if response.candidates.None? || |response.candidates.value| == 0 then Err(TypeError)
    else match response.candidates.value[0].content
      case None => Err(TypeError)
      case Some(c) => if c.parts.None? then Err(TypeError) else Ok(c.parts.value)
  }

  /** The image URL left by the scan: from the last part carrying inline data. */
  function LastImageUrl(parts: seq<MessagePart>): string {
    if parts == [] then ""
    else
      var p := parts[|parts| - 1];
      if p.inlineData.Some? then ImageUrlPrefix + p.inlineData.value.data
      else LastImageUrl(parts[..|parts| - 1])
  }

  /** The description left by the scan: from the last part with text and no inline data. */
  function LastDescription(parts: seq<MessagePart>): string {
    if parts == [] then ""
    else
      var p := parts[|parts| - 1];
      if p.inlineData.None? && Truthy(p.text) then p.text.value
      else LastDescription(parts[..|parts| - 1])
  }

  lemma {:induction false} LastImageUrlEmpty(parts: seq<MessagePart>)
    ensures LastImageUrl(parts) == "" <==> forall i :: 0 <= i < |parts| ==> parts[i].inlineData.None?
  {
    if parts != [] {
      var init := parts[..|parts| - 1];
      LastImageUrlEmpty(init);
      if parts[|parts| - 1].inlineData.Some? {
        assert |LastImageUrl(parts)| >= |ImageUrlPrefix|;
      } else {
        forall i | 0 <= i < |init| ensures init[i] == parts[i] { }
      }
    }
  }

  lemma {:induction false} LastImageUrlAt(parts: seq<MessagePart>, k: nat)
    requires k < |parts| && parts[k].inlineData.Some?
    requires forall j :: k < j < |parts| ==> parts[j].inlineData.None?
    ensures LastImageUrl(parts) == ImageUrlPrefix + parts[k].inlineData.value.data
  {
    if k < |parts| - 1 {
      var init := parts[..|parts| - 1];
      LastImageUrlAt(init, k);
    }
  }

  lemma {:induction false} LastDescriptionEmpty(parts: seq<MessagePart>)
    ensures LastDescription(parts) == "" <==>
      forall i :: 0 <= i < |parts| ==> parts[i].inlineData.Some? || !Truthy(parts[i].text)
  {
    if parts != [] {
      var init := parts[..|parts| - 1];
      LastDescriptionEmpty(init);
      if !(parts[|parts| - 1].inlineData.None? && Truthy(parts[|parts| - 1].text)) {
        forall i | 0 <= i < |init| ensures init[i] == parts[i] { }
      }
    }
  }

  lemma {:induction false} LastDescriptionAt(parts: seq<MessagePart>, k: nat)
    requires k < |parts| && parts[k].inlineData.None? && Truthy(parts[k].text)
    requires forall j :: k < j < |parts| ==> parts[j].inlineData.Some? || !Truthy(parts[j].text)
    ensures LastDescription(parts) == parts[k].text.value
  {
    if k < |parts| - 1 {
      var init := parts[..|parts| - 1];
      LastDescriptionAt(init, k);
    }
  }

  /** What `generateImage` resolves to or throws, as a function of the service's reply. */
  function ImageOutcome(reply: Result<Response>): (r: Result<ImageResult>)
    ensures reply.Err? ==> r == Err(reply.error)
    ensures reply.Ok? && ImageParts(reply.value).Err? ==> r == Err(TypeError)
    ensures reply.Ok? && ImageParts(reply.value).Ok? ==>
      r == Ok(ImageResult(LastImageUrl(ImageParts(reply.value).value), LastDescription(ImageParts(reply.value).value)))
  {
    match reply
    case Err(e) => Err(e)
    case Ok(response) =>
      match ImageParts(response)
      case Err(e) => Err(e)
      case Ok(parts) => Ok(ImageResult(LastImageUrl(parts), LastDescription(parts)))
  }

  /** `generateImage`: one request with the prompt; the scan of the first candidate's parts. */
  method GenerateImage(prompt: string, reply: Result<Response>)
    returns (request: ImageRequest, result: Result<ImageResult>)
    ensures request == ImageRequest(GeminiImage, [[TextPart(prompt)]])
    ensures result == ImageOutcome(reply)
  {
    request := ImageRequest(GeminiImage, [[TextPart(prompt)]]);
    if reply.Err? {
      return request, Err(reply.error);
    }
    var found := ImageParts(reply.value);
    if found.Err? {
      return request, Err(found.error);
    }
    var parts := found.value;
    var imageUrl := "";
    var description := "";
    var i := 0;
    while i < |parts|
      invariant 0 <= i <= |parts|
      invariant imageUrl == LastImageUrl(parts[..i])
      invariant description == LastDescription(parts[..i])
    {
      var part := parts[i];
      if part.inlineData.Some? {
        imageUrl := ImageUrlPrefix + part.inlineData.value.data;
      } else if Truthy(part.text) {
        description := part.text.value;
      }
      assert parts[..i + 1][..i] == parts[..i];
      i := i + 1;
    }
    assert parts[..i] == parts;
    result := Ok(ImageResult(imageUrl, description));
  }

  // ----- Grounding extraction ---------------------------------------------

  /** `response.candidates?.[0]?.groundingMetadata?.groundingChunks`. */
  function GroundingChunksOf(response: Response): (r: Option<seq<GroundingChunk>>)
    ensures r.Some? <==> response.candidates.Some? && |response.candidates.value| > 0
                         && response.candidates.value[0].groundingMetadata.Some?
                         && response.candidates.value[0].groundingMetadata.value.groundingChunks.Some?
  {
    if response.candidates.None? || |response.candidates.value| == 0 then None
    else match response.candidates.value[0].groundingMetadata
      case None => None
      case Some(md) => md.groundingChunks
  }

  /** The link for a web reference: its URI, and its title or else the URI; no kind is set. */
  function LinkOf(web: Web): (link: GroundingLink)
    ensures link.uri == web.uri && link.kind.None?
    ensures Truthy(web.title) ==> link.title == web.title.value
    ensures !Truthy(web.title) ==> link.title == web.uri
  {
    GroundingLink(web.uri, OrElse(web.title.GetOr(""), web.uri), None)
  }

  /** The links for the chunks that carry a web reference, in chunk order. */
  function WebLinks(chunks: seq<GroundingChunk>): seq<GroundingLink> {
    if chunks == [] then []
    else
      var c := chunks[|chunks| - 1];
      WebLinks(chunks[..|chunks| - 1]) + (if c.web.Some? then [LinkOf(c.web.value)] else [])
  }

  function GroundingLinksOf(response: Response): seq<GroundingLink> {
    match GroundingChunksOf(response)
    case None => []
    case Some(chunks) => WebLinks(chunks)
  }

  /** Extraction distributes over concatenation: order is kept and chunks do not interact. */
  lemma {:induction false} WebLinksAppend(a: seq<GroundingChunk>, b: seq<GroundingChunk>)
    ensures WebLinks(a + b) == WebLinks(a) + WebLinks(b)
    decreases |b|
  {
    if b == [] {
      assert a + b == a;
    } else {
      var b' := b[..|b| - 1];
      assert (a + b)[..|a + b| - 1] == a + b';
      WebLinksAppend(a, b');
    }
  }

  /** Never more links than chunks; exactly as many when every chunk has a web reference. */
  lemma {:induction false} WebLinksLength(chunks: seq<GroundingChunk>)
    ensures |WebLinks(chunks)| <= |chunks|
    ensures |WebLinks(chunks)| == |chunks| <==> forall i :: 0 <= i < |chunks| ==> chunks[i].web.Some?
  {
    if chunks != [] {
      var init := chunks[..|chunks| - 1];
      WebLinksLength(init);
      if chunks[|chunks| - 1].web.Some? {
        forall i | 0 <= i < |init| ensures init[i] == chunks[i] { }
      }
    }
  }

  /** Every link comes from a chunk with a web reference. */
  lemma {:induction false} WebLinksFromChunks(chunks: seq<GroundingChunk>, n: nat)
    requires n < |WebLinks(chunks)|
    ensures exists i :: 0 <= i < |chunks| && chunks[i].web.Some? && WebLinks(chunks)[n] == LinkOf(chunks[i].web.value)
  {
    var init := chunks[..|chunks| - 1];
    if n < |WebLinks(init)| {
      WebLinksFromChunks(init, n);
      var i :| 0 <= i < |init| && init[i].web.Some? && WebLinks(init)[n] == LinkOf(init[i].web.value);
      assert init[i] == chunks[i];
    } else {
      assert chunks[|chunks| - 1].web.Some?;
    }
  }

  /** When every chunk has a web reference, link `i` is the link of chunk `i`. */
  lemma {:induction false} WebLinksPointwise(chunks: seq<GroundingChunk>, i: nat)
    requires forall k :: 0 <= k < |chunks| ==> chunks[k].web.Some?
    requires i < |chunks|
    ensures |WebLinks(chunks)| == |chunks|
    ensures WebLinks(chunks)[i] == LinkOf(chunks[i].web.value)
  {
    var init := chunks[..|chunks| - 1];
    WebLinksLength(chunks);
    WebLinksLength(init);
    if i < |init| {
      WebLinksPointwise(init, i);
    }
  }

  /** `extractGroundingLinks`: one link pushed per chunk that has a web reference. */
  method ExtractGroundingLinks(response: Response) returns (links: seq<GroundingLink>)
    ensures links == GroundingLinksOf(response)
    ensures GroundingChunksOf(response).None? ==> links == []
    ensures GroundingChunksOf(response).Some? ==> |links| <= |GroundingChunksOf(response).value|
  {
    links := [];
    var found := GroundingChunksOf(response);
    if found.Some? {
      var chunks := found.value;
      var i := 0;
      while i < |chunks|
        invariant 0 <= i <= |chunks|
        invariant links == WebLinks(chunks[..i])
      {
        var chunk := chunks[i];
        if chunk.web.Some? {
          links := links + [LinkOf(chunk.web.value)];
        }
        assert chunks[..i + 1][..i] == chunks[..i];
        i := i + 1;
      }
      assert chunks[..i] == chunks;
      WebLinksLength(chunks);
    }
  }
}

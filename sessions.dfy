/**
 * The session-list updaters of the chat component. Each `setSessions(prev => ...)`
 * of the component is a pure transformation of the previous list; here every such
 * updater is named by a `SessionUpdate` value and applied by `MapSessions`, so the
 * component's sequence of updates is a sequence of values.
 */
module Sessions {
  import opened Wrappers
  import opened Js
  import opened Types
  import opened Gemini

  const NewConversationTitle: string := "New Conversation"
  const TitleLength: nat := 30
  const ErrorApology: string := "Sorry, I encountered an error while processing your request."

  function NewSession(id: string, title: string, createdAt: int, model: ModelId): ChatSession {
    ChatSession(id, title, [], createdAt, model)
  }

  /** `sessions.find(s => s.id === id)`: the first session whose id is `id`. */
  function FindSession(sessions: seq<ChatSession>, id: Option<string>): (r: Option<ChatSession>)
    ensures r.Some? ==> r.value in sessions && Some(r.value.id) == id
    ensures r.Some? ==> exists k :: 0 <= k < |sessions| && sessions[k] == r.value
                                   && forall j :: 0 <= j < k ==> Some(sessions[j].id) != id
    ensures r.None? ==> forall k :: 0 <= k < |sessions| ==> Some(sessions[k].id) != id
  {
    if sessions == [] then None
    else if Some(sessions[0].id) == id then
      Some(sessions[0])
    else
      var r := FindSession(sessions[1..], id);
      if r.Some? then
        var k :| 0 <= k < |sessions[1..]| && sessions[1..][k] == r.value
                 && forall j :: 0 <= j < k ==> Some(sessions[1..][j].id) != id;
        assert sessions[k + 1] == r.value;
        assert forall j :: 0 <= j < k + 1 ==> Some(sessions[j].id) != id by {
          forall j | 0 <= j < k + 1 ensures Some(sessions[j].id) != id {
            if j > 0 { assert sessions[j] == sessions[1..][j - 1]; }
          }
        }
        r
      else
        assert forall k :: 0 <= k < |sessions| ==> Some(sessions[k].id) != id by {
          forall k | 0 <= k < |sessions| ensures Some(sessions[k].id) != id {
            if k > 0 { assert sessions[k] == sessions[1..][k - 1]; }
          }
        }
        r
  }

  /** `find` stops at the first session with the id. */
  lemma FindFirst(sessions: seq<ChatSession>, id: Option<string>, i: nat)
    requires i < |sessions| && Some(sessions[i].id) == id
    requires forall j :: 0 <= j < i ==> Some(sessions[j].id) != id
    ensures FindSession(sessions, id) == Some(sessions[i])
  {
    var r := FindSession(sessions, id);
    var k :| 0 <= k < |sessions| && sessions[k] == r.value && forall j :: 0 <= j < k ==> Some(sessions[j].id) != id;
    assert !(k < i) && !(i < k);
  }

  // ----- Deleting a session -----------------------------------------------

  /** `prev.filter(s => s.id !== id)`. */
  function WithoutSession(sessions: seq<ChatSession>, id: string): (r: seq<ChatSession>)
    ensures |r| <= |sessions|
    ensures forall k :: 0 <= k < |r| ==> r[k].id != id
  {
    if sessions == [] then []
    else (if sessions[0].id == id then [] else [sessions[0]]) + WithoutSession(sessions[1..], id)
  }

  /** Exactly the sessions with another id remain; none is added. */
  lemma {:induction false} WithoutSessionMembers(sessions: seq<ChatSession>, id: string)
    ensures forall s :: s in WithoutSession(sessions, id) <==> s in sessions && s.id != id
  {
    if sessions != [] {
      WithoutSessionMembers(sessions[1..], id);
      assert sessions == [sessions[0]] + sessions[1..];
    }
  }

  /** Deleting keeps the others in their order: it distributes over concatenation. */
  lemma {:induction false} WithoutSessionAppend(a: seq<ChatSession>, b: seq<ChatSession>, id: string)
    ensures WithoutSession(a + b, id) == WithoutSession(a, id) + WithoutSession(b, id)
  {
    if a == [] {
      assert a + b == b;
    } else {
      assert (a + b)[1..] == a[1..] + b;
      WithoutSessionAppend(a[1..], b, id);
    }
  }

  /** Deleting an id no session has changes nothing. */
  lemma {:induction false} WithoutAbsentSession(sessions: seq<ChatSession>, id: string)
    requires forall k :: 0 <= k < |sessions| ==> sessions[k].id != id
    ensures WithoutSession(sessions, id) == sessions
  {
    if sessions != [] {
      WithoutAbsentSession(sessions[1..], id);
    }
  }

  // ----- Updating one session ---------------------------------------------

  /** The per-message updaters: a streamed chunk, completion, error, image result. */
  datatype MessageUpdate =
    | AppendChunk(chunk: string)
    | Finish(links: seq<GroundingLink>)
    | Fail
    | ShowImage(description: string, imageUrl: string)

  /** One message updater: identity, role, time and model are never touched; every updater but a chunk ends streaming. */
  function UpdateMessage(m: Message, u: MessageUpdate): (r: Message)
    ensures r.id == m.id && r.role == m.role && r.timestamp == m.timestamp && r.modelId == m.modelId
    ensures u.AppendChunk? ==> r.content == m.content + u.chunk && r.isStreaming == m.isStreaming
    ensures !u.AppendChunk? ==> r.isStreaming == Some(false)
    ensures u.Finish? ==> r.content == m.content && r.groundingLinks == Some(u.links)
    ensures u.Fail? ==> r.content == ErrorApology && r.groundingLinks == m.groundingLinks
    ensures u.ShowImage? ==> r.content == u.description && r.imageUrl == Some(u.imageUrl)
  {
    match u
    case AppendChunk(chunk) => m.(content := m.content + chunk)
    case Finish(links) => m.(groundingLinks := Some(links), isStreaming := Some(false))
    case Fail => m.(content := ErrorApology, isStreaming := Some(false))
    case ShowImage(description, url) =>
      m.(content := description, imageUrl := Some(url), isStreaming := Some(false))
  }

  /** The session updaters: append the user message (with the title rule), append a message, update messages by id. */
  datatype SessionUpdate =
    | AddUserMessage(msg: Message)
    | AddMessage(msg: Message)
    | UpdateMessages(id: string, u: MessageUpdate)

  /** One session updater: the session keeps its identity; the two appends add one message at the end. */
  function ApplyToSession(s: ChatSession, u: SessionUpdate): (r: ChatSession)
    ensures r.id == s.id && r.createdAt == s.createdAt && r.lastModelId == s.lastModelId
    ensures !u.UpdateMessages? ==> r.messages == s.messages + [u.msg]
    ensures u.UpdateMessages? ==> |r.messages| == |s.messages| && r.title == s.title
    ensures u.AddMessage? ==> r.title == s.title
    ensures u.AddUserMessage? && |s.messages| > 0 ==> r.title == s.title
    ensures u.AddUserMessage? && |s.messages| == 0 ==> r.title == Prefix(u.msg.content, TitleLength)
  {
    match u
    case AddUserMessage(msg) =>
      s.(messages := s.messages + [msg],
         title := if |s.messages| == 0 then Prefix(msg.content, TitleLength) else s.title)
    case AddMessage(msg) => s.(messages := s.messages + [msg])
    case UpdateMessages(id, mu) =>
      s.(messages := seq(|s.messages|, j requires 0 <= j < |s.messages| =>
                         if s.messages[j].id == id then UpdateMessage(s.messages[j], mu) else s.messages[j]))
  }

  /** `prev.map(s => s.id === id ? <update s> : s)`: only sessions with that id change. */
  function MapSessions(sessions: seq<ChatSession>, id: string, u: SessionUpdate): (r: seq<ChatSession>)
    ensures |r| == |sessions|
    ensures forall i :: 0 <= i < |sessions| && sessions[i].id != id ==> r[i] == sessions[i]
    ensures forall i :: 0 <= i < |sessions| && sessions[i].id == id ==>
      r[i].id == id && r[i].createdAt == sessions[i].createdAt && r[i].lastModelId == sessions[i].lastModelId
  {
    seq(|sessions|, i requires 0 <= i < |sessions| =>
        if sessions[i].id == id then ApplyToSession(sessions[i], u) else sessions[i])
  }

  /**
   * Appending the user message: the target's messages grow by that message at
   * the end; its title becomes the first 30 characters of the content when it
   * had no messages and is kept otherwise.
   */
  lemma AddUserMessageEffect(sessions: seq<ChatSession>, id: string, msg: Message, i: nat)
    requires i < |sessions| && sessions[i].id == id
    ensures var r := MapSessions(sessions, id, AddUserMessage(msg))[i];
      && r.messages == sessions[i].messages + [msg]
      && (|sessions[i].messages| == 0 ==> r.title == Prefix(msg.content, TitleLength))
      && (|sessions[i].messages| > 0 ==> r.title == sessions[i].title)
  {
  }

  /** Appending the placeholder: the target's messages grow by that message at the end; the title is kept. */
  lemma AddMessageEffect(sessions: seq<ChatSession>, id: string, msg: Message, i: nat)
    requires i < |sessions| && sessions[i].id == id
    ensures var r := MapSessions(sessions, id, AddMessage(msg))[i];
      r.messages == sessions[i].messages + [msg] && r.title == sessions[i].title
  {
  }

  /** A fresh session put in front takes both appends and the title of the first message. */
  lemma PrependedSessionMessages(rest: seq<ChatSession>, first: ChatSession, um: Message, ph: Message)
    requires first.messages == []
    ensures var both := MapSessions(MapSessions([first] + rest, first.id, AddUserMessage(um)), first.id, AddMessage(ph));
      && |both| == |rest| + 1
      && both[0] == first.(messages := [um, ph], title := Prefix(um.content, TitleLength))
  {
    var withUser := MapSessions([first] + rest, first.id, AddUserMessage(um));
    AddUserMessageEffect([first] + rest, first.id, um, 0);
    AddMessageEffect(withUser, first.id, ph, 0);
  }

  /** Updating messages by id keeps a session's title, message count, and every message's id and role. */
  lemma UpdateMessagesShape(s: ChatSession, mid: string, mu: MessageUpdate)
    ensures var r := ApplyToSession(s, UpdateMessages(mid, mu));
      && r.title == s.title && |r.messages| == |s.messages|
      && forall j :: 0 <= j < |s.messages| ==>
           r.messages[j].id == s.messages[j].id && r.messages[j].role == s.messages[j].role
           && (s.messages[j].id != mid ==> r.messages[j] == s.messages[j])
  {
  }

  // ----- Sequences of updates ---------------------------------------------

  /** The session list after applying `us`, in order, to the sessions with id `id`. */
  function ApplyAll(sessions: seq<ChatSession>, id: string, us: seq<SessionUpdate>): (r: seq<ChatSession>)
    ensures |r| == |sessions|
    decreases |us|
  {
    if us == [] then sessions
    else MapSessions(ApplyAll(sessions, id, us[..|us| - 1]), id, us[|us| - 1])
  }

  /** Applying one more update is mapping it over the result so far. */
  lemma ApplyAllSnoc(sessions: seq<ChatSession>, id: string, us: seq<SessionUpdate>, u: SessionUpdate)
    ensures ApplyAll(sessions, id, us + [u]) == MapSessions(ApplyAll(sessions, id, us), id, u)
  {
    assert (us + [u])[..|us|] == us;
  }

  /** A message after a sequence of message updates; no update changes its identity, author, time or model. */
  function UpdateAll(m: Message, mus: seq<MessageUpdate>): (r: Message)
    ensures r.id == m.id && r.role == m.role && r.timestamp == m.timestamp && r.modelId == m.modelId
    decreases |mus|
  {
    if mus == [] then m else UpdateMessage(UpdateAll(m, mus[..|mus| - 1]), mus[|mus| - 1])
  }

  /** The session updates that apply `mus`, in order, to the messages with id `mid`. */
  function Touches(mid: string, mus: seq<MessageUpdate>): seq<SessionUpdate> {
    seq(|mus|, k requires 0 <= k < |mus| => UpdateMessages(mid, mus[k]))
  }

  function TouchedSession(s: ChatSession, mid: string, mus: seq<MessageUpdate>): ChatSession {
    s.(messages := seq(|s.messages|, j requires 0 <= j < |s.messages| =>
                       if s.messages[j].id == mid then UpdateAll(s.messages[j], mus) else s.messages[j]))
  }

  /**
   * However many message updates run, sessions with another id are untouched,
   * and in the target session exactly the messages with id `mid` change, each
   * by the whole sequence of updates in order.
   */
  lemma {:induction false} TouchesEffect(sessions: seq<ChatSession>, id: string, mid: string, mus: seq<MessageUpdate>)
    ensures |ApplyAll(sessions, id, Touches(mid, mus))| == |sessions|
    ensures forall i :: 0 <= i < |sessions| ==>
      ApplyAll(sessions, id, Touches(mid, mus))[i] ==
        if sessions[i].id == id then TouchedSession(sessions[i], mid, mus) else sessions[i]
    decreases |mus|
  {
    var us := Touches(mid, mus);
    if mus == [] {
      forall i | 0 <= i < |sessions| && sessions[i].id == id
        ensures sessions[i] == TouchedSession(sessions[i], mid, mus)
      {
        assert sessions[i].messages == TouchedSession(sessions[i], mid, mus).messages;
      }
    } else {
      var init := mus[..|mus| - 1];
      assert us[..|us| - 1] == Touches(mid, init);
      TouchesEffect(sessions, id, mid, init);
      var before := ApplyAll(sessions, id, Touches(mid, init));
      forall i | 0 <= i < |sessions| && sessions[i].id == id
        ensures MapSessions(before, id, us[|us| - 1])[i] == TouchedSession(sessions[i], mid, mus)
      {
        var a := MapSessions(before, id, us[|us| - 1])[i];
        var b := TouchedSession(sessions[i], mid, mus);
        var ms := sessions[i].messages;
        assert before[i] == TouchedSession(sessions[i], mid, init);
        assert |a.messages| == |b.messages| == |ms|;
        forall j | 0 <= j < |ms| ensures a.messages[j] == b.messages[j] {
          if ms[j].id == mid {
            assert before[i].messages[j] == UpdateAll(ms[j], init);
            assert UpdateAll(ms[j], init).id == mid;
          }
        }
        assert a.messages == b.messages;
      }
    }
  }

  function ChunkUpdates(chunks: seq<string>): seq<MessageUpdate> {
    seq(|chunks|, k requires 0 <= k < |chunks| => AppendChunk(chunks[k]))
  }

  /** After n chunk updates the content is the old content followed by the chunks in order. */
  lemma {:induction false} ChunksAccumulate(m: Message, chunks: seq<string>)
    ensures UpdateAll(m, ChunkUpdates(chunks)) == m.(content := m.content + Concat(chunks))
    decreases |chunks|
  {
    if chunks != [] {
      var init := chunks[..|chunks| - 1];
      assert ChunkUpdates(chunks)[..|chunks| - 1] == ChunkUpdates(init);
      ChunksAccumulate(m, init);
      assert init + [chunks[|chunks| - 1]] == chunks;
      ConcatAppend(init, chunks[|chunks| - 1]);
    } else {
      assert m.content + Concat(chunks) == m.content;
    }
  }

  /** Completion after the chunks: the streamed text stays, the links are set, streaming stops. */
  lemma ChunksThenFinish(m: Message, chunks: seq<string>, links: seq<GroundingLink>)
    ensures UpdateAll(m, ChunkUpdates(chunks) + [Finish(links)]) ==
      m.(content := m.content + Concat(chunks), groundingLinks := Some(links), isStreaming := Some(false))
  {
    var mus := ChunkUpdates(chunks) + [Finish(links)];
    assert mus[..|mus| - 1] == ChunkUpdates(chunks);
    ChunksAccumulate(m, chunks);
  }

  /** An error after the chunks: the text streamed so far is replaced by the apology, streaming stops. */
  lemma ChunksThenFail(m: Message, chunks: seq<string>)
    ensures UpdateAll(m, ChunkUpdates(chunks) + [Fail]) ==
      m.(content := ErrorApology, isStreaming := Some(false))
  {
    var mus := ChunkUpdates(chunks) + [Fail];
    assert mus[..|mus| - 1] == ChunkUpdates(chunks);
    ChunksAccumulate(m, chunks);
  }

  // ----- Building messages and history ------------------------------------

  /** The user message; an attached image is kept only when truthy (`attachedImage || undefined`). */
  function UserMessage(id: string, content: string, timestamp: int, image: Option<string>): (m: Message)
    ensures m.id == id && m.role == User && m.content == content && m.timestamp == timestamp
    ensures m.imageUrl.Some? <==> Truthy(image)
    ensures m.imageUrl.Some? ==> m.imageUrl == image
    ensures m.modelId.None? && m.isStreaming.None? && m.groundingLinks.None?
  {
    Message(id, User, content, None, None, None, timestamp, None, None,
            if Truthy(image) then image else None)
  }

  /** The assistant placeholder: empty content, streaming. */
  function Placeholder(id: string, timestamp: int, model: ModelId): (m: Message)
    ensures m.id == id && m.role == Assistant && m.content == "" && m.timestamp == timestamp
    ensures m.modelId == Some(model) && m.isStreaming == Some(true)
    ensures m.groundingLinks.None? && m.imageUrl.None?
  {
    Message(id, Assistant, "", None, Some(model), None, timestamp, Some(true), None, None)
  }

  /** The title given to a session created by a submit: the trimmed input's first 30 characters, or the default. */
  function InitialTitle(input: string): (t: string)
    ensures t != ""
    ensures Trim(input) == "" ==> t == NewConversationTitle
    ensures Trim(input) != "" ==> t == Prefix(Trim(input), TitleLength)
  {
    OrElse(Prefix(Trim(input), TitleLength), NewConversationTitle)
  }

  /**
   * The history sent with a prompt: one turn per message of the session, in
   * order, `user` for user messages and `model` for every other role, with the
   * message content as its single text part; none without a session.
   */
  function HistoryOf(active: Option<ChatSession>): (h: seq<HistoryTurn>)
    ensures active.None? ==> h == []
    ensures active.Some? ==> |h| == |active.value.messages|
    ensures active.Some? ==> forall i :: 0 <= i < |h| ==>
      var m := active.value.messages[i];
      && (h[i].role == UserTurn <==> m.role == User)
      && h[i].parts == [MessagePart(Some(m.content), None)]
  {
    match active
    case None => []
    case Some(s) =>
      seq(|s.messages|, i requires 0 <= i < |s.messages| =>
          HistoryTurn(if s.messages[i].role == User then UserTurn else ModelTurn,
                      [MessagePart(Some(s.messages[i].content), None)]))
  }

  // ----- The attached image as a data URL ----------------------------------

  /** A part prepared for the current prompt; the image fields are `undefined` when the URL lacks them. */
  datatype UploadPart = UploadText(text: string) | UploadImage(data: Option<string>, mimeType: Option<string>)

  /** `url.split(',')[1]`. */
  function DataUrlData(url: string): (r: Option<string>)
    ensures r.None? <==> ',' !in url
    ensures r.Some? ==> ',' !in r.value
  {
    SplitOnePiece(url, ',');
    At(Split(url, ','), 1)
  }

  /** `url.split(';')[0].split(':')[1]`. */
  function DataUrlMimeType(url: string): (r: Option<string>)
    ensures r.None? <==> ':' !in Split(url, ';')[0]
    ensures r.Some? ==> ':' !in r.value
  {
    SplitOnePiece(Split(url, ';')[0], ':');
    At(Split(Split(url, ';')[0], ':'), 1)
  }

  /** The parts built for the prompt and the attached image (they are never sent). */
  function CurrentParts(prompt: string, image: Option<string>): (ps: seq<UploadPart>)
    ensures |ps| == if Truthy(image) then 2 else 1
    ensures ps[0] == UploadText(prompt)
    ensures Truthy(image) ==> ps[1] == UploadImage(DataUrlData(image.value), DataUrlMimeType(image.value))
  {
    [UploadText(prompt)]
    + (if Truthy(image) then [UploadImage(DataUrlData(image.value), DataUrlMimeType(image.value))] else [])
  }

  /** A base64 data URL splits back into its MIME type and payload. */
  lemma DataUrlRoundTrip(mime: string, data: string)
    requires ',' !in mime && ';' !in mime && ':' !in mime && ',' !in data
    ensures DataUrlData("data:" + mime + ";base64," + data) == Some(data)
    ensures DataUrlMimeType("data:" + mime + ";base64," + data) == Some(mime)
  {
    var url := "data:" + mime + ";base64," + data;
    var head := "data:" + mime + ";base64";
    assert ',' !in head;
    assert url == head + [','] + data;
    SplitAtFirst(head, ',', data);
    SplitWithoutSep(data, ',');
    assert Split(url, ',') == [head, data];
    assert ';' !in "data:" + mime;
    assert url == ("data:" + mime) + [';'] + ("base64," + data);
    SplitAtFirst("data:" + mime, ';', "base64," + data);
    assert Split(url, ';')[0] == "data:" + mime;
    assert "data:" + mime == "data" + [':'] + mime;
    SplitAtFirst("data", ':', mime);
    SplitWithoutSep(mime, ':');
  }
}

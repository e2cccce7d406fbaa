/**
 * The chat component's state and handlers. The component's state hooks are the
 * fields of `ChatApp`; each handler is a method. The clock readings that name
 * sessions and messages and the service's replies are parameters. The submit
 * handler is split at its await points: `BeginSubmit` runs up to the request,
 * `RunRequest` runs the request and its callbacks, `FinishSubmit` is the
 * `finally` block; `HandleSubmit` runs the three in order.
 */
module App {
  import opened Wrappers
  import opened Js
  import opened Types
  import opened Gemini
  import opened Sessions

  /** The component state that the handlers read and write. */
  datatype UiState = UiState(
    sessions: seq<ChatSession>,
    activeSessionId: Option<string>,
    selectedModel: ModelId,
    inputValue: string,
    useSearch: bool,
    isProcessing: bool,
    attachedImage: Option<string>)

  const InitialState: UiState := UiState([], None, Gemini3Flash, "", false, false, None)

  /** The successive `Date.now()` readings of one submit: session id, its creation time, user message id and time, assistant base and time. */
  datatype Stamps = Stamps(sessionId: nat, createdAt: nat, userMessageId: nat, userTimestamp: nat,
                           assistantBase: nat, assistantTimestamp: nat)

  /** What the submit handler holds across its await: the target session, the placeholder's id and the values it captured. */
  datatype Pending = Pending(sessionId: string, assistantId: string, prompt: string, image: Option<string>,
                             model: ModelId, useSearch: bool, history: seq<HistoryTurn>)

  datatype Started = Started(state: UiState, pending: Pending)

  /** The guard: a blank input with no image, or a request already running. */
  predicate Blocked(s: UiState) {
    (Trim(s.inputValue) == "" && !Truthy(s.attachedImage)) || s.isProcessing
  }

  /** The guard in terms of the input's characters. */
  lemma BlockedIff(s: UiState)
    ensures Blocked(s) <==> (AllWhitespace(s.inputValue) && !Truthy(s.attachedImage)) || s.isProcessing
  {
    TrimEmptyIff(s.inputValue);
  }

  /** The session the submit writes to: the active one, or a new one named by the clock. */
  function TargetId(s: UiState, st: Stamps): (r: string)
    ensures r != ""
    ensures Truthy(s.activeSessionId) ==> Some(r) == s.activeSessionId
  {
    if Truthy(s.activeSessionId) then s.activeSessionId.value else DecimalString(st.sessionId)
  }

  /** The session list once the submit has created its session, if it needed one. */
  function Listed(s: UiState, st: Stamps): (r: seq<ChatSession>)
    ensures Truthy(s.activeSessionId) ==> r == s.sessions
    ensures !Truthy(s.activeSessionId) ==>
      (|r| == |s.sessions| + 1 && r[1..] == s.sessions
       && r[0].id == TargetId(s, st) && r[0].messages == [] && r[0].title == InitialTitle(s.inputValue))
  {
    if Truthy(s.activeSessionId) then s.sessions
    else [NewSession(TargetId(s, st), InitialTitle(s.inputValue), st.createdAt, s.selectedModel)] + s.sessions
  }

  function SubmitUserMessage(s: UiState, st: Stamps): Message {
    UserMessage(DecimalString(st.userMessageId), s.inputValue, st.userTimestamp, s.attachedImage)
  }

  /** The placeholder; its id is one more than the clock reading. */
  function SubmitPlaceholder(s: UiState, st: Stamps): Message {
    Placeholder(DecimalString(st.assistantBase + 1), st.assistantTimestamp, s.selectedModel)
  }

  /** The state and the captured values when the submit reaches its request. */
  function Begin(s: UiState, st: Stamps): (b: Started)
    ensures b.state.isProcessing && b.state.inputValue == "" && b.state.attachedImage == None
    ensures b.state.activeSessionId == Some(b.pending.sessionId)
    ensures b.state.selectedModel == s.selectedModel && b.state.useSearch == s.useSearch
    ensures b.pending.prompt == s.inputValue && b.pending.image == s.attachedImage
    ensures b.pending.model == s.selectedModel && b.pending.useSearch == s.useSearch
    ensures |b.state.sessions| == |s.sessions| + (if Truthy(s.activeSessionId) then 0 else 1)
  {
    var sid := TargetId(s, st);
    var sessions := MapSessions(MapSessions(Listed(s, st), sid, AddUserMessage(SubmitUserMessage(s, st))),
                                sid, AddMessage(SubmitPlaceholder(s, st)));
    Started(s.(sessions := sessions, activeSessionId := Some(sid), inputValue := "",
               attachedImage := None, isProcessing := true),
            Pending(sid, SubmitPlaceholder(s, st).id, s.inputValue, s.attachedImage, s.selectedModel, s.useSearch,
                    HistoryOf(FindSession(s.sessions, s.activeSessionId))))
  }

  // ----- From service replies to message updates --------------------------

  function CallbackUpdate(c: Callback): MessageUpdate {
    match c
    case OnChunk(text) => AppendChunk(text)
    case OnComplete(response) => Finish(GroundingLinksOf(response))
  }

  function CallbackUpdates(calls: seq<Callback>): seq<MessageUpdate> {
    seq(|calls|, k requires 0 <= k < |calls| => CallbackUpdate(calls[k]))
  }

  /** The placeholder's updates for a streamed reply: the callbacks, then the error handler if it threw. */
  function StreamUpdates(reply: StreamReply): seq<MessageUpdate> {
    CallbackUpdates(Callbacks(reply)) + (if reply.failure.Some? then [Fail] else [])
  }

  function ImageUpdates(reply: Result<Response>): seq<MessageUpdate> {
    match ImageOutcome(reply)
    case Ok(r) => [ShowImage(r.description, r.imageUrl)]
    case Err(_) => [Fail]
  }

  function ReplyUpdates(p: Pending, stream: StreamReply, image: Result<Response>): seq<MessageUpdate> {
    if p.model == GeminiImage then ImageUpdates(image) else StreamUpdates(stream)
  }

  /** A streamed reply updates the placeholder by its chunks, then by completion, the error, or nothing. */
  lemma StreamUpdatesShape(reply: StreamReply)
    ensures Completes(reply) ==>
      (StreamUpdates(reply) ==
         ChunkUpdates(Fragments(reply.chunks)) + [Finish(GroundingLinksOf(reply.chunks[|reply.chunks| - 1]))])
    ensures reply.failure.Some? ==> StreamUpdates(reply) == ChunkUpdates(Fragments(reply.chunks)) + [Fail]
    ensures reply.failure.None? && reply.chunks == [] ==> StreamUpdates(reply) == []
  {
    var calls := Callbacks(reply);
    var n := |reply.chunks|;
    assert CallbackUpdates(calls)[..n] == ChunkUpdates(Fragments(reply.chunks));
    if Completes(reply) {
      assert CallbackUpdates(calls) == CallbackUpdates(calls)[..n] + [CallbackUpdates(calls)[n]];
    } else {
      assert CallbackUpdates(calls) == CallbackUpdates(calls)[..n];
    }
  }

  lemma TouchesSnoc(mid: string, calls: seq<Callback>, i: nat)
    requires i < |calls|
    ensures Touches(mid, CallbackUpdates(calls[..i + 1])) ==
            Touches(mid, CallbackUpdates(calls[..i])) + [UpdateMessages(mid, CallbackUpdate(calls[i]))]
  {
  }

  lemma StreamTouches(mid: string, reply: StreamReply)
    ensures Touches(mid, StreamUpdates(reply)) ==
      Touches(mid, CallbackUpdates(Callbacks(reply))) + (if reply.failure.Some? then [UpdateMessages(mid, Fail)] else [])
  {
  }

  /** The state after a whole submit. */
  function Submit(s: UiState, st: Stamps, stream: StreamReply, image: Result<Response>): (r: UiState)
    ensures Blocked(s) ==> r == s
    ensures !Blocked(s) ==> !r.isProcessing && r.inputValue == "" && r.attachedImage == None
    ensures !Blocked(s) ==> r.activeSessionId == Some(Begin(s, st).pending.sessionId)
    ensures !Blocked(s) ==> |r.sessions| == |Begin(s, st).state.sessions|
  {
    if Blocked(s) then s
    else
      var b := Begin(s, st);
      var p := b.pending;
      b.state.(sessions := ApplyAll(b.state.sessions, p.sessionId, Touches(p.assistantId, ReplyUpdates(p, stream, image))),
               isProcessing := false)
  }

  /** The request the submit hands to `sendMessageStream`, if it takes that path. */
  function SubmittedRequest(s: UiState): Option<Request> {
    if s.selectedModel == GeminiImage then None
    else Some(BuildRequest(s.selectedModel, HistoryOf(FindSession(s.sessions, s.activeSessionId)),
                           s.inputValue, Some(StreamOptions(Some(s.useSearch)))))
  }

  // ----- Properties of a submit -------------------------------------------

  /**
   * `isProcessing` is set while the request runs and cleared after it, on
   * success and failure alike; the input and the attachment are cleared and
   * the target session becomes active.
   */
  lemma ProcessingLifecycle(s: UiState, st: Stamps, stream: StreamReply, image: Result<Response>)
    requires !Blocked(s)
    ensures Begin(s, st).state.isProcessing
    ensures var r := Submit(s, st, stream, image);
      && !r.isProcessing && r.inputValue == "" && r.attachedImage == None
      && r.activeSessionId == Some(Begin(s, st).pending.sessionId)
      && r.selectedModel == s.selectedModel && r.useSearch == s.useSearch
  {
  }

  /** The new session goes first in the list, holding the two new messages; its title is the untrimmed input's prefix. */
  lemma FreshSessionFirst(s: UiState, st: Stamps)
    requires !Truthy(s.activeSessionId)
    ensures |Begin(s, st).state.sessions| == |s.sessions| + 1
    ensures Begin(s, st).state.sessions[0] ==
      ChatSession(DecimalString(st.sessionId), Prefix(s.inputValue, TitleLength),
                  [SubmitUserMessage(s, st), SubmitPlaceholder(s, st)], st.createdAt, s.selectedModel)
  {
    var sid := TargetId(s, st);
    var first := NewSession(sid, InitialTitle(s.inputValue), st.createdAt, s.selectedModel);
    var um, ph := SubmitUserMessage(s, st), SubmitPlaceholder(s, st);
    assert Listed(s, st) == [first] + s.sessions;
    assert Begin(s, st).state.sessions ==
      MapSessions(MapSessions([first] + s.sessions, sid, AddUserMessage(um)), sid, AddMessage(ph));
    PrependedSessionMessages(s.sessions, first, um, ph);
  }

  /** Behind the new session, the sessions with other ids are the old ones, unchanged and in order. */
  lemma FreshSessionRest(s: UiState, st: Stamps, i: nat)
    requires !Truthy(s.activeSessionId)
    requires i < |s.sessions| && s.sessions[i].id != DecimalString(st.sessionId)
    ensures |Begin(s, st).state.sessions| == |s.sessions| + 1
    ensures Begin(s, st).state.sessions[i + 1] == s.sessions[i]
  {
    assert Listed(s, st)[i + 1] == s.sessions[i];
  }

  /** A submit with no active session targets a new session and sends an empty history. */
  lemma FreshSessionSubmit(s: UiState, st: Stamps)
    requires s.activeSessionId.None?
    ensures Begin(s, st).pending.sessionId == DecimalString(st.sessionId)
    ensures Begin(s, st).pending.history == []
  {
  }

  /** The title a submit gives a new session at creation is always replaced by the untrimmed first 30 characters. */
  lemma InitialTitleReplaced()
    ensures InitialTitle("  hi") == "hi" && Prefix("  hi", TitleLength) == "  hi"
    ensures InitialTitle("") == NewConversationTitle && Prefix("", TitleLength) == ""
  {
    assert IsWhitespace(' ') && !IsWhitespace('h') && !IsWhitespace('i');
    assert "  hi"[1..] == " hi" && " hi"[1..] == "hi";
    assert TrimStart("hi") == "hi";
    assert TrimStart(" hi") == "hi";
    assert TrimStart("  hi") == "hi";
    assert TrimEnd("hi") == "hi";
    assert Trim("  hi") == "hi";
    assert Trim("") == "";
  }

  /** A submit into the active session appends both messages there; the history is that session's messages before the submit. */
  lemma ExistingSessionSubmit(s: UiState, st: Stamps, i: nat)
    requires !Blocked(s) && Truthy(s.activeSessionId)
    requires i < |s.sessions| && Some(s.sessions[i].id) == s.activeSessionId
    ensures var b := Begin(s, st); var p := b.pending;
      && p.sessionId == s.sessions[i].id
      && |b.state.sessions| == |s.sessions|
      && b.state.sessions[i].messages ==
           s.sessions[i].messages
           + [SubmitUserMessage(s, st), SubmitPlaceholder(s, st)]
      && (|s.sessions[i].messages| > 0 ==> b.state.sessions[i].title == s.sessions[i].title)
      && (|s.sessions[i].messages| == 0 ==> b.state.sessions[i].title == Prefix(s.inputValue, TitleLength))
      && FindSession(s.sessions, s.activeSessionId).Some?
      && p.history == HistoryOf(FindSession(s.sessions, s.activeSessionId))
    ensures (forall j :: 0 <= j < i ==> Some(s.sessions[j].id) != s.activeSessionId) ==>
      FindSession(s.sessions, s.activeSessionId) == Some(s.sessions[i])
      && Begin(s, st).pending.history == HistoryOf(Some(s.sessions[i]))
  {
    var sid := s.sessions[i].id;
    assert TargetId(s, st) == sid && Listed(s, st) == s.sessions;
    var um := SubmitUserMessage(s, st);
    var m1 := MapSessions(s.sessions, sid, AddUserMessage(um));
    AddUserMessageEffect(s.sessions, sid, um, i);
    AddMessageEffect(m1, sid, SubmitPlaceholder(s, st), i);
    assert Begin(s, st).state.sessions == MapSessions(m1, sid, AddMessage(SubmitPlaceholder(s, st)));
    if forall j :: 0 <= j < i ==> Some(s.sessions[j].id) != s.activeSessionId {
      FindFirst(s.sessions, s.activeSessionId, i);
    }
  }

  /** In the target session after a submit, the last message is the placeholder with every reply update applied. */
  lemma FinalAssistant(s: UiState, st: Stamps, stream: StreamReply, image: Result<Response>, i: nat)
    requires !Blocked(s)
    requires i < |Submit(s, st, stream, image).sessions|
    requires Submit(s, st, stream, image).sessions[i].id == Begin(s, st).pending.sessionId
    ensures var p := Begin(s, st).pending; var ms := Submit(s, st, stream, image).sessions[i].messages;
      && |ms| >= 2
      && ms[|ms| - 1] == UpdateAll(SubmitPlaceholder(s, st), ReplyUpdates(p, stream, image))
  {
    var b := Begin(s, st);
    var p := b.pending;
    var sid := p.sessionId;
    var ph := SubmitPlaceholder(s, st);
    var mus := ReplyUpdates(p, stream, image);
    var m1 := MapSessions(Listed(s, st), sid, AddUserMessage(SubmitUserMessage(s, st)));
    assert b.state.sessions == MapSessions(m1, sid, AddMessage(ph));
    var r := Submit(s, st, stream, image).sessions;
    assert r == ApplyAll(b.state.sessions, sid, Touches(p.assistantId, mus));
    TouchesEffect(b.state.sessions, sid, p.assistantId, mus);
    assert b.state.sessions[i].id == sid;
    assert m1[i].id == sid;
    AddMessageEffect(m1, sid, ph, i);
    var ms := b.state.sessions[i].messages;
    assert ms[|ms| - 1] == ph;
    assert r[i] == TouchedSession(b.state.sessions[i], p.assistantId, mus);
    assert r[i].messages[|ms| - 1] == UpdateAll(ph, mus);
  }

  /** The end-to-end rule for a completed stream: the placeholder holds all streamed text, the links, and has stopped streaming. */
  lemma StreamedAnswer(s: UiState, st: Stamps, stream: StreamReply, image: Result<Response>, i: nat)
    requires !Blocked(s) && s.selectedModel != GeminiImage && Completes(stream)
    requires i < |Submit(s, st, stream, image).sessions|
    requires Submit(s, st, stream, image).sessions[i].id == Begin(s, st).pending.sessionId
    ensures var ms := Submit(s, st, stream, image).sessions[i].messages;
      && |ms| >= 2
      && ms[|ms| - 1] ==
           SubmitPlaceholder(s, st).(
             content := Concat(Fragments(stream.chunks)),
             groundingLinks := Some(GroundingLinksOf(stream.chunks[|stream.chunks| - 1])),
             isStreaming := Some(false))
  {
    FinalAssistant(s, st, stream, image, i);
    StreamUpdatesShape(stream);
    ChunksThenFinish(SubmitPlaceholder(s, st),
                     Fragments(stream.chunks), GroundingLinksOf(stream.chunks[|stream.chunks| - 1]));
  }

  /** A stream that throws, even after some chunks, leaves only the apology in the placeholder. */
  lemma FailedStreamAnswer(s: UiState, st: Stamps, stream: StreamReply, image: Result<Response>, i: nat)
    requires !Blocked(s) && s.selectedModel != GeminiImage && stream.failure.Some?
    requires i < |Submit(s, st, stream, image).sessions|
    requires Submit(s, st, stream, image).sessions[i].id == Begin(s, st).pending.sessionId
    ensures var ms := Submit(s, st, stream, image).sessions[i].messages;
      && |ms| >= 2
      && ms[|ms| - 1] ==
           SubmitPlaceholder(s, st).(
             content := ErrorApology, isStreaming := Some(false))
  {
    FinalAssistant(s, st, stream, image, i);
    StreamUpdatesShape(stream);
    ChunksThenFail(SubmitPlaceholder(s, st),
                   Fragments(stream.chunks));
  }

  /** A stream that ends without any chunk never completes: the placeholder stays empty and streaming. */
  lemma EmptyStreamAnswer(s: UiState, st: Stamps, stream: StreamReply, image: Result<Response>, i: nat)
    requires !Blocked(s) && s.selectedModel != GeminiImage && stream == StreamReply([], None)
    requires i < |Submit(s, st, stream, image).sessions|
    requires Submit(s, st, stream, image).sessions[i].id == Begin(s, st).pending.sessionId
    ensures var ms := Submit(s, st, stream, image).sessions[i].messages;
      && |ms| >= 2
      && ms[|ms| - 1] == SubmitPlaceholder(s, st)
      && ms[|ms| - 1].isStreaming == Some(true)
  {
    FinalAssistant(s, st, stream, image, i);
    StreamUpdatesShape(stream);
  }

  /** With the image model the placeholder takes the description and the image URL, or the apology on any error. */
  lemma ImageAnswer(s: UiState, st: Stamps, stream: StreamReply, image: Result<Response>, i: nat)
    requires !Blocked(s) && s.selectedModel == GeminiImage
    requires i < |Submit(s, st, stream, image).sessions|
    requires Submit(s, st, stream, image).sessions[i].id == Begin(s, st).pending.sessionId
    ensures var ms := Submit(s, st, stream, image).sessions[i].messages;
      var ph := SubmitPlaceholder(s, st);
      && |ms| >= 2
      && (ImageOutcome(image).Ok? ==>
            ms[|ms| - 1] == ph.(content := ImageOutcome(image).value.description,
                                imageUrl := Some(ImageOutcome(image).value.imageUrl),
                                isStreaming := Some(false)))
      && (ImageOutcome(image).Err? ==> ms[|ms| - 1] == ph.(content := ErrorApology, isStreaming := Some(false)))
  {
    FinalAssistant(s, st, stream, image, i);
    assert ReplyUpdates(Begin(s, st).pending, stream, image) == ImageUpdates(image);
    ImageUpdatesEffect(SubmitPlaceholder(s, st), image);
  }

  /** The image branch's one updater, applied to a message. */
  lemma ImageUpdatesEffect(m: Message, image: Result<Response>)
    ensures ImageOutcome(image).Ok? ==>
      UpdateAll(m, ImageUpdates(image)) == m.(content := ImageOutcome(image).value.description,
                                              imageUrl := Some(ImageOutcome(image).value.imageUrl),
                                              isStreaming := Some(false))
    ensures ImageOutcome(image).Err? ==>
      UpdateAll(m, ImageUpdates(image)) == m.(content := ErrorApology, isStreaming := Some(false))
  {
    var mus := ImageUpdates(image);
    assert UpdateAll(m, mus) == UpdateMessage(m, mus[0]);
  }

  /** Sessions other than the target come out of a submit exactly as they went in. */
  lemma SubmitFrame(s: UiState, st: Stamps, stream: StreamReply, image: Result<Response>, i: nat)
    requires !Blocked(s)
    requires i < |Begin(s, st).state.sessions| && Begin(s, st).state.sessions[i].id != Begin(s, st).pending.sessionId
    ensures |Submit(s, st, stream, image).sessions| == |Begin(s, st).state.sessions|
    ensures Submit(s, st, stream, image).sessions[i] == Begin(s, st).state.sessions[i]
  {
    var b := Begin(s, st);
    TouchesEffect(b.state.sessions, b.pending.sessionId, b.pending.assistantId, ReplyUpdates(b.pending, stream, image));
  }

  // ----- The component ----------------------------------------------------

  class ChatApp {
    var sessions: seq<ChatSession>
    var activeSessionId: Option<string>
    var selectedModel: ModelId
    var inputValue: string
    var useSearch: bool
    var isProcessing: bool
    var attachedImage: Option<string>

    function State(): UiState
      reads this
    {
      UiState(sessions, activeSessionId, selectedModel, inputValue, useSearch, isProcessing, attachedImage)
    }

    /** The initial values of the state hooks. */
    constructor ()
      ensures State() == InitialState
    {
      sessions := [];
      activeSessionId := None;
      selectedModel := Gemini3Flash;
      inputValue := "";
      useSearch := false;
      isProcessing := false;
      attachedImage := None;
    }

    /** `createNewSession`: prepend an empty session for the selected model and make it active. */
    method CreateNewSession(idStamp: nat, createdAt: nat)
      modifies this
      ensures sessions == [NewSession(DecimalString(idStamp), NewConversationTitle, createdAt, selectedModel)] + old(sessions)
      ensures activeSessionId == Some(DecimalString(idStamp))
      ensures State() == old(State()).(sessions := sessions, activeSessionId := activeSessionId)
    {
      var newSession := NewSession(DecimalString(idStamp), NewConversationTitle, createdAt, selectedModel);
      sessions := [newSession] + sessions;
      activeSessionId := Some(newSession.id);
    }

    /** `deleteSession`: drop every session with the id; clear the active id exactly when it was that id. */
    method DeleteSession(id: string)
      modifies this
      ensures sessions == WithoutSession(old(sessions), id)
      ensures activeSessionId == if old(activeSessionId) == Some(id) then None else old(activeSessionId)
      ensures State() == old(State()).(sessions := sessions, activeSessionId := activeSessionId)
    {
      sessions := WithoutSession(sessions, id);
      if activeSessionId == Some(id) {
        activeSessionId := None;
      }
    }

    /** Clicking a session in the sidebar. */
    method SelectSession(id: string)
      modifies this
      ensures State() == old(State()).(activeSessionId := Some(id))
    {
      activeSessionId := Some(id);
    }

    /** The search toggle. */
    method ToggleSearch()
      modifies this
      ensures State() == old(State()).(useSearch := !old(useSearch))
    {
      useSearch := !useSearch;
    }

    /** Picking a model. */
    method SelectModel(model: ModelId)
      modifies this
      ensures State() == old(State()).(selectedModel := model)
    {
      selectedModel := model;
    }

    /** Typing into the input. */
    method SetInputValue(value: string)
      modifies this
      ensures State() == old(State()).(inputValue := value)
    {
      inputValue := value;
    }

    /** The upload's data URL arriving (the file read itself is not modelled). */
    method AttachImage(dataUrl: string)
      modifies this
      ensures State() == old(State()).(attachedImage := Some(dataUrl))
    {
      attachedImage := Some(dataUrl);
    }

    /** Removing the attachment. */
    method RemoveImage()
      modifies this
      ensures State() == old(State()).(attachedImage := None)
    {
      attachedImage := None;
    }

    /** The submit's target: the active session, or a new one prepended and made active. */
    method OpenTargetSession(st: Stamps) returns (sid: string)
      modifies this
      ensures sid == TargetId(old(State()), st)
      ensures State() == old(State()).(sessions := Listed(old(State()), st), activeSessionId := Some(sid))
    {
      ghost var s := State();
      var currentSessionId := activeSessionId;
      if !Truthy(currentSessionId) {
        var newId := DecimalString(st.sessionId);
        var newSession := NewSession(newId, InitialTitle(inputValue), st.createdAt, selectedModel);
        sessions := [newSession] + sessions;
        activeSessionId := Some(newId);
        currentSessionId := Some(newId);
        assert sessions == Listed(s, st) && newId == TargetId(s, st);
      } else {
        assert sessions == Listed(s, st) && currentSessionId.value == TargetId(s, st);
      }
      sid := currentSessionId.value;
      assert State() == s.(sessions := Listed(s, st), activeSessionId := Some(sid));
    }

    /** The updater that appends the user message, with the first-message title rule. */
    method AppendUserMessage(sid: string, st: Stamps)
      modifies this
      ensures State() == old(State()).(sessions := MapSessions(old(sessions), sid, AddUserMessage(SubmitUserMessage(old(State()), st))))
    {
      var userMessage := UserMessage(DecimalString(st.userMessageId), inputValue, st.userTimestamp, attachedImage);
      sessions := MapSessions(sessions, sid, AddUserMessage(userMessage));
    }

    /** The updater that appends the streaming placeholder; returns its id. */
    method AppendPlaceholder(sid: string, st: Stamps) returns (assistantMsgId: string)
      modifies this
      ensures assistantMsgId == SubmitPlaceholder(old(State()), st).id
      ensures State() == old(State()).(sessions := MapSessions(old(sessions), sid, AddMessage(SubmitPlaceholder(old(State()), st))))
    {
      assistantMsgId := DecimalString(st.assistantBase + 1);
      var placeholder := Placeholder(assistantMsgId, st.assistantTimestamp, selectedModel);
      sessions := MapSessions(sessions, sid, AddMessage(placeholder));
    }

    /** Clearing the composer and raising the busy flag once the user message is in. */
    method ClearComposer()
      modifies this
      ensures State() == old(State()).(inputValue := "", attachedImage := None, isProcessing := true)
    {
      inputValue := "";
      attachedImage := None;
      isProcessing := true;
    }

    /** The submit handler up to its request: the guard, the session, both messages, the flags. */
    method BeginSubmit(st: Stamps) returns (pending: Option<Pending>)
      modifies this
      ensures old(Blocked(State())) ==> pending.None? && State() == old(State())
      ensures !old(Blocked(State())) ==>
        pending == Some(Begin(old(State()), st).pending) && State() == Begin(old(State()), st).state
    {
      if (Trim(inputValue) == "" && !Truthy(attachedImage)) || isProcessing {
        return None;
      }
      ghost var s := State();
      ghost var b := Begin(s, st);
      var history := HistoryOf(FindSession(sessions, activeSessionId));
      var sid := OpenTargetSession(st);
      ghost var s1 := State();
      assert SubmitUserMessage(s1, st) == SubmitUserMessage(s, st);
      AppendUserMessage(sid, st);
      var prompt := inputValue;
      var currentImage := attachedImage;
      ClearComposer();
      ghost var s2 := State();
      assert SubmitPlaceholder(s2, st) == SubmitPlaceholder(s, st);
      var assistantMsgId := AppendPlaceholder(sid, st);
      assert sessions == b.state.sessions;
      pending := Some(Pending(sid, assistantMsgId, prompt, currentImage, selectedModel, useSearch, history));
    }

    /** One updater of the placeholder: `prev.map` over the sessions, `s.messages.map` over the messages. */
    method UpdatePlaceholder(sid: string, mid: string, u: MessageUpdate)
      modifies this
      ensures State() == old(State()).(sessions := MapSessions(old(sessions), sid, UpdateMessages(mid, u)))
    {
      sessions := MapSessions(sessions, sid, UpdateMessages(mid, u));
    }

    /** The image branch: `generateImage`, then the updater with its result, or the error updater. */
    method RunImageRequest(p: Pending, image: Result<Response>)
      modifies this
      ensures State() == old(State()).(sessions := ApplyAll(old(sessions), p.sessionId,
                                                            Touches(p.assistantId, ImageUpdates(image))))
    {
      var _, result := GenerateImage(p.prompt, image);
      var u := if result.Ok? then ShowImage(result.value.description, result.value.imageUrl) else Fail;
      assert Touches(p.assistantId, ImageUpdates(image)) == [] + [UpdateMessages(p.assistantId, u)];
      ApplyAllSnoc(sessions, p.sessionId, [], UpdateMessages(p.assistantId, u));
      UpdatePlaceholder(p.sessionId, p.assistantId, u);
    }

    /** The callbacks of the stream, in the order the service makes them. */
    method ApplyCallbacks(sid: string, mid: string, calls: seq<Callback>)
      modifies this
      ensures State() == old(State()).(sessions := ApplyAll(old(sessions), sid, Touches(mid, CallbackUpdates(calls))))
    {
      ghost var start := sessions;
      var i := 0;
      while i < |calls|
        invariant 0 <= i <= |calls|
        invariant sessions == ApplyAll(start, sid, Touches(mid, CallbackUpdates(calls[..i])))
        invariant State() == old(State()).(sessions := sessions)
      {
        var u;
        match calls[i] {
          case OnChunk(text) =>
            u := AppendChunk(text);
          case OnComplete(response) =>
            var links := ExtractGroundingLinks(response);
            u := Finish(links);
        }
        assert u == CallbackUpdate(calls[i]);
        TouchesSnoc(mid, calls, i);
        ApplyAllSnoc(start, sid, Touches(mid, CallbackUpdates(calls[..i])), UpdateMessages(mid, u));
        UpdatePlaceholder(sid, mid, u);
        i := i + 1;
      }
      assert calls[..i] == calls;
    }

    /**
     * The streaming branch: `sendMessageStream` with the snapshot history and
     * the search flag; the chunk updater per chunk, the completion updater with
     * the extracted links, and the error updater when the stream threw.
     */
    method RunStreamRequest(p: Pending, stream: StreamReply) returns (sent: Request)
      modifies this
      ensures sent == BuildRequest(p.model, p.history, p.prompt, Some(StreamOptions(Some(p.useSearch))))
      ensures State() == old(State()).(sessions := ApplyAll(old(sessions), p.sessionId,
                                                            Touches(p.assistantId, StreamUpdates(stream))))
    {
      var sid, mid := p.sessionId, p.assistantId;
      // Built as `handleSubmit` builds them (App.tsx:160-165); they are never passed to `sendMessageStream`.
      var currentParts := CurrentParts(p.prompt, p.image);
      var calls, fullText, thrown;
      sent, calls, fullText, thrown :=
        SendMessageStream(p.model, p.history, p.prompt, Some(StreamOptions(Some(p.useSearch))), stream);
      ghost var start := sessions;
      ApplyCallbacks(sid, mid, calls);
      StreamTouches(mid, stream);
      assert sessions == ApplyAll(start, sid, Touches(mid, CallbackUpdates(calls)));
      if thrown.Some? {
        ApplyAllSnoc(start, sid, Touches(mid, CallbackUpdates(calls)), UpdateMessages(mid, Fail));
        UpdatePlaceholder(sid, mid, Fail);
        assert sessions == ApplyAll(start, sid, Touches(mid, CallbackUpdates(calls)) + [UpdateMessages(mid, Fail)]);
        assert Touches(mid, StreamUpdates(stream)) == Touches(mid, CallbackUpdates(calls)) + [UpdateMessages(mid, Fail)];
      } else {
        assert Touches(mid, StreamUpdates(stream)) == Touches(mid, CallbackUpdates(calls)) + [];
        assert Touches(mid, CallbackUpdates(calls)) + [] == Touches(mid, CallbackUpdates(calls));
      }
      assert sessions == ApplyAll(start, sid, Touches(mid, StreamUpdates(stream)));
      assert start == old(sessions);
    }

    /** The request between the await points: the image branch or the streaming branch. */
    method RunRequest(p: Pending, stream: StreamReply, image: Result<Response>) returns (sent: Option<Request>)
      modifies this
      ensures sent == if p.model == GeminiImage then None
                      else Some(BuildRequest(p.model, p.history, p.prompt, Some(StreamOptions(Some(p.useSearch)))))
      ensures State() == old(State()).(sessions := ApplyAll(old(sessions), p.sessionId,
                                                            Touches(p.assistantId, ReplyUpdates(p, stream, image))))
    {
      if p.model == GeminiImage {
        RunImageRequest(p, image);
        sent := None;
      } else {
        var request := RunStreamRequest(p, stream);
        sent := Some(request);
      }
    }

    /** The `finally` block. */
    method FinishSubmit()
      modifies this
      ensures State() == old(State()).(isProcessing := false)
    {
      isProcessing := false;
    }

    /** `handleSubmit`, start to finish; returns the request given to the stream, if any. */
    method HandleSubmit(st: Stamps, stream: StreamReply, image: Result<Response>) returns (sent: Option<Request>)
      modifies this
      ensures State() == Submit(old(State()), st, stream, image)
      ensures sent == if old(Blocked(State())) then None else SubmittedRequest(old(State()))
    {
      var pending := BeginSubmit(st);
      if pending.None? {
        return None;
      }
      sent := RunRequest(pending.value, stream, image);
      FinishSubmit();
    }
  }
}

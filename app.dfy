/**
 * The application shell: a store holding the reducer's state, and the three
 * callbacks that drive it (`createNewThread`, `selectThread`, `sendMessage`).
 * Every change of state goes through `Dispatch`, so the state is always the
 * reducer folded over the events dispatched so far.
 */
module App {
  import opened ChatTypes
  import opened ChatStore
  import opened AdGeneratorApi
  import opened Turn

  const NewThreadTitle := "New Conversation"

  /** The thread `createNewThread` adds: empty, active, created and updated at `now`. */
  function NewThread(threadId: string, now: int): (t: ChatThread)
    ensures t.id == threadId && t.messages == [] && t.status == Active && t.sessionId.None?
    ensures t.title == NewThreadTitle && t.createdAt == now && t.updatedAt == now
  {
    ChatThread(threadId, None, NewThreadTitle, [], now, now, Active)
  }

  /**
   * What a turn does to a consistent state whose current thread is `t`: the
   * thread, in the list and as current, becomes `TurnThread`; every other
   * thread stays as it was; artifacts grow only after a successful reply;
   * loading ends switched off; and the mirror still holds.
   */
  lemma TurnOnState(s: AppState, text: string, outcome: TransportResult, ids: TurnIds, now: int)
    requires Consistent(s) && s.currentThread.Some?
    requires ids.userMessageId != PlaceholderId(ids)
    requires forall i :: 0 <= i < |s.currentThread.value.messages| ==>
               s.currentThread.value.messages[i].id != PlaceholderId(ids)
    ensures var t := s.currentThread.value;
            var r := ApplyAll(s, TurnEvents(s.currentThread, text, outcome, ids, now));
            Consistent(r) &&
            r.currentThread == Some(TurnThread(t, text, outcome, ids, now)) &&
            |r.threads| == |s.threads| &&
            (forall j :: 0 <= j < |s.threads| && s.threads[j].id == t.id ==>
               r.threads[j] == TurnThread(t, text, outcome, ids, now)) &&
            (forall j :: 0 <= j < |s.threads| && s.threads[j].id != t.id ==> r.threads[j] == s.threads[j]) &&
            r.artifacts == (if outcome.Responded? && outcome.body.success
                            then Reversed(ArtifactsOf(outcome.body, ids.replyMessageId, ids.stamp, now)) + s.artifacts
                            else s.artifacts) &&
            !r.isLoading && r.userId == s.userId
  {
    var t := s.currentThread.value;
    var es := TurnEvents(s.currentThread, text, outcome, ids, now);
    TurnEventsScoped(t, text, outcome, ids, now);
    LocalEventsPointwise(s, es);
    LocalEventsKeepConsistent(s, es);
    TurnOnThread(t, text, outcome, ids, now);
    TurnArtifacts(t, text, outcome, ids, now, s.artifacts);
    TurnLoading(t, text, outcome, ids, now, s.isLoading);
    var i := CurrentIndex(s);
    forall j | 0 <= j < |s.threads| && s.threads[j].id != t.id
      ensures ApplyAll(s, es).threads[j] == s.threads[j]
    {
      ReplayElsewhere(s.threads[j], es);
    }
  }

  /** A turn's events with sidebar events spliced in between are all thread-local or navigation. */
  lemma SplicedEvents(turn: seq<Event>, p: seq<Event>, x: seq<Event>, rest: seq<Event>, id: string)
    requires turn == p + rest && Scoped(turn, id)
    requires forall k :: 0 <= k < |x| ==> Navigation(x[k], id)
    ensures forall k :: 0 <= k < |p + x + rest| ==> ThreadLocal((p + x + rest)[k]) || Navigation((p + x + rest)[k], id)
    ensures Scoped(rest, id)
  {
    var es := p + x + rest;
    forall k | 0 <= k < |es| ensures ThreadLocal(es[k]) || Navigation(es[k], id) {
      if k < |p| {
        assert es[k] == turn[k];
      } else if k >= |p| + |x| {
        assert es[k] == turn[k - |x|];
      } else {
        assert es[k] == x[k - |p|];
      }
    }
    forall k | 0 <= k < |rest| ensures ThreadLocal(rest[k]) && (TargetsThread(rest[k]) ==> rest[k].threadId == id) {
      assert rest[k] == turn[|p| + k];
    }
  }

  /**
   * The sidebar stays live while a turn waits on the transport. When threads
   * are selected or created between the prologue and the resolution, the
   * turn's own thread in the list still ends as `TurnThread`.
   */
  lemma InterleavedTurn(s: AppState, text: string, outcome: TransportResult, ids: TurnIds, now: int, x: seq<Event>)
    requires Consistent(s) && s.currentThread.Some?
    requires ids.userMessageId != PlaceholderId(ids)
    requires forall i :: 0 <= i < |s.currentThread.value.messages| ==>
               s.currentThread.value.messages[i].id != PlaceholderId(ids)
    requires forall k :: 0 <= k < |x| ==> Navigation(x[k], s.currentThread.value.id)
    ensures var t := s.currentThread.value;
            var p := Prologue(t, text, ids, now);
            var rest := Resolution(t, outcome, ids, now) + [SetLoading(false)];
            ThreadById(ApplyAll(s, p + x + rest).threads, t.id) == Some(TurnThread(t, text, outcome, ids, now))
  {
    var t := s.currentThread.value;
    var p := Prologue(t, text, ids, now);
    var rest := Resolution(t, outcome, ids, now) + [SetLoading(false)];
    var turn := TurnEvents(s.currentThread, text, outcome, ids, now);
    assert turn == p + rest;
    TurnEventsScoped(t, text, outcome, ids, now);
    SplicedEvents(turn, p, x, rest, t.id);
    ListEntryReplay(s, p + x + rest, t.id);
    ThreadReplayConcat(t, p + x, rest);
    ThreadReplayConcat(t, p, x);
    ReplayElsewhere(ThreadReplay(t, p), x);
    ThreadReplayConcat(t, p, rest);
    TurnOnThread(t, text, outcome, ids, now);
  }

  /**
   * When the user has moved to a thread with another id by the time the
   * transport answers (`m` is the state at that moment), that thread stays
   * current, untouched by the reply: the turn's result shows only in the list.
   */
  lemma NavigatedAwayStaysCurrent(m: AppState, t: ChatThread, text: string, outcome: TransportResult, ids: TurnIds, now: int)
    requires m.currentThread.Some? && m.currentThread.value.id != t.id
    ensures ApplyAll(m, Resolution(t, outcome, ids, now) + [SetLoading(false)]).currentThread == m.currentThread
  {
    var p := Prologue(t, text, ids, now);
    var rest := Resolution(t, outcome, ids, now) + [SetLoading(false)];
    var turn := TurnEvents(Some(t), text, outcome, ids, now);
    assert turn == p + rest;
    TurnEventsScoped(t, text, outcome, ids, now);
    SplicedEvents(turn, p, [], rest, t.id);
    CurrentElsewhere(m, rest, t.id);
  }

  /** The first half of a turn: right before the transport call, loading is on. */
  lemma LoadingDuringTransport(s: AppState, text: string, ids: TurnIds, now: int)
    requires s.currentThread.Some?
    ensures ApplyAll(s, Prologue(s.currentThread.value, text, ids, now)).isLoading
  {
    var t := s.currentThread.value;
    var p := Prologue(t, text, ids, now);
    TurnEventsScoped(t, text, Threw, ids, now);
    assert TurnEvents(s.currentThread, text, Threw, ids, now)[..|p|] == p;
    LocalEventsPointwise(s, p);
    TurnLoading(t, text, Threw, ids, now, s.isLoading);
  }

  class Store {
    /** The reducer's state. */
    var state: AppState
    /** Every event dispatched so far, oldest first. */
    ghost var log: seq<Event>
    /** The page URL's `session_id` query parameter. */
    ghost var sessionParam: Option<string>

    ghost predicate Valid()
      reads this
    {
      state == ApplyAll(InitialState, log)
    }

    /** A fresh store on a page whose URL carries `urlSession`; nothing is restored from it. */
    constructor(urlSession: Option<string>)
      ensures Valid() && state == InitialState && log == [] && sessionParam == urlSession
    {
      state := InitialState;
      log := [];
      sessionParam := urlSession;
    }

    method Dispatch(e: Event)
      requires Valid()
      modifies this
      ensures Valid()
      ensures state == Apply(old(state), e) && log == old(log) + [e]
      ensures sessionParam == old(sessionParam)
    {
      ApplyAllConcat(InitialState, log, [e]);
      assert [e][1..] == [];
      state := Apply(state, e);
      log := log + [e];
    }

    /** A dispatch seen only through the log it extends; the turn's helpers need no more. */
    method Record(e: Event)
      requires Valid()
      modifies this
      ensures Valid()
      ensures log == old(log) + [e]
      ensures sessionParam == old(sessionParam)
    {
      Dispatch(e);
    }

    /**
     * `createNewThread`: clears the URL's session id and adds an empty active
     * thread, which becomes current. A fresh id keeps the mirror.
     */
    method CreateNewThread(threadId: string, now: int)
      requires Valid()
      modifies this
      ensures Valid()
      ensures log == old(log) + [AddThread(NewThread(threadId, now))]
      ensures state.threads == [NewThread(threadId, now)] + old(state.threads)
      ensures state.currentThread == Some(NewThread(threadId, now))
      ensures state.artifacts == old(state.artifacts) && state.isLoading == old(state.isLoading)
      ensures sessionParam.None?
      ensures Consistent(old(state)) && (forall i :: 0 <= i < |old(state.threads)| ==> old(state.threads[i]).id != threadId)
              ==> Consistent(state)
    {
      sessionParam := None;
      var thread := NewThread(threadId, now);
      if Consistent(state) && (forall i :: 0 <= i < |state.threads| ==> state.threads[i].id != threadId) {
        MirrorPreserved(state, AddThread(thread));
      }
      Dispatch(AddThread(thread));
    }

    /**
     * `selectThread`: makes `thread` current, and points the URL at its
     * session id when it has one, clearing it otherwise. Selecting a member
     * of the thread list keeps the mirror.
     */
    method SelectThread(thread: ChatThread)
      requires Valid()
      modifies this
      ensures Valid()
      ensures log == old(log) + [SetCurrentThread(Some(thread))]
      ensures state == old(state).(currentThread := Some(thread))
      ensures sessionParam == if Truthy(thread.sessionId) then thread.sessionId else None
      ensures Consistent(old(state)) && thread in old(state.threads) ==> Consistent(state)
    {
      if Consistent(state) && thread in state.threads {
        MirrorPreserved(state, SetCurrentThread(Some(thread)));
      }
      Dispatch(SetCurrentThread(Some(thread)));
      if Truthy(thread.sessionId) {
        sessionParam := thread.sessionId;
      } else {
        sessionParam := None;
      }
    }

    /**
     * `sendMessage`: with no current thread, nothing happens. Otherwise every
     * decision reads the thread as it was when the call began; the events
     * dispatched are exactly `TurnEvents`, the request sent is `RequestFor`
     * with the session id withheld on a first message, and the URL's session
     * id changes only when the turn binds one.
     */
    method SendMessage(text: string, final: bool, outcome: TransportResult, ids: TurnIds, now: int)
      returns (request: Option<GenerationRequest>)
      requires Valid()
      modifies this
      ensures Valid()
      ensures log == old(log) + TurnEvents(old(state.currentThread), text, outcome, ids, now)
      ensures state == ApplyAll(old(state), TurnEvents(old(state.currentThread), text, outcome, ids, now))
      ensures old(state.currentThread).None? <==> request.None?
      ensures old(state.currentThread).None? ==> state == old(state)
      ensures old(state.currentThread).Some? ==>
                request == Some(RequestFor(text, SessionToSend(old(state.currentThread.value)), None, final,
                                           Some(old(state.userId))))
      ensures sessionParam == if BoundSession(old(state.currentThread), outcome).Some?
                              then BoundSession(old(state.currentThread), outcome)
                              else old(sessionParam)
      ensures Consistent(old(state)) ==> Consistent(state)
    {
      if state.currentThread.None? {
        request := None;
        return;
      }
      var thread := state.currentThread.value;
      ghost var before := state;
      var payload := RunTurn(thread, text, final, outcome, ids, now);
      request := Some(payload);

      ghost var es := TurnEvents(Some(thread), text, outcome, ids, now);
      ApplyAllConcat(InitialState, old(log), es);
      TurnEventsScoped(thread, text, outcome, ids, now);
      if Consistent(before) {
        LocalEventsKeepConsistent(before, es);
      }
    }

    /** A turn on the thread found current: every event it dispatches, in order, and the request it sends. */
    method RunTurn(thread: ChatThread, text: string, final: bool, outcome: TransportResult, ids: TurnIds, now: int)
      returns (request: GenerationRequest)
      requires Valid() && state.currentThread == Some(thread)
      modifies this
      ensures Valid()
      ensures log == old(log) + TurnEvents(Some(thread), text, outcome, ids, now)
      ensures request == RequestFor(text, SessionToSend(thread), None, final, Some(old(state.userId)))
      ensures sessionParam == if BoundSession(Some(thread), outcome).Some?
                              then BoundSession(Some(thread), outcome)
                              else old(sessionParam)
    {
      var isFirstMessage := |thread.messages| == 0;
      var userId := state.userId;

      Announce(thread, text, ids, now);
      ghost var prologue := Prologue(thread, text, ids, now);
      var sessionIdToSend := if isFirstMessage then None else thread.sessionId;
      var response: TransportResult;
      request, response := AdGeneratorApi.SendMessage(text, sessionIdToSend, None, final, Some(userId), outcome);
      Resolve(thread, response, ids, now);
      ghost var resolution := Resolution(thread, outcome, ids, now);
      LogAssoc(old(log), prologue, resolution);
      Record(SetLoading(false));
      LogAssoc(old(log), prologue + resolution, [SetLoading(false)]);
      assert TurnEvents(Some(thread), text, outcome, ids, now) == prologue + resolution + [SetLoading(false)];
    }

    /** Up to the transport call: the user message, a title on a first message, the placeholder, loading on. */
    method Announce(thread: ChatThread, text: string, ids: TurnIds, now: int)
      requires Valid()
      modifies this
      ensures Valid()
      ensures log == old(log) + Prologue(thread, text, ids, now)
      ensures sessionParam == old(sessionParam)
    {
      var user := AddMessage(thread.id, UserMessage(ids, text, now), now);
      Record(user);
      ghost var title: seq<Event> := [];
      if |thread.messages| == 0 {
        var rename := UpdateThread(thread.id, NoThreadUpdates.(title := Some(Title(text))));
        Record(rename);
        title := [rename];
      }
      LogAssoc(old(log), [user], title);
      var typing := AddMessage(thread.id, Placeholder(ids, now), now);
      Record(typing);
      LogAssoc(old(log), [user] + title, [typing]);
      Record(SetLoading(true));
      LogAssoc(old(log), [user] + title + [typing], [SetLoading(true)]);
    }

    /** After the transport call: the placeholder is resolved by the outcome. */
    method Resolve(thread: ChatThread, response: TransportResult, ids: TurnIds, now: int)
      requires Valid()
      modifies this
      ensures Valid()
      ensures log == old(log) + Resolution(thread, response, ids, now)
      ensures sessionParam == if BoundSession(Some(thread), response).Some?
                              then BoundSession(Some(thread), response)
                              else old(sessionParam)
    {
      var typingId := PlaceholderId(ids);
      if response.Threw? {
        Fail(thread, ids, Apology);
      } else {
        var resp := response.body;
        Record(UpdateMessage(thread.id, typingId, StopTyping));
        ghost var rest: seq<Event>;
        if resp.success {
          Succeed(thread, resp, ids, now);
          rest := SuccessEvents(thread, resp, ids, now);
        } else {
          Fail(thread, ids, ErrorText(resp));
          rest := FailureEvents(thread, ids, ErrorText(resp));
        }
        LogAssoc(old(log), [UpdateMessage(thread.id, typingId, StopTyping)], rest);
      }
    }

    /** A failed turn: the placeholder becomes the error text, the thread is marked errored. */
    method Fail(thread: ChatThread, ids: TurnIds, content: string)
      requires Valid()
      modifies this
      ensures Valid()
      ensures log == old(log) + FailureEvents(thread, ids, content)
      ensures sessionParam == old(sessionParam)
    {
      Record(UpdateMessage(thread.id, PlaceholderId(ids), ErrorUpdates(ids.replyMessageId, content)));
      Record(UpdateThread(thread.id, NoThreadUpdates.(status := Some(Error))));
    }

    /**
     * A successful reply: bind the session id when the thread had none, turn
     * the placeholder into the reply, then dispatch the extracted artifacts
     * one by one.
     */
    method Succeed(thread: ChatThread, resp: GenerationResponse, ids: TurnIds, now: int)
      requires Valid()
      modifies this
      ensures Valid()
      ensures log == old(log) + SuccessEvents(thread, resp, ids, now)
      ensures sessionParam == if BindsSession(thread, resp) then Some(resp.sessionId) else old(sessionParam)
    {
      ghost var bind := BindEvents(thread, resp);
      Bind(thread, resp);
      var chatContent := ComposeContent(resp);
      var reply := UpdateMessage(thread.id, PlaceholderId(ids), ReplyUpdates(ids.replyMessageId, chatContent));
      Record(reply);
      LogAssoc(old(log), bind, [reply]);
      var artifacts := CollectArtifacts(resp, ids.replyMessageId, ids.stamp, now);
      DispatchAll(artifacts);
      LogAssoc(old(log), bind + [reply], ArtifactEvents(artifacts));
      assert SuccessEvents(thread, resp, ids, now) == bind + [reply] + ArtifactEvents(artifacts);
    }

    /** The binding of a successful reply's session id, dispatched and put in the URL only when the thread had none. */
    method Bind(thread: ChatThread, resp: GenerationResponse)
      requires Valid()
      modifies this
      ensures Valid()
      ensures log == old(log) + BindEvents(thread, resp)
      ensures sessionParam == if BindsSession(thread, resp) then Some(resp.sessionId) else old(sessionParam)
    {
      if !Truthy(thread.sessionId) && resp.sessionId != "" {
        Record(UpdateThread(thread.id, NoThreadUpdates.(sessionId := Some(resp.sessionId))));
        sessionParam := Some(resp.sessionId);
      }
    }

    /** One artifact event per artifact, dispatched in array order. */
    method DispatchAll(artifacts: seq<Artifact>)
      requires Valid()
      modifies this
      ensures Valid()
      ensures log == old(log) + ArtifactEvents(artifacts)
      ensures sessionParam == old(sessionParam)
    {
      ghost var logBefore := log;
      var k := 0;
      while k < |artifacts|
        invariant 0 <= k <= |artifacts|
        invariant Valid()
        invariant log == logBefore + ArtifactEvents(artifacts[..k])
        invariant sessionParam == old(sessionParam)
      {
        assert ArtifactEvents(artifacts[..k + 1]) == ArtifactEvents(artifacts[..k]) + [AddArtifact(artifacts[k])];
        Record(AddArtifact(artifacts[k]));
        k := k + 1;
      }
      assert artifacts[..k] == artifacts;
    }
  }

  /** Extending the log in two steps is extending it by both segments at once. */
  lemma LogAssoc(log: seq<Event>, a: seq<Event>, b: seq<Event>)
    ensures log + a + b == log + (a + b)
  {
  }

  /**
   * The chat text of a successful reply, built as `sendMessage` builds it:
   * chosen from the post, the enhanced prompt or a fixed line, then extended
   * with the image reference when there is one.
   */
  method ComposeContent(resp: GenerationResponse) returns (chatContent: string)
    ensures chatContent == ChatContent(resp)
  {
    chatContent := "";
    if Truthy(resp.generatedPost) {
      chatContent := resp.generatedPost.value;
    } else if Truthy(resp.enhancedPrompt) {
      chatContent := resp.enhancedPrompt.value;
    } else {
      chatContent := CompletedText;
    }
    var imageUrl := GeneratedImageUrl(resp);
    if imageUrl.Some? {
      chatContent := chatContent + "\n\n" + ImageMarkdown(imageUrl.value);
    }
  }

  /**
   * The artifact array `sendMessage` builds by pushing, slot by slot, the
   * extracts of a successful reply.
   */
  method CollectArtifacts(resp: GenerationResponse, messageId: string, stamp: string, now: int)
    returns (artifacts: seq<Artifact>)
    ensures artifacts == ArtifactsOf(resp, messageId, stamp, now)
  {
    artifacts := [];
    if Truthy(resp.enhancedPrompt) {
      artifacts := artifacts + [Artifact("artifact_prompt_" + stamp, Prompt, PromptTitle, resp.enhancedPrompt.value,
                                         now, resp.sessionId, messageId)];
    }
    ghost var slots := Extracted(resp.enhancedPrompt, "artifact_prompt_", Prompt, PromptTitle, resp, messageId, stamp, now);
    assert artifacts == slots;
    if Truthy(resp.generatedPost) {
      artifacts := artifacts + [Artifact("artifact_post_" + stamp, Post, PostTitle, resp.generatedPost.value,
                                         now, resp.sessionId, messageId)];
    }
    slots := slots + Extracted(resp.generatedPost, "artifact_post_", Post, PostTitle, resp, messageId, stamp, now);
    assert artifacts == slots;
    if Truthy(resp.complianceCheck) {
      artifacts := artifacts + [Artifact("artifact_compliance_" + stamp, Compliance, ComplianceTitle,
                                         resp.complianceCheck.value, now, resp.sessionId, messageId)];
    }
    slots := slots + Extracted(resp.complianceCheck, "artifact_compliance_", Compliance, ComplianceTitle, resp, messageId, stamp, now);
    assert artifacts == slots;
    if Truthy(resp.imagePrompt) {
      artifacts := artifacts + [Artifact("artifact_image_" + stamp, Image, ImagePromptTitle, resp.imagePrompt.value,
                                         now, resp.sessionId, messageId)];
    }
    slots := slots + Extracted(resp.imagePrompt, "artifact_image_", Image, ImagePromptTitle, resp, messageId, stamp, now);
    assert artifacts == slots;
    var imageUrl := GeneratedImageUrl(resp);
    if imageUrl.Some? {
      artifacts := artifacts + [Artifact("artifact_image_result_" + stamp, Image, ImageResultTitle,
                                         ImageResultContent(imageUrl.value), now, resp.sessionId, messageId)];
    }
    assert artifacts == slots + ImageResult(resp, messageId, stamp, now);
  }
}

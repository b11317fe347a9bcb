/**
 * The conversation store: the closed set of events and the pure reducer that
 * applies one of them to the application state, with the invariant that the
 * current thread mirrors its entry in the thread list.
 */
module ChatStore {
  import opened ChatTypes

  /** `Partial<ChatThread>`: a present field overrides the thread's own, an absent one keeps it. */
  datatype ThreadPatch = ThreadPatch(
    id: Option<string>,
    sessionId: Option<string>,
    title: Option<string>,
    messages: Option<seq<Message>>,
    createdAt: Option<int>,
    updatedAt: Option<int>,
    status: Option<ThreadStatus>)

  /** `Partial<Message>`, read the same way. */
  datatype MessagePatch = MessagePatch(
    id: Option<string>,
    content: Option<string>,
    sender: Option<Sender>,
    timestamp: Option<int>,
    agentUsed: Option<string>,
    stepName: Option<string>,
    isTyping: Option<bool>)

  const NoThreadUpdates := ThreadPatch(None, None, None, None, None, None, None)
  const NoMessageUpdates := MessagePatch(None, None, None, None, None, None, None)

  function Override<T>(update: Option<T>, current: T): T
  {
    if update.Some? then update.value else current
  }

  function OverrideOptional<T>(update: Option<T>, current: Option<T>): Option<T>
  {
    if update.Some? then update else current
  }

  /** A thread with every field the patch sets overwritten and the others kept. */
  function MergeThread(t: ChatThread, u: ThreadPatch): ChatThread
  {
    ChatThread(
      Override(u.id, t.id),
      OverrideOptional(u.sessionId, t.sessionId),
      Override(u.title, t.title),
      Override(u.messages, t.messages),
      Override(u.createdAt, t.createdAt),
      Override(u.updatedAt, t.updatedAt),
      Override(u.status, t.status))
  }

  /** A message with every field the patch sets overwritten and the others kept. */
  function MergeMessage(m: Message, u: MessagePatch): Message
  {
    Message(
      Override(u.id, m.id),
      Override(u.content, m.content),
      Override(u.sender, m.sender),
      Override(u.timestamp, m.timestamp),
      OverrideOptional(u.agentUsed, m.agentUsed),
      OverrideOptional(u.stepName, m.stepName),
      OverrideOptional(u.isTyping, m.isTyping))
  }

  /**
   * The nine store events. The clock value that the reducer reads with
   * `new Date()` while appending a message travels with `AddMessage`.
   */
  datatype Event =
    | SetLoading(loading: bool)
    | SetCurrentThread(thread: Option<ChatThread>)
    | AddThread(newThread: ChatThread)
    | UpdateThread(threadId: string, threadUpdates: ThreadPatch)
    | AddMessage(threadId: string, message: Message, now: int)
    | UpdateMessage(threadId: string, messageId: string, messageUpdates: MessagePatch)
    | AddArtifact(artifact: Artifact)
    | SetThreads(allThreads: seq<ChatThread>)
    | SetArtifacts(allArtifacts: seq<Artifact>)

  const InitialState := AppState(None, [], [], false, "default_user")

  // ---------------------------------------------------------------------------
  // The reducer, one function per event

  /** `SET_LOADING` changes `isLoading` and nothing else. */
  function OnSetLoading(s: AppState, loading: bool): (r: AppState)
    ensures r.isLoading == loading
    ensures r.currentThread == s.currentThread && r.threads == s.threads
    ensures r.artifacts == s.artifacts && r.userId == s.userId
  {
    s.(isLoading := loading)
  }

  /** `SET_CURRENT_THREAD` replaces the current thread, whatever it is given. */
  function OnSetCurrentThread(s: AppState, thread: Option<ChatThread>): (r: AppState)
    ensures r.currentThread == thread
    ensures r.threads == s.threads && r.artifacts == s.artifacts
    ensures r.isLoading == s.isLoading && r.userId == s.userId
  {
    s.(currentThread := thread)
  }

  /** `ADD_THREAD` puts the thread in front of the unchanged old list and makes it current. */
  function OnAddThread(s: AppState, thread: ChatThread): (r: AppState)
    ensures |r.threads| == |s.threads| + 1
    ensures r.threads[0] == thread && r.threads[1..] == s.threads
    ensures r.currentThread == Some(thread)
    ensures r.artifacts == s.artifacts && r.isLoading == s.isLoading && r.userId == s.userId
  {
    s.(threads := [thread] + s.threads, currentThread := Some(thread))
  }

  /**
   * `UPDATE_THREAD` keeps the list's length and order, merges the updates into
   * every thread with the given id, and into the current thread only when its
   * id is the given one.
   */
  function OnUpdateThread(s: AppState, threadId: string, updates: ThreadPatch): (r: AppState)
    ensures |r.threads| == |s.threads|
    ensures forall i :: 0 <= i < |s.threads| && s.threads[i].id != threadId ==> r.threads[i] == s.threads[i]
    ensures forall i :: 0 <= i < |s.threads| && s.threads[i].id == threadId ==>
              r.threads[i] == MergeThread(s.threads[i], updates)
    ensures s.currentThread.Some? && s.currentThread.value.id == threadId ==>
              r.currentThread == Some(MergeThread(s.currentThread.value, updates))
    ensures !(s.currentThread.Some? && s.currentThread.value.id == threadId) ==>
              r.currentThread == s.currentThread
    ensures r.artifacts == s.artifacts && r.isLoading == s.isLoading && r.userId == s.userId
  {
    var updatedThreads := seq(|s.threads|, i requires 0 <= i < |s.threads| =>
      if s.threads[i].id == threadId then MergeThread(s.threads[i], updates) else s.threads[i]);
    s.(threads := updatedThreads,
       currentThread :=
         if s.currentThread.Some? && s.currentThread.value.id == threadId
         then Some(MergeThread(s.currentThread.value, updates))
         else s.currentThread)
  }

  /** A thread after `message` was appended at time `now`. */
  function Appended(t: ChatThread, message: Message, now: int): (r: ChatThread)
    ensures |r.messages| == |t.messages| + 1 && r.messages[|t.messages|] == message
    ensures r.messages[..|t.messages|] == t.messages && r.updatedAt == now
    ensures r.id == t.id && r.sessionId == t.sessionId && r.title == t.title
    ensures r.createdAt == t.createdAt && r.status == t.status
  {
    t.(messages := t.messages + [message], updatedAt := now)
  }

  /**
   * `ADD_MESSAGE` appends the message to every thread with the given id (and to
   * the current thread when its id matches) and stamps it with `now`; other
   * threads are untouched.
   */
  function OnAddMessage(s: AppState, threadId: string, message: Message, now: int): (r: AppState)
    ensures |r.threads| == |s.threads|
    ensures forall i :: 0 <= i < |s.threads| && s.threads[i].id != threadId ==> r.threads[i] == s.threads[i]
    ensures forall i :: 0 <= i < |s.threads| && s.threads[i].id == threadId ==>
              r.threads[i] == Appended(s.threads[i], message, now)
    ensures s.currentThread.Some? && s.currentThread.value.id == threadId ==>
              r.currentThread == Some(Appended(s.currentThread.value, message, now))
    ensures !(s.currentThread.Some? && s.currentThread.value.id == threadId) ==>
              r.currentThread == s.currentThread
    ensures r.artifacts == s.artifacts && r.isLoading == s.isLoading && r.userId == s.userId
  {
    var threadsWithNewMessage := seq(|s.threads|, i requires 0 <= i < |s.threads| =>
      if s.threads[i].id == threadId then Appended(s.threads[i], message, now) else s.threads[i]);
    s.(threads := threadsWithNewMessage,
       currentThread :=
         if s.currentThread.Some? && s.currentThread.value.id == threadId
         then Some(Appended(s.currentThread.value, message, now))
         else s.currentThread)
  }

  /** Every message whose id is `messageId` patched in place; the others kept; order and count unchanged. */
  function UpdateMessages(ms: seq<Message>, messageId: string, updates: MessagePatch): (r: seq<Message>)
    ensures |r| == |ms|
    ensures forall i :: 0 <= i < |ms| && ms[i].id != messageId ==> r[i] == ms[i]
    ensures forall i :: 0 <= i < |ms| && ms[i].id == messageId ==> r[i] == MergeMessage(ms[i], updates)
  {
    seq(|ms|, i requires 0 <= i < |ms| =>
      if ms[i].id == messageId then MergeMessage(ms[i], updates) else ms[i])
  }

  /** A thread whose messages with id `messageId` received `updates`. */
  function MessageUpdated(t: ChatThread, messageId: string, updates: MessagePatch): ChatThread
  {
    t.(messages := UpdateMessages(t.messages, messageId, updates))
  }

  /**
   * `UPDATE_MESSAGE` keeps every thread's message count and order and alters,
   * in the matching thread, only the messages whose id is `messageId`.
   */
  function OnUpdateMessage(s: AppState, threadId: string, messageId: string, updates: MessagePatch): (r: AppState)
    ensures |r.threads| == |s.threads|
    ensures forall i :: 0 <= i < |s.threads| && s.threads[i].id != threadId ==> r.threads[i] == s.threads[i]
    ensures forall i :: 0 <= i < |s.threads| && s.threads[i].id == threadId ==>
              r.threads[i] == MessageUpdated(s.threads[i], messageId, updates)
    ensures s.currentThread.Some? && s.currentThread.value.id == threadId ==>
              r.currentThread == Some(MessageUpdated(s.currentThread.value, messageId, updates))
    ensures !(s.currentThread.Some? && s.currentThread.value.id == threadId) ==>
              r.currentThread == s.currentThread
    ensures r.artifacts == s.artifacts && r.isLoading == s.isLoading && r.userId == s.userId
  {
    var threadsWithUpdatedMessage := seq(|s.threads|, i requires 0 <= i < |s.threads| =>
      if s.threads[i].id == threadId then MessageUpdated(s.threads[i], messageId, updates) else s.threads[i]);
    s.(threads := threadsWithUpdatedMessage,
       currentThread :=
         if s.currentThread.Some? && s.currentThread.value.id == threadId
         then Some(MessageUpdated(s.currentThread.value, messageId, updates))
         else s.currentThread)
  }

  /** `ADD_ARTIFACT` prepends to the artifacts and touches nothing else. */
  function OnAddArtifact(s: AppState, artifact: Artifact): (r: AppState)
    ensures |r.artifacts| == |s.artifacts| + 1
    ensures r.artifacts[0] == artifact && r.artifacts[1..] == s.artifacts
    ensures r.currentThread == s.currentThread && r.threads == s.threads
    ensures r.isLoading == s.isLoading && r.userId == s.userId
  {
    s.(artifacts := [artifact] + s.artifacts)
  }

  /** `SET_THREADS` replaces the thread list wholesale and leaves the current thread alone. */
  function OnSetThreads(s: AppState, threads: seq<ChatThread>): (r: AppState)
    ensures r.threads == threads && r.currentThread == s.currentThread
    ensures r.artifacts == s.artifacts && r.isLoading == s.isLoading && r.userId == s.userId
  {
    s.(threads := threads)
  }

  /** `SET_ARTIFACTS` replaces the artifact list wholesale. */
  function OnSetArtifacts(s: AppState, artifacts: seq<Artifact>): (r: AppState)
    ensures r.artifacts == artifacts
    ensures r.currentThread == s.currentThread && r.threads == s.threads
    ensures r.isLoading == s.isLoading && r.userId == s.userId
  {
    s.(artifacts := artifacts)
  }

  /**
   * `chatReducer`: total over the closed set of events. No event changes the
   * user id; only `SetLoading` changes the loading flag; only the two artifact
   * events change the artifacts.
   */
  function Apply(s: AppState, e: Event): (r: AppState)
    ensures r.userId == s.userId
    ensures !e.SetLoading? ==> r.isLoading == s.isLoading
    ensures !e.AddArtifact? && !e.SetArtifacts? ==> r.artifacts == s.artifacts
    ensures e.SetLoading? || e.AddArtifact? || e.SetArtifacts? ==>
              r.threads == s.threads && r.currentThread == s.currentThread
  {
    match e
    case SetLoading(loading) => OnSetLoading(s, loading)
    case SetCurrentThread(thread) => OnSetCurrentThread(s, thread)
    case AddThread(thread) => OnAddThread(s, thread)
    case UpdateThread(threadId, updates) => OnUpdateThread(s, threadId, updates)
    case AddMessage(threadId, message, now) => OnAddMessage(s, threadId, message, now)
    case UpdateMessage(threadId, messageId, updates) => OnUpdateMessage(s, threadId, messageId, updates)
    case AddArtifact(artifact) => OnAddArtifact(s, artifact)
    case SetThreads(threads) => OnSetThreads(s, threads)
    case SetArtifacts(artifacts) => OnSetArtifacts(s, artifacts)
  }

  /** The state reached by dispatching `es` in order. */
  function ApplyAll(s: AppState, es: seq<Event>): (r: AppState)
    ensures r.userId == s.userId
    decreases |es|
  {
    if es == [] then s else ApplyAll(Apply(s, es[0]), es[1..])
  }

  lemma {:induction false} ApplyAllConcat(s: AppState, a: seq<Event>, b: seq<Event>)
    ensures ApplyAll(s, a + b) == ApplyAll(ApplyAll(s, a), b)
    decreases |a|
  {
    if a == [] {
      assert a + b == b;
    } else {
      assert (a + b)[1..] == a[1..] + b;
      ApplyAllConcat(Apply(s, a[0]), a[1..], b);
    }
  }

  // ---------------------------------------------------------------------------
  // The mirror invariant

  /** The first thread of `ts` whose id is `id`: the id-keyed lookup. */
  function ThreadById(ts: seq<ChatThread>, id: string): (r: Option<ChatThread>)
    ensures r.Some? ==> r.value in ts && r.value.id == id
    ensures r.None? ==> forall i :: 0 <= i < |ts| ==> ts[i].id != id
  {
    if ts == [] then None
    else if ts[0].id == id then Some(ts[0])
    else ThreadById(ts[1..], id)
  }

  ghost predicate UniqueIds(ts: seq<ChatThread>)
  {
    forall i, j :: 0 <= i < j < |ts| ==> ts[i].id != ts[j].id
  }

  /** The current thread, when set, equals the entry of `threads` with its id. */
  ghost predicate Mirrors(s: AppState)
  {
    s.currentThread.None? || ThreadById(s.threads, s.currentThread.value.id) == s.currentThread
  }

  ghost predicate Consistent(s: AppState)
  {
    UniqueIds(s.threads) && Mirrors(s)
  }

  lemma {:induction false} ThreadByIdAt(ts: seq<ChatThread>, i: int)
    requires UniqueIds(ts) && 0 <= i < |ts|
    ensures ThreadById(ts, ts[i].id) == Some(ts[i])
  {
    if i > 0 {
      assert ts[0].id != ts[i].id;
      assert UniqueIds(ts[1..]) by {
        forall a, b | 0 <= a < b < |ts| - 1 ensures ts[1..][a].id != ts[1..][b].id {
          assert ts[1..][a] == ts[a + 1] && ts[1..][b] == ts[b + 1];
        }
      }
      ThreadByIdAt(ts[1..], i - 1);
    }
  }

  lemma CurrentIndex(s: AppState) returns (i: int)
    requires Consistent(s) && s.currentThread.Some?
    ensures 0 <= i < |s.threads| && s.threads[i] == s.currentThread.value
  {
    i :| 0 <= i < |s.threads| && s.threads[i] == s.currentThread.value;
  }

  lemma MirrorAt(r: AppState, i: int)
    requires UniqueIds(r.threads) && 0 <= i < |r.threads|
    requires r.currentThread == Some(r.threads[i])
    ensures Consistent(r)
  {
    ThreadByIdAt(r.threads, i);
  }

  /** The events whose application keeps the mirror, and the conditions under which they do. */
  ghost predicate Admissible(s: AppState, e: Event)
  {
    match e
    case SetCurrentThread(thread) => thread.None? || thread.value in s.threads
    case AddThread(thread) => forall i :: 0 <= i < |s.threads| ==> s.threads[i].id != thread.id
    case UpdateThread(threadId, updates) =>
      updates.id.None? || updates.id.value == threadId ||
      forall i :: 0 <= i < |s.threads| ==> s.threads[i].id != updates.id.value
    case SetThreads(threads) =>
      UniqueIds(threads) &&
      (s.currentThread.None? || ThreadById(threads, s.currentThread.value.id) == s.currentThread)
    case _ => true
  }

  lemma AddThreadKeepsMirror(s: AppState, thread: ChatThread)
    requires Consistent(s) && Admissible(s, AddThread(thread))
    ensures Consistent(Apply(s, AddThread(thread)))
  {
    var r := Apply(s, AddThread(thread));
    forall a, b | 0 <= a < b < |r.threads| ensures r.threads[a].id != r.threads[b].id {
      assert r.threads[b] == s.threads[b - 1];
      if a > 0 {
        assert r.threads[a] == s.threads[a - 1];
      }
    }
    MirrorAt(r, 0);
  }

  lemma UpdateThreadKeepsMirror(s: AppState, threadId: string, updates: ThreadPatch)
    requires Consistent(s) && Admissible(s, UpdateThread(threadId, updates))
    ensures Consistent(Apply(s, UpdateThread(threadId, updates)))
  {
    var r := Apply(s, UpdateThread(threadId, updates));
    forall a, b | 0 <= a < b < |r.threads| ensures r.threads[a].id != r.threads[b].id {
      assert s.threads[a].id != s.threads[b].id;
    }
    if s.currentThread.Some? {
      var i := CurrentIndex(s);
      MirrorAt(r, i);
    }
  }

  lemma AddMessageKeepsMirror(s: AppState, threadId: string, message: Message, now: int)
    requires Consistent(s)
    ensures Consistent(Apply(s, AddMessage(threadId, message, now)))
  {
    var r := Apply(s, AddMessage(threadId, message, now));
    assert forall k :: 0 <= k < |s.threads| ==> r.threads[k].id == s.threads[k].id;
    if s.currentThread.Some? {
      var i := CurrentIndex(s);
      MirrorAt(r, i);
    }
  }

  lemma UpdateMessageKeepsMirror(s: AppState, threadId: string, messageId: string, updates: MessagePatch)
    requires Consistent(s)
    ensures Consistent(Apply(s, UpdateMessage(threadId, messageId, updates)))
  {
    var r := Apply(s, UpdateMessage(threadId, messageId, updates));
    assert forall k :: 0 <= k < |s.threads| ==> r.threads[k].id == s.threads[k].id;
    if s.currentThread.Some? {
      var i := CurrentIndex(s);
      MirrorAt(r, i);
    }
  }

  /**
   * The mirror survives every admissible event: `ADD_THREAD` of a fresh id,
   * `UPDATE_THREAD` that does not steal another thread's id, `ADD_MESSAGE`,
   * `UPDATE_MESSAGE`, `SET_CURRENT_THREAD` with a member of `threads` or none,
   * and `SET_THREADS` only with a list that still holds the current thread.
   */
  lemma {:induction false} MirrorPreserved(s: AppState, e: Event)
    requires Consistent(s) && Admissible(s, e)
    ensures Consistent(Apply(s, e))
  {
    match e
    case SetLoading(_) =>
    case AddArtifact(_) =>
    case SetArtifacts(_) =>
    case SetThreads(_) =>
    case SetCurrentThread(thread) =>
      if thread.Some? {
        var i :| 0 <= i < |s.threads| && s.threads[i] == thread.value;
        MirrorAt(Apply(s, e), i);
      }
    case AddThread(thread) => AddThreadKeepsMirror(s, thread);
    case UpdateThread(threadId, updates) => UpdateThreadKeepsMirror(s, threadId, updates);
    case AddMessage(threadId, message, now) => AddMessageKeepsMirror(s, threadId, message, now);
    case UpdateMessage(threadId, messageId, updates) => UpdateMessageKeepsMirror(s, threadId, messageId, updates);
  }

  /** `SET_THREADS` is not guarded: a list without the current thread breaks the mirror. */
  lemma SetThreadsCanBreakMirror(t: ChatThread)
    ensures Consistent(AppState(Some(t), [t], [], false, "default_user"))
    ensures !Consistent(Apply(AppState(Some(t), [t], [], false, "default_user"), SetThreads([])))
  {
  }

  /** An update or append naming an id that no thread has changes neither the list nor the current thread. */
  lemma UnknownThreadIsNoOp(s: AppState, e: Event)
    requires Mirrors(s)
    requires e.UpdateThread? || e.AddMessage? || e.UpdateMessage?
    requires forall i :: 0 <= i < |s.threads| ==> s.threads[i].id != e.threadId
    ensures Apply(s, e).threads == s.threads
    ensures Apply(s, e).currentThread == s.currentThread
  {
    var r := Apply(s, e);
    assert forall i :: 0 <= i < |s.threads| ==> r.threads[i] == s.threads[i];
    if s.currentThread.Some? {
      assert s.currentThread.value in s.threads;
    }
  }

  // ---------------------------------------------------------------------------
  // Events that touch only the thread they name act on each thread separately

  /** The effect of one event on one thread: a change when the event names that thread, nothing otherwise. */
  function ApplyToThread(t: ChatThread, e: Event): ChatThread
  {
    match e
    case UpdateThread(threadId, updates) => if t.id == threadId then MergeThread(t, updates) else t
    case AddMessage(threadId, message, now) => if t.id == threadId then Appended(t, message, now) else t
    case UpdateMessage(threadId, messageId, updates) =>
      if t.id == threadId then MessageUpdated(t, messageId, updates) else t
    case _ => t
  }

  function ThreadReplay(t: ChatThread, es: seq<Event>): ChatThread
    decreases |es|
  {
    if es == [] then t else ThreadReplay(ApplyToThread(t, es[0]), es[1..])
  }

  function ArtifactReplay(artifacts: seq<Artifact>, es: seq<Event>): seq<Artifact>
    decreases |es|
  {
    if es == [] then artifacts
    else
      var next := match es[0]
        case AddArtifact(a) => [a] + artifacts
        case SetArtifacts(all) => all
        case _ => artifacts;
      ArtifactReplay(next, es[1..])
  }

  function LoadingReplay(loading: bool, es: seq<Event>): bool
    decreases |es|
  {
    if es == [] then loading
    else LoadingReplay(if es[0].SetLoading? then es[0].loading else loading, es[1..])
  }

  /** Events that neither select, add or replace threads nor rename one. */
  predicate ThreadLocal(e: Event)
  {
    match e
    case UpdateThread(_, updates) => updates.id.None?
    case SetCurrentThread(_) => false
    case AddThread(_) => false
    case SetThreads(_) => false
    case _ => true
  }

  lemma OneLocalEvent(s: AppState, e: Event)
    requires ThreadLocal(e)
    ensures |Apply(s, e).threads| == |s.threads|
    ensures forall j :: 0 <= j < |s.threads| ==> Apply(s, e).threads[j] == ApplyToThread(s.threads[j], e)
    ensures Apply(s, e).currentThread ==
              if s.currentThread.Some? then Some(ApplyToThread(s.currentThread.value, e)) else None
    ensures Apply(s, e).artifacts == ArtifactReplay(s.artifacts, [e])
    ensures Apply(s, e).isLoading == LoadingReplay(s.isLoading, [e])
  {
  }

  /**
   * A sequence of thread-local events acts on every thread, the current one
   * included, by replaying it on that thread alone; the artifacts and the
   * loading flag are replayed independently.
   */
  lemma {:induction false} LocalEventsPointwise(s: AppState, es: seq<Event>)
    requires forall k :: 0 <= k < |es| ==> ThreadLocal(es[k])
    ensures |ApplyAll(s, es).threads| == |s.threads|
    ensures forall j :: 0 <= j < |s.threads| ==> ApplyAll(s, es).threads[j] == ThreadReplay(s.threads[j], es)
    ensures ApplyAll(s, es).currentThread ==
              if s.currentThread.Some? then Some(ThreadReplay(s.currentThread.value, es)) else None
    ensures ApplyAll(s, es).artifacts == ArtifactReplay(s.artifacts, es)
    ensures ApplyAll(s, es).isLoading == LoadingReplay(s.isLoading, es)
    decreases |es|
  {
    if es != [] {
      var s1 := Apply(s, es[0]);
      OneLocalEvent(s, es[0]);
      LocalEventsPointwise(s1, es[1..]);
    }
  }

  /** Thread-local events keep the mirror, whatever the state they start from. */
  lemma {:induction false} LocalEventsKeepConsistent(s: AppState, es: seq<Event>)
    requires Consistent(s)
    requires forall k :: 0 <= k < |es| ==> ThreadLocal(es[k])
    ensures Consistent(ApplyAll(s, es))
    decreases |es|
  {
    if es != [] {
      MirrorPreserved(s, es[0]);
      LocalEventsKeepConsistent(Apply(s, es[0]), es[1..]);
    }
  }

  /** Events that name a thread by id. */
  predicate TargetsThread(e: Event)
  {
    e.UpdateThread? || e.AddMessage? || e.UpdateMessage?
  }

  /** Replaying events that name only other threads leaves a thread as it is. */
  lemma {:induction false} ReplayElsewhere(t: ChatThread, es: seq<Event>)
    requires forall k :: 0 <= k < |es| && TargetsThread(es[k]) ==> es[k].threadId != t.id
    ensures ThreadReplay(t, es) == t
    decreases |es|
  {
    if es != [] {
      assert ApplyToThread(t, es[0]) == t;
      ReplayElsewhere(t, es[1..]);
    }
  }

  /** What the sidebar can dispatch at any time: a selection, or a new thread whose id is not `id`. */
  predicate Navigation(e: Event, id: string)
  {
    e.SetCurrentThread? || (e.AddThread? && e.newThread.id != id)
  }

  /** A thread-local event applied entry by entry moves the id lookup along with it. */
  lemma {:induction false} ThreadByIdLocal(ts: seq<ChatThread>, r: seq<ChatThread>, e: Event, id: string)
    requires ThreadLocal(e) && |r| == |ts|
    requires forall j :: 0 <= j < |ts| ==> r[j] == ApplyToThread(ts[j], e)
    requires ThreadById(ts, id).Some?
    ensures ThreadById(r, id) == Some(ApplyToThread(ThreadById(ts, id).value, e))
    decreases |ts|
  {
    assert ApplyToThread(ts[0], e).id == ts[0].id;
    if ts[0].id != id {
      ThreadByIdLocal(ts[1..], r[1..], e, id);
    }
  }

  /**
   * Selections and new threads with other ids, mixed into a batch of
   * thread-local events, do not disturb the list entry with id `id`: it is
   * still that entry replayed alone.
   */
  lemma {:induction false} ListEntryReplay(s: AppState, es: seq<Event>, id: string)
    requires ThreadById(s.threads, id).Some?
    requires forall k :: 0 <= k < |es| ==> ThreadLocal(es[k]) || Navigation(es[k], id)
    ensures ThreadById(ApplyAll(s, es).threads, id) == Some(ThreadReplay(ThreadById(s.threads, id).value, es))
    decreases |es|
  {
    if es != [] {
      var e := es[0];
      var s1 := Apply(s, e);
      if ThreadLocal(e) {
        OneLocalEvent(s, e);
        ThreadByIdLocal(s.threads, s1.threads, e, id);
      } else if e.AddThread? {
        assert s1.threads[1..] == s.threads;
      }
      ListEntryReplay(s1, es[1..], id);
    }
  }

  /** Thread-local events that name only thread `id` leave a current thread with another id as it is. */
  lemma {:induction false} CurrentElsewhere(s: AppState, es: seq<Event>, id: string)
    requires s.currentThread.Some? && s.currentThread.value.id != id
    requires forall k :: 0 <= k < |es| ==> ThreadLocal(es[k]) && (TargetsThread(es[k]) ==> es[k].threadId == id)
    ensures ApplyAll(s, es).currentThread == s.currentThread
    decreases |es|
  {
    if es != [] {
      OneLocalEvent(s, es[0]);
      assert ApplyToThread(s.currentThread.value, es[0]) == s.currentThread.value;
      CurrentElsewhere(Apply(s, es[0]), es[1..], id);
    }
  }

  /** Events that neither add nor replace artifacts. */
  predicate KeepsArtifacts(e: Event)
  {
    !e.AddArtifact? && !e.SetArtifacts?
  }

  lemma {:induction false} ArtifactReplayIdle(artifacts: seq<Artifact>, es: seq<Event>)
    requires forall k :: 0 <= k < |es| ==> KeepsArtifacts(es[k])
    ensures ArtifactReplay(artifacts, es) == artifacts
    decreases |es|
  {
    if es != [] {
      ArtifactReplayIdle(artifacts, es[1..]);
    }
  }

  lemma {:induction false} ThreadReplayConcat(t: ChatThread, a: seq<Event>, b: seq<Event>)
    ensures ThreadReplay(t, a + b) == ThreadReplay(ThreadReplay(t, a), b)
    decreases |a|
  {
    if a == [] {
      assert a + b == b;
    } else {
      assert (a + b)[1..] == a[1..] + b;
      ThreadReplayConcat(ApplyToThread(t, a[0]), a[1..], b);
    }
  }

  lemma {:induction false} ArtifactReplayConcat(artifacts: seq<Artifact>, a: seq<Event>, b: seq<Event>)
    ensures ArtifactReplay(artifacts, a + b) == ArtifactReplay(ArtifactReplay(artifacts, a), b)
    decreases |a|
  {
    if a == [] {
      assert a + b == b;
    } else {
      assert (a + b)[1..] == a[1..] + b;
      assert (a + b)[0] == a[0];
      var next := match a[0]
        case AddArtifact(x) => [x] + artifacts
        case SetArtifacts(all) => all
        case _ => artifacts;
      ArtifactReplayConcat(next, a[1..], b);
    }
  }

  lemma {:induction false} LoadingReplayConcat(loading: bool, a: seq<Event>, b: seq<Event>)
    ensures LoadingReplay(loading, a + b) == LoadingReplay(LoadingReplay(loading, a), b)
    decreases |a|
  {
    if a == [] {
      assert a + b == b;
    } else {
      assert (a + b)[1..] == a[1..] + b;
      assert (a + b)[0] == a[0];
      LoadingReplayConcat(if a[0].SetLoading? then a[0].loading else loading, a[1..], b);
    }
  }
}

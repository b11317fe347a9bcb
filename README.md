# Ad generator chat client: the conversation state machine in Dafny

This project models the client side of a chat front-end that talks to an ad-generation pipeline. The pipeline enhances the user's prompt, writes a post, checks its compliance and, on a "final" request, generates an image. The model covers:

- **The store** (module `ChatStore`). It models `chatReducer`: a total function `Apply` over nine events on the application state. The state is the current thread, the thread list, the artifact list, the loading flag and the user id. Its central invariant is the *mirror*: the current thread, when set, equals the entry of the thread list with the same id, and thread ids are unique (`Consistent`). The invariant is proved for every event under the conditions the callers provide (`Admissible`). `SET_THREADS` is shown to break it.
- **One user turn** (module `Turn`). `sendMessage` is modelled as the exact sequence of events it dispatches (`TurnEvents`), together with its pure derivations:
  - the thread title;
  - the chat text of a reply;
  - the precedence of the image location;
  - the up to five extracted artifacts.

  `TurnThread` states outright what a turn leaves on its thread. `TurnOnThread` proves that replaying the events produces exactly that thread, on every transport outcome.
- **The application shell** (module `App`). `Store` is a class whose `state` only changes through `Dispatch`. Its ghost `log` always folds to `state` (event sourcing). `CreateNewThread`, `SelectThread` and `SendMessage` are imperative methods, each proved to dispatch precisely its specified events. `TurnOnState` lifts the turn to the whole state. The page URL's `session_id` parameter is a ghost field.
- **The transport adapter** (module `AdGeneratorApi`). It covers the request body, which omits absent keys instead of sending empty or false values, and the legacy chat-shaped mapping of a reply. The network call is an input: `Responded(body)` or `Threw`.
- **The message box** (module `ChatInputForm`). It covers:
  - JavaScript's `trim`;
  - the submit guard, which is the only thing keeping a second turn from starting while one is running;
  - Enter versus Shift+Enter;
  - the rule that an errored thread disables the box.
- **The artifacts panel** (module `ArtifactsPanelView`). It covers the expand toggle, the session filter, and the in-place newest-first sort of an array. Without a session id, the array sorted is the caller's own.
- **The sidebar labels** (module `SidebarView`). These are the thread preview, the day bucket of a date and the status badge.

Timestamps are integer milliseconds. JavaScript's optional fields are `Option`s. "Truthy" for an optional string means present and non-empty (`Truthy`). The ids a turn draws from the clock and `Math.random` are the inputs `TurnIds`: the user message id, the reply id, and one millisecond stamp. The placeholder id is `"typing_" + stamp` and the artifact ids are `"artifact_<kind>_" + stamp`.

One behaviour the code has that a reader might not expect: an errored thread is not just marked. `src/components/ChatInterface.tsx:130` disables the input box for it, so no further message can be sent on that thread (`BlockedWhileBusyOrErrored`).

## Model

| member | source | states |
|---|---|---|
| `ChatStore.OnSetLoading` | src/context/ChatContext.tsx:31-32 | sets the loading flag to the payload; current thread, threads, artifacts and user id are identical |
| `ChatStore.OnSetCurrentThread` | src/context/ChatContext.tsx:34-35 | the current thread becomes exactly the payload (possibly none); nothing else changes |
| `ChatStore.OnAddThread` | src/context/ChatContext.tsx:37-42 | the new thread is at index 0, the old list follows unchanged, the new thread is current, the rest is untouched |
| `ChatStore.OnUpdateThread` | src/context/ChatContext.tsx:44-56 | list length and order kept; exactly the threads with the id get the patch merged; the current thread is merged only when its id matches |
| `ChatStore.OnAddMessage` | src/context/ChatContext.tsx:58-78 | in every thread with the id (and the current one if it matches) the message becomes the last of one more message and `updatedAt` is `now`; other threads untouched |
| `ChatStore.UpdateMessages` | src/context/ChatContext.tsx:85-89 | message count and order preserved; exactly the messages with the id are patched, the others are unchanged |
| `ChatStore.OnUpdateMessage` | src/context/ChatContext.tsx:80-106 | thread list length kept; only the matching thread's messages (and the current thread's when it matches) change, by `UpdateMessages` |
| `ChatStore.OnAddArtifact` | src/context/ChatContext.tsx:108-112 | the artifact is prepended to the unchanged old list; threads, current thread, flag and user id untouched |
| `ChatStore.OnSetThreads` | src/context/ChatContext.tsx:114-115 | the thread list is replaced wholesale; the current thread is left alone |
| `ChatStore.OnSetArtifacts` | src/context/ChatContext.tsx:117-118 | the artifact list is replaced wholesale; nothing else changes |
| `ChatStore.Apply` | src/context/ChatContext.tsx:29-123 | no event changes the user id; only `SET_LOADING` changes the flag; only the two artifact events change the artifacts; the loading and artifact events leave threads and current thread alone |
| `ChatStore.ApplyAllConcat` | src/context/ChatContext.tsx:128 | dispatching two batches in turn is dispatching their concatenation |
| `ChatStore.AddThreadKeepsMirror` | src/context/ChatContext.tsx:37-42 | adding a thread with a fresh id keeps ids unique and the mirror |
| `ChatStore.UpdateThreadKeepsMirror` | src/context/ChatContext.tsx:44-56 | a thread update that keeps the id or renames to a fresh one keeps the mirror |
| `ChatStore.AddMessageKeepsMirror` | src/context/ChatContext.tsx:58-78 | with one clock reading for both thread copies, an append keeps the mirror |
| `ChatStore.UpdateMessageKeepsMirror` | src/context/ChatContext.tsx:80-106 | a message update keeps the mirror |
| `ChatStore.MirrorPreserved` | src/context/ChatContext.tsx:29-118 | every admissible event (selection of a member or none, fresh thread ids, a replacement list that keeps the current thread) keeps `Consistent` |
| `ChatStore.SetThreadsCanBreakMirror` | src/context/ChatContext.tsx:114-115 | a consistent state with one thread becomes inconsistent after `SET_THREADS` with an empty list |
| `ChatStore.UnknownThreadIsNoOp` | src/context/ChatContext.tsx:44-106 | an update, append or message update naming an id no thread has changes neither the list nor the current thread |
| `ChatStore.LocalEventsPointwise` | src/context/ChatContext.tsx:44-112 | a batch of events that do not select, add, replace or rename threads acts on each thread and the current thread by replaying it there alone; artifacts and flag replay independently |
| `ChatStore.LocalEventsKeepConsistent` | src/context/ChatContext.tsx:44-112 | such a batch keeps the mirror from any consistent state |
| `ChatStore.ReplayElsewhere` | src/context/ChatContext.tsx:45-49 | events naming only other threads leave a thread unchanged |
| `ChatStore.ArtifactReplayIdle` | src/context/ChatContext.tsx:108-118 | events other than the two artifact events leave the artifact list unchanged |
| `AdGeneratorApi.RequestFor` | src/services/api.ts:100-114 | `initial_prompt` is the message; `user_id` defaults to "default_user"; `feedback` is the feedback if non-empty else ""; the session key is present iff the session id is non-empty and then equals it; `final` is present iff true and never false |
| `AdGeneratorApi.SendMessage` | src/services/api.ts:93-126 | the payload built key by key equals `RequestFor`; the answer (or the throw) is passed on unchanged |
| `AdGeneratorApi.SendChatMessage` | src/services/api.ts:132-152 | always a non-final request; a throw propagates; success, session id, initial prompt, post and error are mapped field by field |
| `Turn.Title` | src/App.tsx:69-78 | a text of at most 30 characters is the title unchanged; a longer one gives its first 30 characters followed by "..." |
| `Turn.ImageUrl` | src/App.tsx:153-154 | the first non-empty of `image_url`, `url`, `data[0].url`, in that precedence; none iff all three are empty or absent |
| `Turn.ReplyText` | src/App.tsx:141-150 | the post if non-empty, else the enhanced prompt if non-empty, else "Ad generation completed."; never empty |
| `Turn.ChatContent` | src/App.tsx:140-162 | the reply text, followed by the image reference exactly when a successful image has a location; the reply text is always a prefix |
| `Turn.ArtifactsOf` | src/App.tsx:189-258 | at most five artifacts, each carrying the reply's session id, the resolved reply's id, the turn time and non-empty content |
| `Turn.ArtifactsRanked` | src/App.tsx:189-258 | the artifacts come in the fixed order prompt, post, compliance, image prompt, image, no slot twice |
| `Turn.ArtifactsPresence` | src/App.tsx:189-258 | each slot is present exactly when its source is non-empty; the image slot exactly when an image location exists |
| `Turn.ArtifactsFromSources` | src/App.tsx:193-255 | every extracted artifact carries the kind, id prefix plus stamp, and content of the field its title names, and that field is non-empty: the enhanced prompt, the post, the compliance check, the image prompt; the generated-image artifact holds the image reference followed by "**Image URL:**" and the location |
| `Turn.FullReplyYieldsFive` | src/App.tsx:189-258 | a reply with all four texts and an image location yields five artifacts of kinds prompt, post, compliance, image, image |
| `Turn.ArtifactEventsPrepend` | src/App.tsx:260-263 | dispatching the artifacts in order leaves them reversed in front of the old list |
| `Turn.TurnEvents` | src/App.tsx:49-50 | with no current thread a turn dispatches no event, and with one it dispatches at least one |
| `Turn.ErrorText` | src/App.tsx:269 | "Error: " followed by the reply's error when non-empty, else by "Unknown error occurred"; the detail is never empty |
| `Turn.SessionToSend` | src/App.tsx:100 | a session id is handed over only after the thread's first message, and it is the thread's own |
| `Turn.BoundSession` | src/App.tsx:120-133 | a binding happens only after a successful reply to a snapshot thread with no session id, binds the reply's non-empty id, and never on a failure path |
| `Turn.Reply` | src/App.tsx:164-318 | the resolved placeholder gets the reply id and stops typing; its content is the chat content on success, "Error: " plus the error or "Unknown error occurred" on a refused reply, the fixed apology on a throw |
| `Turn.PrologueAppendsTwo` | src/App.tsx:62-94 | the events before the transport call append exactly two messages |
| `Turn.ResolutionAppendsNone` | src/App.tsx:110-319 | the events after the transport call append no message on any path |
| `Turn.TurnEventShape` | src/App.tsx:49-323 | a turn starts with the user message, appends exactly two messages, switches loading on right before the transport call and off last, and adds no artifact unless the reply succeeded |
| `Turn.TurnEventsScoped` | src/App.tsx:62-321 | every event of a turn is thread-local and names only the snapshot thread |
| `Turn.TurnArtifacts` | src/App.tsx:189-263 | after a successful reply the artifact list is the extracted artifacts reversed in front of the old list; on every other outcome it is unchanged |
| `Turn.TurnLoading` | src/App.tsx:94-321 | loading is on once the prologue has run and off after the turn |
| `Turn.PrologueOnThread` | src/App.tsx:62-94 | the prologue appends the user message and the typing placeholder, sets the title only on a first message, and stamps `updatedAt` |
| `Turn.FailureOnThread` | src/App.tsx:265-319 | a failure turns the placeholder into the error text with the reply id, not typing, and marks the thread errored |
| `Turn.SuccessOnThread` | src/App.tsx:120-263 | a success binds the session when due and turns the placeholder into the reply; the artifact events leave the thread alone |
| `Turn.ThrewOnThread` | src/App.tsx:292-319 | when the call throws, the placeholder becomes the apology and the thread is errored: the thread is `TurnThread` |
| `Turn.RefusedOnThread` | src/App.tsx:265-291 | when the reply reports failure, the placeholder becomes the error text and the thread is errored: the thread is `TurnThread` |
| `Turn.SucceededOnThread` | src/App.tsx:110-263 | after a successful reply the thread is `TurnThread`: the session bound when due, the placeholder turned into the reply |
| `Turn.ResolutionOnThread` | src/App.tsx:110-319 | after the prologue, the resolution on each outcome yields the thread `TurnThread` |
| `Turn.TurnOnThread` | src/App.tsx:49-323 | a whole turn leaves on its thread exactly the user message and the resolved, non-typing reply, the title rule, the session rule, errored status on failure and the turn time |
| `Turn.TurnThread` | src/App.tsx:49-323 | the thread a turn leaves keeps its id and holds exactly two more messages |
| `Turn.TurnStatus` | src/App.tsx:265-319 | the thread a turn leaves is errored after a refused reply or a throw, and keeps its status after a success |
| `Turn.SessionBinding` | src/App.tsx:120-133 | an existing session id is never overwritten; failures never bind; a successful reply binds its non-empty id on a thread that had none |
| `Turn.FirstMessageSendsNoSession` | src/App.tsx:97-108 | a first message's request has no session key even when the thread has an id; later requests carry the thread's non-empty id |
| `App.TurnOnState` | src/App.tsx:49-323 | from a consistent state, a turn keeps the mirror, turns the current thread (in the list and as current) into `TurnThread`, leaves other threads, grows artifacts only on success, and ends with loading off |
| `ChatStore.ListEntryReplay` | src/context/ChatContext.tsx:34-112 | selections and new threads with other ids mixed into thread-local events leave the list entry with a given id equal to that entry replayed alone |
| `ChatStore.CurrentElsewhere` | src/context/ChatContext.tsx:44-106 | thread-local events naming one thread leave a current thread with another id as it is |
| `App.InterleavedTurn` | src/App.tsx:49-323 | when the sidebar selects or creates threads between the prologue and the resolution, the turn's own thread in the list still ends as `TurnThread` |
| `App.NavigatedAwayStaysCurrent` | src/App.tsx:110-321 | when another thread is current by the time the transport answers, it stays current and untouched: the reply lands only in the list |
| `App.LoadingDuringTransport` | src/App.tsx:89-108 | when the transport is called, loading is on |
| `App.ComposeContent` | src/App.tsx:140-162 | the content built by reassignment is `ChatContent` |
| `App.CollectArtifacts` | src/App.tsx:189-258 | the array built by pushes is `ArtifactsOf` |
| `App.Store.constructor` | src/App.tsx:13-20 | a fresh store holds the initial state, has dispatched nothing, and keeps the URL's session id without restoring anything from it |
| `App.Store.Dispatch` | src/context/ChatContext.tsx:128 | the state becomes the reducer's result and the event is logged; the log still folds to the state |
| `App.Store.CreateNewThread` | src/App.tsx:22-36 | clears the URL's session id and dispatches an empty active thread titled "New Conversation" with no session, created and updated now, which is in front and current; a fresh id keeps the mirror |
| `App.Store.SelectThread` | src/App.tsx:38-47 | makes the thread current and sets the URL's session id to the thread's if non-empty, else clears it; a member of the list keeps the mirror |
| `App.Store.SendMessage` | src/App.tsx:49-323 | dispatches exactly `TurnEvents` of the snapshot thread; sends `RequestFor` with no session on a first message and the user id; changes the URL only when the turn binds a session; keeps the mirror |
| `App.Store.RunTurn` | src/App.tsx:49-323 | on the thread found current, dispatches exactly `TurnEvents` and sends `RequestFor` with the session withheld on a first message |
| `App.Store.Announce` | src/App.tsx:62-94 | dispatches exactly the prologue |
| `App.Store.Resolve` | src/App.tsx:110-319 | dispatches exactly the resolution of the outcome; sets the URL's session id only when the turn binds one |
| `App.Store.Fail` | src/App.tsx:265-319 | dispatches exactly the failure events: the placeholder becomes the error text, then the thread is marked errored |
| `App.Store.Succeed` | src/App.tsx:120-263 | dispatches the binding when due, the reply update and the artifacts, in that order |
| `App.Store.Bind` | src/App.tsx:122-133 | dispatches the session binding and writes it to the URL exactly when the thread had no session id and the reply names one; otherwise changes nothing |
| `App.Store.DispatchAll` | src/App.tsx:260-263 | one artifact event per artifact, in array order |
| `ChatInputForm.Trim` | src/components/ChatInput.tsx:17 | the trimmed text is a contiguous piece of the text, starting where the leading white space ends |
| `ChatInputForm.TrimEmptyIffBlank` | src/components/ChatInput.tsx:17 | a text trims to nothing exactly when all its characters are JavaScript white space |
| `ChatInputForm.SkipBlankStops` | src/components/ChatInput.tsx:18 | the forward scan of `trim` passes only white space and stops at the first character that is not |
| `ChatInputForm.BackBlankStops` | src/components/ChatInput.tsx:18 | the backward scan of `trim` passes only white space and stops after the last character that is not |
| `ChatInputForm.TrimIsInfix` | src/components/ChatInput.tsx:18 | the trimmed text is the contiguous piece of the text that starts where the leading white space ends, with only white space before and after it |
| `ChatInputForm.TrimEdges` | src/components/ChatInput.tsx:18 | a non-empty trimmed text neither starts nor ends in white space |
| `ChatInputForm.TrimIdempotent` | src/components/ChatInput.tsx:18 | trimming twice is trimming once |
| `ChatInputForm.CanSubmit` | src/components/ChatInput.tsx:17 | a submit goes through exactly when the text is not all white space, no turn is running and the box is enabled |
| `ChatInputForm.SubmitDisabled` | src/components/ChatInput.tsx:78 | the button is disabled exactly when the text is blank, a turn is running, or the box is disabled |
| `ChatInputForm.ButtonMatchesGuard` | src/components/ChatInput.tsx:17-78 | the button is disabled exactly when a submit would be refused |
| `ChatInputForm.BlockedWhileBusyOrErrored` | src/components/ChatInterface.tsx:127-131 | while loading or on an errored thread nothing is submitted; a submit goes through iff the text is not blank, nothing is loading and the thread is not errored |
| `ChatInputForm.ChatInput.Edit` | src/components/ChatInput.tsx:63-73 | only while no turn runs and the box is enabled (the text area is switched off otherwise): the text becomes the new value, the checkbox is kept |
| `ChatInputForm.ChatInput.SetFinal` | src/components/ChatInput.tsx:43-59 | only while the text is not blank (the checkbox is hidden otherwise), no turn runs and the box is enabled: the checkbox takes the new value, the text is kept |
| `ChatInputForm.ChatInput.HandleSubmit` | src/components/ChatInput.tsx:15-22 | when the guard holds, sends the trimmed text with the checkbox value and clears both; otherwise sends nothing and changes nothing |
| `ChatInputForm.ChatInput.HandleKeyDown` | src/components/ChatInput.tsx:24-29 | Enter without Shift behaves as a submit; any other key sends nothing and changes nothing |
| `ArtifactsPanelView.Toggled` | src/components/ArtifactsPanel.tsx:25-33 | the id flips membership; every other id keeps it |
| `ArtifactsPanelView.ToggleTwice` | src/components/ArtifactsPanel.tsx:25-33 | toggling twice restores the set |
| `ArtifactsPanelView.ToggleCommutes` | src/components/ArtifactsPanel.tsx:25-33 | toggling two ids in either order gives the same set |
| `ArtifactsPanelView.ArtifactsPanel.ToggleExpanded` | src/components/ArtifactsPanel.tsx:25-33 | the stored set becomes the toggled copy |
| `ArtifactsPanelView.OfSession` | src/components/ArtifactsPanel.tsx:82-84 | the filtered list holds each artifact of the session as often as the input does and nothing else |
| `ArtifactsPanelView.SessionArtifactsExact` | src/components/ArtifactsPanel.tsx:82-84 | with a session id the list holds exactly the artifacts of that session; without one, all artifacts |
| `ArtifactsPanelView.SortNewestFirst` | src/components/ArtifactsPanel.tsx:86-88 | the array ends in non-increasing timestamp order and is a permutation of what it held; an array already newest first is left exactly as it was |
| `ArtifactsPanelView.ViewOf` | src/components/ArtifactsPanel.tsx:90-112 | the empty-state notice exactly for an empty list; otherwise a listing whose item count is the list's length |
| `ArtifactsPanelView.StoreKeepsNewestFirst` | src/App.tsx:348 | the store's artifact list, which the panel receives when there is no session id, stays newest first while added artifacts are no older than the newest listed and replacements are newest first |
| `ArtifactsPanelView.ArtifactsPanel.Arrange` | src/components/ArtifactsPanel.tsx:81-112 | the shown list is a permutation of the session's artifacts, newest first; without a session id it is the caller's own array, reordered, and left exactly as it was when it was already newest first; the view is empty iff that list is, otherwise its count is the list's length |
| `SidebarView.ThreadPreview` | src/components/Sidebar.tsx:28-34 | "New conversation" for no messages; the last content unchanged up to 60 characters, else its first 60 followed by "..."; never above 63 |
| `SidebarView.FormatDate` | src/components/Sidebar.tsx:12-26 | days are the whole days elapsed rounded down: 0 is Today, 1 Yesterday, below 7 "n days ago", from 7 on the locale date |
| `SidebarView.FormatDateMonotone` | src/components/Sidebar.tsx:12-26 | of two past dates, the older never lands in a younger bucket: not Today when the newer is not, not Yesterday unless the newer is Today or Yesterday, never fewer "days ago" than the newer, and the newer is a locale date only when the older is too |
| `SidebarView.StatusColor` | src/components/Sidebar.tsx:36-47 | the badge starts with a background class named after the status's hue (green for active, blue for completed, red for error) and ends with the dark "-800" text shade |
| `SidebarView.StatusColorsDistinct` | src/components/Sidebar.tsx:36-47 | the three statuses get three different badge classes |

## Left out

- Network I/O and `async`: the axios client, `generateAd`, `getSessionContext`, `getUserSessions` and `healthCheck` are pure I/O and are not modelled. The one call `sendMessage` makes is an input (`TransportResult`).
- Exceptions: only the transport call can throw in this model. A failure raised while the reply is being processed would also reach the catch block and produce the apology; that path is not modelled.
- Interleaving: `Store.SendMessage` runs a turn to completion, while the program lets the sidebar's "New Conversation" button (`src/components/Sidebar.tsx:62`) and thread rows (`src/components/Sidebar.tsx:83`) dispatch `ADD_THREAD` and `SET_CURRENT_THREAD` during the `await`, since neither is disabled while loading. The resolution still names the snapshot thread by id, so its entry in the list still ends as `TurnThread` (`InterleavedTurn`), but `TurnOnState`'s "the current thread becomes `TurnThread`" no longer holds: a thread the user moved to stays current and untouched (`NavigatedAwayStaysCurrent`). On a binding, `src/App.tsx:132` then writes the old thread's session id into the URL while another thread is current; `Store.Bind` does the same, but no store method models the interleaving itself.
- Browser URL handling (`src/utils/urlParams.ts`) is only the ghost field `Store.sessionParam`. The load-time effect deliberately restores nothing.
- Id generation from `Date.now()` and `Math.random()` is replaced by the `TurnIds` and thread-id parameters. Their freshness is stated as lemma preconditions where the proofs need it.
- Clock: each reducer event carries one `now`, read for both copies of the thread in `ADD_MESSAGE`. `createNewThread` reads `new Date()` twice, for `createdAt` and `updatedAt` (`src/App.tsx:30-31`); the model gives both the one `now`. A turn uses one time for all its messages and artifacts, and one millisecond stamp for its placeholder and artifact ids.
- Message patches can set an optional field but cannot reset it to undefined. The source never does so.
- The event type is closed, so the reducer's `default` branch (an unknown action) does not arise. Likewise the status type is closed, so the grey badge of `getStatusColor`'s `default` branch does not arise.
- Locale formatting of dates is left out: the date bucket returns `LocaleDate(date)` instead of a formatted string.
- The text of "n days ago" is not built: the label is `DaysAgo(n)`. A date in the future gives a negative `n`, as in the code.
- Rendering is left out: JSX, markdown, icons, clipboard copying with its timer, textarea resizing and console logging.
- Strings are sequences of Unicode characters, while JavaScript lengths and `substring` count UTF-16 code units. Titles and previews agree with the source only for text without surrogate pairs.
- `ArtifactsPanelView.SortNewestFirst`: the source's sort is stable and this model does not state stability. Only the order by timestamp and the permutation are proved.
- The artifacts panel's copy-to-clipboard state (`copiedItems`) is left out, because it only feeds rendering.

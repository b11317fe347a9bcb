/**
 * One user turn, as the sequence of store events `sendMessage` dispatches,
 * and the pure derivations it makes on the way: the thread title, the chat
 * text of a reply, the image location and the extracted artifacts.
 */
module Turn {
  import opened ChatTypes
  import opened ChatStore
  import opened AdGeneratorApi

  const TitleLimit := 30
  const CompletedText := "Ad generation completed."
  const ErrorPrefix := "Error: "
  const UnknownError := "Unknown error occurred"
  const Apology := "I apologize, but I encountered an error while processing your request. Please try again."
  const AgentName := "ad_generator"
  const GenerateStep := "generate_ad"

  /**
   * The identifiers a turn generates from the clock and a random source: the
   * user message id, the id the resolved reply gets, and the millisecond
   * stamp that the placeholder and artifact ids are built from.
   */
  datatype TurnIds = TurnIds(userMessageId: string, replyMessageId: string, stamp: string)

  function PlaceholderId(ids: TurnIds): string
  {
    "typing_" + ids.stamp
  }

  /** The title of a thread named after its first message. */
  function Title(text: string): (r: string)
    ensures |text| <= TitleLimit ==> r == text
    ensures |text| > TitleLimit ==> |r| == TitleLimit + 3 && r[..TitleLimit] == text[..TitleLimit] && r[TitleLimit..] == "..."
  {
    if |text| > TitleLimit then text[..TitleLimit] + "..." else text
  }

  /** The location of the first entry of the image's `data` list, when there is one. */
  function FirstDataUrl(image: GeneratedImage): Option<string>
  {
    if image.data.Some? && |image.data.value| > 0 then image.data.value[0] else None
  }

  /**
   * The image location: the first non-empty one of `image_url`, `url` and
   * the first `data` entry's url, in that order of precedence.
   */
  function ImageUrl(image: GeneratedImage): (r: Option<string>)
    ensures r.Some? ==> r.value != ""
    ensures Truthy(image.imageUrl) ==> r == image.imageUrl
    ensures !Truthy(image.imageUrl) && Truthy(image.url) ==> r == image.url
    ensures !Truthy(image.imageUrl) && !Truthy(image.url) && Truthy(FirstDataUrl(image)) ==> r == FirstDataUrl(image)
    ensures r.None? <==> !Truthy(image.imageUrl) && !Truthy(image.url) && !Truthy(FirstDataUrl(image))
  {
    if Truthy(image.imageUrl) then image.imageUrl
    else if Truthy(image.url) then image.url
    else if Truthy(FirstDataUrl(image)) then FirstDataUrl(image)
    else None
  }

  /** The location of a successfully generated image, if the reply carries one. */
  function GeneratedImageUrl(resp: GenerationResponse): Option<string>
  {
    if resp.generatedImage.Some? && resp.generatedImage.value.success
    then ImageUrl(resp.generatedImage.value)
    else None
  }

  function ImageMarkdown(url: string): string
  {
    "![Generated Image](" + url + ")"
  }

  /** The reply text before any image: the post, else the enhanced prompt, else a fixed line. */
  function ReplyText(resp: GenerationResponse): (r: string)
    ensures Truthy(resp.generatedPost) ==> r == resp.generatedPost.value
    ensures !Truthy(resp.generatedPost) && Truthy(resp.enhancedPrompt) ==> r == resp.enhancedPrompt.value
    ensures !Truthy(resp.generatedPost) && !Truthy(resp.enhancedPrompt) ==> r == CompletedText
    ensures r != ""
  {
    if Truthy(resp.generatedPost) then resp.generatedPost.value
    else if Truthy(resp.enhancedPrompt) then resp.enhancedPrompt.value
    else CompletedText
  }

  /**
   * The assistant's chat content: the reply text, followed by a markdown
   * image reference exactly when an image was generated with a location.
   */
  function ChatContent(resp: GenerationResponse): (r: string)
    ensures |ReplyText(resp)| <= |r| && r[..|ReplyText(resp)|] == ReplyText(resp)
    ensures r == ReplyText(resp) <==> GeneratedImageUrl(resp).None?
    ensures GeneratedImageUrl(resp).Some? ==>
              r == ReplyText(resp) + "\n\n" + ImageMarkdown(GeneratedImageUrl(resp).value)
  {
    var url := GeneratedImageUrl(resp);
    if url.Some? then ReplyText(resp) + "\n\n" + ImageMarkdown(url.value) else ReplyText(resp)
  }

  // ---------------------------------------------------------------------------
  // Artifact extraction

  const PromptTitle := "Enhanced Prompt"
  const PostTitle := "Generated Ad Content"
  const ComplianceTitle := "Compliance Check"
  const ImagePromptTitle := "Image Prompt"
  const ImageResultTitle := "Generated Image"

  /** An artifact of one extraction slot, made only when its source text is non-empty. */
  function Extracted(source: Option<string>, idPrefix: string, kind: ArtifactType, title: string,
                     resp: GenerationResponse, messageId: string, stamp: string, now: int): seq<Artifact>
  {
    if Truthy(source)
    then [Artifact(idPrefix + stamp, kind, title, source.value, now, resp.sessionId, messageId)]
    else []
  }

  function ImageResultContent(url: string): string
  {
    ImageMarkdown(url) + "\n\n**Image URL:** " + url
  }

  /** The generated-image slot: present when the reply carries an image location. */
  function ImageResult(resp: GenerationResponse, messageId: string, stamp: string, now: int): seq<Artifact>
  {
    var url := GeneratedImageUrl(resp);
    if url.Some?
    then [Artifact("artifact_image_result_" + stamp, Image, ImageResultTitle, ImageResultContent(url.value),
                   now, resp.sessionId, messageId)]
    else []
  }

  /** Five slots pushed one after another, regrouped from the right. */
  lemma Regroup(p: seq<Artifact>, q: seq<Artifact>, c: seq<Artifact>, d: seq<Artifact>, g: seq<Artifact>)
    ensures p + q + c + d + g == p + (q + (c + (d + g)))
  {
  }

  /**
   * The artifacts a successful reply yields, in extraction order: enhanced
   * prompt, post, compliance check, image prompt, generated image. All carry
   * the reply's session id and the resolved assistant message's id.
   */
  function ArtifactsOf(resp: GenerationResponse, messageId: string, stamp: string, now: int): (r: seq<Artifact>)
    ensures |r| <= 5
    ensures forall k :: 0 <= k < |r| ==>
              r[k].sessionId == resp.sessionId && r[k].messageId == messageId &&
              r[k].timestamp == now && r[k].content != ""
  {
    Extracted(resp.enhancedPrompt, "artifact_prompt_", Prompt, PromptTitle, resp, messageId, stamp, now)
    + Extracted(resp.generatedPost, "artifact_post_", Post, PostTitle, resp, messageId, stamp, now)
    + Extracted(resp.complianceCheck, "artifact_compliance_", Compliance, ComplianceTitle, resp, messageId, stamp, now)
    + Extracted(resp.imagePrompt, "artifact_image_", Image, ImagePromptTitle, resp, messageId, stamp, now)
    + ImageResult(resp, messageId, stamp, now)
  }

  /** The position of a slot, known by its title, in the extraction order. */
  function TitleRank(title: string): nat
  {
    if title == PromptTitle then 0
    else if title == PostTitle then 1
    else if title == ComplianceTitle then 2
    else if title == ImagePromptTitle then 3
    else 4
  }

  function SlotRank(a: Artifact): nat
  {
    TitleRank(a.title)
  }

  function Titles(r: seq<Artifact>): seq<string>
  {
    seq(|r|, k requires 0 <= k < |r| => r[k].title)
  }

  ghost predicate RankedFrom(r: seq<Artifact>, lo: nat)
  {
    (forall k :: 0 <= k < |r| ==> lo <= SlotRank(r[k])) &&
    (forall i, j :: 0 <= i < j < |r| ==> SlotRank(r[i]) < SlotRank(r[j]))
  }

  lemma SlotTitlesDistinct()
    ensures PromptTitle != PostTitle && PromptTitle != ComplianceTitle
    ensures PromptTitle != ImagePromptTitle && PromptTitle != ImageResultTitle
    ensures PostTitle != ComplianceTitle && PostTitle != ImagePromptTitle && PostTitle != ImageResultTitle
    ensures ComplianceTitle != ImagePromptTitle && ComplianceTitle != ImageResultTitle
    ensures ImagePromptTitle != ImageResultTitle
  {
    assert PromptTitle[0] == 'E' && PostTitle[0] == 'G' && ComplianceTitle[0] == 'C';
    assert ImagePromptTitle[0] == 'I' && ImageResultTitle[0] == 'G';
    assert PostTitle[10] == 'A' && ImageResultTitle[10] == 'I';
  }

  lemma RankedCons(head: seq<Artifact>, rest: seq<Artifact>, lo: nat)
    requires |head| <= 1 && (forall k :: 0 <= k < |head| ==> SlotRank(head[k]) == lo)
    requires RankedFrom(rest, lo + 1)
    ensures RankedFrom(head + rest, lo)
  {
    var r := head + rest;
    forall i, j | 0 <= i < j < |r| ensures SlotRank(r[i]) < SlotRank(r[j]) {
      if i < |head| {
        assert r[j] == rest[j - |head|];
      } else {
        assert r[i] == rest[i - |head|] && r[j] == rest[j - |head|];
      }
    }
  }

  lemma TitlesConcat(a: seq<Artifact>, b: seq<Artifact>)
    ensures Titles(a + b) == Titles(a) + Titles(b)
  {
    assert forall k :: 0 <= k < |a| ==> (a + b)[k] == a[k];
    assert forall k :: |a| <= k < |a| + |b| ==> (a + b)[k] == b[k - |a|];
  }

  /** The five slot titles are ranked 0 to 4. */
  lemma TitleRanks()
    ensures TitleRank(PromptTitle) == 0 && TitleRank(PostTitle) == 1 && TitleRank(ComplianceTitle) == 2
    ensures TitleRank(ImagePromptTitle) == 3 && TitleRank(ImageResultTitle) == 4
  {
    SlotTitlesDistinct();
  }

  lemma ExtractedCons(source: Option<string>, idPrefix: string, kind: ArtifactType, title: string,
                      resp: GenerationResponse, messageId: string, stamp: string, now: int,
                      rest: seq<Artifact>, lo: nat)
    requires TitleRank(title) == lo && RankedFrom(rest, lo + 1)
    ensures RankedFrom(Extracted(source, idPrefix, kind, title, resp, messageId, stamp, now) + rest, lo)
  {
    RankedCons(Extracted(source, idPrefix, kind, title, resp, messageId, stamp, now), rest, lo);
  }

  lemma ImageResultRanked(resp: GenerationResponse, messageId: string, stamp: string, now: int)
    requires TitleRank(ImageResultTitle) == 4
    ensures RankedFrom(ImageResult(resp, messageId, stamp, now), 4)
  {
  }

  /** Extraction yields the five slots in their fixed order, never one twice. */
  lemma ArtifactsRanked(resp: GenerationResponse, messageId: string, stamp: string, now: int)
    ensures RankedFrom(ArtifactsOf(resp, messageId, stamp, now), 0)
  {
    TitleRanks();
    var p := Extracted(resp.enhancedPrompt, "artifact_prompt_", Prompt, PromptTitle, resp, messageId, stamp, now);
    var q := Extracted(resp.generatedPost, "artifact_post_", Post, PostTitle, resp, messageId, stamp, now);
    var c := Extracted(resp.complianceCheck, "artifact_compliance_", Compliance, ComplianceTitle, resp, messageId, stamp, now);
    var d := Extracted(resp.imagePrompt, "artifact_image_", Image, ImagePromptTitle, resp, messageId, stamp, now);
    var g := ImageResult(resp, messageId, stamp, now);
    Regroup(p, q, c, d, g);
    ImageResultRanked(resp, messageId, stamp, now);
    ExtractedCons(resp.imagePrompt, "artifact_image_", Image, ImagePromptTitle, resp, messageId, stamp, now, g, 3);
    ExtractedCons(resp.complianceCheck, "artifact_compliance_", Compliance, ComplianceTitle, resp, messageId, stamp, now, d + g, 2);
    ExtractedCons(resp.generatedPost, "artifact_post_", Post, PostTitle, resp, messageId, stamp, now, c + (d + g), 1);
    ExtractedCons(resp.enhancedPrompt, "artifact_prompt_", Prompt, PromptTitle, resp, messageId, stamp, now, q + (c + (d + g)), 0);
  }

  lemma ExtractedTitles(source: Option<string>, idPrefix: string, kind: ArtifactType, title: string,
                        resp: GenerationResponse, messageId: string, stamp: string, now: int)
    ensures Titles(Extracted(source, idPrefix, kind, title, resp, messageId, stamp, now))
         == if Truthy(source) then [title] else []
  {
  }

  /** The title a slot contributes: its own when present, none otherwise. */
  function SlotTitle(present: bool, title: string): seq<string>
  {
    if present then [title] else []
  }

  /** The titles of the extracted artifacts, slot by slot. */
  lemma ArtifactTitles(resp: GenerationResponse, messageId: string, stamp: string, now: int)
    ensures Titles(ArtifactsOf(resp, messageId, stamp, now))
         == SlotTitle(Truthy(resp.enhancedPrompt), PromptTitle) + (SlotTitle(Truthy(resp.generatedPost), PostTitle) +
            (SlotTitle(Truthy(resp.complianceCheck), ComplianceTitle) + (SlotTitle(Truthy(resp.imagePrompt), ImagePromptTitle) +
             SlotTitle(GeneratedImageUrl(resp).Some?, ImageResultTitle))))
  {
    var p := Extracted(resp.enhancedPrompt, "artifact_prompt_", Prompt, PromptTitle, resp, messageId, stamp, now);
    var q := Extracted(resp.generatedPost, "artifact_post_", Post, PostTitle, resp, messageId, stamp, now);
    var c := Extracted(resp.complianceCheck, "artifact_compliance_", Compliance, ComplianceTitle, resp, messageId, stamp, now);
    var d := Extracted(resp.imagePrompt, "artifact_image_", Image, ImagePromptTitle, resp, messageId, stamp, now);
    var g := ImageResult(resp, messageId, stamp, now);
    Regroup(p, q, c, d, g);
    TitlesConcat(d, g);
    TitlesConcat(c, d + g);
    TitlesConcat(q, c + (d + g));
    TitlesConcat(p, q + (c + (d + g)));
    ExtractedTitles(resp.enhancedPrompt, "artifact_prompt_", Prompt, PromptTitle, resp, messageId, stamp, now);
    ExtractedTitles(resp.generatedPost, "artifact_post_", Post, PostTitle, resp, messageId, stamp, now);
    ExtractedTitles(resp.complianceCheck, "artifact_compliance_", Compliance, ComplianceTitle, resp, messageId, stamp, now);
    ExtractedTitles(resp.imagePrompt, "artifact_image_", Image, ImagePromptTitle, resp, messageId, stamp, now);
    assert Titles(g) == SlotTitle(GeneratedImageUrl(resp).Some?, ImageResultTitle);
  }

  /** Each slot is present exactly when its source is non-empty (the image slot: when an image location exists). */
  lemma ArtifactsPresence(resp: GenerationResponse, messageId: string, stamp: string, now: int)
    ensures PromptTitle in Titles(ArtifactsOf(resp, messageId, stamp, now)) <==> Truthy(resp.enhancedPrompt)
    ensures PostTitle in Titles(ArtifactsOf(resp, messageId, stamp, now)) <==> Truthy(resp.generatedPost)
    ensures ComplianceTitle in Titles(ArtifactsOf(resp, messageId, stamp, now)) <==> Truthy(resp.complianceCheck)
    ensures ImagePromptTitle in Titles(ArtifactsOf(resp, messageId, stamp, now)) <==> Truthy(resp.imagePrompt)
    ensures ImageResultTitle in Titles(ArtifactsOf(resp, messageId, stamp, now)) <==> GeneratedImageUrl(resp).Some?
  {
    TitleRanks();
    ArtifactTitles(resp, messageId, stamp, now);
    var b1, b2, b3 := Truthy(resp.enhancedPrompt), Truthy(resp.generatedPost), Truthy(resp.complianceCheck);
    var b4, b5 := Truthy(resp.imagePrompt), GeneratedImageUrl(resp).Some?;
    InSlotTitles(PromptTitle, b1, b2, b3, b4, b5);
    InSlotTitles(PostTitle, b1, b2, b3, b4, b5);
    InSlotTitles(ComplianceTitle, b1, b2, b3, b4, b5);
    InSlotTitles(ImagePromptTitle, b1, b2, b3, b4, b5);
    InSlotTitles(ImageResultTitle, b1, b2, b3, b4, b5);
  }

  /** A title is among the slot titles exactly when one of the present slots has it. */
  lemma InSlotTitles(x: string, b1: bool, b2: bool, b3: bool, b4: bool, b5: bool)
    ensures x in SlotTitle(b1, PromptTitle) + (SlotTitle(b2, PostTitle) + (SlotTitle(b3, ComplianceTitle) +
                 (SlotTitle(b4, ImagePromptTitle) + SlotTitle(b5, ImageResultTitle))))
        <==> (b1 && x == PromptTitle) || (b2 && x == PostTitle) || (b3 && x == ComplianceTitle) ||
             (b4 && x == ImagePromptTitle) || (b5 && x == ImageResultTitle)
  {
  }

  /**
   * An extracted artifact carries its own slot's source: the kind, the id
   * prefix and the content of the field its title names, and that field is
   * non-empty. The generated-image slot's content is the image reference
   * followed by the location as text.
   */
  ghost predicate FromSource(a: Artifact, resp: GenerationResponse, stamp: string)
  {
    (a.title == PromptTitle || a.title == PostTitle || a.title == ComplianceTitle ||
     a.title == ImagePromptTitle || a.title == ImageResultTitle) &&
    (a.title == PromptTitle ==>
       a.kind == Prompt && a.id == "artifact_prompt_" + stamp &&
       Truthy(resp.enhancedPrompt) && a.content == resp.enhancedPrompt.value) &&
    (a.title == PostTitle ==>
       a.kind == Post && a.id == "artifact_post_" + stamp &&
       Truthy(resp.generatedPost) && a.content == resp.generatedPost.value) &&
    (a.title == ComplianceTitle ==>
       a.kind == Compliance && a.id == "artifact_compliance_" + stamp &&
       Truthy(resp.complianceCheck) && a.content == resp.complianceCheck.value) &&
    (a.title == ImagePromptTitle ==>
       a.kind == Image && a.id == "artifact_image_" + stamp &&
       Truthy(resp.imagePrompt) && a.content == resp.imagePrompt.value) &&
    (a.title == ImageResultTitle ==>
       a.kind == Image && a.id == "artifact_image_result_" + stamp &&
       GeneratedImageUrl(resp).Some? &&
       a.content == ImageMarkdown(GeneratedImageUrl(resp).value) + "\n\n**Image URL:** " + GeneratedImageUrl(resp).value)
  }

  ghost predicate AllFromSource(r: seq<Artifact>, resp: GenerationResponse, stamp: string)
  {
    forall k :: 0 <= k < |r| ==> FromSource(r[k], resp, stamp)
  }

  lemma AllFromSourceConcat(a: seq<Artifact>, b: seq<Artifact>, resp: GenerationResponse, stamp: string)
    requires AllFromSource(a, resp, stamp) && AllFromSource(b, resp, stamp)
    ensures AllFromSource(a + b, resp, stamp)
  {
    forall k | 0 <= k < |a + b| ensures FromSource((a + b)[k], resp, stamp) {
      if k >= |a| {
        assert (a + b)[k] == b[k - |a|];
      }
    }
  }

  /** Every extracted artifact carries the kind, id and content of the field its title names. */
  lemma ArtifactsFromSources(resp: GenerationResponse, messageId: string, stamp: string, now: int)
    ensures var r := ArtifactsOf(resp, messageId, stamp, now);
            forall k :: 0 <= k < |r| ==> FromSource(r[k], resp, stamp)
  {
    SlotTitlesDistinct();
    var p := Extracted(resp.enhancedPrompt, "artifact_prompt_", Prompt, PromptTitle, resp, messageId, stamp, now);
    var q := Extracted(resp.generatedPost, "artifact_post_", Post, PostTitle, resp, messageId, stamp, now);
    var c := Extracted(resp.complianceCheck, "artifact_compliance_", Compliance, ComplianceTitle, resp, messageId, stamp, now);
    var d := Extracted(resp.imagePrompt, "artifact_image_", Image, ImagePromptTitle, resp, messageId, stamp, now);
    var g := ImageResult(resp, messageId, stamp, now);
    assert AllFromSource(p, resp, stamp);
    assert AllFromSource(q, resp, stamp);
    assert AllFromSource(c, resp, stamp);
    assert AllFromSource(d, resp, stamp);
    assert AllFromSource(g, resp, stamp);
    Regroup(p, q, c, d, g);
    AllFromSourceConcat(d, g, resp, stamp);
    AllFromSourceConcat(c, d + g, resp, stamp);
    AllFromSourceConcat(q, c + (d + g), resp, stamp);
    AllFromSourceConcat(p, q + (c + (d + g)), resp, stamp);
  }

  /** A reply with all four texts and a located image yields exactly five artifacts. */
  lemma FullReplyYieldsFive(resp: GenerationResponse, messageId: string, stamp: string, now: int)
    requires Truthy(resp.enhancedPrompt) && Truthy(resp.generatedPost)
    requires Truthy(resp.complianceCheck) && Truthy(resp.imagePrompt)
    requires GeneratedImageUrl(resp).Some?
    ensures |ArtifactsOf(resp, messageId, stamp, now)| == 5
    ensures var r := ArtifactsOf(resp, messageId, stamp, now);
            r[0].kind == Prompt && r[1].kind == Post && r[2].kind == Compliance &&
            r[3].kind == Image && r[4].kind == Image
  {
  }

  /** `[a, b, c]` is dispatched in order, so the store's front holds `[c, b, a]`. */
  function Reversed<T>(s: seq<T>): (r: seq<T>)
    ensures |r| == |s|
    ensures forall k :: 0 <= k < |s| ==> r[k] == s[|s| - 1 - k]
  {
    if s == [] then [] else Reversed(s[1..]) + [s[0]]
  }

  function ArtifactEvents(artifacts: seq<Artifact>): seq<Event>
  {
    seq(|artifacts|, k requires 0 <= k < |artifacts| => AddArtifact(artifacts[k]))
  }

  lemma {:induction false} ArtifactEventsPrepend(current: seq<Artifact>, artifacts: seq<Artifact>)
    ensures ArtifactReplay(current, ArtifactEvents(artifacts)) == Reversed(artifacts) + current
    decreases |artifacts|
  {
    if artifacts != [] {
      var es := ArtifactEvents(artifacts);
      assert es[1..] == ArtifactEvents(artifacts[1..]);
      ArtifactEventsPrepend([artifacts[0]] + current, artifacts[1..]);
      assert Reversed(artifacts[1..]) + ([artifacts[0]] + current) == Reversed(artifacts) + current;
    }
  }

  // ---------------------------------------------------------------------------
  // The events of one turn

  function UserMessage(ids: TurnIds, text: string, now: int): Message
  {
    Message(ids.userMessageId, text, User, now, None, None, None)
  }

  function Placeholder(ids: TurnIds, now: int): Message
  {
    Message(PlaceholderId(ids), "", Assistant, now, None, None, Some(true))
  }

  const StopTyping := NoMessageUpdates.(isTyping := Some(false))

  function ReplyUpdates(id: string, content: string): MessagePatch
  {
    NoMessageUpdates.(id := Some(id), content := Some(content), agentUsed := Some(AgentName),
                      stepName := Some(GenerateStep), isTyping := Some(false))
  }

  function ErrorUpdates(id: string, content: string): MessagePatch
  {
    NoMessageUpdates.(id := Some(id), content := Some(content), isTyping := Some(false))
  }

  function ErrorText(resp: GenerationResponse): (r: string)
    ensures |r| > |ErrorPrefix| && r[..|ErrorPrefix|] == ErrorPrefix
    ensures Truthy(resp.error) ==> r[|ErrorPrefix|..] == resp.error.value
    ensures !Truthy(resp.error) ==> r[|ErrorPrefix|..] == UnknownError
  {
    ErrorPrefix + (if Truthy(resp.error) then resp.error.value else UnknownError)
  }

  /** The snapshot thread had no session id and the reply names a non-empty one. */
  predicate BindsSession(t: ChatThread, resp: GenerationResponse)
  {
    !Truthy(t.sessionId) && resp.sessionId != ""
  }

  /** The session id handed to the transport: none on a thread's first message. */
  function SessionToSend(t: ChatThread): (r: Option<string>)
    ensures r.Some? ==> t.messages != [] && r == t.sessionId
    ensures t.messages != [] ==> r == t.sessionId
  {
    if |t.messages| == 0 then None else t.sessionId
  }

  /** Up to the transport call: user message, title on a first message, placeholder, loading on. */
  function Prologue(t: ChatThread, text: string, ids: TurnIds, now: int): seq<Event>
  {
    [AddMessage(t.id, UserMessage(ids, text, now), now)]
    + (if |t.messages| == 0 then [UpdateThread(t.id, NoThreadUpdates.(title := Some(Title(text))))] else [])
    + [AddMessage(t.id, Placeholder(ids, now), now), SetLoading(true)]
  }

  function FailureEvents(t: ChatThread, ids: TurnIds, content: string): seq<Event>
  {
    [UpdateMessage(t.id, PlaceholderId(ids), ErrorUpdates(ids.replyMessageId, content)),
     UpdateThread(t.id, NoThreadUpdates.(status := Some(Error)))]
  }

  /** The session binding a successful reply dispatches: one event when the thread had no session id, none otherwise. */
  function BindEvents(t: ChatThread, resp: GenerationResponse): seq<Event>
  {
    if BindsSession(t, resp) then [UpdateThread(t.id, NoThreadUpdates.(sessionId := Some(resp.sessionId)))] else []
  }

  function SuccessEvents(t: ChatThread, resp: GenerationResponse, ids: TurnIds, now: int): seq<Event>
  {
    BindEvents(t, resp)
    + [UpdateMessage(t.id, PlaceholderId(ids), ReplyUpdates(ids.replyMessageId, ChatContent(resp)))]
    + ArtifactEvents(ArtifactsOf(resp, ids.replyMessageId, ids.stamp, now))
  }

  /** After the transport call: the placeholder is resolved one way or another. */
  function Resolution(t: ChatThread, outcome: TransportResult, ids: TurnIds, now: int): seq<Event>
  {
    match outcome
    case Threw => FailureEvents(t, ids, Apology)
    case Responded(resp) =>
      [UpdateMessage(t.id, PlaceholderId(ids), StopTyping)]
      + (if resp.success then SuccessEvents(t, resp, ids, now) else FailureEvents(t, ids, ErrorText(resp)))
  }

  /** Every event `sendMessage` dispatches, given the thread it found current (or none). */
  function TurnEvents(snapshot: Option<ChatThread>, text: string, outcome: TransportResult,
                      ids: TurnIds, now: int): (r: seq<Event>)
    ensures snapshot.None? <==> r == []
  {
    if snapshot.None? then []
    else
      var t := snapshot.value;
      Prologue(t, text, ids, now) + Resolution(t, outcome, ids, now) + [SetLoading(false)]
  }

  /** The session id a turn binds to its thread, if any. */
  function BoundSession(snapshot: Option<ChatThread>, outcome: TransportResult): (r: Option<string>)
    ensures r.Some? ==> r.value != "" && snapshot.Some? && !Truthy(snapshot.value.sessionId)
    ensures r.Some? ==> outcome.Responded? && outcome.body.success && r.value == outcome.body.sessionId
  {
    if snapshot.Some? && outcome.Responded? && outcome.body.success && BindsSession(snapshot.value, outcome.body)
    then Some(outcome.body.sessionId)
    else None
  }

  /** The assistant message the placeholder turns into. */
  function Reply(outcome: TransportResult, ids: TurnIds, now: int): (m: Message)
    ensures m.id == ids.replyMessageId
    ensures m.sender == Assistant && m.isTyping == Some(false) && m.timestamp == now
    ensures outcome.Threw? ==> m.content == Apology
    ensures outcome.Responded? && !outcome.body.success ==> m.content == ErrorText(outcome.body)
    ensures outcome.Responded? && outcome.body.success ==>
              m.content == ChatContent(outcome.body) &&
              m.agentUsed == Some(AgentName) && m.stepName == Some(GenerateStep)
  {
    match outcome
    case Threw => Message(ids.replyMessageId, Apology, Assistant, now, None, None, Some(false))
    case Responded(resp) =>
      if resp.success
      then Message(ids.replyMessageId, ChatContent(resp), Assistant, now, Some(AgentName), Some(GenerateStep), Some(false))
      else Message(ids.replyMessageId, ErrorText(resp), Assistant, now, None, None, Some(false))
  }

  function CountAppends(es: seq<Event>): nat
    decreases |es|
  {
    if es == [] then 0 else (if es[0].AddMessage? then 1 else 0) + CountAppends(es[1..])
  }

  lemma {:induction false} CountAppendsConcat(a: seq<Event>, b: seq<Event>)
    ensures CountAppends(a + b) == CountAppends(a) + CountAppends(b)
    decreases |a|
  {
    if a == [] {
      assert a + b == b;
    } else {
      assert (a + b)[1..] == a[1..] + b;
      CountAppendsConcat(a[1..], b);
    }
  }

  lemma {:induction false} NoAppendsAmongArtifacts(artifacts: seq<Artifact>)
    ensures CountAppends(ArtifactEvents(artifacts)) == 0
    decreases |artifacts|
  {
    if artifacts != [] {
      assert ArtifactEvents(artifacts)[1..] == ArtifactEvents(artifacts[1..]);
      NoAppendsAmongArtifacts(artifacts[1..]);
    }
  }

  lemma CountAppendsOne(e: Event)
    ensures CountAppends([e]) == if e.AddMessage? then 1 else 0
  {
    assert [e][1..] == [];
  }

  lemma CountAppendsTwo(a: Event, b: Event)
    ensures CountAppends([a, b]) == CountAppends([a]) + CountAppends([b])
  {
    assert [a, b] == [a] + [b];
    CountAppendsConcat([a], [b]);
  }

  lemma PrologueAppendsTwo(t: ChatThread, text: string, ids: TurnIds, now: int)
    ensures CountAppends(Prologue(t, text, ids, now)) == 2
  {
    var first := [AddMessage(t.id, UserMessage(ids, text, now), now)];
    var title: seq<Event> := if |t.messages| == 0 then [UpdateThread(t.id, NoThreadUpdates.(title := Some(Title(text))))] else [];
    var rest := [AddMessage(t.id, Placeholder(ids, now), now), SetLoading(true)];
    assert Prologue(t, text, ids, now) == first + title + rest;
    CountAppendsOne(first[0]);
    if |t.messages| == 0 {
      CountAppendsOne(title[0]);
    }
    CountAppendsTwo(rest[0], rest[1]);
    CountAppendsOne(rest[0]);
    CountAppendsOne(rest[1]);
    CountAppendsConcat(first, title);
    CountAppendsConcat(first + title, rest);
  }

  lemma FailureAppendsNone(t: ChatThread, ids: TurnIds, content: string)
    ensures CountAppends(FailureEvents(t, ids, content)) == 0
  {
    var e := FailureEvents(t, ids, content);
    CountAppendsTwo(e[0], e[1]);
    CountAppendsOne(e[0]);
    CountAppendsOne(e[1]);
  }

  lemma ResolutionAppendsNone(t: ChatThread, outcome: TransportResult, ids: TurnIds, now: int)
    ensures CountAppends(Resolution(t, outcome, ids, now)) == 0
  {
    match outcome {
      case Threw =>
        FailureAppendsNone(t, ids, Apology);
      case Responded(resp) =>
        var stop := [UpdateMessage(t.id, PlaceholderId(ids), StopTyping)];
        CountAppendsOne(stop[0]);
        if resp.success {
          var bind := BindEvents(t, resp);
          var resolve := [UpdateMessage(t.id, PlaceholderId(ids), ReplyUpdates(ids.replyMessageId, ChatContent(resp)))];
          var artifacts := ArtifactsOf(resp, ids.replyMessageId, ids.stamp, now);
          assert SuccessEvents(t, resp, ids, now) == bind + resolve + ArtifactEvents(artifacts);
          if BindsSession(t, resp) {
            CountAppendsOne(bind[0]);
          }
          CountAppendsOne(resolve[0]);
          NoAppendsAmongArtifacts(artifacts);
          CountAppendsConcat(bind, resolve);
          CountAppendsConcat(bind + resolve, ArtifactEvents(artifacts));
          CountAppendsConcat(stop, SuccessEvents(t, resp, ids, now));
        } else {
          FailureAppendsNone(t, ids, ErrorText(resp));
          CountAppendsConcat(stop, FailureEvents(t, ids, ErrorText(resp)));
        }
    }
  }

  /**
   * The shape of a turn's event sequence: it starts with the user's message,
   * appends exactly two messages (user, then placeholder), switches loading on
   * right before the transport call and off as its very last event, and adds
   * artifacts only after a successful reply.
   */
  lemma TurnEventShape(t: ChatThread, text: string, outcome: TransportResult, ids: TurnIds, now: int)
    ensures var es := TurnEvents(Some(t), text, outcome, ids, now);
            var p := Prologue(t, text, ids, now);
            |p| <= |es| && es[..|p|] == p &&
            es[0] == AddMessage(t.id, UserMessage(ids, text, now), now) &&
            p[|p| - 1] == SetLoading(true) &&
            es[|es| - 1] == SetLoading(false) &&
            CountAppends(es) == 2
    ensures !(outcome.Responded? && outcome.body.success) ==>
              forall k :: 0 <= k < |TurnEvents(Some(t), text, outcome, ids, now)| ==>
                !TurnEvents(Some(t), text, outcome, ids, now)[k].AddArtifact?
  {
    var p := Prologue(t, text, ids, now);
    var e := Resolution(t, outcome, ids, now);
    var es := TurnEvents(Some(t), text, outcome, ids, now);
    assert es == p + e + [SetLoading(false)];
    assert (p + e + [SetLoading(false)])[..|p|] == p;
    PrologueAppendsTwo(t, text, ids, now);
    ResolutionAppendsNone(t, outcome, ids, now);
    CountAppendsOne(SetLoading(false));
    CountAppendsConcat(p, e);
    CountAppendsConcat(p + e, [SetLoading(false)]);
  }

  /** Every event is thread-local and names no thread but `id`. */
  ghost predicate Scoped(es: seq<Event>, id: string)
  {
    forall k :: 0 <= k < |es| ==> ThreadLocal(es[k]) && (TargetsThread(es[k]) ==> es[k].threadId == id)
  }

  lemma ScopedConcat(a: seq<Event>, b: seq<Event>, id: string)
    requires Scoped(a, id) && Scoped(b, id)
    ensures Scoped(a + b, id)
  {
    forall k | 0 <= k < |a + b|
      ensures ThreadLocal((a + b)[k]) && (TargetsThread((a + b)[k]) ==> (a + b)[k].threadId == id)
    {
      if k >= |a| {
        assert (a + b)[k] == b[k - |a|];
      }
    }
  }

  /**
   * A turn neither selects, adds, replaces nor renames a thread, and every
   * event that names a thread names the snapshot thread.
   */
  lemma TurnEventsScoped(t: ChatThread, text: string, outcome: TransportResult, ids: TurnIds, now: int)
    ensures Scoped(TurnEvents(Some(t), text, outcome, ids, now), t.id)
  {
    var p := Prologue(t, text, ids, now);
    var first := [AddMessage(t.id, UserMessage(ids, text, now), now)];
    var title: seq<Event> := if |t.messages| == 0 then [UpdateThread(t.id, NoThreadUpdates.(title := Some(Title(text))))] else [];
    var rest := [AddMessage(t.id, Placeholder(ids, now), now), SetLoading(true)];
    assert p == first + title + rest;
    ScopedConcat(first, title, t.id);
    ScopedConcat(first + title, rest, t.id);
    var e := Resolution(t, outcome, ids, now);
    match outcome {
      case Threw =>
      case Responded(resp) =>
        var stop := [UpdateMessage(t.id, PlaceholderId(ids), StopTyping)];
        if resp.success {
          var bind := BindEvents(t, resp);
          var resolve := [UpdateMessage(t.id, PlaceholderId(ids), ReplyUpdates(ids.replyMessageId, ChatContent(resp)))];
          var arts := ArtifactEvents(ArtifactsOf(resp, ids.replyMessageId, ids.stamp, now));
          assert SuccessEvents(t, resp, ids, now) == bind + resolve + arts;
          ScopedConcat(bind, resolve, t.id);
          ScopedConcat(bind + resolve, arts, t.id);
          ScopedConcat(stop, SuccessEvents(t, resp, ids, now), t.id);
        } else {
          ScopedConcat(stop, FailureEvents(t, ids, ErrorText(resp)), t.id);
        }
    }
    ScopedConcat(p, e, t.id);
    ScopedConcat(p + e, [SetLoading(false)], t.id);
  }

  lemma PrologueKeepsArtifacts(t: ChatThread, text: string, ids: TurnIds, now: int)
    ensures forall k :: 0 <= k < |Prologue(t, text, ids, now)| ==> KeepsArtifacts(Prologue(t, text, ids, now)[k])
  {
    var title: seq<Event> := if |t.messages| == 0 then [UpdateThread(t.id, NoThreadUpdates.(title := Some(Title(text))))] else [];
    assert Prologue(t, text, ids, now) == [AddMessage(t.id, UserMessage(ids, text, now), now)] + title
                + [AddMessage(t.id, Placeholder(ids, now), now), SetLoading(true)];
  }

  lemma FailureKeepsArtifacts(t: ChatThread, ids: TurnIds, content: string, current: seq<Artifact>)
    ensures ArtifactReplay(current, FailureEvents(t, ids, content)) == current
  {
    ArtifactReplayIdle(current, FailureEvents(t, ids, content));
  }

  lemma SuccessArtifacts(t: ChatThread, resp: GenerationResponse, ids: TurnIds, now: int, current: seq<Artifact>)
    ensures ArtifactReplay(current, SuccessEvents(t, resp, ids, now))
         == Reversed(ArtifactsOf(resp, ids.replyMessageId, ids.stamp, now)) + current
  {
    var bind := BindEvents(t, resp);
    var head := bind + [UpdateMessage(t.id, PlaceholderId(ids), ReplyUpdates(ids.replyMessageId, ChatContent(resp)))];
    var artifacts := ArtifactsOf(resp, ids.replyMessageId, ids.stamp, now);
    assert SuccessEvents(t, resp, ids, now) == head + ArtifactEvents(artifacts);
    ArtifactReplayIdle(current, head);
    ArtifactReplayConcat(current, head, ArtifactEvents(artifacts));
    ArtifactEventsPrepend(current, artifacts);
  }

  lemma ResolutionArtifacts(t: ChatThread, outcome: TransportResult, ids: TurnIds, now: int, current: seq<Artifact>)
    ensures ArtifactReplay(current, Resolution(t, outcome, ids, now))
         == if outcome.Responded? && outcome.body.success
            then Reversed(ArtifactsOf(outcome.body, ids.replyMessageId, ids.stamp, now)) + current
            else current
  {
    match outcome {
      case Threw =>
        FailureKeepsArtifacts(t, ids, Apology, current);
      case Responded(resp) =>
        var stop := [UpdateMessage(t.id, PlaceholderId(ids), StopTyping)];
        var rest := if resp.success then SuccessEvents(t, resp, ids, now) else FailureEvents(t, ids, ErrorText(resp));
        assert Resolution(t, outcome, ids, now) == stop + rest;
        ArtifactReplayConcat(current, stop, rest);
        ArtifactReplayIdle(current, stop);
        if resp.success {
          SuccessArtifacts(t, resp, ids, now, current);
        } else {
          FailureKeepsArtifacts(t, ids, ErrorText(resp), current);
        }
    }
  }

  /**
   * The artifact list after a turn: a successful reply pushes its extracted
   * artifacts to the front, last extracted first; every other outcome leaves
   * the list as it was.
   */
  lemma TurnArtifacts(t: ChatThread, text: string, outcome: TransportResult, ids: TurnIds, now: int,
                      current: seq<Artifact>)
    ensures ArtifactReplay(current, TurnEvents(Some(t), text, outcome, ids, now))
         == if outcome.Responded? && outcome.body.success
            then Reversed(ArtifactsOf(outcome.body, ids.replyMessageId, ids.stamp, now)) + current
            else current
  {
    var p := Prologue(t, text, ids, now);
    var e := Resolution(t, outcome, ids, now);
    PrologueKeepsArtifacts(t, text, ids, now);
    ArtifactReplayIdle(current, p);
    ArtifactReplayConcat(current, p, e);
    ArtifactReplayConcat(current, p + e, [SetLoading(false)]);
    ArtifactReplayIdle(ArtifactReplay(current, p + e), [SetLoading(false)]);
    ResolutionArtifacts(t, outcome, ids, now, current);
  }

  /** Loading is on once the prologue has run, and off after the whole turn. */
  lemma TurnLoading(t: ChatThread, text: string, outcome: TransportResult, ids: TurnIds, now: int, loading: bool)
    ensures LoadingReplay(loading, Prologue(t, text, ids, now))
    ensures !LoadingReplay(loading, TurnEvents(Some(t), text, outcome, ids, now))
  {
    var p := Prologue(t, text, ids, now);
    var e := Resolution(t, outcome, ids, now);
    var head := [AddMessage(t.id, UserMessage(ids, text, now), now)]
                + (if |t.messages| == 0 then [UpdateThread(t.id, NoThreadUpdates.(title := Some(Title(text))))] else []);
    var rest := [AddMessage(t.id, Placeholder(ids, now), now), SetLoading(true)];
    assert p == head + rest;
    LoadingReplayConcat(loading, head, rest);
    assert rest[1..] == [SetLoading(true)] && [SetLoading(true)][1..] == [];
    LoadingReplayConcat(loading, p + e, [SetLoading(false)]);
    assert [SetLoading(false)][1..] == [];
  }

  // ---------------------------------------------------------------------------
  // What a turn does to the thread it runs on

  lemma UpdateOnlyLast(ms: seq<Message>, m: Message, updates: MessagePatch)
    requires forall i :: 0 <= i < |ms| ==> ms[i].id != m.id
    ensures UpdateMessages(ms + [m], m.id, updates) == ms + [MergeMessage(m, updates)]
  {
    var r := UpdateMessages(ms + [m], m.id, updates);
    assert forall i :: 0 <= i < |ms| ==> (ms + [m])[i] == ms[i];
    assert forall i :: 0 <= i < |r| ==> r[i] == (ms + [MergeMessage(m, updates)])[i];
  }

  lemma {:induction false} ArtifactEventsLeaveThread(t: ChatThread, artifacts: seq<Artifact>)
    ensures ThreadReplay(t, ArtifactEvents(artifacts)) == t
    decreases |artifacts|
  {
    if artifacts != [] {
      assert ArtifactEvents(artifacts)[1..] == ArtifactEvents(artifacts[1..]);
      ArtifactEventsLeaveThread(t, artifacts[1..]);
    }
  }

  lemma ReplayOne(t: ChatThread, e: Event)
    ensures ThreadReplay(t, [e]) == ApplyToThread(t, e)
  {
    assert [e][1..] == [];
  }

  lemma ReplayTwo(t: ChatThread, a: Event, b: Event)
    ensures ThreadReplay(t, [a, b]) == ApplyToThread(ApplyToThread(t, a), b)
  {
    assert [a, b][1..] == [b];
    ReplayOne(ApplyToThread(t, a), b);
  }

  /** The thread after the prologue: two more messages, the title set on a first message. */
  function PrologueThread(t: ChatThread, text: string, ids: TurnIds, now: int): ChatThread
  {
    t.(messages := t.messages + [UserMessage(ids, text, now), Placeholder(ids, now)],
       title := if |t.messages| == 0 then Title(text) else t.title,
       updatedAt := now)
  }

  lemma PrologueOnThread(t: ChatThread, text: string, ids: TurnIds, now: int)
    ensures ThreadReplay(t, Prologue(t, text, ids, now)) == PrologueThread(t, text, ids, now)
  {
    var first := [AddMessage(t.id, UserMessage(ids, text, now), now)];
    var title: seq<Event> := if |t.messages| == 0 then [UpdateThread(t.id, NoThreadUpdates.(title := Some(Title(text))))] else [];
    var rest := [AddMessage(t.id, Placeholder(ids, now), now), SetLoading(true)];
    assert Prologue(t, text, ids, now) == first + title + rest;
    ThreadReplayConcat(t, first + title, rest);
    ThreadReplayConcat(t, first, title);
    ReplayOne(t, first[0]);
    var t1 := Appended(t, UserMessage(ids, text, now), now);
    var t2 := if |t.messages| == 0 then t1.(title := Title(text)) else t1;
    if |t.messages| == 0 {
      ReplayOne(t1, title[0]);
    }
    assert ThreadReplay(t1, title) == t2;
    ReplayTwo(t2, rest[0], rest[1]);
    assert t1.messages + [Placeholder(ids, now)] == t.messages + [UserMessage(ids, text, now), Placeholder(ids, now)];
  }

  /** The thread a completed turn leaves behind, stated directly. */
  function TurnThread(t: ChatThread, text: string, outcome: TransportResult, ids: TurnIds, now: int): (r: ChatThread)
    ensures r.id == t.id && |r.messages| == |t.messages| + 2
  {
    t.(messages := t.messages + [UserMessage(ids, text, now), Reply(outcome, ids, now)],
       title := if |t.messages| == 0 then Title(text) else t.title,
       sessionId := if BoundSession(Some(t), outcome).Some? then BoundSession(Some(t), outcome) else t.sessionId,
       status := if outcome.Responded? && outcome.body.success then t.status else Error,
       updatedAt := now)
  }

  /**
   * A turn binds a session id only after a successful reply to a thread that
   * had none, and then binds the reply's id; an existing binding is never
   * overwritten, and a failed turn binds nothing.
   */
  lemma SessionBinding(t: ChatThread, text: string, outcome: TransportResult, ids: TurnIds, now: int)
    ensures Truthy(t.sessionId) ==> TurnThread(t, text, outcome, ids, now).sessionId == t.sessionId
    ensures !(outcome.Responded? && outcome.body.success) ==> TurnThread(t, text, outcome, ids, now).sessionId == t.sessionId
    ensures outcome.Responded? && outcome.body.success && !Truthy(t.sessionId) && outcome.body.sessionId != "" ==>
              TurnThread(t, text, outcome, ids, now).sessionId == Some(outcome.body.sessionId)
    ensures TurnThread(t, text, outcome, ids, now).sessionId != t.sessionId ==>
              !Truthy(t.sessionId) && outcome.Responded? && outcome.body.success
  {
  }

  /** A turn leaves its thread errored after a failure and keeps its status after a success. */
  lemma TurnStatus(t: ChatThread, text: string, outcome: TransportResult, ids: TurnIds, now: int)
    ensures !(outcome.Responded? && outcome.body.success) ==> TurnThread(t, text, outcome, ids, now).status == Error
    ensures outcome.Responded? && outcome.body.success ==> TurnThread(t, text, outcome, ids, now).status == t.status
  {
  }

  /**
   * The request of a thread's first message carries no session id, even when
   * the thread has one; later requests carry the thread's id when it is non-empty.
   */
  lemma FirstMessageSendsNoSession(t: ChatThread, text: string, final: bool, userId: string)
    ensures |t.messages| == 0 ==> RequestFor(text, SessionToSend(t), None, final, Some(userId)).sessionId.None?
    ensures |t.messages| > 0 && Truthy(t.sessionId) ==>
              RequestFor(text, SessionToSend(t), None, final, Some(userId)).sessionId == t.sessionId
    ensures |t.messages| > 0 && !Truthy(t.sessionId) ==>
              RequestFor(text, SessionToSend(t), None, final, Some(userId)).sessionId.None?
  {
  }

  /** Resolving the placeholder (the last message) leaves the earlier messages as they are. */
  lemma ResolveLast(u: ChatThread, before: seq<Message>, m: Message, updates: MessagePatch)
    requires u.messages == before + [m]
    requires forall i :: 0 <= i < |before| ==> before[i].id != m.id
    ensures ApplyToThread(u, UpdateMessage(u.id, m.id, updates)) == u.(messages := before + [MergeMessage(m, updates)])
  {
    UpdateOnlyLast(before, m, updates);
  }

  lemma FailureOnThread(t: ChatThread, u: ChatThread, before: seq<Message>, m: Message, ids: TurnIds, content: string)
    requires u.id == t.id && u.messages == before + [m] && m.id == PlaceholderId(ids)
    requires forall i :: 0 <= i < |before| ==> before[i].id != PlaceholderId(ids)
    ensures ThreadReplay(u, FailureEvents(t, ids, content))
         == u.(messages := before + [MergeMessage(m, ErrorUpdates(ids.replyMessageId, content))], status := Error)
  {
    var e := FailureEvents(t, ids, content);
    ReplayTwo(u, e[0], e[1]);
    ResolveLast(u, before, m, ErrorUpdates(ids.replyMessageId, content));
  }

  lemma SuccessOnThread(t: ChatThread, u: ChatThread, before: seq<Message>, m: Message,
                        resp: GenerationResponse, ids: TurnIds, now: int)
    requires u.id == t.id && u.messages == before + [m] && m.id == PlaceholderId(ids)
    requires forall i :: 0 <= i < |before| ==> before[i].id != PlaceholderId(ids)
    ensures ThreadReplay(u, SuccessEvents(t, resp, ids, now))
         == u.(messages := before + [MergeMessage(m, ReplyUpdates(ids.replyMessageId, ChatContent(resp)))],
               sessionId := if BindsSession(t, resp) then Some(resp.sessionId) else u.sessionId)
  {
    var bind := BindEvents(t, resp);
    var resolve := [UpdateMessage(t.id, PlaceholderId(ids), ReplyUpdates(ids.replyMessageId, ChatContent(resp)))];
    var artifacts := ArtifactsOf(resp, ids.replyMessageId, ids.stamp, now);
    assert SuccessEvents(t, resp, ids, now) == bind + resolve + ArtifactEvents(artifacts);
    ThreadReplayConcat(u, bind + resolve, ArtifactEvents(artifacts));
    ThreadReplayConcat(u, bind, resolve);
    var u1 := u.(sessionId := if BindsSession(t, resp) then Some(resp.sessionId) else u.sessionId);
    if BindsSession(t, resp) {
      ReplayOne(u, bind[0]);
    }
    assert ThreadReplay(u, bind) == u1;
    ReplayOne(u1, resolve[0]);
    ResolveLast(u1, before, m, ReplyUpdates(ids.replyMessageId, ChatContent(resp)));
    ArtifactEventsLeaveThread(ThreadReplay(u, bind + resolve), artifacts);
  }

  /** After the prologue the placeholder is the last message and no earlier message shares its id. */
  lemma PrologueShape(t: ChatThread, text: string, ids: TurnIds, now: int)
    requires ids.userMessageId != PlaceholderId(ids)
    requires forall i :: 0 <= i < |t.messages| ==> t.messages[i].id != PlaceholderId(ids)
    ensures var before := t.messages + [UserMessage(ids, text, now)];
            PrologueThread(t, text, ids, now).messages == before + [Placeholder(ids, now)] &&
            forall i :: 0 <= i < |before| ==> before[i].id != PlaceholderId(ids)
  {
    var before := t.messages + [UserMessage(ids, text, now)];
    assert forall i :: 0 <= i < |t.messages| ==> before[i] == t.messages[i];
  }

  /** Stopping the typing indicator touches only the placeholder. */
  lemma StopOnThread(t: ChatThread, u: ChatThread, before: seq<Message>, ids: TurnIds, now: int)
    requires u.id == t.id && u.messages == before + [Placeholder(ids, now)]
    requires forall i :: 0 <= i < |before| ==> before[i].id != PlaceholderId(ids)
    ensures ThreadReplay(u, [UpdateMessage(t.id, PlaceholderId(ids), StopTyping)])
         == u.(messages := before + [MergeMessage(Placeholder(ids, now), StopTyping)])
  {
    ReplayOne(u, UpdateMessage(t.id, PlaceholderId(ids), StopTyping));
    ResolveLast(u, before, Placeholder(ids, now), StopTyping);
  }

  lemma ThrewOnThread(t: ChatThread, text: string, ids: TurnIds, now: int)
    requires ids.userMessageId != PlaceholderId(ids)
    requires forall i :: 0 <= i < |t.messages| ==> t.messages[i].id != PlaceholderId(ids)
    ensures ThreadReplay(PrologueThread(t, text, ids, now), Resolution(t, Threw, ids, now))
         == TurnThread(t, text, Threw, ids, now)
  {
    var before := t.messages + [UserMessage(ids, text, now)];
    PrologueShape(t, text, ids, now);
    FailureOnThread(t, PrologueThread(t, text, ids, now), before, Placeholder(ids, now), ids, Apology);
  }

  lemma RefusedOnThread(t: ChatThread, text: string, resp: GenerationResponse, ids: TurnIds, now: int)
    requires !resp.success
    requires ids.userMessageId != PlaceholderId(ids)
    requires forall i :: 0 <= i < |t.messages| ==> t.messages[i].id != PlaceholderId(ids)
    ensures ThreadReplay(PrologueThread(t, text, ids, now), Resolution(t, Responded(resp), ids, now))
         == TurnThread(t, text, Responded(resp), ids, now)
  {
    var u := PrologueThread(t, text, ids, now);
    var before := t.messages + [UserMessage(ids, text, now)];
    var stop := [UpdateMessage(t.id, PlaceholderId(ids), StopTyping)];
    var stopped := MergeMessage(Placeholder(ids, now), StopTyping);
    PrologueShape(t, text, ids, now);
    StopOnThread(t, u, before, ids, now);
    ThreadReplayConcat(u, stop, FailureEvents(t, ids, ErrorText(resp)));
    FailureOnThread(t, u.(messages := before + [stopped]), before, stopped, ids, ErrorText(resp));
  }

  lemma SucceededOnThread(t: ChatThread, text: string, resp: GenerationResponse, ids: TurnIds, now: int)
    requires resp.success
    requires ids.userMessageId != PlaceholderId(ids)
    requires forall i :: 0 <= i < |t.messages| ==> t.messages[i].id != PlaceholderId(ids)
    ensures ThreadReplay(PrologueThread(t, text, ids, now), Resolution(t, Responded(resp), ids, now))
         == TurnThread(t, text, Responded(resp), ids, now)
  {
    var u := PrologueThread(t, text, ids, now);
    var before := t.messages + [UserMessage(ids, text, now)];
    var stop := [UpdateMessage(t.id, PlaceholderId(ids), StopTyping)];
    var stopped := MergeMessage(Placeholder(ids, now), StopTyping);
    PrologueShape(t, text, ids, now);
    StopOnThread(t, u, before, ids, now);
    ThreadReplayConcat(u, stop, SuccessEvents(t, resp, ids, now));
    SuccessOnThread(t, u.(messages := before + [stopped]), before, stopped, resp, ids, now);
  }

  lemma ResolutionOnThread(t: ChatThread, text: string, outcome: TransportResult, ids: TurnIds, now: int)
    requires ids.userMessageId != PlaceholderId(ids)
    requires forall i :: 0 <= i < |t.messages| ==> t.messages[i].id != PlaceholderId(ids)
    ensures ThreadReplay(PrologueThread(t, text, ids, now), Resolution(t, outcome, ids, now))
         == TurnThread(t, text, outcome, ids, now)
  {
    match outcome {
      case Threw =>
        ThrewOnThread(t, text, ids, now);
      case Responded(resp) =>
        if resp.success {
          SucceededOnThread(t, text, resp, ids, now);
        } else {
          RefusedOnThread(t, text, resp, ids, now);
        }
    }
  }

  /**
   * What a turn leaves on its thread, whatever the transport did: exactly the
   * user message and the resolved, no-longer-typing reply are added; the
   * title changes only on a first message; a session id is bound only on a
   * successful reply to a thread that had none; every failure marks the
   * thread as errored.
   */
  lemma TurnOnThread(t: ChatThread, text: string, outcome: TransportResult, ids: TurnIds, now: int)
    requires ids.userMessageId != PlaceholderId(ids)
    requires forall i :: 0 <= i < |t.messages| ==> t.messages[i].id != PlaceholderId(ids)
    ensures ThreadReplay(t, TurnEvents(Some(t), text, outcome, ids, now)) == TurnThread(t, text, outcome, ids, now)
  {
    var p := Prologue(t, text, ids, now);
    var e := Resolution(t, outcome, ids, now);
    assert TurnEvents(Some(t), text, outcome, ids, now) == p + e + [SetLoading(false)];
    ThreadReplayConcat(t, p + e, [SetLoading(false)]);
    ThreadReplayConcat(t, p, e);
    PrologueOnThread(t, text, ids, now);
    ResolutionOnThread(t, text, outcome, ids, now);
    ReplayOne(ThreadReplay(t, p + e), SetLoading(false));
  }
}

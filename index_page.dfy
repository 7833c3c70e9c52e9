/**
 * The main page. It keeps one shared preview (the loading flag and message,
 * the preview URL and type, the current blob and the premium task id), the
 * history list and the active tab. Each handler runs in three parts: it
 * marks the page as loading, awaits one remote call, and on success shows
 * the result and records it in the history; in every case it clears the
 * loading flag at the end. There is no request token, no staleness check
 * and no cancellation: whichever call completes writes the preview.
 */
module IndexPage {
  import opened Wrappers
  import opened Browser
  import opened Api
  import StickerForm
  import AnimationForm

  /** `TabType`. */
  datatype Tab = Stickers | Animations | Premium | Image

  /** `previewType`. */
  datatype PreviewType = ImagePreview | VideoPreview

  const InitialLoadingMessage: string := "Generating..."
  const StickerLoadingMessage: string := "Generating sticker..."
  const AnimationLoadingMessage: string := "Generating animation..."
  const PremiumLoadingMessage: string := "Generating premium video... This may take 2-5 minutes"
  const TransparentLoadingMessage: string := "Fetching transparent version..."

  const VideoFilename: string := "sticker_original.mp4"
  const StickerFilename: string := "whatsapp_sticker.webp"
  const TransparentFilename: string := "sticker_transparent.webp"

  /** A request to one of the remote generators, with the arguments the page passes. */
  datatype RemoteCall =
    | FreeSticker(prompt: string, animation: string)
    | ReplicateSticker(prompt: string, animation: string)
    | GeminiSticker(prompt: string, animation: string, referenceImage: Option<File>)
    | FreeAnimation(concept: string, frames: int)
    | ReplicateAnimation(concept: string, frames: int)
    | GeminiAnimation(concept: string, frames: int, referenceImage: Option<File>)
    | PremiumVideo(prompt: string)
    | TransparentVideo(taskId: string)

  /** What the page does outside itself: issue a remote call, or hand a blob to the download sink under a file name. */
  datatype Effect = Called(call: RemoteCall) | Downloaded(blob: Blob, filename: string)

  /** Everything the page's handlers read and write, with the contents of the store and the effects so far. */
  datatype PageState = PageState(
    activeTab: Tab,
    isLoading: bool,
    loadingMessage: string,
    previewUrl: Option<string>,
    previewType: PreviewType,
    currentBlob: Option<Blob>,
    taskId: Option<string>,
    history: seq<HistoryItem>,
    store: map<string, Stored>,
    effects: seq<Effect>)

  /** The history shown is the history stored. */
  predicate Synced(s: PageState) {
    s.history == GetHistory(s.store)
  }

  /** The page once mounted: nothing loading, no preview, the stored history loaded by the mount effect. */
  function Initial(store: map<string, Stored>): (s: PageState)
    ensures Synced(s) && s.store == store
    ensures s.activeTab == Stickers && !s.isLoading && s.loadingMessage == InitialLoadingMessage
    ensures s.previewUrl == None && s.previewType == ImagePreview && s.currentBlob == None && s.taskId == None
    ensures s.effects == []
  {
    PageState(Stickers, false, InitialLoadingMessage, None, ImagePreview, None, None, GetHistory(store), store, [])
  }

  /** The sticker generator the page calls for the selected type; only Gemini receives the reference image. */
  function StickerCall(g: StickerForm.Generator, prompt: string, animation: string, referenceImage: Option<File>): (c: RemoteCall)
    ensures c.FreeSticker? <==> g == StickerForm.Free
    ensures c.ReplicateSticker? <==> g == StickerForm.Replicate
    ensures c.GeminiSticker? <==> g == StickerForm.Gemini
    ensures (c.FreeSticker? || c.ReplicateSticker? || c.GeminiSticker?) && c.prompt == prompt && c.animation == animation
    ensures c.GeminiSticker? ==> c.referenceImage == referenceImage
  {
    match g
    case Free => FreeSticker(prompt, animation)
    case Replicate => ReplicateSticker(prompt, animation)
    case Gemini => GeminiSticker(prompt, animation, referenceImage)
  }

  /** The animation generator the page calls for the selected type; only Gemini receives the reference image. */
  function AnimationCall(g: AnimationForm.Generator, concept: string, frames: int, referenceImage: Option<File>): (c: RemoteCall)
    ensures c.FreeAnimation? <==> g == AnimationForm.Free
    ensures c.ReplicateAnimation? <==> g == AnimationForm.Replicate
    ensures c.GeminiAnimation? <==> g == AnimationForm.Gemini
    ensures (c.FreeAnimation? || c.ReplicateAnimation? || c.GeminiAnimation?) && c.concept == concept && c.frames == frames
    ensures c.GeminiAnimation? ==> c.referenceImage == referenceImage
  {
    match g
    case Free => FreeAnimation(concept, frames)
    case Replicate => ReplicateAnimation(concept, frames)
    case Gemini => GeminiAnimation(concept, frames, referenceImage)
  }

  /** `resetPreview`: no preview, no blob, no task id, not loading; the history, the preview type and the tab stay. */
  function Reset(s: PageState): (r: PageState)
    ensures r.previewUrl == None && r.currentBlob == None && r.taskId == None && !r.isLoading
    ensures r.history == s.history && r.store == s.store && r.previewType == s.previewType
    ensures r.activeTab == s.activeTab && r.loadingMessage == s.loadingMessage && r.effects == s.effects
  {
    s.(previewUrl := None, currentBlob := None, taskId := None, isLoading := false)
  }

  /** The tab bar's `onTabChange`: switch the tab, then reset the preview. */
  function TabChanged(s: PageState, tab: Tab): (r: PageState)
    ensures r.activeTab == tab
    ensures r.previewUrl == None && r.currentBlob == None && r.taskId == None && !r.isLoading
    ensures r.history == s.history && r.store == s.store && r.previewType == s.previewType
    ensures r.loadingMessage == s.loadingMessage && r.effects == s.effects
  {
    Reset(s.(activeTab := tab))
  }

  /** The history item a successful generation records: the result's URL serves as thumbnail and download link. */
  function ResultFields(result: GenerationResult, kind: Category, subType: string, prompt: string): (f: HistoryFields)
    ensures f.kind == kind && f.subType == subType && f.prompt == prompt
    ensures f.thumbnail == result.url && f.downloadUrl == result.url && f.taskId == result.taskId
  {
    HistoryFields(kind, subType, prompt, result.url, result.url, result.taskId)
  }

  /**
   * `handleResult`: show the result, take its task id only when it has
   * one, add one history item and reload the history from the store.
   */
  function ResultHandled(s: PageState, result: GenerationResult, kind: Category, subType: string, prompt: string, id: string, now: Date): (r: PageState)
    ensures r.previewUrl == Some(result.url) && r.currentBlob == Some(result.blob)
    ensures Present(result.taskId) ==> r.taskId == result.taskId
    ensures !Present(result.taskId) ==> r.taskId == s.taskId
    ensures r.store == AddedStore(s.store, ResultFields(result, kind, subType, prompt), id, now)
    ensures r.history == Prepend(GetHistory(s.store), NewItem(ResultFields(result, kind, subType, prompt), id, now))
    ensures Synced(r)
    ensures r.isLoading == s.isLoading && r.loadingMessage == s.loadingMessage && r.previewType == s.previewType
    ensures r.activeTab == s.activeTab && r.effects == s.effects
  {
    var store := AddedStore(s.store, ResultFields(result, kind, subType, prompt), id, now);
    s.(previewUrl := Some(result.url),
       currentBlob := Some(result.blob),
       taskId := if Present(result.taskId) then result.taskId else s.taskId,
       store := store,
       history := GetHistory(store))
  }

  /** The start of `handleStickerGenerate`: loading with the sticker message, image preview, no task id, and the call issued. The old preview stays. */
  function StickerStarted(s: PageState, g: StickerForm.Generator, prompt: string, animation: string, referenceImage: Option<File>): (r: PageState)
    ensures r.isLoading && r.loadingMessage == StickerLoadingMessage && r.previewType == ImagePreview && r.taskId == None
    ensures r.previewUrl == s.previewUrl && r.currentBlob == s.currentBlob
    ensures r.history == s.history && r.store == s.store && r.activeTab == s.activeTab
    ensures r.effects == s.effects + [Called(StickerCall(g, prompt, animation, referenceImage))]
  {
    s.(isLoading := true, loadingMessage := StickerLoadingMessage, previewType := ImagePreview, taskId := None,
       effects := s.effects + [Called(StickerCall(g, prompt, animation, referenceImage))])
  }

  /** The start of `handleAnimationGenerate`: loading with the animation message, image preview, no task id, and the call issued. The old preview stays. */
  function AnimationStarted(s: PageState, g: AnimationForm.Generator, concept: string, frames: int, referenceImage: Option<File>): (r: PageState)
    ensures r.isLoading && r.loadingMessage == AnimationLoadingMessage && r.previewType == ImagePreview && r.taskId == None
    ensures r.previewUrl == s.previewUrl && r.currentBlob == s.currentBlob
    ensures r.history == s.history && r.store == s.store && r.activeTab == s.activeTab
    ensures r.effects == s.effects + [Called(AnimationCall(g, concept, frames, referenceImage))]
  {
    s.(isLoading := true, loadingMessage := AnimationLoadingMessage, previewType := ImagePreview, taskId := None,
       effects := s.effects + [Called(AnimationCall(g, concept, frames, referenceImage))])
  }

  /** The start of `handlePremiumGenerate`: loading with the premium message and video preview; the task id is kept. */
  function PremiumStarted(s: PageState, prompt: string): (r: PageState)
    ensures r.isLoading && r.loadingMessage == PremiumLoadingMessage && r.previewType == VideoPreview
    ensures r.taskId == s.taskId && r.previewUrl == s.previewUrl && r.currentBlob == s.currentBlob
    ensures r.history == s.history && r.store == s.store && r.activeTab == s.activeTab
    ensures r.effects == s.effects + [Called(PremiumVideo(prompt))]
  {
    s.(isLoading := true, loadingMessage := PremiumLoadingMessage, previewType := VideoPreview,
       effects := s.effects + [Called(PremiumVideo(prompt))])
  }

  /**
   * The rest of a generation handler once its call settles: on success the
   * result is handled, on failure nothing but the loading flag changes, and
   * in both cases (the `finally`) the page stops loading.
   */
  function GenerationSettled(s: PageState, outcome: Outcome<GenerationResult>, kind: Category, subType: string, prompt: string, id: string, now: Date): (r: PageState)
    ensures !r.isLoading
    ensures outcome.Failure? ==> r == s.(isLoading := false)
    ensures outcome.Success? ==> r == ResultHandled(s, outcome.value, kind, subType, prompt, id, now).(isLoading := false)
    ensures Synced(s) ==> Synced(r)
  {
    match outcome
    case Success(result) => ResultHandled(s, result, kind, subType, prompt, id, now).(isLoading := false)
    case Failure(_) => s.(isLoading := false)
  }

  /**
   * `handleStickerGenerate` when its call settles with `outcome`: on
   * success the preview shows the result and one item is added to the
   * history with type `sticker` and the generator's id; on failure the
   * preview, the blob and the history are what the start left, and the
   * task id is none. The page stops loading either way.
   */
  function StickerGenerated(s: PageState, g: StickerForm.Generator, prompt: string, animation: string, referenceImage: Option<File>,
                            outcome: Outcome<GenerationResult>, id: string, now: Date): (r: PageState)
    ensures !r.isLoading && r.loadingMessage == StickerLoadingMessage && r.previewType == ImagePreview
    ensures r.activeTab == s.activeTab
    ensures r.effects == s.effects + [Called(StickerCall(g, prompt, animation, referenceImage))]
    ensures outcome.Failure? ==>
      && r.previewUrl == s.previewUrl && r.currentBlob == s.currentBlob && r.taskId == None
      && r.history == s.history && r.store == s.store
    ensures outcome.Success? ==>
      var result := outcome.value;
      && r.previewUrl == Some(result.url) && r.currentBlob == Some(result.blob)
      && r.taskId == (if Present(result.taskId) then result.taskId else None)
      && r.store == AddedStore(s.store, HistoryFields(Sticker, StickerForm.GeneratorId(g), prompt, result.url, result.url, result.taskId), id, now)
      && r.history == Prepend(GetHistory(s.store), NewItem(HistoryFields(Sticker, StickerForm.GeneratorId(g), prompt, result.url, result.url, result.taskId), id, now))
    ensures Synced(s) ==> Synced(r)
  {
    GenerationSettled(StickerStarted(s, g, prompt, animation, referenceImage), outcome, Sticker, StickerForm.GeneratorId(g), prompt, id, now)
  }

  /**
   * `handleAnimationGenerate` when its call settles with `outcome`: on
   * success the preview shows the result and one item is added to the
   * history with type `animation` and the generator's id; on failure the
   * preview, the blob and the history are what the start left, and the
   * task id is none. The page stops loading either way.
   */
  function AnimationGenerated(s: PageState, g: AnimationForm.Generator, concept: string, frames: int, referenceImage: Option<File>,
                              outcome: Outcome<GenerationResult>, id: string, now: Date): (r: PageState)
    ensures !r.isLoading && r.loadingMessage == AnimationLoadingMessage && r.previewType == ImagePreview
    ensures r.activeTab == s.activeTab
    ensures r.effects == s.effects + [Called(AnimationCall(g, concept, frames, referenceImage))]
    ensures outcome.Failure? ==>
      && r.previewUrl == s.previewUrl && r.currentBlob == s.currentBlob && r.taskId == None
      && r.history == s.history && r.store == s.store
    ensures outcome.Success? ==>
      var result := outcome.value;
      && r.previewUrl == Some(result.url) && r.currentBlob == Some(result.blob)
      && r.taskId == (if Present(result.taskId) then result.taskId else None)
      && r.store == AddedStore(s.store, HistoryFields(Animation, AnimationForm.GeneratorId(g), concept, result.url, result.url, result.taskId), id, now)
      && r.history == Prepend(GetHistory(s.store), NewItem(HistoryFields(Animation, AnimationForm.GeneratorId(g), concept, result.url, result.url, result.taskId), id, now))
    ensures Synced(s) ==> Synced(r)
  {
    GenerationSettled(AnimationStarted(s, g, concept, frames, referenceImage), outcome, Animation, AnimationForm.GeneratorId(g), concept, id, now)
  }

  /**
   * `handlePremiumGenerate` when its call settles with `outcome`: on
   * success the preview shows the video, the task id is replaced only when
   * the response carried one, and one item is added to the history with
   * type `video` and sub-type `premium`; on failure the preview, the blob,
   * the task id and the history are unchanged. The page stops loading
   * either way.
   */
  function PremiumGenerated(s: PageState, prompt: string, outcome: Outcome<GenerationResult>, id: string, now: Date): (r: PageState)
    ensures !r.isLoading && r.loadingMessage == PremiumLoadingMessage && r.previewType == VideoPreview
    ensures r.activeTab == s.activeTab
    ensures r.effects == s.effects + [Called(PremiumVideo(prompt))]
    ensures outcome.Failure? ==>
      && r.previewUrl == s.previewUrl && r.currentBlob == s.currentBlob && r.taskId == s.taskId
      && r.history == s.history && r.store == s.store
    ensures outcome.Success? ==>
      var result := outcome.value;
      && r.previewUrl == Some(result.url) && r.currentBlob == Some(result.blob)
      && r.taskId == (if Present(result.taskId) then result.taskId else s.taskId)
      && r.store == AddedStore(s.store, HistoryFields(Video, "premium", prompt, result.url, result.url, result.taskId), id, now)
      && r.history == Prepend(GetHistory(s.store), NewItem(HistoryFields(Video, "premium", prompt, result.url, result.url, result.taskId), id, now))
    ensures Synced(s) ==> Synced(r)
  {
    GenerationSettled(PremiumStarted(s, prompt), outcome, Video, "premium", prompt, id, now)
  }

  /** `handleDownload`: nothing without a blob; otherwise the blob is downloaded as an MP4 for a video preview and as a WebP sticker otherwise. */
  function DownloadedCurrent(s: PageState): (r: PageState)
    ensures s.currentBlob.None? ==> r == s
    ensures s.currentBlob.Some? ==>
      r == s.(effects := s.effects + [Downloaded(s.currentBlob.value,
                                                  if s.previewType == VideoPreview then VideoFilename else StickerFilename)])
  {
    match s.currentBlob
    case None => s
    case Some(blob) =>
      var filename := if s.previewType == VideoPreview then VideoFilename else StickerFilename;
      s.(effects := s.effects + [Downloaded(blob, filename)])
  }

  /**
   * `handleDownloadTransparent` when its call settles with `outcome`:
   * nothing without a task id; otherwise the transparent version is
   * requested for that task id and, on success, downloaded. The preview,
   * the task id and the history never change, and the page stops loading.
   */
  function TransparentDownloaded(s: PageState, outcome: Outcome<GenerationResult>): (r: PageState)
    ensures !Present(s.taskId) ==> r == s
    ensures Present(s.taskId) ==>
      && !r.isLoading && r.loadingMessage == TransparentLoadingMessage
      && r.effects == s.effects + [Called(TransparentVideo(s.taskId.value))]
                      + (if outcome.Success? then [Downloaded(outcome.value.blob, TransparentFilename)] else [])
    ensures r.previewUrl == s.previewUrl && r.currentBlob == s.currentBlob && r.taskId == s.taskId
    ensures r.previewType == s.previewType && r.history == s.history && r.store == s.store && r.activeTab == s.activeTab
  {
    if !Present(s.taskId) then s
    else
      var started := s.(isLoading := true, loadingMessage := TransparentLoadingMessage,
                        effects := s.effects + [Called(TransparentVideo(s.taskId.value))]);
      match outcome
      case Success(result) => started.(effects := started.effects + [Downloaded(result.blob, TransparentFilename)], isLoading := false)
      case Failure(_) => started.(isLoading := false)
  }

  /** The history section's clear button: clear the stored history, then reload it, which gives the empty list. */
  function HistoryCleared(s: PageState): (r: PageState)
    ensures r.store == ClearedStore(s.store) && r.history == [] && Synced(r)
    ensures r.previewUrl == s.previewUrl && r.currentBlob == s.currentBlob && r.taskId == s.taskId && r.isLoading == s.isLoading
    ensures r.previewType == s.previewType && r.loadingMessage == s.loadingMessage && r.activeTab == s.activeTab && r.effects == s.effects
  {
    var store := ClearedStore(s.store);
    s.(store := store, history := GetHistory(store))
  }

  /**
   * Without a staleness check, a sticker result that arrives after the
   * user switched tabs still fills the preview and the history.
   */
  lemma LateResultAfterTabChange(s: PageState, g: StickerForm.Generator, prompt: string, animation: string,
                                 referenceImage: Option<File>, tab: Tab, result: GenerationResult, id: string, now: Date)
    ensures var moved := TabChanged(StickerStarted(s, g, prompt, animation, referenceImage), tab);
      var r := GenerationSettled(moved, Success(result), Sticker, StickerForm.GeneratorId(g), prompt, id, now);
      && r.activeTab == tab
      && r.previewUrl == Some(result.url)
      && r.history != [] && r.history[0].prompt == prompt && r.history[0].kind == Sticker
  {
  }

  /**
   * With one loading flag for all handlers, a sticker call that settles
   * while a later premium call is still pending ends the loading state,
   * and a successful sticker result is then shown under the video preview
   * type the premium call set. The lemma is about the handlers taken on
   * their own: the premium start comes after a switch to the premium tab,
   * whether or not the rendered form can then submit.
   */
  lemma EarlierCallEndsLaterLoading(s: PageState, g: StickerForm.Generator, prompt: string, animation: string,
                                    referenceImage: Option<File>, premiumPrompt: string,
                                    outcome: Outcome<GenerationResult>, id: string, now: Date)
    ensures var both := PremiumStarted(TabChanged(StickerStarted(s, g, prompt, animation, referenceImage), Premium), premiumPrompt);
      var r := GenerationSettled(both, outcome, Sticker, StickerForm.GeneratorId(g), prompt, id, now);
      && both.isLoading && !r.isLoading && r.activeTab == Premium
      && r.previewType == VideoPreview
      && (outcome.Success? ==> r.previewUrl == Some(outcome.value.url))
  {
  }

  /**
   * A successful premium generation replaces the task id with the
   * response's `x-task-id` header when that header is non-empty, and keeps
   * the previous task id otherwise.
   */
  lemma PremiumTaskIdFromHeader(s: PageState, prompt: string, blob: Blob, url: string, header: Option<string>, id: string, now: Date)
    ensures var r := PremiumGenerated(s, prompt, Success(PremiumVideoResult(blob, url, header)), id, now);
      && r.taskId == (if header.Some? && header.value != "" then header else s.taskId)
      && r.history[0].taskId == TaskIdFromHeader(header)
  {
  }

  /** The page's state, the handlers that change it, and the store it shares with the history log. */
  class Index {
    var activeTab: Tab
    var isLoading: bool
    var loadingMessage: string
    var previewUrl: Option<string>
    var previewType: PreviewType
    var currentBlob: Option<Blob>
    var taskId: Option<string>
    var history: seq<HistoryItem>
    /** The remote calls and downloads the page has made, oldest first. */
    var effects: seq<Effect>
    const storage: LocalStorage

    function State(): PageState
      reads this, storage
    {
      PageState(activeTab, isLoading, loadingMessage, previewUrl, previewType, currentBlob, taskId, history, storage.entries, effects)
    }

    /** The initial state, with the mount effect that loads the stored history. */
    constructor (storage: LocalStorage)
      ensures this.storage == storage
      ensures State() == Initial(storage.entries)
    {
      this.storage := storage;
      activeTab := Stickers;
      isLoading := false;
      loadingMessage := InitialLoadingMessage;
      previewUrl := None;
      previewType := ImagePreview;
      currentBlob := None;
      taskId := None;
      history := GetHistory(storage.entries);
      effects := [];
    }

    method ResetPreview()
      modifies this
      ensures State() == Reset(old(State()))
    {
      previewUrl := None;
      currentBlob := None;
      taskId := None;
      isLoading := false;
    }

    method ChangeTab(tab: Tab)
      modifies this
      ensures State() == TabChanged(old(State()), tab)
    {
      activeTab := tab;
      ResetPreview();
    }

    method HandleResult(result: GenerationResult, kind: Category, subType: string, prompt: string, id: string, now: Date)
      modifies this, storage
      ensures State() == ResultHandled(old(State()), result, kind, subType, prompt, id, now)
    {
      previewUrl := Some(result.url);
      currentBlob := Some(result.blob);
      if Present(result.taskId) {
        taskId := result.taskId;
      }
      AddToHistory(storage, HistoryFields(kind, subType, prompt, result.url, result.url, result.taskId), id, now);
      history := GetHistory(storage.entries);
    }

    /** `handleStickerGenerate`, with `outcome` standing for how the awaited generator call settles. */
    method HandleStickerGenerate(g: StickerForm.Generator, prompt: string, animation: string, referenceImage: Option<File>,
                                 outcome: Outcome<GenerationResult>, id: string, now: Date)
      modifies this, storage
      ensures State() == StickerGenerated(old(State()), g, prompt, animation, referenceImage, outcome, id, now)
    {
      isLoading := true;
      loadingMessage := StickerLoadingMessage;
      previewType := ImagePreview;
      taskId := None;
      effects := effects + [Called(StickerCall(g, prompt, animation, referenceImage))];
      if outcome.Success? {
        HandleResult(outcome.value, Sticker, StickerForm.GeneratorId(g), prompt, id, now);
      }
      isLoading := false;
    }

    /** `handleAnimationGenerate`, with `outcome` standing for how the awaited generator call settles. */
    method HandleAnimationGenerate(g: AnimationForm.Generator, concept: string, frames: int, referenceImage: Option<File>,
                                   outcome: Outcome<GenerationResult>, id: string, now: Date)
      modifies this, storage
      ensures State() == AnimationGenerated(old(State()), g, concept, frames, referenceImage, outcome, id, now)
    {
      isLoading := true;
      loadingMessage := AnimationLoadingMessage;
      previewType := ImagePreview;
      taskId := None;
      effects := effects + [Called(AnimationCall(g, concept, frames, referenceImage))];
      if outcome.Success? {
        HandleResult(outcome.value, Animation, AnimationForm.GeneratorId(g), concept, id, now);
      }
      isLoading := false;
    }

    /** `handlePremiumGenerate`, with `outcome` standing for how the awaited premium call settles. */
    method HandlePremiumGenerate(prompt: string, outcome: Outcome<GenerationResult>, id: string, now: Date)
      modifies this, storage
      ensures State() == PremiumGenerated(old(State()), prompt, outcome, id, now)
    {
      isLoading := true;
      loadingMessage := PremiumLoadingMessage;
      previewType := VideoPreview;
      effects := effects + [Called(PremiumVideo(prompt))];
      ghost var started := State();
      assert started == PremiumStarted(old(State()), prompt);
      if outcome.Success? {
        var result := outcome.value;
        previewUrl := Some(result.url);
        currentBlob := Some(result.blob);
        if Present(result.taskId) {
          taskId := result.taskId;
        }
        AddToHistory(storage, HistoryFields(Video, "premium", prompt, result.url, result.url, result.taskId), id, now);
        history := GetHistory(storage.entries);
        assert State() == ResultHandled(started, result, Video, "premium", prompt, id, now);
      }
      isLoading := false;
    }

    method HandleDownload()
      modifies this
      ensures State() == DownloadedCurrent(old(State()))
    {
      if currentBlob.None? {
        return;
      }
      var filename := if previewType == VideoPreview then VideoFilename else StickerFilename;
      effects := effects + [Downloaded(currentBlob.value, filename)];
    }

    /** `handleDownloadTransparent`, with `outcome` standing for how the awaited transparent-version call settles. */
    method HandleDownloadTransparent(outcome: Outcome<GenerationResult>)
      modifies this
      ensures State() == TransparentDownloaded(old(State()), outcome)
    {
      if !Present(taskId) {
        return;
      }
      isLoading := true;
      loadingMessage := TransparentLoadingMessage;
      effects := effects + [Called(TransparentVideo(taskId.value))];
      if outcome.Success? {
        effects := effects + [Downloaded(outcome.value.blob, TransparentFilename)];
      }
      isLoading := false;
    }

    /** The history section's clear button: `clearHistory()` followed by the page's `refreshHistory`. */
    method ClearHistory()
      modifies this, storage
      ensures State() == HistoryCleared(old(State()))
    {
      Api.ClearHistory(storage);
      history := GetHistory(storage.entries);
    }
  }
}

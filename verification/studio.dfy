/** The production page's state (its `useState` slots) and the handlers that
    drive it. Each asynchronous handler is split at its `await` into a
    `Begin…` method, which runs the guard, raises the busy flag and returns the
    request it hands to the service (None when the guard stops it), and a
    `Finish…` method, which takes the settled outcome of that call. */
module Studio {
  import opened Wrappers
  import opened Text
  import opened Scenes

  datatype AppStatus = Idle | Analyzing | Producing | Error

  /** '9:16' | '16:9' | '1:1' */
  datatype AspectRatio = Portrait | Landscape | Square

  const DefaultVoice: string := "Kore"
  const DefaultThumbnailPrompt: string :=
    "Create a highly engaging, viral-worthy thumbnail. Blend the most dramatic visuals from the production. Hyper-realistic, 8k, cinematic lighting."

  const AnalysisFailed: string := "Production Analysis Failed."
  const RefinementFailed: string := "Script refinement failed."
  const EnhancementFailed: string := "Prompt enhancement failed."
  const TtsFailed: string := "TTS failed."
  const BulkEnhancementFailed: string := "Bulk enhancement failed."
  const NeedSceneImage: string := "Generate at least one scene image first."
  const ThumbnailFailed: string := "Thumbnail generation failed."

  /** What a handler asks of the service layer. */
  datatype Request =
    | Analyze(script: string, style: string)
    | Refine(currentScript: string, instructions: string)
    | Enhance(currentPrompt: string, style: string)
    | Render(prompt: string, ratio: AspectRatio)
    | Narrate(text: string, voice: string)
    | EnhanceEach(snapshot: seq<Scene>, style: string)
    | Thumbnail(images: seq<string>, instructions: string, ratio: AspectRatio)

  /** The value of every modelled slot at one instant. */
  datatype StudioState = StudioState(
    script: string,
    scenes: seq<Scene>,
    status: AppStatus,
    error: Option<string>,
    masterStylePrompt: string,
    refineInstructions: string,
    isRefiningScript: bool,
    aspectRatio: AspectRatio,
    selectedVoice: string,
    audioUrl: Option<string>,
    isGeneratingAudio: bool,
    isEnhancingAll: bool,
    thumbnailImage: Option<string>,
    thumbnailPrompt: string,
    isGeneratingThumbnail: bool)

  class Studio {
    var script: string
    var scenes: seq<Scene>
    var status: AppStatus
    var error: Option<string>
    var masterStylePrompt: string
    var refineInstructions: string
    var isRefiningScript: bool
    var aspectRatio: AspectRatio
    var selectedVoice: string
    var audioUrl: Option<string>
    var isGeneratingAudio: bool
    var isEnhancingAll: bool
    var thumbnailImage: Option<string>
    var thumbnailPrompt: string
    var isGeneratingThumbnail: bool

    ghost function State(): StudioState
      reads this
    {
      StudioState(script, scenes, status, error, masterStylePrompt, refineInstructions,
                  isRefiningScript, aspectRatio, selectedVoice, audioUrl, isGeneratingAudio,
                  isEnhancingAll, thumbnailImage, thumbnailPrompt, isGeneratingThumbnail)
    }

    /** The initial values of the slots. */
    constructor ()
      ensures State() == StudioState("", [], Idle, None, "", "", false, Landscape, DefaultVoice,
                                     None, false, false, None, DefaultThumbnailPrompt, false)
    {
      script, scenes, status, error := "", [], Idle, None;
      masterStylePrompt, refineInstructions, isRefiningScript := "", "", false;
      aspectRatio, selectedVoice, audioUrl, isGeneratingAudio := Landscape, DefaultVoice, None, false;
      isEnhancingAll := false;
      thumbnailImage, thumbnailPrompt, isGeneratingThumbnail := None, DefaultThumbnailPrompt, false;
    }

    /** `handleDirectorRun` up to its `await`: a blank script does nothing;
        otherwise the status becomes ANALYZING and the banner is cleared. */
    method BeginDirectorRun() returns (request: Option<Request>)
      modifies this
      ensures IsBlank(old(script)) ==> request.None? && State() == old(State())
      ensures !IsBlank(old(script)) ==>
                request == Some(Analyze(old(script), old(masterStylePrompt)))
                && State() == old(State()).(status := Analyzing, error := None)
    {
      if IsBlank(script) {
        request := None;
      } else {
        status, error := Analyzing, None;
        request := Some(Analyze(script, masterStylePrompt));
      }
    }

    /** `handleDirectorRun` after its `await`: success installs the analysed
        scenes wholesale and moves to PRODUCING; failure keeps the scene list
        exactly as it was, raises the banner and moves to ERROR. */
    method FinishDirectorRun(outcome: Result<seq<SceneDraft>>)
      modifies this
      ensures outcome.Ok? ==> State() == old(State()).(scenes := FromDrafts(outcome.value), status := Producing)
      ensures outcome.Err? ==> State() == old(State()).(error := Some(AnalysisFailed), status := Error)
    {
      match outcome
      case Ok(drafts) =>
        scenes := FromDrafts(drafts);
        status := Producing;
      case Err(_) =>
        error := Some(AnalysisFailed);
        status := Error;
    }

    /** `handleRefineScript` up to its `await`: both the script and the
        instructions must be non-blank. */
    method BeginRefineScript() returns (request: Option<Request>)
      modifies this
      ensures IsBlank(old(script)) || IsBlank(old(refineInstructions)) ==>
                request.None? && State() == old(State())
      ensures !IsBlank(old(script)) && !IsBlank(old(refineInstructions)) ==>
                request == Some(Refine(old(script), old(refineInstructions)))
                && State() == old(State()).(isRefiningScript := true, error := None)
    {
      if IsBlank(script) || IsBlank(refineInstructions) {
        request := None;
      } else {
        isRefiningScript, error := true, None;
        request := Some(Refine(script, refineInstructions));
      }
    }

    /** `handleRefineScript` after its `await`: success replaces the script
        and clears the one-shot instructions; the busy flag drops either way. */
    method FinishRefineScript(outcome: Result<string>)
      modifies this
      ensures outcome.Ok? ==>
                State() == old(State()).(script := outcome.value, refineInstructions := "", isRefiningScript := false)
      ensures outcome.Err? ==>
                State() == old(State()).(error := Some(RefinementFailed), isRefiningScript := false)
    {
      match outcome {
        case Ok(updated) =>
          script := updated;
          refineInstructions := "";
        case Err(_) =>
          error := Some(RefinementFailed);
      }
      isRefiningScript := false;
    }

    /** `handleEnhancePrompt(n)` up to its `await`: the scene's enhance flag is
        raised and its current prompt is sent with the style; an unknown scene
        number changes nothing and sends nothing. */
    method BeginEnhancePrompt(n: int) returns (request: Option<Request>)
      modifies this
      ensures State() == old(State()).(scenes := UpdateScene(old(scenes), n, StartEnhancing))
      ensures request.None? <==> Find(old(scenes), n).None?
      ensures request.None? ==> State() == old(State())
      ensures request.Some? ==>
                request == Some(Enhance(Find(old(scenes), n).value.prompt, old(masterStylePrompt)))
    {
      var snapshot := scenes;
      scenes := UpdateScene(scenes, n, StartEnhancing);
      match Find(snapshot, n)
      case None =>
        UpdateAbsentIsNoOp(snapshot, n, StartEnhancing);
        request := None;
      case Some(scene) =>
        request := Some(Enhance(scene.prompt, masterStylePrompt));
    }

    /** `handleEnhancePrompt(n)` after its `await`: success writes the new
        prompt and drops the flag in one update; failure drops the flag, keeps
        the prompt and raises the global banner. */
    method FinishEnhancePrompt(n: int, outcome: Result<string>)
      modifies this
      ensures outcome.Ok? ==>
                State() == old(State()).(scenes := UpdateScene(old(scenes), n, PromptEnhanced(outcome.value)))
      ensures outcome.Err? ==>
                State() == old(State()).(error := Some(EnhancementFailed),
                                         scenes := UpdateScene(old(scenes), n, EnhanceFailed))
    {
      match outcome
      case Ok(enhanced) =>
        scenes := UpdateScene(scenes, n, PromptEnhanced(enhanced));
      case Err(_) =>
        error := Some(EnhancementFailed);
        scenes := UpdateScene(scenes, n, EnhanceFailed);
    }

    /** `handleVisualize(n)` up to its `await`: an unknown scene number is a
        no-op; otherwise the scene's render flag is raised and its prompt is
        sent with the aspect ratio. */
    method BeginVisualize(n: int) returns (request: Option<Request>)
      modifies this
      ensures Find(old(scenes), n).None? ==> request.None? && State() == old(State())
      ensures Find(old(scenes), n).Some? ==>
                request == Some(Render(Find(old(scenes), n).value.prompt, old(aspectRatio)))
                && State() == old(State()).(scenes := UpdateScene(old(scenes), n, StartRendering))
    {
      match Find(scenes, n)
      case None =>
        request := None;
      case Some(scene) =>
        scenes := UpdateScene(scenes, n, StartRendering);
        request := Some(Render(scene.prompt, aspectRatio));
    }

    /** `handleVisualize(n)` after its `await`: success sets the image and
        drops the flag in one update; failure drops the flag and records the
        scene's error, leaving its image as it was. The banner is untouched. */
    method FinishVisualize(n: int, outcome: Result<string>)
      modifies this
      ensures outcome.Ok? ==>
                State() == old(State()).(scenes := UpdateScene(old(scenes), n, ImageReady(outcome.value)))
      ensures outcome.Err? ==>
                State() == old(State()).(scenes := UpdateScene(old(scenes), n, ImageFailed))
    {
      match outcome
      case Ok(url) =>
        scenes := UpdateScene(scenes, n, ImageReady(url));
      case Err(_) =>
        scenes := UpdateScene(scenes, n, ImageFailed);
    }

    /** `handleGenerateFullAudio` up to its `await`: only the empty script is
        refused (a whitespace-only one is narrated); the banner is not cleared. */
    method BeginGenerateFullAudio() returns (request: Option<Request>)
      modifies this
      ensures old(script) == "" ==> request.None? && State() == old(State())
      ensures old(script) != "" ==>
                request == Some(Narrate(old(script), old(selectedVoice)))
                && State() == old(State()).(isGeneratingAudio := true)
    {
      if script == "" {
        request := None;
      } else {
        isGeneratingAudio := true;
        request := Some(Narrate(script, selectedVoice));
      }
    }

    /** `handleGenerateFullAudio` after its `await`: success replaces the audio
        URL; failure raises the banner; the busy flag drops either way. */
    method FinishGenerateFullAudio(outcome: Result<string>)
      modifies this
      ensures outcome.Ok? ==>
                State() == old(State()).(audioUrl := Some(outcome.value), isGeneratingAudio := false)
      ensures outcome.Err? ==>
                State() == old(State()).(error := Some(TtsFailed), isGeneratingAudio := false)
    {
      match outcome {
        case Ok(url) =>
          audioUrl := Some(url);
        case Err(_) =>
          error := Some(TtsFailed);
      }
      isGeneratingAudio := false;
    }

    /** `handleEnhanceAll` up to its `await`: an empty production does
        nothing; otherwise the bulk flag is raised and the current scene list
        is the snapshot every per-scene call works from. */
    method BeginEnhanceAll() returns (request: Option<Request>)
      modifies this
      ensures old(scenes) == [] ==> request.None? && State() == old(State())
      ensures old(scenes) != [] ==>
                request == Some(EnhanceEach(old(scenes), old(masterStylePrompt)))
                && State() == old(State()).(isEnhancingAll := true)
    {
      if |scenes| == 0 {
        request := None;
      } else {
        isEnhancingAll := true;
        request := Some(EnhanceEach(scenes, masterStylePrompt));
      }
    }

    /** `handleEnhanceAll` after `Promise.all` settles, given one outcome per
        snapshot scene: if all succeeded, the list becomes the snapshot with
        each prompt replaced positionally; if any failed, the list is left
        exactly as it is and the banner is raised. The bulk flag drops either
        way. */
    method FinishEnhanceAll(snapshot: seq<Scene>, outcomes: seq<Result<string>>)
      requires |outcomes| == |snapshot|
      modifies this
      ensures (forall i :: 0 <= i < |outcomes| ==> outcomes[i].Ok?) ==>
                State() == old(State()).(scenes := ReplacePrompts(snapshot, JoinAll(outcomes).value),
                                         isEnhancingAll := false)
      ensures (exists i :: 0 <= i < |outcomes| && outcomes[i].Err?) ==>
                State() == old(State()).(error := Some(BulkEnhancementFailed), isEnhancingAll := false)
    {
      match JoinAll(outcomes) {
        case Ok(prompts) =>
          scenes := ReplacePrompts(snapshot, prompts);
        case Err(_) =>
          error := Some(BulkEnhancementFailed);
      }
      isEnhancingAll := false;
    }

    /** `handleGenerateThumbnail` up to its `await`: with no imaged scene the
        banner asks for one and nothing else happens (no flag, no request);
        otherwise the images, in scene order, are sent with the instructions. */
    method BeginGenerateThumbnail() returns (request: Option<Request>)
      modifies this
      ensures ThumbnailInputs(old(scenes)) == [] ==>
                request.None? && State() == old(State()).(error := Some(NeedSceneImage))
      ensures ThumbnailInputs(old(scenes)) != [] ==>
                request == Some(Thumbnail(ThumbnailInputs(old(scenes)), old(thumbnailPrompt), old(aspectRatio)))
                && State() == old(State()).(isGeneratingThumbnail := true, error := None)
    {
      var images := ThumbnailInputs(scenes);
      if |images| == 0 {
        error := Some(NeedSceneImage);
        request := None;
      } else {
        isGeneratingThumbnail, error := true, None;
        request := Some(Thumbnail(images, thumbnailPrompt, aspectRatio));
      }
    }

    /** `handleGenerateThumbnail` after its `await`. */
    method FinishGenerateThumbnail(outcome: Result<string>)
      modifies this
      ensures outcome.Ok? ==>
                State() == old(State()).(thumbnailImage := Some(outcome.value), isGeneratingThumbnail := false)
      ensures outcome.Err? ==>
                State() == old(State()).(error := Some(ThumbnailFailed), isGeneratingThumbnail := false)
    {
      match outcome {
        case Ok(url) =>
          thumbnailImage := Some(url);
        case Err(_) =>
          error := Some(ThumbnailFailed);
      }
      isGeneratingThumbnail := false;
    }

    /** The prompt box's `onChange`: only the scenes numbered `n` change, and
        only their prompt. */
    method EditScenePrompt(n: int, text: string)
      modifies this
      ensures State() == old(State()).(scenes := UpdateScene(old(scenes), n, EditPrompt(text)))
    {
      scenes := UpdateScene(scenes, n, EditPrompt(text));
    }
  }
}

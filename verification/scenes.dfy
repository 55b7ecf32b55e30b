/** The scene list of a production and the list operations the page applies
    to it: the per-scene `map` keyed on `scene_number`, the wholesale
    replacement after segmentation, the positional prompt batch of "enhance
    all", and the `filter` that gathers thumbnail inputs. */
module Scenes {
  import opened Wrappers

  /** A scene as the segmentation endpoint returns it: the fields its response
      schema requires. */
  datatype SceneDraft = SceneDraft(
    sceneNumber: int,
    durationEstimate: string,
    visualHook: string,
    viralScore: int,
    rationale: string,
    audioMood: string,
    sfxCue: string,
    prompt: string)

  /** A scene as the page holds it: the draft's fields plus the generated
      image, the two busy flags and the scene's last error. */
  datatype Scene = Scene(
    sceneNumber: int,
    durationEstimate: string,
    visualHook: string,
    viralScore: int,
    rationale: string,
    audioMood: string,
    sfxCue: string,
    prompt: string,
    generatedImage: Option<string>,
    isGeneratingImage: bool,
    isEnhancingPrompt: bool,
    error: Option<string>)

  const ImageFailedError: string := "Image failed"

  /** `{ ...s, isGeneratingImage: false, isEnhancingPrompt: false }` for an
      analysed scene: both flags down, no image, no error. */
  function FromDraft(d: SceneDraft): Scene {
    Scene(d.sceneNumber, d.durationEstimate, d.visualHook, d.viralScore, d.rationale,
          d.audioMood, d.sfxCue, d.prompt, None, false, false, None)
  }

  /** `s` carries every field of the analysed draft `d` unchanged. */
  predicate CarriesDraft(s: Scene, d: SceneDraft) {
    s.sceneNumber == d.sceneNumber && s.durationEstimate == d.durationEstimate
    && s.visualHook == d.visualHook && s.viralScore == d.viralScore
    && s.rationale == d.rationale && s.audioMood == d.audioMood && s.sfxCue == d.sfxCue
    && s.prompt == d.prompt
  }

  /** The fields segmentation decides and no per-scene update touches. */
  predicate SameSegment(a: Scene, b: Scene) {
    a.sceneNumber == b.sceneNumber && a.durationEstimate == b.durationEstimate
    && a.visualHook == b.visualHook && a.viralScore == b.viralScore
    && a.rationale == b.rationale && a.audioMood == b.audioMood && a.sfxCue == b.sfxCue
  }

  /** The record updates the handlers apply to one scene. */
  datatype Patch =
    | EditPrompt(text: string)         // inline edit of the prompt box
    | StartEnhancing                   // enhance: flag up
    | PromptEnhanced(enhanced: string) // enhance succeeded: prompt and flag together
    | EnhanceFailed                    // enhance failed: flag down
    | StartRendering                   // visualize: flag up
    | ImageReady(url: string)          // visualize succeeded: image and flag together
    | ImageFailed                      // visualize failed: flag down, scene error

  predicate IsEnhancePatch(p: Patch) {
    p.StartEnhancing? || p.PromptEnhanced? || p.EnhanceFailed?
  }

  predicate IsRenderPatch(p: Patch) {
    p.StartRendering? || p.ImageReady? || p.ImageFailed?
  }

  /** One spread update `{ ...s, ... }`. Every patch keeps the segmentation
      fields; only prompt patches change the prompt; only a successful render
      sets the image, and it never clears one; each busy flag is moved only by
      its own operation; image and flag are written together. */
  function Apply(s: Scene, p: Patch): (r: Scene)
    ensures SameSegment(r, s)
    ensures r.prompt != s.prompt ==> p.EditPrompt? || p.PromptEnhanced?
    ensures r.generatedImage != s.generatedImage ==> p.ImageReady?
    ensures r.generatedImage.None? ==> s.generatedImage.None?
    ensures r.isEnhancingPrompt != s.isEnhancingPrompt ==> IsEnhancePatch(p)
    ensures r.isGeneratingImage != s.isGeneratingImage ==> IsRenderPatch(p)
    ensures r.error != s.error ==> p.ImageFailed?
    ensures p.EditPrompt? ==> r.prompt == p.text
    ensures p.StartEnhancing? ==> r.isEnhancingPrompt
    ensures p.PromptEnhanced? ==> r.prompt == p.enhanced && !r.isEnhancingPrompt
    ensures p.EnhanceFailed? ==> !r.isEnhancingPrompt
    ensures p.StartRendering? ==> r.isGeneratingImage
    ensures p.ImageReady? ==> r.generatedImage == Some(p.url) && !r.isGeneratingImage
    ensures p.ImageFailed? ==> !r.isGeneratingImage && r.error == Some(ImageFailedError)
  {
    match p
    case EditPrompt(text) => s.(prompt := text)
    case StartEnhancing => s.(isEnhancingPrompt := true)
    case PromptEnhanced(enhanced) => s.(prompt := enhanced, isEnhancingPrompt := false)
    case EnhanceFailed => s.(isEnhancingPrompt := false)
    case StartRendering => s.(isGeneratingImage := true)
    case ImageReady(url) => s.(generatedImage := Some(url), isGeneratingImage := false)
    case ImageFailed => s.(isGeneratingImage := false, error := Some(ImageFailedError))
  }

  /** `scenes.map(s => s.scene_number === n ? { ...s, ... } : s)`: every record
      numbered `n` is patched, every other record is kept, in place. */
  function UpdateScene(scenes: seq<Scene>, n: int, p: Patch): (r: seq<Scene>)
    ensures |r| == |scenes|
    ensures forall i :: 0 <= i < |scenes| ==>
              r[i] == if scenes[i].sceneNumber == n then Apply(scenes[i], p) else scenes[i]
  {
    if scenes == [] then []
    else
      [if scenes[0].sceneNumber == n then Apply(scenes[0], p) else scenes[0]]
      + UpdateScene(scenes[1..], n, p)
  }

  /** `scenes.map(s => s.scene_number)`: the production's membership and order. */
  function SceneNumbers(scenes: seq<Scene>): (r: seq<int>)
    ensures |r| == |scenes|
    ensures forall i :: 0 <= i < |scenes| ==> r[i] == scenes[i].sceneNumber
  {
    if scenes == [] then [] else [scenes[0].sceneNumber] + SceneNumbers(scenes[1..])
  }

  /** No per-scene update adds, removes or reorders scenes. */
  lemma UpdateKeepsNumbers(scenes: seq<Scene>, n: int, p: Patch)
    ensures SceneNumbers(UpdateScene(scenes, n, p)) == SceneNumbers(scenes)
  {
    var r := UpdateScene(scenes, n, p);
    assert forall i :: 0 <= i < |scenes| ==> SceneNumbers(r)[i] == SceneNumbers(scenes)[i];
  }

  /** An update addressed to a number no scene carries changes nothing. */
  lemma {:induction false} UpdateAbsentIsNoOp(scenes: seq<Scene>, n: int, p: Patch)
    requires n !in SceneNumbers(scenes)
    ensures UpdateScene(scenes, n, p) == scenes
  {
    if scenes != [] {
      assert SceneNumbers(scenes) == [scenes[0].sceneNumber] + SceneNumbers(scenes[1..]);
      UpdateAbsentIsNoOp(scenes[1..], n, p);
    }
  }

  /** Every patch is idempotent: applying an update twice (the same prompt
      edit, the same flag change) is the same as applying it once. */
  lemma {:induction false} UpdateIdempotent(scenes: seq<Scene>, n: int, p: Patch)
    ensures UpdateScene(UpdateScene(scenes, n, p), n, p) == UpdateScene(scenes, n, p)
  {
    if scenes != [] {
      UpdateIdempotent(scenes[1..], n, p);
      assert UpdateScene(scenes, n, p)[1..] == UpdateScene(scenes[1..], n, p);
    }
  }

  /** Updates addressed to different scenes commute, so concurrent
      operations on different scenes settle to the same list whatever order
      their results arrive in. */
  lemma {:induction false} UpdatesOnDifferentScenesCommute(scenes: seq<Scene>, n: int, p: Patch, m: int, q: Patch)
    requires n != m
    ensures UpdateScene(UpdateScene(scenes, n, p), m, q) == UpdateScene(UpdateScene(scenes, m, q), n, p)
  {
    if scenes != [] {
      UpdatesOnDifferentScenesCommute(scenes[1..], n, p, m, q);
      assert UpdateScene(scenes, n, p)[1..] == UpdateScene(scenes[1..], n, p);
      assert UpdateScene(scenes, m, q)[1..] == UpdateScene(scenes[1..], m, q);
    }
  }

  /** The two busy flags are independent: on one scene, an image render and a
      prompt enhancement may settle in either order with the same result. */
  lemma RenderAndEnhanceCommute(s: Scene, p: Patch, q: Patch)
    requires IsRenderPatch(p) && IsEnhancePatch(q)
    ensures Apply(Apply(s, p), q) == Apply(Apply(s, q), p)
  {
  }

  /** Enhancing scene `n` through its whole true-to-false cycle while scene `m`
      is still rendering leaves scene `m`'s render flag raised. */
  lemma EnhanceWhileOtherRenders(scenes: seq<Scene>, m: int, n: int, enhanced: string)
    requires m != n
    ensures var rendering := UpdateScene(scenes, m, StartRendering);
            var r := UpdateScene(UpdateScene(rendering, n, StartEnhancing), n, PromptEnhanced(enhanced));
            forall i :: 0 <= i < |scenes| ==>
              (scenes[i].sceneNumber == m ==> r[i].isGeneratingImage && r[i] == rendering[i])
              && (scenes[i].sceneNumber == n ==> r[i].prompt == enhanced && !r[i].isEnhancingPrompt)
  {
  }

  /** `scenes.find(s => s.scene_number === n)`: the first scene numbered `n`. */
  function Find(scenes: seq<Scene>, n: int): (r: Option<Scene>)
    ensures r.None? <==> n !in SceneNumbers(scenes)
    ensures r.Some? ==> exists i :: 0 <= i < |scenes| && scenes[i] == r.value && r.value.sceneNumber == n
                          && forall j :: 0 <= j < i ==> scenes[j].sceneNumber != n
  {
    if scenes == [] then None
    else if scenes[0].sceneNumber == n then Some(scenes[0])
    else
      var r := Find(scenes[1..], n);
      assert SceneNumbers(scenes) == [scenes[0].sceneNumber] + SceneNumbers(scenes[1..]);
      r
  }

  /** The scene list a successful segmentation installs: the analysed scenes in
      the order returned, each with both flags down, no image and no error. */
  function FromDrafts(drafts: seq<SceneDraft>): (r: seq<Scene>)
    ensures |r| == |drafts|
    ensures forall i :: 0 <= i < |drafts| ==>
              CarriesDraft(r[i], drafts[i])
              && r[i].generatedImage.None? && !r[i].isGeneratingImage && !r[i].isEnhancingPrompt
              && r[i].error.None?
  {
    if drafts == [] then [] else [FromDraft(drafts[0])] + FromDrafts(drafts[1..])
  }

  /** Segmentation replaces the list wholesale: the new membership and order
      are those of the analysis, whatever the previous list was. */
  lemma SegmentationNumbers(drafts: seq<SceneDraft>)
    ensures SceneNumbers(FromDrafts(drafts)) == seq(|drafts|, i requires 0 <= i < |drafts| => drafts[i].sceneNumber)
  {
  }

  /** `Promise.all` over the per-scene calls: every value in order when all
      resolved, an error when any rejected. */
  function JoinAll(outcomes: seq<Result<string>>): (r: Result<seq<string>>)
    ensures r.Ok? <==> forall i :: 0 <= i < |outcomes| ==> outcomes[i].Ok?
    ensures r.Ok? ==> |r.value| == |outcomes|
                      && forall i :: 0 <= i < |outcomes| ==> r.value[i] == outcomes[i].value
  {
    if outcomes == [] then Ok([])
    else match outcomes[0]
      case Err(e) => Err(e)
      case Ok(v) =>
        match JoinAll(outcomes[1..])
        case Err(e) =>
          assert !outcomes[1..][0].Ok? || exists i :: 1 <= i < |outcomes[1..]| && !outcomes[1..][i].Ok?;
          Err(e)
        case Ok(vs) => Ok([v] + vs)
  }

  /** `{ ...scene, prompt: enhanced }` for every scene of the snapshot,
      positionally. */
  function ReplacePrompts(snapshot: seq<Scene>, prompts: seq<string>): (r: seq<Scene>)
    requires |prompts| == |snapshot|
    ensures |r| == |snapshot|
    ensures forall i :: 0 <= i < |snapshot| ==> r[i] == snapshot[i].(prompt := prompts[i])
  {
    if snapshot == [] then []
    else [snapshot[0].(prompt := prompts[0])] + ReplacePrompts(snapshot[1..], prompts[1..])
  }

  /** A batch replacement keeps membership and order. */
  lemma ReplacePromptsKeepsNumbers(snapshot: seq<Scene>, prompts: seq<string>)
    requires |prompts| == |snapshot|
    ensures SceneNumbers(ReplacePrompts(snapshot, prompts)) == SceneNumbers(snapshot)
  {
    var r := ReplacePrompts(snapshot, prompts);
    assert forall i :: 0 <= i < |snapshot| ==> SceneNumbers(r)[i] == SceneNumbers(snapshot)[i];
  }

  /** A scene counts as imaged when `s.generatedImage` is truthy: present and
      not the empty string. */
  predicate HasImage(s: Scene) {
    s.generatedImage.Some? && s.generatedImage.value != ""
  }

  /** `scenes.filter(s => s.generatedImage).map(s => s.generatedImage!)` */
  function ThumbnailInputs(scenes: seq<Scene>): (r: seq<string>)
    ensures |r| <= |scenes|
    ensures r == [] <==> forall i :: 0 <= i < |scenes| ==> !HasImage(scenes[i])
    ensures forall k :: 0 <= k < |r| ==>
              exists i :: 0 <= i < |scenes| && HasImage(scenes[i]) && scenes[i].generatedImage.value == r[k]
  {
    if scenes == [] then []
    else
      var rest := ThumbnailInputs(scenes[1..]);
      assert forall k :: 0 <= k < |rest| ==>
               exists i :: 1 <= i < |scenes| && HasImage(scenes[i]) && scenes[i].generatedImage.value == rest[k] by {
        forall k | 0 <= k < |rest|
          ensures exists i :: 1 <= i < |scenes| && HasImage(scenes[i]) && scenes[i].generatedImage.value == rest[k]
        {
          var i :| 0 <= i < |scenes[1..]| && HasImage(scenes[1..][i]) && scenes[1..][i].generatedImage.value == rest[k];
          assert scenes[i + 1] == scenes[1..][i];
        }
      }
      if HasImage(scenes[0]) then [scenes[0].generatedImage.value] + rest else rest
  }

  /** The filter keeps scene order: the inputs of two consecutive runs of
      scenes are the first run's inputs followed by the second's. */
  lemma {:induction false} ThumbnailInputsAppend(a: seq<Scene>, b: seq<Scene>)
    ensures ThumbnailInputs(a + b) == ThumbnailInputs(a) + ThumbnailInputs(b)
  {
    if a == [] {
      assert a + b == b;
    } else {
      assert (a + b)[0] == a[0];
      assert (a + b)[1..] == a[1..] + b;
      ThumbnailInputsAppend(a[1..], b);
    }
  }

  /** Every imaged scene contributes its image, so there are exactly as many
      inputs as imaged scenes. */
  function CountImaged(scenes: seq<Scene>): nat {
    if scenes == [] then 0 else (if HasImage(scenes[0]) then 1 else 0) + CountImaged(scenes[1..])
  }

  lemma {:induction false} ThumbnailInputsCount(scenes: seq<Scene>)
    ensures |ThumbnailInputs(scenes)| == CountImaged(scenes)
  {
    if scenes != [] {
      ThumbnailInputsCount(scenes[1..]);
    }
  }
}

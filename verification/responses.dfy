/** The local checks the service layer applies to a model response before
    handing its payload to the page: which part carries the inline data, and
    the error thrown when none does. The remote calls themselves are inputs. */
module Responses {
  import opened Wrappers
  import DataUrl

  /** `{ data, mimeType }` of an inline (binary, base64) part. */
  datatype InlineData = InlineData(data: string, mimeType: string)

  /** One part of the first candidate's content: text, inline data, or both
      absent. */
  datatype Part = Part(text: Option<string>, inlineData: Option<InlineData>)

  const NoImageError: string := "No image generated"
  const NoThumbnailError: string := "Thumbnail generation failed"
  const NoAudioError: string := "TTS generation failed"

  /** The index `parts.find(p => p.inlineData)` stops at: the first part that
      carries inline data, or `|parts|` when none does. */
  function FirstInlineIndex(parts: seq<Part>): (k: nat)
    ensures k <= |parts|
    ensures forall j :: 0 <= j < k ==> parts[j].inlineData.None?
    ensures k < |parts| ==> parts[k].inlineData.Some?
  {
    if parts == [] || parts[0].inlineData.Some? then 0
    else 1 + FirstInlineIndex(parts[1..])
  }

  /** `parts.find(p => p.inlineData)?.inlineData` */
  function FindInline(parts: seq<Part>): (r: Option<InlineData>)
    ensures r.None? <==> forall i :: 0 <= i < |parts| ==> parts[i].inlineData.None?
    ensures r.Some? ==> exists i :: 0 <= i < |parts| && parts[i].inlineData == r
                          && forall j :: 0 <= j < i ==> parts[j].inlineData.None?
  {
    var k := FirstInlineIndex(parts);
    if k < |parts| then parts[k].inlineData else None
  }

  /** The tail of `generateImage` and `generateThumbnail`: the first inline
      part of the first candidate becomes a PNG data URL; a response without
      one throws `failure`. `candidateParts` is
      `response.candidates?.[0]?.content?.parts`. */
  function ImageFromResponse(candidateParts: Option<seq<Part>>, failure: string): (r: Result<string>)
    ensures r.Err? <==> (candidateParts.None? ||
                         forall i :: 0 <= i < |candidateParts.value| ==> candidateParts.value[i].inlineData.None?)
    ensures r.Err? ==> r.message == failure
    ensures r.Ok? ==> DataUrl.HasPrefix(r.value, DataUrl.PngPrefix)
                      && exists i :: 0 <= i < |candidateParts.value|
                           && candidateParts.value[i].inlineData.Some?
                           && DataUrl.StripImagePrefix(r.value) == candidateParts.value[i].inlineData.value.data
                           && forall j :: 0 <= j < i ==> candidateParts.value[j].inlineData.None?
  {
    if candidateParts.None? then Err(failure)
    else match FindInline(candidateParts.value)
      case None => Err(failure)
      case Some(inline) =>
        DataUrl.StripPngDataUrl(inline.data);
        Ok(DataUrl.PngDataUrl(inline.data))
  }

  /** The check in `generateTTS`: only the FIRST part of the first candidate is
      looked at, and an absent or empty `inlineData.data` throws. */
  function AudioFromResponse(candidateParts: Option<seq<Part>>): (r: Result<string>)
    ensures r.Ok? <==> (candidateParts.Some? && |candidateParts.value| > 0
                        && candidateParts.value[0].inlineData.Some?
                        && candidateParts.value[0].inlineData.value.data != [])
    ensures r.Ok? ==> r.value == candidateParts.value[0].inlineData.value.data
    ensures r.Err? ==> r.message == NoAudioError
  {
    if candidateParts.Some? && |candidateParts.value| > 0 then
      match candidateParts.value[0].inlineData
      case Some(inline) => if inline.data != [] then Ok(inline.data) else Err(NoAudioError)
      case None => Err(NoAudioError)
    else Err(NoAudioError)
  }

  /** The inline parts `generateThumbnail` sends: every scene image with its
      data-URL header stripped, each labelled `image/png`. */
  function ThumbnailImageParts(images: seq<string>): (r: seq<InlineData>)
    ensures |r| == |images|
    ensures forall i :: 0 <= i < |images| ==>
              r[i] == InlineData(DataUrl.StripImagePrefix(images[i]), "image/png")
  {
    if images == [] then []
    else [InlineData(DataUrl.StripImagePrefix(images[0]), "image/png")] + ThumbnailImageParts(images[1..])
  }

  /** Every PNG URL produced by `generateImage` reaches the thumbnail call as
      exactly the payload the image endpoint returned. */
  lemma {:induction false} ThumbnailPartsOfGeneratedImages(payloads: seq<string>)
    ensures var parts := ThumbnailImageParts(seq(|payloads|, i requires 0 <= i < |payloads| => DataUrl.PngDataUrl(payloads[i])));
            forall i :: 0 <= i < |payloads| ==> parts[i].data == payloads[i]
  {
    var urls := seq(|payloads|, i requires 0 <= i < |payloads| => DataUrl.PngDataUrl(payloads[i]));
    forall i | 0 <= i < |payloads| ensures ThumbnailImageParts(urls)[i].data == payloads[i] {
      DataUrl.StripPngDataUrl(payloads[i]);
    }
  }
}

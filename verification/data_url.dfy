/** The `data:` URLs (RFC 2397, section 3) in which images travel between the
    image endpoints and the page: `data:image/png;base64,<payload>`. */
module DataUrl {

  const PngPrefix: string := "data:image/png;base64,"
  const JpegPrefix: string := "data:image/jpeg;base64,"

  predicate HasPrefix(s: string, p: string) {
    |p| <= |s| && s[..|p|] == p
  }

  /** `s.replace(/^data:image\/(png|jpeg);base64,/, "")`: drop a leading PNG
      or JPEG base64 header, leave any other string alone. */
  function StripImagePrefix(s: string): (r: string)
    ensures HasPrefix(s, PngPrefix) ==> r == s[|PngPrefix|..]
    ensures HasPrefix(s, JpegPrefix) ==> r == s[|JpegPrefix|..]
    ensures !HasPrefix(s, PngPrefix) && !HasPrefix(s, JpegPrefix) ==> r == s
    ensures r == s || |r| < |s|
  {
    if HasPrefix(s, PngPrefix) then
      // the two headers part at "png" / "jpeg", so at most one applies
      assert s[11] == PngPrefix[11] != JpegPrefix[11];
      s[|PngPrefix|..]
    else if HasPrefix(s, JpegPrefix) then s[|JpegPrefix|..]
    else s
  }

  /** `` `data:image/png;base64,${data}` ``: how both image endpoints wrap the
      inline payload they receive. */
  function PngDataUrl(data: string): (r: string)
    ensures HasPrefix(r, PngPrefix) && r[|PngPrefix|..] == data
  {
    PngPrefix + data
  }

  /** Stripping a URL built by `PngDataUrl` gives back the payload. */
  lemma StripPngDataUrl(data: string)
    ensures StripImagePrefix(PngDataUrl(data)) == data
  {
  }

  /** Re-prefixing a stripped PNG URL gives back the URL. */
  lemma PngDataUrlOfStripped(s: string)
    requires HasPrefix(s, PngPrefix)
    ensures PngDataUrl(StripImagePrefix(s)) == s
  {
    assert s == s[..|PngPrefix|] + s[|PngPrefix|..];
  }

  /** The regular expression is anchored and applied once: a payload that
      itself starts with a header keeps it. */
  lemma StripOnlyOnce(data: string)
    ensures StripImagePrefix(PngDataUrl(PngDataUrl(data))) == PngDataUrl(data)
  {
  }
}

/** The local half of `generateTTS`: copying the decoded audio string into
    bytes and prefixing it with the WAV header. Base64 decoding (`atob`), the
    `Blob` and its object URL are browser services and are not modelled: the
    input is the already decoded binary string. */
module Tts {
  import opened Wrappers
  import opened Wav

  /** The sample rate the narration endpoint is assumed to deliver. */
  const TtsSampleRate: nat := 24000

  /** The `for` loop of `generateTTS`: a `Uint8Array` as long as the binary
      string, element i holding the char code of character i. */
  method CopyBinaryString(binary: string) returns (bytes: array<byte>)
    ensures fresh(bytes)
    ensures bytes.Length == |binary|
    ensures forall i :: 0 <= i < |binary| ==> bytes[i] == Low8(binary[i] as int)
  {
    bytes := new byte[|binary|];
    for i := 0 to |binary|
      invariant forall k :: 0 <= k < i ==> bytes[k] == Low8(binary[k] as int)
    {
      bytes[i] := Low8(binary[i] as int);
    }
  }

  /** `new Blob([createWavHeader(bytes.length, 24000), bytes])`, as the bytes of
      the blob: the header for the payload's length, then the payload. */
  method WavPayload(binary: string) returns (wav: seq<byte>)
    ensures |wav| == HeaderSize + |binary|
    ensures wav[..HeaderSize] == WavHeader(|binary|, TtsSampleRate)
    ensures wav[HeaderSize..] == CharBytes(binary)
  {
    var bytes := CopyBinaryString(binary);
    var header := CreateWavHeader(bytes.Length, TtsSampleRate);
    wav := header[..] + bytes[..];
    assert wav[HeaderSize..] == bytes[..];
  }

  /** The narration file describes itself: while it fits a 32-bit RIFF size,
      its header announces 24 kHz mono 16-bit PCM, a data chunk exactly as long
      as the samples that follow, and a RIFF size of the file length minus 8. */
  lemma PayloadSelfDescribing(samples: seq<byte>)
    requires 36 + |samples| < TwoTo32
    ensures var wav := WavHeader(|samples|, TtsSampleRate) + samples;
      && ParseHeader(wav) == Some(WavFormat(36 + |samples|, 1, 1, TtsSampleRate, 2 * TtsSampleRate, 2, 16, |samples|))
      && |wav| == 8 + ParseHeader(wav).value.riffSize
      && wav[HeaderSize..] == samples
  {
    var h := WavHeader(|samples|, TtsSampleRate);
    HeaderRoundTrip(|samples|, TtsSampleRate);
    ParseHeaderIgnoresPayload(h, samples);
  }
}

/** Codecs, target specs and the file extensions that carry them. */
module Audio {
  import opened Prelude
  import opened Text

  datatype Codec = Wav | Flac | Mp3 | Aac | Opus

  /** A desired output; a lossless one declares no bitrate. */
  datatype Spec = Spec(codec: Codec, bitrate: Option<int>)
  {
    predicate Lossless() { IsLossless(codec) }
  }

  datatype Profile = Profile(lossless: Option<Spec>, encoded: Option<Spec>)

  predicate IsLossless(c: Codec) { c.Wav? || c.Flac? }

  function ExtFor(c: Codec): (e: string)
    ensures IsExt(e) && CodecOfExt(e) == Some(c)
  {
    match c
    case Wav => ".wav"
    case Flac => ".flac"
    case Mp3 => ".mp3"
    case Aac => ".m4a"
    case Opus => ".opus"
  }

  /** The recognised audio extensions, in lower case. */
  function CodecOfExt(ext: string): Option<Codec> {
    if ext == ".wav" then Some(Wav)
    else if ext == ".flac" then Some(Flac)
    else if ext == ".mp3" then Some(Mp3)
    else if ext == ".aac" || ext == ".m4a" then Some(Aac)
    else if ext == ".opus" then Some(Opus)
    else None
  }
}

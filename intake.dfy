/**
 * The checks the video uploader runs on a picked file before it accepts it
 * (VideoUploader.jsx). The image uploader runs none.
 */
module Intake {
  import opened Wrappers
  import opened Media

  /** The MIME types the video uploader accepts, in the order the source lists them. */
  const VideoTypes: seq<string> :=
    ["video/mp4", "video/mpeg", "video/quicktime", "video/x-msvideo", "video/webm"]

  /** 100 MiB, the largest video the uploader accepts. */
  const MaxVideoBytes: nat := 100 * 1024 * 1024

  /** The two alert texts a rejection shows. */
  const UnsupportedTypeAlert := "Please upload a valid video file (MP4, MOV, AVI, WebM)"
  const TooLargeAlert := "File size must be less than 100MB"

  datatype Verdict = Accepted | UnsupportedType | TooLarge

  /** The alert a verdict raises, if any. */
  function AlertText(v: Verdict): (r: Option<string>)
    ensures r.None? <==> v == Accepted
  {
    match v
    case Accepted => None
    case UnsupportedType => Some(UnsupportedTypeAlert)
    case TooLarge => Some(TooLargeAlert)
  }

  /**
   * The type test runs first and the size test second, so a file failing
   * both is reported as having the wrong type; the size test is a strict `>`.
   */
  function ValidateVideo(f: File): (v: Verdict)
    ensures v == Accepted <==> f.mimeType in VideoTypes && f.size <= MaxVideoBytes
    ensures v == UnsupportedType <==> f.mimeType !in VideoTypes
    ensures v == TooLarge <==> f.mimeType in VideoTypes && f.size > MaxVideoBytes
  {
    if f.mimeType !in VideoTypes then UnsupportedType
    else if f.size > MaxVideoBytes then TooLarge
    else Accepted
  }

  /** The cap is 104857600 bytes and a file of exactly that size passes. */
  lemma SizeBoundary(name: string, t: string)
    requires t in VideoTypes
    ensures MaxVideoBytes == 104857600
    ensures ValidateVideo(File(name, t, 104857600)) == Accepted
    ensures ValidateVideo(File(name, t, 104857601)) == TooLarge
  {
  }

  /** Only the five listed types pass; in particular no image type and not the empty type. */
  lemma WhitelistIsExact(f: File)
    ensures ValidateVideo(f) != UnsupportedType <==>
      f.mimeType == "video/mp4" || f.mimeType == "video/mpeg" || f.mimeType == "video/quicktime"
      || f.mimeType == "video/x-msvideo" || f.mimeType == "video/webm"
  {
  }
}

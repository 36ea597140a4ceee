/** The outcome of reading a chosen file's text. The reader itself
    (`utils/fileUtils.ts`) is not part of this model: pages receive its
    outcome as an input. */
module FileExtraction {
  import opened Wrappers

  /** Extracted text, or what the reader threw: an `Error` with its message,
      or some other value. */
  datatype Extraction = Extracted(text: string) | ThrewError(message: string) | ThrewOther

  /** `err instanceof Error ? err.message : fallback`. */
  function FailureText(e: Extraction, fallback: string): (r: string)
    requires !e.Extracted?
    ensures e.ThrewError? ==> r == e.message
    ensures e.ThrewOther? ==> r == fallback
  {
    if e.ThrewError? then e.message else fallback
  }
}

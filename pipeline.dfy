/**
 * The generation pipeline's pure part: the messages it shows and the verdict on a finished
 * file read (content passed on, read fault, or JSON that does not parse).
 */
module Pipeline {
  import opened Wrappers
  import opened Sources

  const NoInputMessage := "Please provide text input or upload a file (VCF or JSON)."
  const InvalidJsonMessage := "Invalid JSON file. Please check the file format."
  const ReadErrorMessage := "Error reading file. Please try again."
  const RenderErrorMessage := "Error generating QR code. Please try again with different input."

  /** How a file read ends: with the whole content as text, or with a read fault. */
  datatype ReadOutcome = Loaded(content: string) | ReadFault

  /** Why a finished read does not reach the renderer. */
  datatype Fault = ReadFailed | InvalidJson

  function FaultMessage(f: Fault): string
  {
    match f
    case ReadFailed => ReadErrorMessage
    case InvalidJson => InvalidJsonMessage
  }

  /**
   * What the read handlers make of a finished read: JSON content must parse (validJson stands
   * for JSON.parse not throwing), VCF content is passed on unchecked.
   */
  function ReadVerdict(kind: FileKind, outcome: ReadOutcome, validJson: string -> bool): (r: Result<string, Fault>)
    ensures r.Success? <==> outcome.Loaded? && (kind == Json ==> validJson(outcome.content))
    ensures r.Success? ==> r.value == outcome.content
    ensures r == Failure(ReadFailed) <==> outcome.ReadFault?
    ensures r == Failure(InvalidJson) <==> kind == Json && outcome.Loaded? && !validJson(outcome.content)
  {
    match outcome
    case ReadFault => Failure(ReadFailed)
    case Loaded(content) =>
      if kind == Json && !validJson(content) then Failure(InvalidJson) else Success(content)
  }

  /** VCF content is never validated: whatever was read is what the renderer gets. */
  lemma VcfContentPassesThrough(content: string, validJson: string -> bool)
    ensures ReadVerdict(Vcf, Loaded(content), validJson) == Success(content)
  {
  }
}

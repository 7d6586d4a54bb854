/** formatDataPreview: a shortened display form of the data a code was made from. */
module Preview {

  /** The default value of the maxLength parameter. */
  const DefaultMaxLength: nat := 100

  /** The data itself when it fits in maxLength characters, else its first maxLength characters and "...". */
  function FormatDataPreview(data: string, maxLength: nat): (r: string)
    ensures |data| <= maxLength ==> r == data
    ensures |r| <= maxLength + 3
    ensures |data| > maxLength ==> |r| == maxLength + 3 && r[maxLength..] == "..."
    ensures var kept := if |data| <= maxLength then |data| else maxLength; r[..kept] == data[..kept]
  {
    if |data| <= maxLength then data else data[..maxLength] + "..."
  }

  /** A preview is its own preview. */
  lemma PreviewIdempotent(data: string, maxLength: nat)
    ensures FormatDataPreview(FormatDataPreview(data, maxLength), maxLength) == FormatDataPreview(data, maxLength)
  {
  }

  /** With the default bound, long data shows as its first 100 characters and "...", at most 103 in all. */
  lemma DefaultPreview(data: string)
    ensures |FormatDataPreview(data, DefaultMaxLength)| <= 103
    ensures |data| > DefaultMaxLength ==> FormatDataPreview(data, DefaultMaxLength) == data[..100] + "..."
  {
  }
}

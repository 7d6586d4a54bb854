/**
 * The three input sources of the form (typed text, a VCF file, a JSON file), the test the
 * submit handler applies to each, the precedence it resolves them by, and the extension
 * test applied to a dropped file.
 */
module Sources {
  import opened Wrappers
  import opened JsStrings

  /** A file held by a file input; the page observes only its name and byte size. */
  datatype FileRef = FileRef(name: string, size: nat)

  /** The two file inputs of the form. */
  datatype FileKind = Vcf | Json

  function Other(k: FileKind): FileKind
  {
    if k == Vcf then Json else Vcf
  }

  /** What a submission is made from: a selected file, or the trimmed text that is rendered. */
  datatype Source = FileSource(kind: FileKind, file: FileRef) | TextSource(payload: string)

  /** The provenance label shown on the result badge. */
  function KindLabel(k: FileKind): (r: string)
    ensures r == "VCF Contact" <==> k == Vcf
    ensures k == Json ==> r == "JSON Data"
    ensures r != TextLabel
  {
    if k == Vcf then "VCF Contact" else "JSON Data"
  }

  const TextLabel := "Text/URL"

  /** The badge for a source: the text label exactly for typed text, the file kind's label otherwise. */
  function Label(src: Source): (r: string)
    ensures r == TextLabel <==> src.TextSource?
    ensures src.FileSource? ==> r == KindLabel(src.kind)
  {
    match src
    case FileSource(k, _) => KindLabel(k)
    case TextSource(_) => TextLabel
  }

  /** The submit handler's test for typed input: the trimmed text is not empty, that is, some character is not white space. */
  predicate HasText(text: string): (r: bool)
    ensures r <==> exists i :: 0 <= i < |text| && !IsTrimmable(text[i])
  {
    !AllTrimmable(text)
  }

  /** The test above is the submit handler's `trim().length > 0`. */
  lemma HasTextIsTrimNonEmpty(text: string)
    ensures HasText(text) <==> Trim(text) != []
  {
  }

  /** At most one of the three sources is active, judged by the tests the submit handler uses. */
  predicate Exclusive(text: string, vcf: Option<FileRef>, json: Option<FileRef>)
  {
    (if HasText(text) then 1 else 0) + (if vcf.Some? then 1 else 0) + (if json.Some? then 1 else 0) <= 1
  }

  /** Every active source, without any precedence among them. */
  function Candidates(text: string, vcf: Option<FileRef>, json: Option<FileRef>): set<Source>
  {
    (if vcf.Some? then {FileSource(Vcf, vcf.value)} else {})
    + (if json.Some? then {FileSource(Json, json.value)} else {})
    + (if HasText(text) then {TextSource(Trim(text))} else {})
  }

  /** The submit handler's choice of source: the VCF file, else the JSON file, else the trimmed text. */
  function Resolve(text: string, vcf: Option<FileRef>, json: Option<FileRef>): (r: Option<Source>)
    ensures r.None? <==> !HasText(text) && vcf.None? && json.None?
    ensures r.Some? ==> r.value in Candidates(text, vcf, json)
    ensures vcf.Some? ==> r == Some(FileSource(Vcf, vcf.value))
    ensures vcf.None? && json.Some? ==> r == Some(FileSource(Json, json.value))
    ensures r.Some? && r.value.TextSource? ==> vcf.None? && json.None? && r.value.payload == Trim(text)
  {
    if vcf.Some? then Some(FileSource(Vcf, vcf.value))
    else if json.Some? then Some(FileSource(Json, json.value))
    else if HasText(text) then Some(TextSource(Trim(text)))
    else None
  }

  /** When the sources are exclusive the precedence decides nothing: the resolved source is the only candidate. */
  lemma ResolveIsSoleCandidate(text: string, vcf: Option<FileRef>, json: Option<FileRef>)
    requires Exclusive(text, vcf, json)
    ensures Resolve(text, vcf, json).None? <==> Candidates(text, vcf, json) == {}
    ensures Resolve(text, vcf, json).Some? ==> Candidates(text, vcf, json) == {Resolve(text, vcf, json).value}
  {
  }

  /** A text payload carries no white space at its ends, so trimming it again changes nothing. */
  lemma TextPayloadIsTrimmed(text: string, vcf: Option<FileRef>, json: Option<FileRef>)
    requires Resolve(text, vcf, json).Some? && Resolve(text, vcf, json).value.TextSource?
    ensures var p := Resolve(text, vcf, json).value.payload; p != [] && Trim(p) == p
  {
  }

  /** The drop handler's test: the lower-cased file name ends with the input's accept string. */
  predicate AcceptsDrop(name: string, accept: string): (r: bool)
    ensures r <==> (|accept| <= |name|
      && forall k :: 0 <= k < |accept| ==> AsciiLowerChar(name[|name| - |accept| + k]) == accept[k])
  {
    EndsWith(AsciiLower(name), accept)
  }

  /** The message shown for a dropped file of the wrong type. */
  function DropErrorMessage(accept: string): (m: string)
    ensures |m| == |accept| + 22
    ensures m[..16] == "Please select a " && m[16 + |accept|..] == " file."
    ensures forall k :: 0 <= k < |accept| ==> m[16 + k] == AsciiUpperChar(accept[k])
  {
    "Please select a " + AsciiUpper(accept) + " file."
  }

  /** The test does not depend on the case of the name. */
  lemma DropIgnoresNameCase(name: string, accept: string)
    ensures AcceptsDrop(AsciiUpper(name), accept) == AcceptsDrop(name, accept)
  {
    LowerOfUpper(name);
  }

  /** A lower-case accept string admits every name that ends with it, in any case. */
  lemma DropAcceptsExtension(stem: string, accept: string)
    requires AsciiLower(accept) == accept
    ensures AcceptsDrop(stem + accept, accept)
    ensures AcceptsDrop(AsciiUpper(stem + accept), accept)
  {
    var n := stem + accept;
    assert AsciiLower(n)[|stem|..] == AsciiLower(accept);
    LowerOfUpper(n);
  }

  /** An accept string holding an upper-case letter admits no name at all. */
  lemma DropRejectsUpperCaseAccept(name: string, accept: string, k: nat)
    requires k < |accept| && 'A' <= accept[k] <= 'Z'
    ensures !AcceptsDrop(name, accept)
  {
  }
}

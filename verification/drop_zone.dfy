/** The MIME-type filter of components/DropZone.tsx. */
module DropZone {
  import opened Wrappers
  import opened Text
  import opened Seqs
  import opened Types

  /**
   * The accepted MIME types, each spelled as its top-level type and its
   * subtype; the Office Open XML types share a long prefix. The pieces
   * let proofs look inside the names.
   */
  const PlainTextType: string := "text/" + "plain"
  const MarkdownType: string := "text/" + "markdown"
  const PngType: string := "image/" + "png"
  const JpegType: string := "image/" + "jpeg"
  const PdfType: string := "application/" + "pdf"
  const OfficePrefix: string := "application/" + "vnd." + "openxmlformats-" + "officedocument."
  const DocxType: string := OfficePrefix + "wordprocessingml." + "document"
  const XlsxType: string := OfficePrefix + "spreadsheetml." + "sheet"
  const PptxType: string := OfficePrefix + "presentationml." + "presentation"

  /** `ALLOWED_MIME_TYPES` */
  const AllowedMimeTypes: set<string> := {
    PlainTextType,
    MarkdownType,
    PngType,
    JpegType,
    PdfType,
    DocxType,
    XlsxType,
    PptxType
  }

  predicate Allowed(f: FileEntry) {
    f.mimeType in AllowedMimeTypes
  }

  predicate NotAllowed(f: FileEntry) {
    f.mimeType !in AllowedMimeTypes
  }

  /** What `processFiles` reports: the validation message and the files passed on, each if any. */
  datatype Outcome = Outcome(validationError: Option<string>, selected: Option<seq<FileEntry>>)

  function Names(files: seq<FileEntry>): (r: seq<string>)
    ensures |r| == |files| && forall k | 0 <= k < |files| :: r[k] == files[k].name
  {
    seq(|files|, k requires 0 <= k < |files| => files[k].name)
  }

  /** The message naming the rejected files. */
  function RejectionMessage(rejected: seq<FileEntry>): string {
    "Unsupported file type(s): " + Join(Names(rejected), ", ") + ". Please upload only supported file types."
  }

  /**
   * `processFiles`: nothing for a missing file list; otherwise the files
   * are split by exact MIME membership, the rejected ones are reported by
   * name and the accepted ones are passed on, each only when there are any.
   */
  function ProcessFiles(files: Option<seq<FileEntry>>): (r: Outcome)
    ensures files.None? ==> r == Outcome(None, None)
    ensures files.Some? ==>
      (r.validationError.Some? <==> exists k | 0 <= k < |files.value| :: !Allowed(files.value[k]))
    ensures files.Some? ==>
      (r.selected.Some? <==> exists k | 0 <= k < |files.value| :: Allowed(files.value[k]))
    ensures r.validationError.Some? ==> r.validationError.value == RejectionMessage(Filter(files.value, NotAllowed))
    ensures r.selected.Some? ==> r.selected.value == Filter(files.value, Allowed)
  {
    match files
    case None => Outcome(None, None)
    case Some(fs) =>
      var accepted := Filter(fs, Allowed);
      var rejected := Filter(fs, NotAllowed);
      Outcome(
        if |rejected| > 0 then Some(RejectionMessage(rejected)) else None,
        if |accepted| > 0 then Some(accepted) else None)
  }

  /** Every file lands in exactly one of the two lists, and both keep the input order. */
  lemma Partition(fs: seq<FileEntry>)
    ensures multiset(Filter(fs, Allowed)) + multiset(Filter(fs, NotAllowed)) == multiset(fs)
    ensures IsSubsequence(Filter(fs, Allowed), fs) && IsSubsequence(Filter(fs, NotAllowed), fs)
    ensures forall f | f in Filter(fs, Allowed) :: f !in Filter(fs, NotAllowed)
  {
    FilterPartition(fs, Allowed, NotAllowed);
  }

  /** GIF images and CSV text are rejected; PNG images are accepted. */
  lemma MimeExamples()
    ensures "image/gif" !in AllowedMimeTypes && "text/csv" !in AllowedMimeTypes
    ensures "image/png" in AllowedMimeTypes
  {
    assert PngType == "image/png" && JpegType == "image/jpeg";
    assert PlainTextType == "text/plain" && MarkdownType == "text/markdown" && PdfType == "application/pdf";
    assert |DocxType| > 15 && |XlsxType| > 15 && |PptxType| > 15;
  }

  /** A mixed selection both reports the rejected file and passes on the accepted one. */
  lemma MixedSelection(ok: FileEntry, bad: FileEntry)
    requires Allowed(ok) && !Allowed(bad)
    ensures var r := ProcessFiles(Some([ok, bad]));
      r.selected == Some([ok]) && r.validationError == Some(RejectionMessage([bad]))
  {
    assert [ok, bad][1..] == [bad];
    assert Filter([ok, bad], Allowed) == [ok];
    assert Filter([ok, bad], NotAllowed) == [bad];
  }
}

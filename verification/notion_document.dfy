/**
 * The page-creation request of hooks/useNotion.ts: `buildNotionProperties`
 * turns the edited content into Notion property values, and
 * `buildNotionPageBlocks` lays out the page body.
 */
module NotionDocument {
  import opened Wrappers
  import opened Text
  import opened Json
  import opened Types
  import opened Paragraphs
  import opened FileHandler

  // ---------------------------------------------------------------------
  // Properties
  // ---------------------------------------------------------------------

  /**
   * One Notion property value, named after the member the request body
   * uses. Text-like values carry the content value unconverted, as the
   * source's `as string` casts do.
   */
  datatype PropValue =
    | TitleValue(content: Json)
    | RichTextValue(content: Json)
    | UrlValue(url: Option<Json>)
    | EmailValue(email: Json)
    | PhoneNumberValue(phone: Json)
    | NumberValue(number: JsNumber)
    | CheckboxValue(checked: bool)
    | SelectValue(name: Json)
    | MultiSelectValue(names: seq<Json>)
    | DateValue(start: Option<string>)

  /** The member name of the request body, which is the property's Notion type tag. */
  function Tag(p: PropValue): string {
    match p
    case TitleValue(_) => "title"
    case RichTextValue(_) => "rich_text"
    case UrlValue(_) => "url"
    case EmailValue(_) => "email"
    case PhoneNumberValue(_) => "phone_number"
    case NumberValue(_) => "number"
    case CheckboxValue(_) => "checkbox"
    case SelectValue(_) => "select"
    case MultiSelectValue(_) => "multi_select"
    case DateValue(_) => "date"
  }

  /** The content value a text-like or select property carries. */
  function Carried(p: PropValue): Option<Json> {
    match p
    case TitleValue(v) => Some(v)
    case RichTextValue(v) => Some(v)
    case EmailValue(v) => Some(v)
    case PhoneNumberValue(v) => Some(v)
    case SelectValue(v) => Some(v)
    case _ => None
  }

  /**
   * When a present, non-null value of kind `k` is sent at all: text-like
   * kinds and select only when truthy, url, checkbox and date always, number
   * unless it coerces to NaN, multi-select for a non-empty array, relation
   * and unrecognised kinds never.
   */
  predicate Emitted(k: Kind, v: Json, toNumber: Json -> JsNumber) {
    match k
    case Title => Truthy(v)
    case RichText => Truthy(v)
    case Email => Truthy(v)
    case PhoneNumber => Truthy(v)
    case Select(_) => Truthy(v)
    case Url => true
    case Checkbox => true
    case Date => true
    case Number => toNumber(v) != NaN
    case MultiSelect(_) => v.JArr? && |v.items| > 0
    case Relation => false
    case Other(_) => false
  }

  /** The property value one schema entry contributes, if any. */
  function PropertyValue(k: Kind, v: Json, toNumber: Json -> JsNumber): (r: Option<PropValue>)
    ensures r.Some? <==> Emitted(k, v, toNumber)
    ensures r.Some? ==> Tag(r.value) == TypeName(k)
    ensures r.Some? && (k.Title? || k.RichText? || k.Email? || k.PhoneNumber? || k.Select?) ==>
      Carried(r.value) == Some(v)
    ensures r.Some? && k.Url? ==> (r.value.url.Some? <==> Truthy(v)) && (Truthy(v) ==> r.value.url == Some(v))
    ensures r.Some? && k.Checkbox? ==> r.value.checked == Truthy(v)
    ensures r.Some? && k.Number? ==> r.value.number == toNumber(v) && r.value.number != NaN
    ensures r.Some? && k.MultiSelect? ==> r.value.names == v.items
    ensures r.Some? && k.Date? ==> (r.value.start.Some? <==> v.JStr? && v.s != "")
    ensures r.Some? && k.Date? && v.JStr? ==> r.value.start.Some? ==> r.value.start.value == v.s
  {
    match k
    case Title => if Truthy(v) then Some(TitleValue(v)) else None
    case RichText => if Truthy(v) then Some(RichTextValue(v)) else None
    case Url => Some(UrlValue(if Truthy(v) then Some(v) else None))
    case Email => if Truthy(v) then Some(EmailValue(v)) else None
    case PhoneNumber => if Truthy(v) then Some(PhoneNumberValue(v)) else None
    case Number => if toNumber(v) != NaN then Some(NumberValue(toNumber(v))) else None
    case Checkbox => Some(CheckboxValue(Truthy(v)))
    case Select(_) => if Truthy(v) then Some(SelectValue(v)) else None
    case MultiSelect(_) => if v.JArr? && |v.items| > 0 then Some(MultiSelectValue(v.items)) else None
    case Date => Some(DateValue(if v.JStr? && v.s != "" then Some(v.s) else None))
    case Relation => None
    case Other(_) => None
  }

  /** `content[name]` is neither undefined nor null. */
  predicate HasValue(c: Content, name: string) {
    name in c.fields && !c.fields[name].JNull?
  }

  /**
   * `buildNotionProperties`: one value per schema property whose content
   * value is present and which its kind lets through. Content members
   * outside the schema, the page content among them, are never sent.
   */
  function BuildProperties(c: Content, schema: Schema, toNumber: Json -> JsNumber): (r: map<string, PropValue>)
    ensures forall n | n in r :: InSchema(schema, n) && HasValue(c, n)
    ensures forall i | 0 <= i < |schema| && HasValue(c, schema[i].0) ::
      && (schema[i].0 in r <==> Emitted(schema[i].1, c.fields[schema[i].0], toNumber))
      && (schema[i].0 in r ==> Some(r[schema[i].0]) == PropertyValue(schema[i].1, c.fields[schema[i].0], toNumber))
  {
    var r := map n | n in NameSet(schema) && HasValue(c, n)
        && PropertyValue(LookupKind(schema, n).value, c.fields[n], toNumber).Some?
      :: PropertyValue(LookupKind(schema, n).value, c.fields[n], toNumber).value;
    assert forall i | 0 <= i < |schema| :: LookupKind(schema, schema[i].0) == Some(schema[i].1) by {
      forall i | 0 <= i < |schema| ensures LookupKind(schema, schema[i].0) == Some(schema[i].1) {
        LookupKindAt(schema, i);
      }
    }
    r
  }

  /** Relation and unrecognised properties never reach Notion, whatever their value. */
  lemma NeverSentKinds(c: Content, schema: Schema, toNumber: Json -> JsNumber, i: nat)
    requires i < |schema| && (schema[i].1.Relation? || schema[i].1.Other?)
    ensures schema[i].0 !in BuildProperties(c, schema, toNumber)
  {
  }

  /** An empty string in a title field sends nothing, while in a url field it sends `url: null`. */
  lemma EmptyStringExample(toNumber: Json -> JsNumber)
    ensures PropertyValue(Title, JStr(""), toNumber).None?
    ensures PropertyValue(Url, JStr(""), toNumber) == Some(UrlValue(None))
    ensures PropertyValue(Date, JStr(""), toNumber) == Some(DateValue(None))
  {
  }

  // ---------------------------------------------------------------------
  // Page body
  // ---------------------------------------------------------------------

  /** The emoji of the fallback callout. */
  const Paperclip: string := "\U{1F4CE}"

  /** `publicUrls[index]` read as a truthy URL; an index past the end reads `undefined`. */
  function UrlAt(urls: seq<Option<string>>, j: nat): (u: Option<string>)
    ensures u.Some? <==> j < |urls| && urls[j].Some? && urls[j].value != ""
    ensures u.Some? ==> u == urls[j]
  {
    if j < |urls| && urls[j].Some? && urls[j].value != "" then urls[j] else None
  }

  /**
   * The block for one attached file: a link to its upload chosen by MIME
   * type, or a callout naming the file when there is no upload.
   */
  function FileBlockFor(f: FileEntry, url: Option<string>): (b: Block)
    ensures b.Callout? <==> url.None?
    ensures url.None? ==> b == Callout("Analyzed file (upload failed): " + f.name, Paperclip)
    ensures url.Some? ==> (b.Image? || b.Embed? || b.FileBlock?) && b.url == url.value
    ensures url.Some? ==> (b.Image? <==> StartsWith(f.mimeType, "image/"))
    ensures url.Some? ==> (b.Embed? <==> !StartsWith(f.mimeType, "image/") && f.mimeType == "application/pdf")
    ensures b.FileBlock? ==> b.name == f.name
  {
    match url
    case Some(u) =>
      if StartsWith(f.mimeType, "image/") then Image(u)
      else if f.mimeType == "application/pdf" then Embed(u)
      else FileBlock(u, f.name)
    case None => Callout("Analyzed file (upload failed): " + f.name, Paperclip)
  }

  /** One block per file, in file order. */
  function FileBlocks(files: seq<FileEntry>, urls: seq<Option<string>>): (r: seq<Block>)
    ensures |r| == |files|
    ensures forall j | 0 <= j < |files| :: r[j] == FileBlockFor(files[j], UrlAt(urls, j))
  {
    seq(|files|, j requires 0 <= j < |files| => FileBlockFor(files[j], UrlAt(urls, j)))
  }

  function Bullets(items: seq<string>): (r: seq<Block>)
    ensures |r| == |items|
    ensures forall k | 0 <= k < |items| :: r[k] == Bullet(items[k])
  {
    seq(|items|, k requires 0 <= k < |items| => Bullet(items[k]))
  }

  /** The page title heading: the summary title, or "Summary" when it is empty. */
  function SummaryHeading(p: PageContent): string {
    if p.summaryTitle != "" then p.summaryTitle else "Summary"
  }

  /**
   * The summary section: the title heading, the summary paragraphs, a
   * divider, the "Key Takeaways" heading and one bullet per takeaway.
   */
  function SummarySection(p: PageContent): (r: seq<Block>)
    ensures var body := ParagraphBlocks(p.summaryBody);
      && |r| == 3 + |body| + |p.takeaways|
      && r[0] == Heading2(SummaryHeading(p))
      && r[1..1 + |body|] == body
      && r[1 + |body|] == Divider
      && r[2 + |body|] == Heading2("Key Takeaways")
      && forall k | 0 <= k < |p.takeaways| :: r[3 + |body| + k] == Bullet(p.takeaways[k])
  {
    var body := ParagraphBlocks(p.summaryBody);
    var r := [Heading2(SummaryHeading(p))] + body + [Divider, Heading2("Key Takeaways")] + Bullets(p.takeaways);
    assert r[1..1 + |body|] == body;
    r
  }

  /** The original-text section, present exactly when there is text. */
  function TextSection(text: string): (r: seq<Block>)
    ensures r == [] <==> text == ""
    ensures text != "" ==>
      |r| >= 2 && r[0] == Divider && r[1] == Heading2("Original Text") && r[2..] == ParagraphBlocks(text)
  {
    if text != "" then [Divider, Heading2("Original Text")] + ParagraphBlocks(text) else []
  }

  /** The files section, present exactly when there are files, with one block per file. */
  function FileSection(files: seq<FileEntry>, urls: seq<Option<string>>): (r: seq<Block>)
    ensures r == [] <==> |files| == 0
    ensures |files| > 0 ==>
      && |r| == 2 + |files| && r[0] == Divider && r[1] == Heading2("Original Files")
      && forall j | 0 <= j < |files| :: r[2 + j] == FileBlockFor(files[j], UrlAt(urls, j))
  {
    if |files| > 0 then [Divider, Heading2("Original Files")] + FileBlocks(files, urls) else []
  }

  /**
   * `buildNotionPageBlocks`: the summary section, then the original-text
   * section, then the files section. Without page content the source
   * throws, which is `None` here.
   */
  function BuildPageBlocks(c: Content, text: string, files: seq<FileEntry>, urls: seq<Option<string>>)
    : (r: Option<seq<Block>>)
    ensures r.Some? <==> c.page.Some?
    ensures r.Some? ==>
      var s := SummarySection(c.page.value);
      var o := TextSection(text);
      && |r.value| == |s| + |o| + |FileSection(files, urls)|
      && r.value[..|s|] == s
      && r.value[|s|..|s| + |o|] == o
      && r.value[|s| + |o|..] == FileSection(files, urls)
  {
    match c.page
    case None => None
    case Some(p) =>
      var s := SummarySection(p);
      var o := TextSection(text);
      var r := s + o + FileSection(files, urls);
      assert r[..|s|] == s && r[|s|..|s| + |o|] == o;
      Some(r)
  }
  // ---------------------------------------------------------------------
  // The page body on concrete content
  // ---------------------------------------------------------------------

  /**
   * Two attachments, the first uploaded and the second not (the URL list
   * is one short): for a file that is neither an image nor a PDF, a file
   * link named after it, then the paperclip callout naming the second.
   */
  lemma FileBlocksExample(a: FileEntry, b: FileEntry, url: string)
    requires !StartsWith(a.mimeType, "image/") && a.mimeType != "application/pdf" && url != ""
    ensures FileBlocks([a, b], [Some(url)])
      == [FileBlock(url, a.name), Callout("Analyzed file (upload failed): " + b.name, Paperclip)]
  {
    var r := FileBlocks([a, b], [Some(url)]);
    assert UrlAt([Some(url)], 0) == Some(url);
    assert UrlAt([Some(url)], 1).None?;
    assert r[0] == FileBlock(url, a.name);
    assert r[1] == Callout("Analyzed file (upload failed): " + b.name, Paperclip);
  }

  /**
   * With each file's own upload in its own slot, the page links every newly
   * added file to the URL its upload produced, or shows the callout when
   * that upload failed.
   */
  lemma AddedFilesLinkOwnUpload(st: FileState, newFiles: seq<FileEntry>, objectUrls: seq<string>, settled: seq<Option<string>>, j: nat)
    requires |objectUrls| == |newFiles| && |settled| == |newFiles|
    requires Aligned(st) && j < |newFiles|
    ensures var r := AddFiles(st, newFiles, objectUrls, settled);
      var upload := if settled[j].Some? && settled[j].value != "" then settled[j] else None;
      FileBlocks(r.files, r.urls)[|st.files| + j] == FileBlockFor(newFiles[j], upload)
  {
    var r := AddFiles(st, newFiles, objectUrls, settled);
    assert r.files[|st.files| + j] == newFiles[j];
    assert r.urls[|st.urls| + j] == settled[j];
  }

  /**
   * The summary section of an untitled summary of two short lines with one
   * takeaway: the "Summary" heading, one paragraph per line, then the
   * takeaways.
   */
  lemma {:induction false} SummaryExample(first: string, t: char, second: string, item: string)
    requires IsLineTerminator(t)
    requires 0 < |first| <= MaxChunk && NoTerminator(first)
    requires 0 < |second| <= MaxChunk && NoTerminator(second)
    ensures SummarySection(PageContent("", first + [t] + second, [item]))
      == [Heading2("Summary"), Paragraph(first), Paragraph(second),
          Divider, Heading2("Key Takeaways"), Bullet(item)]
  {
    var p := PageContent("", first + [t] + second, [item]);
    TwoLineBlocks(first, t, second);
    assert Bullets(p.takeaways) == [Bullet(item)];
  }

  /** The files section for one file whose upload failed. */
  lemma FailedUploadSection(f: FileEntry)
    ensures FileSection([f], [None])
      == [Divider, Heading2("Original Files"), Callout("Analyzed file (upload failed): " + f.name, Paperclip)]
  {
    assert UrlAt([None], 0).None?;
    assert FileBlocks([f], [None]) == [Callout("Analyzed file (upload failed): " + f.name, Paperclip)];
  }

  /**
   * A page with an empty summary title, a two-line summary, one takeaway,
   * no original text and one file whose upload failed: the "Summary"
   * heading, one paragraph per line, the takeaways, no "Original Text"
   * section, and the files section with the callout.
   */
  lemma {:induction false} PageBlocksExample(first: string, t: char, second: string, item: string, f: FileEntry)
    requires IsLineTerminator(t)
    requires 0 < |first| <= MaxChunk && NoTerminator(first)
    requires 0 < |second| <= MaxChunk && NoTerminator(second)
    ensures BuildPageBlocks(Content(map[], Some(PageContent("", first + [t] + second, [item]))), "", [f], [None])
      == Some([
        Heading2("Summary"), Paragraph(first), Paragraph(second),
        Divider, Heading2("Key Takeaways"), Bullet(item),
        Divider, Heading2("Original Files"),
        Callout("Analyzed file (upload failed): " + f.name, Paperclip)])
  {
    var p := PageContent("", first + [t] + second, [item]);
    SummaryExample(first, t, second, item);
    FailedUploadSection(f);
    var sum := SummarySection(p);
    var files := FileSection([f], [None]);
    assert TextSection("") == [];
    assert BuildPageBlocks(Content(map[], Some(p)), "", [f], [None]) == Some(sum + [] + files);
    assert sum + [] + files == [
      Heading2("Summary"), Paragraph(first), Paragraph(second),
      Divider, Heading2("Key Takeaways"), Bullet(item),
      Divider, Heading2("Original Files"),
      Callout("Analyzed file (upload failed): " + f.name, Paperclip)];
  }
}

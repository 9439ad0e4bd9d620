/**
 * The icons `getFileEmoji` of utils/formatters.ts gives the types the drop
 * zone of components/DropZone.tsx accepts.
 */
module FileIcons {
  import opened Text
  import opened Formatters
  import opened DropZone

  /** A type without an `s` or a `c` names neither a spreadsheet nor a presentation. */
  lemma NoSpreadsheetOrPresentation(t: string)
    requires 's' !in t && 'c' !in t
    ensures !IsSpreadsheet(t) && !IsPresentation(t)
  {
    NotContainsMissingChar(t, "spreadsheet", 0);
    NotContainsMissingChar(t, "excel", 2);
    NotContainsMissingChar(t, "presentation", 3);
  }

  /** Plain text mentions no office format. */
  lemma PlainTextNotOffice()
    ensures !IsWord(PlainTextType) && !IsSpreadsheet(PlainTextType) && !IsPresentation(PlainTextType)
  {
    NoSpreadsheetOrPresentation(PlainTextType);
    NotContainsMissingChar(PlainTextType, "word", 0);
  }

  /** Plain text is shown with the text label. */
  lemma PlainTextIcon()
    ensures FileEmoji(PlainTextType) == TextIcon
  {
    assert PlainTextType[0] == 't';
    assert PlainTextType[..5] == "text/";
    PlainTextNotOffice();
  }

  /** Markdown holds every letter of `word`, but too close to its end to spell it. */
  lemma MarkdownNotWord()
    ensures !Contains(MarkdownType, "word")
  {
    assert MarkdownType == "text/markdo" + ['w'] + "n";
    NotContainsAroundUniqueChar("text/markdo", 'w', "n", "word", 0);
  }

  /** Markdown mentions no office format. */
  lemma MarkdownNotOffice()
    ensures !IsWord(MarkdownType) && !IsSpreadsheet(MarkdownType) && !IsPresentation(MarkdownType)
  {
    NoSpreadsheetOrPresentation(MarkdownType);
    MarkdownNotWord();
  }

  /** Markdown is shown with the text label. */
  lemma MarkdownIcon()
    ensures FileEmoji(MarkdownType) == TextIcon
  {
    assert MarkdownType[0] == 't';
    assert MarkdownType[..5] == "text/";
    MarkdownNotOffice();
  }

  /** PNG and JPEG images are shown with the picture icon, PDF with the page icon. */
  lemma ImageAndPdfIcons()
    ensures FileEmoji(PngType) == PictureIcon
    ensures FileEmoji(JpegType) == PictureIcon
    ensures FileEmoji(PdfType) == PageIcon
  {
    assert PngType[..6] == "image/";
    assert JpegType[..6] == "image/";
    assert PdfType[0] == 'a';
    assert PdfType == "application/pdf";
  }

  /** The leading characters of the Office Open XML types, which are not `image/`. */
  lemma OfficeTypesNotImages()
    ensures !StartsWith(DocxType, "image/") && !StartsWith(XlsxType, "image/") && !StartsWith(PptxType, "image/")
    ensures DocxType != "application/pdf" && XlsxType != "application/pdf" && PptxType != "application/pdf"
  {
    assert OfficePrefix[0] == "application/"[0] == 'a';
    assert DocxType[0] == XlsxType[0] == PptxType[0] == 'a';
    assert |DocxType| > 15 && |XlsxType| > 15 && |PptxType| > 15;
  }

  /** A Word document is shown with the memo icon. */
  lemma DocxIcon()
    ensures FileEmoji(DocxType) == MemoIcon
  {
    assert DocxType == OfficePrefix + "word" + ("processingml." + "document");
    OfficeTypesNotImages();
    ContainsInside(OfficePrefix, "word", "processingml." + "document");
  }

  /** An Excel workbook is shown with the chart icon. */
  lemma XlsxIcon()
    ensures FileEmoji(XlsxType) == ChartIcon
  {
    OfficePrefixLacksWH();
    assert 'w' !in XlsxType;
    assert XlsxType == OfficePrefix + "spreadsheet" + ("ml." + "sheet");
    OfficeTypesNotImages();
    NotContainsMissingChar(XlsxType, "word", 0);
    ContainsInside(OfficePrefix, "spreadsheet", "ml." + "sheet");
  }

  /** Regrouping a concatenation around one character of its third piece. */
  lemma Regroup(p1: string, p2: string, p3: string, p4: string, p5: string, p6: string, a: string, x: char, b: string)
    requires p3 == a + [x] + b
    ensures p1 + p2 + p3 + p4 + p5 + p6 == (p1 + p2 + a) + [x] + (b + p4 + p5 + p6)
  {
  }

  const PptxBeforeX: string := "application/" + "vnd." + "open"
  const PptxAfterX: string := "mlformats-" + "officedocument." + "presentationml." + "presentation"

  /** The PowerPoint type split around its only `x`, which follows an `n`. */
  lemma PptxAroundX()
    ensures PptxType == PptxBeforeX + ['x'] + PptxAfterX
    ensures 'x' !in PptxBeforeX && 'x' !in PptxAfterX
    ensures PptxBeforeX[|PptxBeforeX| - 1] == 'n'
  {
    assert "openxmlformats-" == "open" + ['x'] + "mlformats-";
    Regroup("application/", "vnd.", "openxmlformats-", "officedocument.", "presentationml.", "presentation",
      "open", 'x', "mlformats-");
  }

  /** The only `x` of the PowerPoint type follows an `n`, so it spells no `excel`. */
  lemma PptxNotExcel()
    ensures !Contains(PptxType, "excel")
  {
    PptxAroundX();
    assert (PptxBeforeX + ['x'] + PptxAfterX)[|PptxBeforeX| - 1] == 'n';
    NotContainsAroundUniqueChar(PptxBeforeX, 'x', PptxAfterX, "excel", 1);
  }

  /** The Office Open XML prefix has no `w` and no `h`. */
  lemma OfficePrefixLacksWH()
    ensures 'w' !in OfficePrefix && 'h' !in OfficePrefix
  {
  }

  /** The PowerPoint type has no `w` and no `h`. */
  lemma PptxLacksWH()
    ensures 'w' !in PptxType && 'h' !in PptxType
  {
    OfficePrefixLacksWH();
  }

  /** The PowerPoint type mentions neither word processing nor spreadsheets. */
  lemma PptxNotWordOrSpreadsheet()
    ensures !IsWord(PptxType) && !IsSpreadsheet(PptxType)
  {
    PptxLacksWH();
    NotContainsMissingChar(PptxType, "word", 0);
    NotContainsMissingChar(PptxType, "spreadsheet", 7);
    PptxNotExcel();
  }

  /** A PowerPoint presentation is shown with the presentation label. */
  lemma PptxIcon()
    ensures FileEmoji(PptxType) == PresentationIcon
  {
    assert PptxType == OfficePrefix + "presentation" + ("ml." + "presentation");
    OfficeTypesNotImages();
    PptxNotWordOrSpreadsheet();
    ContainsInside(OfficePrefix, "presentation", "ml." + "presentation");
  }

  /** Every accepted type gets an icon of its own kind, never the folder of unknown types. */
  lemma AllowedTypesHaveIcons()
    ensures forall t | t in AllowedMimeTypes :: FileEmoji(t) != FolderIcon
  {
    assert FolderIcon !in {TextIcon, PictureIcon, PageIcon, MemoIcon, ChartIcon, PresentationIcon};
    PlainTextIcon();
    MarkdownIcon();
    ImageAndPdfIcons();
    DocxIcon();
    XlsxIcon();
    PptxIcon();
  }
}

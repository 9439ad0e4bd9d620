/** `getFileEmoji` of utils/formatters.ts. */
module Formatters {
  import opened Text

  const PictureIcon: string := "\U{1F5BC}\U{FE0F}"
  const PageIcon: string := "\U{1F4C4}"
  const MemoIcon: string := "\U{1F4DD}"
  const ChartIcon: string := "\U{1F4CA}"
  const PresentationIcon: string := "投影"
  const TextIcon: string := "TXT"
  const FolderIcon: string := "\U{1F4C1}"

  predicate IsWord(t: string) {
    Contains(t, "word")
  }

  predicate IsSpreadsheet(t: string) {
    Contains(t, "spreadsheet") || Contains(t, "excel")
  }

  predicate IsPresentation(t: string) {
    Contains(t, "presentation")
  }

  /**
   * The icon for a MIME type, the first matching rule winning: images,
   * then exactly PDF, then word-processing, spreadsheet and presentation
   * types by substring, then text types, then a folder for everything else.
   * Each icon is returned for exactly the types that reach its rule.
   */
  function FileEmoji(t: string): (r: string)
    ensures r == PictureIcon <==> StartsWith(t, "image/")
    ensures r == PageIcon <==> !StartsWith(t, "image/") && t == "application/pdf"
    ensures r == MemoIcon <==> !StartsWith(t, "image/") && t != "application/pdf" && IsWord(t)
    ensures r == ChartIcon <==>
      !StartsWith(t, "image/") && t != "application/pdf" && !IsWord(t) && IsSpreadsheet(t)
    ensures r == PresentationIcon <==>
      !StartsWith(t, "image/") && t != "application/pdf" && !IsWord(t) && !IsSpreadsheet(t) && IsPresentation(t)
    ensures r == TextIcon <==>
      && !StartsWith(t, "image/") && t != "application/pdf" && !IsWord(t) && !IsSpreadsheet(t)
      && !IsPresentation(t) && StartsWith(t, "text/")
    ensures r in {PictureIcon, PageIcon, MemoIcon, ChartIcon, PresentationIcon, TextIcon, FolderIcon}
  {
    if StartsWith(t, "image/") then PictureIcon
    else if t == "application/pdf" then PageIcon
    else if IsWord(t) then MemoIcon
    else if IsSpreadsheet(t) then ChartIcon
    else if IsPresentation(t) then PresentationIcon
    else if StartsWith(t, "text/") then TextIcon
    else FolderIcon
  }
}

/**
 * The parallel-array bookkeeping of hooks/useFileHandler.ts: the attached
 * files, their previews and their public URLs move together. Object URLs
 * for image previews and the outcomes of the uploads are inputs.
 */
module FileHandler {
  import opened Wrappers
  import opened Text
  import opened Seqs
  import opened Types

  /** Input text, attached files, preview URLs and public URLs (`None` is `null`). */
  datatype FileState = FileState(
    text: string,
    files: seq<FileEntry>,
    previews: seq<string>,
    urls: seq<Option<string>>)

  /** The three per-file arrays have one entry per file. */
  predicate Aligned(st: FileState) {
    |st.previews| == |st.files| && |st.urls| == |st.files|
  }

  predicate IsImage(f: FileEntry) {
    StartsWith(f.mimeType, "image/")
  }

  /** An object URL the page created, which must be revoked: `url && url.startsWith('blob:')`. */
  predicate IsBlob(url: string) {
    url != "" && StartsWith(url, "blob:")
  }

  /** The preview of each new file: its object URL for images, `''` otherwise. */
  function Previews(newFiles: seq<FileEntry>, objectUrls: seq<string>): (r: seq<string>)
    requires |objectUrls| == |newFiles|
    ensures |r| == |newFiles|
    ensures forall j | 0 <= j < |newFiles| :: r[j] == (if IsImage(newFiles[j]) then objectUrls[j] else "")
  {
    seq(|newFiles|, j requires 0 <= j < |newFiles| => if IsImage(newFiles[j]) then objectUrls[j] else "")
  }

  function Nulls(n: nat): (r: seq<Option<string>>)
    ensures |r| == n && forall k | 0 <= k < n :: r[k].None?
  {
    seq(n, _ => None)
  }

  // ---------------------------------------------------------------------
  // URL back-fill
  // ---------------------------------------------------------------------

  /** How many of the first `i` entries are still `null`. */
  function NullsBefore(urls: seq<Option<string>>, i: nat): (n: nat)
    requires i <= |urls|
    ensures n <= i
  {
    if i == 0 then 0 else NullsBefore(urls, i - 1) + (if urls[i - 1].None? then 1 else 0)
  }

  /**
   * The back-fill loop as written: scanning left to right, every `null`
   * slot takes the next settled URL while there is one. A settled `null`
   * (a failed upload) is consumed like any other.
   */
  function FillNulls(urls: seq<Option<string>>, settled: seq<Option<string>>): (r: seq<Option<string>>)
    ensures |r| == |urls|
    decreases |urls|
  {
    if |urls| == 0 then []
    else if urls[0].None? && |settled| > 0 then [settled[0]] + FillNulls(urls[1..], settled[1..])
    else [urls[0]] + FillNulls(urls[1..], settled)
  }

  lemma {:induction false} NullsBeforeTail(urls: seq<Option<string>>, i: nat)
    requires 0 < i <= |urls|
    ensures NullsBefore(urls, i) == (if urls[0].None? then 1 else 0) + NullsBefore(urls[1..], i - 1)
  {
    if i > 1 {
      NullsBeforeTail(urls, i - 1);
    }
  }

  /**
   * What the back-fill writes where: a non-null entry is kept, and the
   * `n`-th null slot from the left takes settled URL `n` if there is one.
   */
  lemma {:induction false} FillNullsAt(urls: seq<Option<string>>, settled: seq<Option<string>>, i: nat)
    requires i < |urls|
    ensures urls[i].Some? ==> FillNulls(urls, settled)[i] == urls[i]
    ensures urls[i].None? ==>
      FillNulls(urls, settled)[i] == (if NullsBefore(urls, i) < |settled| then settled[NullsBefore(urls, i)] else None)
    decreases |urls|
  {
    if i > 0 {
      NullsBeforeTail(urls, i);
      if urls[0].None? && |settled| > 0 {
        FillNullsAt(urls[1..], settled[1..], i - 1);
      } else {
        FillNullsAt(urls[1..], settled, i - 1);
      }
    }
  }

  /** The loop of `handleAddFiles` that back-fills the URLs, as the source writes it. */
  method BackFill(prev: seq<Option<string>>, settled: seq<Option<string>>) returns (updated: seq<Option<string>>)
    ensures updated == FillNulls(prev, settled)
  {
    updated := prev;
    var next := 0;
    var i := 0;
    while i < |updated|
      invariant 0 <= i <= |prev| && |updated| == |prev|
      invariant next == if NullsBefore(prev, i) < |settled| then NullsBefore(prev, i) else |settled|
      invariant forall k | 0 <= k < i :: updated[k] == FillNulls(prev, settled)[k]
      invariant forall k | i <= k < |prev| :: updated[k] == prev[k]
    {
      FillNullsAt(prev, settled, i);
      if updated[i].None? && next < |settled| {
        updated := updated[i := settled[next]];
        next := next + 1;
      }
      i := i + 1;
    }
  }

  // ---------------------------------------------------------------------
  // Adding files
  // ---------------------------------------------------------------------

  /**
   * `handleAddFiles` as written: the files, previews and `null`
   * placeholders are appended, then the settled upload URLs are written into
   * the null slots from the left of the whole list.
   */
  function AddFilesAsWritten(st: FileState, newFiles: seq<FileEntry>, objectUrls: seq<string>, settled: seq<Option<string>>)
    : (r: FileState)
    requires |objectUrls| == |newFiles| && |settled| == |newFiles|
    ensures Aligned(st) ==> Aligned(r)
    ensures r.files == st.files + newFiles && r.previews == st.previews + Previews(newFiles, objectUrls)
    ensures r.urls == FillNulls(st.urls + Nulls(|newFiles|), settled)
  {
    FileState(st.text, st.files + newFiles, st.previews + Previews(newFiles, objectUrls),
      FillNulls(st.urls + Nulls(|newFiles|), settled))
  }

  lemma {:induction false} NullsBeforeAllSome(urls: seq<Option<string>>, i: nat)
    requires i <= |urls| && forall k | 0 <= k < |urls| :: urls[k].Some?
    ensures NullsBefore(urls, i) == 0
  {
    if i > 0 {
      NullsBeforeAllSome(urls, i - 1);
    }
  }

  lemma {:induction false} NullsBeforeAppendNulls(urls: seq<Option<string>>, n: nat, j: nat)
    requires j <= n && forall k | 0 <= k < |urls| :: urls[k].Some?
    ensures NullsBefore(urls + Nulls(n), |urls| + j) == j
  {
    var all := urls + Nulls(n);
    if j == 0 {
      NullsBeforePrefix(urls, Nulls(n), |urls|);
      NullsBeforeAllSome(urls, |urls|);
    } else {
      NullsBeforeAppendNulls(urls, n, j - 1);
      assert all[|urls| + j - 1] == None;
    }
  }

  lemma {:induction false} NullsBeforePrefix(a: seq<Option<string>>, b: seq<Option<string>>, i: nat)
    requires i <= |a|
    ensures NullsBefore(a + b, i) == NullsBefore(a, i)
  {
    if i > 0 {
      NullsBeforePrefix(a, b, i - 1);
      assert (a + b)[i - 1] == a[i - 1];
    }
  }

  /** When no earlier upload is missing, each new file receives its own upload's URL. */
  lemma AddFilesWithoutGaps(st: FileState, newFiles: seq<FileEntry>, objectUrls: seq<string>, settled: seq<Option<string>>, j: nat)
    requires |objectUrls| == |newFiles| && |settled| == |newFiles| && j < |newFiles|
    requires forall k | 0 <= k < |st.urls| :: st.urls[k].Some?
    ensures AddFilesAsWritten(st, newFiles, objectUrls, settled).urls[|st.urls| + j] == settled[j]
  {
    var all := st.urls + Nulls(|newFiles|);
    NullsBeforeAppendNulls(st.urls, |newFiles|, j);
    FillNullsAt(all, settled, |st.urls| + j);
  }

  /**
   * An earlier failed upload left a `null` behind: the next batch's URL is
   * written onto the earlier file, and the new file is left without one.
   */
  lemma ShiftedUrlExample(a: FileEntry, b: FileEntry, url: string)
    ensures var st := FileState("", [a], [""], [None]);
      var r := AddFilesAsWritten(st, [b], [""], [Some(url)]);
      r.files == [a, b] && r.urls == [Some(url), None]
  {
    var all: seq<Option<string>> := [None] + Nulls(1);
    assert all == [None, None];
    assert all[1..] == [None];
    assert [Some(url)][1..] == [];
    assert FillNulls([None], []) == [None];
  }

  /**
   * `handleAddFiles` as evidently intended: each new file's placeholder
   * receives that file's own upload outcome, and earlier entries stay.
   */
  function AddFiles(st: FileState, newFiles: seq<FileEntry>, objectUrls: seq<string>, settled: seq<Option<string>>)
    : (r: FileState)
    requires |objectUrls| == |newFiles| && |settled| == |newFiles|
    ensures Aligned(st) ==> Aligned(r)
    ensures r.files == st.files + newFiles && r.previews == st.previews + Previews(newFiles, objectUrls)
    ensures |r.urls| == |st.urls| + |newFiles| && r.urls[..|st.urls|] == st.urls
    ensures forall j | 0 <= j < |newFiles| :: r.urls[|st.urls| + j] == settled[j]
  {
    FileState(st.text, st.files + newFiles, st.previews + Previews(newFiles, objectUrls), st.urls + settled)
  }

  /** Without earlier gaps the corrected and the written version agree. */
  lemma {:induction false} AddFilesAgreeWithoutGaps(st: FileState, newFiles: seq<FileEntry>, objectUrls: seq<string>, settled: seq<Option<string>>)
    requires |objectUrls| == |newFiles| && |settled| == |newFiles|
    requires forall k | 0 <= k < |st.urls| :: st.urls[k].Some?
    ensures AddFiles(st, newFiles, objectUrls, settled) == AddFilesAsWritten(st, newFiles, objectUrls, settled)
  {
    var w := AddFilesAsWritten(st, newFiles, objectUrls, settled).urls;
    var c := AddFiles(st, newFiles, objectUrls, settled).urls;
    forall i | 0 <= i < |w| ensures w[i] == c[i] {
      if i < |st.urls| {
        FillNullsAt(st.urls + Nulls(|newFiles|), settled, i);
      } else {
        AddFilesWithoutGaps(st, newFiles, objectUrls, settled, i - |st.urls|);
      }
    }
  }

  // ---------------------------------------------------------------------
  // Removing and resetting
  // ---------------------------------------------------------------------

  /** `arr.filter((_, index) => index !== i)` */
  function RemoveAt<T>(s: seq<T>, i: nat): (r: seq<T>)
    ensures i < |s| ==> |r| == |s| - 1 && r == s[..i] + s[i + 1..]
    ensures i >= |s| ==> r == s
  {
    if i < |s| then s[..i] + s[i + 1..] else s
  }

  /**
   * `handleRemoveFile(i)`: position `i` leaves all three arrays, and its
   * preview is revoked when it is an object URL.
   */
  function RemoveFile(st: FileState, i: nat): (r: (FileState, seq<string>))
    ensures Aligned(st) ==> Aligned(r.0)
    ensures r.0.text == st.text
    ensures r.0.files == RemoveAt(st.files, i) && r.0.previews == RemoveAt(st.previews, i)
    ensures r.0.urls == RemoveAt(st.urls, i)
    ensures r.1 == (if i < |st.previews| && IsBlob(st.previews[i]) then [st.previews[i]] else [])
  {
    var revoked := if i < |st.previews| && IsBlob(st.previews[i]) then [st.previews[i]] else [];
    (FileState(st.text, RemoveAt(st.files, i), RemoveAt(st.previews, i), RemoveAt(st.urls, i)), revoked)
  }

  /** Removal keeps every other file's preview and URL next to it. */
  lemma RemoveKeepsPairing(st: FileState, i: nat, k: nat)
    requires Aligned(st) && i < |st.files| && k < |st.files| - 1
    ensures var r := RemoveFile(st, i).0;
      var src := if k < i then k else k + 1;
      r.files[k] == st.files[src] && r.previews[k] == st.previews[src] && r.urls[k] == st.urls[src]
  {
  }

  /** `resetFiles`: everything is emptied, and every object-URL preview is revoked, in order. */
  function ResetFiles(st: FileState): (r: (FileState, seq<string>))
    ensures r.0 == FileState("", [], [], [])
    ensures forall u | u in r.1 :: IsBlob(u) && u in st.previews
    ensures forall k | 0 <= k < |st.previews| && IsBlob(st.previews[k]) :: st.previews[k] in r.1
  {
    (FileState("", [], [], []), Filter(st.previews, IsBlob))
  }

  /** Previews of non-image files are empty, so they are never revoked. */
  lemma NonImagesNeverRevoked(newFiles: seq<FileEntry>, objectUrls: seq<string>, j: nat)
    requires |objectUrls| == |newFiles| && j < |newFiles| && !IsImage(newFiles[j])
    ensures !IsBlob(Previews(newFiles, objectUrls)[j])
  {
  }
  /**
   * Object URLs are created for image previews only, and reset revokes
   * exactly those: after files are added to an empty list, every image's
   * object URL is revoked on reset, and nothing else is.
   */
  lemma ResetRevokesImagePreviews(text: string, newFiles: seq<FileEntry>, objectUrls: seq<string>, settled: seq<Option<string>>)
    requires |objectUrls| == |newFiles| && |settled| == |newFiles|
    requires forall j | 0 <= j < |objectUrls| :: IsBlob(objectUrls[j])
    ensures var revoked := ResetFiles(AddFiles(FileState(text, [], [], []), newFiles, objectUrls, settled)).1;
      && (forall j | 0 <= j < |newFiles| && IsImage(newFiles[j]) :: objectUrls[j] in revoked)
      && (forall u | u in revoked :: exists j | 0 <= j < |newFiles| :: IsImage(newFiles[j]) && u == objectUrls[j])
  {
    var previews := Previews(newFiles, objectUrls);
    var st := AddFiles(FileState(text, [], [], []), newFiles, objectUrls, settled);
    assert st.previews == [] + previews;
    assert st.previews == previews;
    var revoked := ResetFiles(st).1;
    RevokedPreviewsAreImages(newFiles, objectUrls, revoked);
  }

  lemma RevokedPreviewsAreImages(newFiles: seq<FileEntry>, objectUrls: seq<string>, revoked: seq<string>)
    requires |objectUrls| == |newFiles|
    requires forall u | u in revoked :: IsBlob(u) && u in Previews(newFiles, objectUrls)
    ensures forall u | u in revoked :: exists j | 0 <= j < |newFiles| :: IsImage(newFiles[j]) && u == objectUrls[j]
  {
    var previews := Previews(newFiles, objectUrls);
    forall u | u in revoked
      ensures exists j | 0 <= j < |newFiles| :: IsImage(newFiles[j]) && u == objectUrls[j]
    {
      var j :| 0 <= j < |previews| && previews[j] == u;
      assert IsImage(newFiles[j]);
    }
  }
}

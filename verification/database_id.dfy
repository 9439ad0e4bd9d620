/**
 * `handleDatabaseIdChange` of pages/SettingsPage.tsx: a pasted Notion link
 * is reduced to the first 32-hex-digit run in it, `/([a-fA-F0-9]{32})/`.
 */
module DatabaseId {
  import opened Wrappers
  import opened Text

  /** The length of a Notion database id without dashes. */
  const IdLength: nat := 32

  predicate IsHex(c: char) {
    ('0' <= c <= '9') || ('a' <= c <= 'f') || ('A' <= c <= 'F')
  }

  /** Whether an id-length run of hex digits starts at `i`. */
  predicate HexWindowAt(s: string, i: nat) {
    i + IdLength <= |s| && forall k | i <= k < i + IdLength :: IsHex(s[k])
  }

  /** The leftmost start at or after `from` of a hex window. */
  function FirstWindowFrom(s: string, from: nat): (r: Option<nat>)
    requires from <= |s|
    ensures r.Some? ==> from <= r.value && HexWindowAt(s, r.value)
    ensures r.Some? ==> forall j | from <= j < r.value :: !HexWindowAt(s, j)
    ensures r.None? ==> forall j | from <= j <= |s| :: !HexWindowAt(s, j)
    decreases |s| - from
  {
    if from + IdLength > |s| then None
    else if HexWindowAt(s, from) then Some(from)
    else FirstWindowFrom(s, from + 1)
  }

  /**
   * The id written into the form: the leftmost 32-digit hex window of the
   * input, case kept, or the whole input when there is none. Either way it
   * is a substring of the input.
   */
  function ExtractId(s: string): (r: string)
    ensures Contains(s, r)
    ensures FirstWindowFrom(s, 0).Some? ==>
      var i := FirstWindowFrom(s, 0).value;
      r == s[i..i + IdLength] && |r| == IdLength && forall k | 0 <= k < |r| :: IsHex(r[k])
    ensures FirstWindowFrom(s, 0).None? ==> r == s
  {
    match FirstWindowFrom(s, 0)
    case Some(i) =>
      var r := s[i..i + IdLength];
      assert forall k | 0 <= k < |r| :: r[k] == s[i + k];
      assert s == s[..i] + r + s[i + IdLength..];
      ContainsInside(s[..i], r, s[i + IdLength..]);
      r
    case None =>
      assert s == [] + s + [];
      ContainsInside([], s, []);
      s
  }

  /** Extracting from an extracted id gives it back. */
  lemma ExtractIdempotent(s: string)
    ensures ExtractId(ExtractId(s)) == ExtractId(s)
  {
    var r := ExtractId(s);
    if FirstWindowFrom(s, 0).Some? {
      assert HexWindowAt(r, 0);
      assert r[0..IdLength] == r;
    }
  }
}

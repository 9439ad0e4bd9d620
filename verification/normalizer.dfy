/**
 * The reply handling of `processContent` and `refineContent` in
 * hooks/useAI.ts: choosing the instruction prompt, cutting the JSON object
 * out of the model's raw text, and repairing a missing page content.
 *
 * `JSON.parse` is a parameter. It is typed to return an object: a text
 * that starts with `{` and ends with `}` is, by the JSON grammar, either an
 * object or not JSON at all.
 */
module Normalizer {
  import opened Wrappers
  import opened Text
  import opened Json
  import opened Types

  /** Which call produced the reply; each has its own error message. */
  datatype Mode = Processing | Refinement

  /**
   * The one message a failed extraction or a failed parse surfaces with:
   * the "no JSON object" error thrown inside the `try` is caught and
   * replaced by the same text as a parse error.
   */
  function InvalidReplyMessage(mode: Mode): string {
    match mode
    case Processing => "The AI returned an invalid response. Please check the content and try again."
    case Refinement => "The AI returned an invalid refined response. Please check the instruction and try again."
  }

  /**
   * The text from the first `{` to the last `}`, both included. There is
   * none when either brace is missing or every `}` comes before every `{`.
   */
  function JsonSpan(text: string): (r: Option<string>)
    ensures r.Some? ==> |r.value| >= 1 && r.value[0] == '{' && r.value[|r.value| - 1] == '}'
    ensures r.Some? ==> exists i | 0 <= i <= |text| - |r.value| ::
      text[i..i + |r.value|] == r.value && '{' !in text[..i] && '}' !in text[i + |r.value|..]
    ensures r.None? ==> forall a, b | 0 <= a < |text| && 0 <= b < |text| && text[a] == '{' && text[b] == '}' :: b < a
  {
    match (IndexOf(text, '{'), LastIndexOf(text, '}'))
    case (Some(start), Some(end)) =>
      if end < start then
        None
      else
        var span := text[start..end + 1];
        assert text[start..start + |span|] == span;
        Some(span)
    case _ => None
  }

  /**
   * A reply that wraps one object in prose or a markdown fence without
   * braces yields exactly that object.
   */
  lemma {:induction false} SpanOfWrappedObject(before: string, obj: string, after: string)
    requires '{' !in before && '}' !in after
    requires |obj| >= 1 && obj[0] == '{' && obj[|obj| - 1] == '}'
    ensures JsonSpan(before + obj + after) == Some(obj)
  {
    var text := before + obj + after;
    var first := IndexOf(text, '{');
    var last := LastIndexOf(text, '}');
    assert text[|before|] == '{';
    assert text[|before| + |obj| - 1] == '}';
    assert text[..|before|] == before;
    assert text[|before| + |obj|..] == after;
    assert first.Some? && first.value == |before|;
    assert last.Some? && last.value == |before| + |obj| - 1;
    assert text[|before|..|before| + |obj|] == obj;
  }

  /** The page content the normaliser puts in place of a missing one. */
  const DefaultPage: PageContent := PageContent("Summary (auto-generated)", "", [])

  /** `!v || typeof v !== 'object'` decides that a page content must be replaced. */
  predicate NeedsRepair(v: Option<Json>) {
    !TruthyRead(v) || !IsObjectType(v.value)
  }

  /**
   * Replaces a missing, falsy or non-object `pageContent` with the default
   * and leaves every other member alone.
   */
  function RepairPageContent(obj: map<string, Json>): (r: map<string, Json>)
    ensures r.Keys == obj.Keys + {PageContentKey}
    ensures forall k | k in obj && k != PageContentKey :: r[k] == obj[k]
    ensures r[PageContentKey].JObj? || r[PageContentKey].JArr?
    ensures !NeedsRepair(Lookup(obj, PageContentKey)) ==> r == obj
    ensures NeedsRepair(Lookup(obj, PageContentKey)) ==> r[PageContentKey] == PageToJson(DefaultPage)
  {
    if NeedsRepair(Lookup(obj, PageContentKey)) then obj[PageContentKey := PageToJson(DefaultPage)]
    else obj
  }

  /** Repairing twice changes nothing more than repairing once. */
  lemma RepairIdempotent(obj: map<string, Json>)
    ensures RepairPageContent(RepairPageContent(obj)) == RepairPageContent(obj)
  {
  }

  /**
   * Extraction, parsing and repair of one reply. Both a missing object and
   * a parse failure give the single message of the mode.
   */
  function Normalize(text: string, parse: string -> Option<map<string, Json>>, mode: Mode)
    : (r: Result<map<string, Json>, string>)
    ensures r.Failure? <==> JsonSpan(text).None? || parse(JsonSpan(text).value).None?
    ensures r.Failure? ==> r.error == InvalidReplyMessage(mode)
    ensures r.Success? ==> (PageContentKey in r.value
      && (r.value[PageContentKey].JObj? || r.value[PageContentKey].JArr?))
    ensures r.Success? ==> var parsed := parse(JsonSpan(text).value).value;
      r.value.Keys == parsed.Keys + {PageContentKey}
      && forall k | k in parsed && k != PageContentKey :: r.value[k] == parsed[k]
  {
    match JsonSpan(text)
    case None => Failure(InvalidReplyMessage(mode))
    case Some(span) =>
      match parse(span)
      case None => Failure(InvalidReplyMessage(mode))
      case Some(parsed) => Success(RepairPageContent(parsed))
  }

  /** A reply with a well-formed page content keeps it, decoded unchanged. */
  lemma NormalizeKeepsPage(text: string, parse: string -> Option<map<string, Json>>, mode: Mode, p: PageContent)
    requires JsonSpan(text).Some? && parse(JsonSpan(text).value).Some?
    requires Lookup(parse(JsonSpan(text).value).value, PageContentKey) == Some(PageToJson(p))
    ensures Normalize(text, parse, mode).Success?
    ensures ToContent(Normalize(text, parse, mode).value).page == Some(p)
  {
    PageRoundTrip(p);
  }

  /** A reply without a page content gets the default one. */
  lemma NormalizeDefaultsPage(text: string, parse: string -> Option<map<string, Json>>, mode: Mode)
    requires JsonSpan(text).Some? && parse(JsonSpan(text).value).Some?
    requires PageContentKey !in parse(JsonSpan(text).value).value
    ensures Normalize(text, parse, mode).Success?
    ensures ToContent(Normalize(text, parse, mode).value).page == Some(DefaultPage)
  {
    PageRoundTrip(DefaultPage);
  }

  // ---------------------------------------------------------------------
  // The instruction prompt
  // ---------------------------------------------------------------------

  /** `connections.find(c => c.id === activeDatabaseId)` */
  function ActiveConnection(s: Settings): (r: Option<Connection>)
    ensures r.Some? ==> r.value in s.connections && s.activeDatabaseId == Some(r.value.id)
    ensures r.None? ==> forall k | 0 <= k < |s.connections| :: s.activeDatabaseId != Some(s.connections[k].id)
  {
    FindById(s.connections, s.activeDatabaseId)
  }

  function FindById(cs: seq<Connection>, id: Option<string>): (r: Option<Connection>)
    ensures r.Some? ==> (id == Some(r.value.id)
      && exists k | 0 <= k < |cs| :: cs[k] == r.value && forall m | 0 <= m < k :: id != Some(cs[m].id))
    ensures r.None? ==> forall k | 0 <= k < |cs| :: id != Some(cs[k].id)
  {
    if |cs| == 0 then None
    else if id == Some(cs[0].id) then Some(cs[0])
    else
      var r := FindById(cs[1..], id);
      if r.Some? then
        var k :| 0 <= k < |cs[1..]| && cs[1..][k] == r.value && forall m | 0 <= m < k :: id != Some(cs[1..][m].id);
        assert cs[k + 1] == r.value;
        assert forall m | 0 <= m < k + 1 :: id != Some(cs[m].id) by {
          forall m | 0 <= m < k + 1 ensures id != Some(cs[m].id) {
            if m > 0 { assert cs[m] == cs[1..][m - 1]; }
          }
        }
        r
      else r
  }

  /** Whether the active connection carries a non-empty prompt of its own. */
  predicate HasOverride(s: Settings) {
    var c := ActiveConnection(s);
    c.Some? && c.value.systemPrompt.Some? && c.value.systemPrompt.value != ""
  }

  /**
   * `activeConnection?.systemPrompt || settings.systemPrompt || DEFAULT_SYSTEM_PROMPT`:
   * the first non-empty of the connection's override, the global prompt and
   * the built-in default.
   */
  function ProcessingPrompt(s: Settings, defaultPrompt: string): (r: string)
    ensures HasOverride(s) ==> r == ActiveConnection(s).value.systemPrompt.value
    ensures !HasOverride(s) && s.systemPrompt != "" ==> r == s.systemPrompt
    ensures !HasOverride(s) && s.systemPrompt == "" ==> r == defaultPrompt
    ensures r != "" || defaultPrompt == ""
  {
    var c := ActiveConnection(s);
    if c.Some? && c.value.systemPrompt.Some? && c.value.systemPrompt.value != "" then c.value.systemPrompt.value
    else if s.systemPrompt != "" then s.systemPrompt
    else defaultPrompt
  }

  /**
   * The prompt used is always one of the three candidates: the built-in
   * default, the global prompt, or the non-empty override of a connection
   * bearing the active database id.
   */
  lemma PromptIsCandidate(s: Settings, defaultPrompt: string)
    ensures var r := ProcessingPrompt(s, defaultPrompt);
      || r == defaultPrompt
      || r == s.systemPrompt
      || (r != "" && exists k | 0 <= k < |s.connections| ::
            s.activeDatabaseId == Some(s.connections[k].id) && s.connections[k].systemPrompt == Some(r))
  {
    var c := ActiveConnection(s);
    if HasOverride(s) {
      var k :| 0 <= k < |s.connections| && s.connections[k] == c.value;
      assert s.activeDatabaseId == Some(s.connections[k].id);
    }
  }

  /**
   * When no connection with the active id carries a non-empty override (no
   * connection matches, or its override is absent or empty), the global
   * prompt is used, and the default when that is empty too.
   */
  lemma EmptyOverrideFallsBack(s: Settings, defaultPrompt: string)
    requires forall k | 0 <= k < |s.connections| && s.activeDatabaseId == Some(s.connections[k].id) ::
      s.connections[k].systemPrompt.None? || s.connections[k].systemPrompt == Some("")
    ensures ProcessingPrompt(s, defaultPrompt) == if s.systemPrompt != "" then s.systemPrompt else defaultPrompt
  {
    var c := ActiveConnection(s);
    if c.Some? {
      var k :| 0 <= k < |s.connections| && s.connections[k] == c.value;
      assert s.activeDatabaseId == Some(s.connections[k].id);
    }
  }

  /**
   * The first connection bearing the active id decides: its non-empty
   * override wins over the global prompt and the default.
   */
  lemma FirstActiveOverrideWins(s: Settings, defaultPrompt: string, k: nat)
    requires k < |s.connections| && s.activeDatabaseId == Some(s.connections[k].id)
    requires forall m | 0 <= m < k :: s.activeDatabaseId != Some(s.connections[m].id)
    requires s.connections[k].systemPrompt.Some? && s.connections[k].systemPrompt.value != ""
    ensures ProcessingPrompt(s, defaultPrompt) == s.connections[k].systemPrompt.value
  {
    var c := ActiveConnection(s);
    var j :| 0 <= j < |s.connections| && s.connections[j] == c.value
      && forall m | 0 <= m < j :: s.activeDatabaseId != Some(s.connections[m].id);
    assert j == k;
  }
}

/**
 * The shared data model of types.ts: Notion property kinds and database
 * schemas, the page content the AI writes, the processed content the user
 * edits, attached files, AI providers and settings.
 */
module Types {
  import opened Wrappers
  import opened Json

  // ---------------------------------------------------------------------
  // Notion property kinds and database schemas
  // ---------------------------------------------------------------------

  /**
   * The eleven property types the application names, plus the catch-all
   * for every other Notion property type. Choice kinds carry the names of
   * their options in Notion's order.
   */
  datatype Kind =
    | Title
    | RichText
    | Url
    | Email
    | PhoneNumber
    | Date
    | Number
    | Checkbox
    | Select(options: seq<string>)
    | MultiSelect(options: seq<string>)
    | Relation
    | Other(typeName: string)

  /** The `type` tags the application recognises. */
  const KnownTypeNames: seq<string> :=
    ["title", "select", "multi_select", "rich_text", "url", "date",
     "relation", "number", "checkbox", "email", "phone_number"]

  /** The `type` tag Notion reports for a property of kind `k`. */
  function TypeName(k: Kind): string {
    match k
    case Title => "title"
    case RichText => "rich_text"
    case Url => "url"
    case Email => "email"
    case PhoneNumber => "phone_number"
    case Date => "date"
    case Number => "number"
    case Checkbox => "checkbox"
    case Select(_) => "select"
    case MultiSelect(_) => "multi_select"
    case Relation => "relation"
    case Other(t) => t
  }

  /** The option names of a choice kind, empty for the others. */
  function OptionsOf(k: Kind): seq<string> {
    match k
    case Select(o) => o
    case MultiSelect(o) => o
    case _ => []
  }

  /**
   * Classifies a property by its `type` tag, as the `switch` statements of
   * the adapters do. Every tag outside the eleven known ones lands in the
   * catch-all, and the tag is never lost.
   */
  function KindOf(typeName: string, options: seq<string>): (k: Kind)
    ensures TypeName(k) == typeName
    ensures k.Other? <==> typeName !in KnownTypeNames
    ensures k.Select? || k.MultiSelect? ==> k.options == options
  {
    match typeName
    case "title" => Title
    case "rich_text" => RichText
    case "url" => Url
    case "email" => Email
    case "phone_number" => PhoneNumber
    case "date" => Date
    case "number" => Number
    case "checkbox" => Checkbox
    case "select" => Select(options)
    case "multi_select" => MultiSelect(options)
    case "relation" => Relation
    case _ => Other(typeName)
  }

  /** A kind is well formed when its catch-all tag is not a known one. */
  predicate WellFormedKind(k: Kind) {
    k.Other? ==> k.typeName !in KnownTypeNames
  }

  /** Reading back the tag and options of a well-formed kind gives the kind again. */
  lemma KindRoundTrip(k: Kind)
    requires WellFormedKind(k)
    ensures KindOf(TypeName(k), OptionsOf(k)) == k
  {
  }

  /** No two entries share a property name, as in a JavaScript record. */
  predicate DistinctNames(entries: seq<(string, Kind)>) {
    forall i, j | 0 <= i < j < |entries| :: entries[i].0 != entries[j].0
  }

  /**
   * A database schema: property name and kind, in the order
   * `Object.entries` yields them.
   */
  type Schema = s: seq<(string, Kind)> | DistinctNames(s)

  /** `schema[name]?.type` as a kind: the kind of the entry with that name. */
  function LookupKind(schema: seq<(string, Kind)>, name: string): (r: Option<Kind>)
    ensures r.Some? ==> exists i | 0 <= i < |schema| :: schema[i] == (name, r.value)
    ensures r.None? ==> forall i | 0 <= i < |schema| :: schema[i].0 != name
  {
    if |schema| == 0 then None
    else if schema[0].0 == name then Some(schema[0].1)
    else
      var r := LookupKind(schema[1..], name);
      assert r.Some? ==> exists i | 0 <= i < |schema[1..]| :: schema[1..][i] == (name, r.value);
      r
  }

  /** In a schema without repeated names, the lookup finds each entry's own kind. */
  lemma {:induction false} LookupKindAt(schema: Schema, i: nat)
    requires i < |schema|
    ensures LookupKind(schema, schema[i].0) == Some(schema[i].1)
  {
    if i > 0 {
      assert schema[0].0 != schema[i].0;
      var tail := schema[1..];
      assert DistinctNames(tail) by {
        forall a, b | 0 <= a < b < |tail| ensures tail[a].0 != tail[b].0 {
          assert tail[a] == schema[a + 1] && tail[b] == schema[b + 1];
        }
      }
      LookupKindAt(tail, i - 1);
    }
  }

  /** Whether `name` is a property of the schema: `!!schema[name]`. */
  predicate InSchema(schema: seq<(string, Kind)>, name: string) {
    LookupKind(schema, name).Some?
  }

  /** The names of a schema, as a set. */
  function NameSet(schema: seq<(string, Kind)>): (names: set<string>)
    ensures forall n | n in names :: InSchema(schema, n)
  {
    set i | 0 <= i < |schema| :: schema[i].0
  }

  // ---------------------------------------------------------------------
  // Page content and processed content
  // ---------------------------------------------------------------------

  /** The narrative part of a page: a summary and its takeaways. */
  datatype PageContent = PageContent(summaryTitle: string, summaryBody: string, takeaways: seq<string>)

  /**
   * The content the user previews and edits: one JSON value per property
   * name, and the page content, which the application may find missing.
   */
  datatype Content = Content(fields: map<string, Json>, page: Option<PageContent>)

  /** The key under which the page content travels in the AI's reply. */
  const PageContentKey: string := "pageContent"

  /** The page content with every part empty, used where it is missing. */
  const EmptyPage := PageContent("", "", [])

  function StringsToJson(xs: seq<string>): (r: seq<Json>)
    ensures |r| == |xs|
    ensures forall k | 0 <= k < |xs| :: r[k] == JStr(xs[k])
  {
    seq(|xs|, k requires 0 <= k < |xs| => JStr(xs[k]))
  }

  /** Reads a JSON array as a list of strings, if every item is a string. */
  function StringsFromJson(items: seq<Json>): (r: Option<seq<string>>)
    ensures r.Some? <==> forall k | 0 <= k < |items| :: items[k].JStr?
    ensures r.Some? ==> |r.value| == |items| && forall k | 0 <= k < |items| :: items[k] == JStr(r.value[k])
  {
    if |items| == 0 then Some([])
    else if !items[0].JStr? then None
    else
      match StringsFromJson(items[1..])
      case None => None
      case Some(rest) => Some([items[0].s] + rest)
  }

  /** The page content as the JSON object the AI writes. */
  function PageToJson(p: PageContent): Json {
    JObj(map[
      "summaryTitle" := JStr(p.summaryTitle),
      "summaryBody" := JStr(p.summaryBody),
      "takeaways" := JArr(StringsToJson(p.takeaways))])
  }

  predicate PageMembersPresent(m: map<string, Json>) {
    "summaryTitle" in m && "summaryBody" in m && "takeaways" in m
  }

  /**
   * Reads a JSON value as page content when it has the declared shape:
   * an object with string `summaryTitle` and `summaryBody` and an array of
   * strings `takeaways`. Other members are ignored.
   */
  function PageFromJson(v: Json): (r: Option<PageContent>)
    ensures r.Some? ==> v.JObj? && PageMembersPresent(v.fields)
    ensures r.Some? ==> v.fields["takeaways"] == JArr(StringsToJson(r.value.takeaways))
    ensures r.Some? ==> v.fields["summaryTitle"] == JStr(r.value.summaryTitle)
    ensures r.Some? ==> v.fields["summaryBody"] == JStr(r.value.summaryBody)
  {
    match v
    case JObj(m) =>
      if "summaryTitle" in m && m["summaryTitle"].JStr?
        && "summaryBody" in m && m["summaryBody"].JStr?
        && "takeaways" in m && m["takeaways"].JArr?
      then
        match StringsFromJson(m["takeaways"].items)
        case None => None
        case Some(ts) =>
          assert StringsToJson(ts) == m["takeaways"].items;
          Some(PageContent(m["summaryTitle"].s, m["summaryBody"].s, ts))
      else None
    case _ => None
  }

  /** Page content survives the trip to JSON and back. */
  lemma PageRoundTrip(p: PageContent)
    ensures PageFromJson(PageToJson(p)) == Some(p)
  {
    var items := StringsToJson(p.takeaways);
    var back := StringsFromJson(items);
    assert back.Some?;
    assert back.value == p.takeaways;
  }

  /**
   * The reply object as processed content: every member but the page
   * content is a field, and the page content is read with `PageFromJson`.
   */
  function ToContent(raw: map<string, Json>): (c: Content)
    ensures c.fields.Keys == raw.Keys - {PageContentKey}
    ensures forall k | k in c.fields :: c.fields[k] == raw[k]
    ensures c.page.Some? ==> PageContentKey in raw && PageFromJson(raw[PageContentKey]) == c.page
  {
    Content(
      raw - {PageContentKey},
      if PageContentKey in raw then PageFromJson(raw[PageContentKey]) else None)
  }

  /** Processed content as the JSON object sent back to the AI for refinement. */
  function ToRaw(c: Content): (raw: map<string, Json>)
    ensures c.page.Some? ==> PageContentKey in raw && raw[PageContentKey] == PageToJson(c.page.value)
  {
    match c.page
    case Some(p) => c.fields[PageContentKey := PageToJson(p)]
    case None => c.fields
  }

  /** Processed content survives the trip to JSON and back. */
  lemma ContentRoundTrip(c: Content)
    requires PageContentKey !in c.fields
    ensures ToContent(ToRaw(c)) == c
  {
    var raw := ToRaw(c);
    assert raw - {PageContentKey} == c.fields;
    if c.page.Some? {
      PageRoundTrip(c.page.value);
    }
  }

  // ---------------------------------------------------------------------
  // Attached files
  // ---------------------------------------------------------------------

  /** A browser `File`: name, MIME type and byte size. */
  datatype FileEntry = FileEntry(name: string, mimeType: string, size: nat)

  // ---------------------------------------------------------------------
  // AI providers and settings
  // ---------------------------------------------------------------------

  /** The keys of `AI_PROVIDERS`. */
  datatype Provider = Gemini | OpenRouter

  function ProviderKey(p: Provider): string {
    match p
    case Gemini => "gemini"
    case OpenRouter => "openrouter"
  }

  /** `AI_PROVIDERS[key]` for the provider table's own keys. */
  function ProviderOf(key: string): (r: Option<Provider>)
    ensures r.Some? <==> key == "gemini" || key == "openrouter"
    ensures r.Some? ==> ProviderKey(r.value) == key
  {
    if key == "gemini" then Some(Gemini)
    else if key == "openrouter" then Some(OpenRouter)
    else None
  }

  /** Display name of a provider. */
  function ProviderName(p: Provider): string {
    match p
    case Gemini => "Google Gemini"
    case OpenRouter => "OpenRouter"
  }

  /** `AI_PROVIDERS[p].models`, first entry being the default model. */
  function Models(p: Provider): seq<string> {
    match p
    case Gemini => ["gemini-2.5-flash", "gemini-2.5-flash-lite", "gemini-2.5-pro"]
    case OpenRouter => [
      "openai/gpt-oss-20b:free",
      "z-ai/glm-4.5-air:free",
      "deepseek/deepseek-chat-v3-0324:free",
      "deepseek/deepseek-r1-0528:free",
      "deepseek/deepseek-r1:free",
      "moonshotai/kimi-vl-a3b-thinking:free"]
  }

  /** The model a provider starts with: `AI_PROVIDERS[p].models[0]`, always defined. */
  function DefaultModel(p: Provider): (m: string)
    ensures |Models(p)| > 0 && m == Models(p)[0]
    ensures m in Models(p)
  {
    Models(p)[0]
  }

  /** Every provider key names a provider, and every provider is found by its key. */
  lemma ProviderKeyRoundTrip(p: Provider)
    ensures ProviderOf(ProviderKey(p)) == Some(p)
  {
  }

  /** One saved Notion database: credentials, id and an optional prompt override. */
  datatype Connection = Connection(
    id: string,
    name: string,
    notionApiKey: string,
    notionDatabaseId: string,
    systemPrompt: Option<string>)

  /**
   * The settings record. `aiProvider` is a string because the settings
   * updater writes whatever value it is given.
   */
  datatype Settings = Settings(
    connections: seq<Connection>,
    activeDatabaseId: Option<string>,
    aiProvider: string,
    aiApiKey: string,
    selectedModel: string,
    systemPrompt: string)
}

/**
 * The schema adapter of hooks/useAI.ts: turns a Notion database schema into
 * the JSON response schema the AI model must follow.
 */
module AiSchema {
  import opened Wrappers
  import opened Text
  import opened Json
  import opened Types

  /** The `Type` constants of the generation schema. */
  datatype SchemaType = STRING | NUMBER | BOOLEAN | ARRAY | OBJECT

  /** The `items` constraint of an array: item type and allowed values. */
  datatype Items = Items(typ: SchemaType, enumValues: seq<string>)

  /**
   * One property constraint: a field derived from a database property, or
   * the page-content object with its typed members, the item type of its
   * one array member, and the members it requires.
   */
  datatype Prop =
    | Field(typ: SchemaType, enumValues: Option<seq<string>>, items: Option<Items>, description: string)
    | PageContentObject(members: seq<(string, SchemaType)>, itemType: SchemaType, requiredMembers: seq<string>)

  /** The top-level response schema, an OBJECT with properties and a `required` list. */
  datatype GenSchema = GenSchema(properties: map<string, Prop>, required: seq<string>)

  /** The members of the page-content object, with their types; `takeaways` holds strings. */
  const PageContentMembers: seq<(string, SchemaType)> :=
    [("summaryTitle", STRING), ("summaryBody", STRING), ("takeaways", ARRAY)]

  /** The item type of `takeaways`. */
  const TakeawayItemType: SchemaType := STRING

  /** The members the page-content object requires. */
  const PageContentRequired: seq<string> := ["summaryTitle", "summaryBody", "takeaways"]

  /** The constraint placed under `pageContent`. */
  const PageContentSchema: Prop := PageContentObject(PageContentMembers, TakeawayItemType, PageContentRequired)

  /** Whether a JSON value has the given schema type; array items must have `itemType`. */
  predicate HasSchemaType(v: Json, t: SchemaType, itemType: SchemaType) {
    match t
    case STRING => v.JStr?
    case NUMBER => v.JNum?
    case BOOLEAN => v.JBool?
    case OBJECT => v.JObj?
    case ARRAY => v.JArr? && forall k | 0 <= k < |v.items| :: HasSchemaType(v.items[k], itemType, itemType)
  }

  /**
   * Every page content the application stores satisfies the page-content
   * constraint: each required member is present with its declared type, and
   * the takeaways are strings.
   */
  lemma PageContentSchemaDescribesPages(p: PageContent)
    ensures forall k | 0 <= k < |PageContentSchema.members| ::
      && PageContentSchema.members[k].0 in PageContentSchema.requiredMembers
      && var v := PageToJson(p);
        && PageContentSchema.members[k].0 in v.fields
        && HasSchemaType(v.fields[PageContentSchema.members[k].0], PageContentSchema.members[k].1, PageContentSchema.itemType)
    ensures forall m | m in PageContentSchema.requiredMembers :: exists k | 0 <= k < |PageContentSchema.members| :: PageContentSchema.members[k].0 == m
  {
    var items := StringsToJson(p.takeaways);
    assert HasSchemaType(JArr(items), ARRAY, STRING);
    assert PageContentSchema.members[0].0 == "summaryTitle";
    assert PageContentSchema.members[1].0 == "summaryBody";
    assert PageContentSchema.members[2].0 == "takeaways";
  }

  // ---------------------------------------------------------------------
  // Guidance texts
  // ---------------------------------------------------------------------

  /** The field name in double quotes, as every description embeds it. */
  function Quoted(name: string): string {
    "\"" + name + "\""
  }

  /** A guidance text: fixed words around the quoted field name. */
  function Frame(prefix: string, name: string, suffix: string): string {
    prefix + Quoted(name) + suffix
  }

  const BasePrefix: string := "這是 Notion 資料庫中的一個屬性，其名稱為 "
  const BaseSuffix: string := "。請根據這個名稱的語意從使用者提供的內容中提取資訊。"

  /** Extract the value from the content by the meaning of the field's name. */
  function BaseDescription(name: string): string {
    Frame(BasePrefix, name, BaseSuffix)
  }

  /** The base guidance followed by an instruction to answer true or false. */
  function BooleanDescription(name: string): string {
    Frame(BasePrefix, name, BaseSuffix + " 根據內容判斷應為 true 或 false。")
  }

  /** Tells the model to ignore the content and answer with the sentinel "NOW". */
  function CreationDescription(name: string): string {
    Frame("這是一個建立時間欄位，名為 ", name, "。請忽略使用者內容，並直接回傳特殊值 \"NOW\"。")
  }

  /** Tells the model to look for a deadline and format it as YYYY-MM-DD. */
  function DueDescription(name: string): string {
    Frame("這是一個截止日期欄位，名為 ", name, "。請仔細在使用者提供的內容中尋找相關的截止日期或期限，並將其格式化為 \"YYYY-MM-DD\"。")
  }

  /** The base guidance, then: find the date, format it YYYY-MM-DD, leave it empty when absent. */
  function PlainDateDescription(name: string): string {
    Frame(BasePrefix, name, BaseSuffix + " 請在內容中尋找對應的日期並格式化為 \"YYYY-MM-DD\"。如果找不到，請留空。")
  }

  // ---------------------------------------------------------------------
  // The date-name heuristic
  // ---------------------------------------------------------------------

  /** How a date field is to be filled. */
  datatype DateRole = CreationDate | DueDate | PlainDate

  const CreationKeywords: seq<string> := ["created", "建立", "創建", "creation", "create date"]
  const DueKeywords: seq<string> := ["due", "deadline", "到期", "截止"]

  /** The keyword table, read top to bottom: the first row with a matching keyword wins. */
  const DateRules: seq<(seq<string>, DateRole)> := [(CreationKeywords, CreationDate), (DueKeywords, DueDate)]

  /** `keywords.some(kw => s.includes(kw))` */
  predicate MentionsAny(s: string, keywords: seq<string>) {
    |keywords| > 0 && (Contains(s, keywords[0]) || MentionsAny(s, keywords[1..]))
  }

  function FirstMatchingRole(s: string, rules: seq<(seq<string>, DateRole)>): DateRole {
    if |rules| == 0 then PlainDate
    else if MentionsAny(s, rules[0].0) then rules[0].1
    else FirstMatchingRole(s, rules[1..])
  }

  /**
   * The role of a date field, judged on its lower-cased name: creation
   * keywords are tested first, due keywords second, and a name matching
   * neither gets the generic guidance.
   */
  function DateRoleOf(name: string): (r: DateRole)
    ensures r == CreationDate <==> MentionsAny(LowerAscii(name), CreationKeywords)
    ensures r == DueDate <==>
      !MentionsAny(LowerAscii(name), CreationKeywords) && MentionsAny(LowerAscii(name), DueKeywords)
  {
    var s := LowerAscii(name);
    var rest: seq<(seq<string>, DateRole)> := [(DueKeywords, DueDate)];
    assert rest[1..] == [];
    assert FirstMatchingRole(s, rest) == (if MentionsAny(s, DueKeywords) then DueDate else PlainDate);
    assert DateRules[1..] == rest;
    FirstMatchingRole(s, DateRules)
  }

  function DateDescription(name: string, role: DateRole): string {
    match role
    case CreationDate => CreationDescription(name)
    case DueDate => DueDescription(name)
    case PlainDate => PlainDateDescription(name)
  }

  // ---------------------------------------------------------------------
  // Per-property constraints
  // ---------------------------------------------------------------------

  /** Whether the AI is asked to produce a value for a property of this kind. */
  predicate AiWritable(k: Kind) {
    !k.Relation? && !k.Other?
  }

  /**
   * The constraint for one property (the `switch` of `buildAiSchema`):
   * none for relations and unrecognised kinds; otherwise a field whose type
   * follows the kind, whose enum lists the choice options in order, and
   * whose guidance names the field.
   */
  function PropFor(name: string, k: Kind): (r: Option<Prop>)
    ensures r.None? <==> !AiWritable(k)
    ensures r.Some? ==> r.value.Field?
    ensures r.Some? ==> (r.value.typ ==
      if k.Number? then NUMBER else if k.Checkbox? then BOOLEAN else if k.MultiSelect? then ARRAY else STRING)
    ensures r.Some? ==> r.value.enumValues == (if k.Select? then Some(k.options) else None)
    ensures r.Some? ==> r.value.items == (if k.MultiSelect? then Some(Items(STRING, k.options)) else None)
    ensures k.Date? ==> r.value.description == DateDescription(name, DateRoleOf(name))
  {
    var base := BaseDescription(name);
    match k
    case Title => Some(Field(STRING, None, None, base))
    case RichText => Some(Field(STRING, None, None, base))
    case Url => Some(Field(STRING, None, None, base))
    case Email => Some(Field(STRING, None, None, base))
    case PhoneNumber => Some(Field(STRING, None, None, base))
    case Date => Some(Field(STRING, None, None, DateDescription(name, DateRoleOf(name))))
    case Number => Some(Field(NUMBER, None, None, base))
    case Checkbox => Some(Field(BOOLEAN, None, None, BooleanDescription(name)))
    case Select(options) => Some(Field(STRING, Some(options), None, base))
    case MultiSelect(options) => Some(Field(ARRAY, None, Some(Items(STRING, options)), base))
    case Relation => None
    case Other(_) => None
  }

  /** Every guidance text embeds the quoted field name. */
  lemma GuidanceNamesField(name: string, k: Kind)
    requires AiWritable(k)
    ensures Contains(PropFor(name, k).value.description, Quoted(name))
  {
    var d := PropFor(name, k).value.description;
    if k.Date? {
      match DateRoleOf(name)
      case CreationDate =>
        ContainsInside("這是一個建立時間欄位，名為 ", Quoted(name), "。請忽略使用者內容，並直接回傳特殊值 \"NOW\"。");
      case DueDate =>
        ContainsInside("這是一個截止日期欄位，名為 ", Quoted(name), "。請仔細在使用者提供的內容中尋找相關的截止日期或期限，並將其格式化為 \"YYYY-MM-DD\"。");
      case PlainDate =>
        ContainsInside(BasePrefix, Quoted(name), BaseSuffix + " 請在內容中尋找對應的日期並格式化為 \"YYYY-MM-DD\"。如果找不到，請留空。");
    } else if k.Checkbox? {
      ContainsInside(BasePrefix, Quoted(name), BaseSuffix + " 根據內容判斷應為 true 或 false。");
    } else {
      ContainsInside(BasePrefix, Quoted(name), BaseSuffix);
    }
  }

  // ---------------------------------------------------------------------
  // The whole response schema
  // ---------------------------------------------------------------------

  /**
   * The positions of the schema entries that receive a constraint, in
   * increasing order: exactly the AI-writable entries.
   */
  function WritableIndices(entries: seq<(string, Kind)>): (r: seq<nat>)
    ensures forall k | 0 <= k < |r| :: r[k] < |entries| && AiWritable(entries[r[k]].1)
    ensures forall k, l | 0 <= k < l < |r| :: r[k] < r[l]
    ensures forall i | 0 <= i < |entries| && AiWritable(entries[i].1) :: i in r
  {
    if |entries| == 0 then []
    else
      var last := |entries| - 1;
      var r := WritableIndices(entries[..last]);
      assert forall k | 0 <= k < |r| :: entries[..last][r[k]] == entries[r[k]];
      if AiWritable(entries[last].1) then r + [last] else r
  }

  /** The names of the constrained entries, in schema order. */
  function WritableNames(schema: Schema): (r: seq<string>)
    ensures |r| == |WritableIndices(schema)|
  {
    var idx := WritableIndices(schema);
    seq(|idx|, k requires 0 <= k < |idx| => schema[idx[k]].0)
  }

  /**
   * `buildAiSchema`: one constraint per AI-writable property, the
   * page-content object under `pageContent` (replacing a property of that
   * name), and `required` listing the constrained names in schema order
   * followed by `pageContent`.
   */
  function BuildAiSchema(schema: Schema): (r: GenSchema)
    ensures PageContentKey in r.properties && r.properties[PageContentKey] == PageContentSchema
    ensures forall i | 0 <= i < |schema| && schema[i].0 != PageContentKey ::
      (schema[i].0 in r.properties <==> AiWritable(schema[i].1))
    ensures forall i | 0 <= i < |schema| && schema[i].0 != PageContentKey && AiWritable(schema[i].1) ::
      r.properties[schema[i].0] == PropFor(schema[i].0, schema[i].1).value
    ensures forall n | n in r.properties :: n == PageContentKey || InSchema(schema, n)
    ensures r.required == WritableNames(schema) + [PageContentKey]
  {
    var fields := FieldConstraints(schema);
    GenSchema(fields[PageContentKey := PageContentSchema], WritableNames(schema) + [PageContentKey])
  }

  /** `schemaForAI`: the constraints of the AI-writable properties, keyed by name. */
  function FieldConstraints(schema: Schema): (m: map<string, Prop>)
    ensures forall i | 0 <= i < |schema| :: (schema[i].0 in m <==> AiWritable(schema[i].1))
    ensures forall i | 0 <= i < |schema| && AiWritable(schema[i].1) ::
      m[schema[i].0] == PropFor(schema[i].0, schema[i].1).value
    ensures forall n | n in m :: InSchema(schema, n)
  {
    var m := map n | n in NameSet(schema) && AiWritable(LookupKind(schema, n).value)
      :: PropFor(n, LookupKind(schema, n).value).value;
    assert forall i | 0 <= i < |schema| :: LookupKind(schema, schema[i].0) == Some(schema[i].1) by {
      forall i | 0 <= i < |schema| ensures LookupKind(schema, schema[i].0) == Some(schema[i].1) {
        LookupKindAt(schema, i);
      }
    }
    m
  }

  /**
   * Relation and unrecognised properties produce no constraint and are never
   * required (unless named `pageContent`, which is always required).
   */
  lemma DroppedPropertiesAbsent(schema: Schema, i: nat)
    requires i < |schema| && !AiWritable(schema[i].1) && schema[i].0 != PageContentKey
    ensures schema[i].0 !in BuildAiSchema(schema).properties
    ensures schema[i].0 !in BuildAiSchema(schema).required
  {
    var r := BuildAiSchema(schema);
    var idx := WritableIndices(schema);
    var names := WritableNames(schema);
    forall k | 0 <= k < |names| ensures names[k] != schema[i].0 {
      assert names[k] == schema[idx[k]].0;
      assert idx[k] != i;
    }
    assert r.required == names + [PageContentKey];
  }

  /**
   * `required` follows the schema's iteration order: earlier constrained
   * names come from earlier schema entries, and every constrained entry is listed.
   */
  lemma RequiredInSchemaOrder(schema: Schema, a: nat, b: nat)
    requires a < b < |BuildAiSchema(schema).required| - 1
    ensures exists i, j | 0 <= i < j < |schema| ::
      schema[i].0 == BuildAiSchema(schema).required[a] && schema[j].0 == BuildAiSchema(schema).required[b]
  {
    var idx := WritableIndices(schema);
    var req := BuildAiSchema(schema).required;
    assert req[a] == schema[idx[a]].0 && req[b] == schema[idx[b]].0;
    assert idx[a] < idx[b];
  }

  /** Every AI-writable property is required. */
  lemma WritableRequired(schema: Schema, i: nat)
    requires i < |schema| && AiWritable(schema[i].1)
    ensures schema[i].0 in BuildAiSchema(schema).required
  {
    var idx := WritableIndices(schema);
    var k :| 0 <= k < |idx| && idx[k] == i;
    assert WritableNames(schema)[k] == schema[i].0;
    assert BuildAiSchema(schema).required[k] == schema[i].0;
  }

  /** A date field named "Created Date" is told to answer "NOW". */
  lemma CreationGuidanceExample()
    ensures PropFor("Created Date", Date).value.description == CreationDescription("Created Date")
  {
    var lower := LowerAscii("Created Date");
    assert lower == "created date";
    assert StartsWith(lower, "created");
    assert CreationKeywords[0] == "created";
  }

  /** A date field named "Due" is told to look for a deadline. */
  lemma DueGuidanceExample()
    ensures PropFor("Due", Date).value.description == DueDescription("Due")
  {
    var lower := LowerAscii("Due");
    assert lower == "due";
    assert StartsWith(lower, "due");
    assert DueKeywords[0] == "due";
    MentionsNoneByFirstChar(lower, CreationKeywords);
  }

  /** The first characters of all date keywords. */
  const KeywordInitials: set<char> := {'c', '建', '創', 'd', '到', '截'}

  /**
   * A date field whose lower-cased name holds no keyword's first character
   * (for instance "Meeting") gets the generic date guidance.
   */
  lemma PlainDateGuidance(name: string)
    requires forall k | 0 <= k < |name| :: LowerAscii(name)[k] !in KeywordInitials
    ensures PropFor(name, Date).value.description == PlainDateDescription(name)
  {
    var lower := LowerAscii(name);
    assert forall c | c in lower :: c !in KeywordInitials;
    MentionsNoneByFirstChar(lower, CreationKeywords);
    MentionsNoneByFirstChar(lower, DueKeywords);
  }

  lemma {:induction false} MentionsNoneByFirstChar(s: string, keywords: seq<string>)
    requires forall k | 0 <= k < |keywords| :: |keywords[k]| > 0 && keywords[k][0] !in s
    ensures !MentionsAny(s, keywords)
  {
    if |keywords| > 0 {
      NotContainsMissingChar(s, keywords[0], 0);
      MentionsNoneByFirstChar(s, keywords[1..]);
    }
  }
}

/**
 * The edit operations of components/OutputPreview.tsx on the processed
 * content: setting a field, setting a member of the page content, editing
 * the takeaway list, toggling a multi-select option, submitting a
 * refinement instruction, and choosing the title and metadata rows.
 */
module OutputPreview {
  import opened Wrappers
  import opened Text
  import opened Json
  import opened Types
  import opened AppReducer

  // ---------------------------------------------------------------------
  // Field edits
  // ---------------------------------------------------------------------

  /**
   * `handleFieldChange(key, value)`: the content with `key` set to `value`.
   * Writing the page-content key replaces the page content with whatever
   * the value reads as.
   */
  function FieldChange(c: Content, key: string, v: Json): (r: Content)
    ensures key != PageContentKey ==> r.fields == c.fields[key := v] && r.page == c.page
    ensures key == PageContentKey ==> r.fields == c.fields && r.page == PageFromJson(v)
  {
    if key == PageContentKey then c.(page := PageFromJson(v)) else c.(fields := c.fields[key := v])
  }

  /**
   * The typed edit agrees with the edit of the JSON object the source
   * performs: set the member of the object, then read it as content.
   */
  lemma FieldChangeMatchesRaw(c: Content, key: string, v: Json)
    requires PageContentKey !in c.fields
    ensures FieldChange(c, key, v) == ToContent(ToRaw(c)[key := v])
  {
    var raw := ToRaw(c)[key := v];
    if key == PageContentKey {
      assert raw - {PageContentKey} == c.fields;
    } else {
      assert raw - {PageContentKey} == c.fields[key := v];
      if c.page.Some? {
        PageRoundTrip(c.page.value);
      }
    }
  }

  /** Only the edited field changes. */
  lemma FieldChangeLocal(c: Content, key: string, v: Json, other: string)
    requires other != key
    ensures other in FieldChange(c, key, v).fields <==> other in c.fields
    ensures other in c.fields ==> FieldChange(c, key, v).fields[other] == c.fields[other]
  {
  }

  // ---------------------------------------------------------------------
  // Page-content edits
  // ---------------------------------------------------------------------

  /** A write to one member of the page content. */
  datatype PageEdit =
    | SetSummaryTitle(title: string)
    | SetSummaryBody(body: string)
    | SetTakeaways(items: seq<string>)

  /** The page content the preview shows and edits: the stored one, or an empty one. */
  function CurrentPage(c: Content): PageContent {
    c.page.GetOr(EmptyPage)
  }

  /**
   * `handlePageContentChange(key, value)`: the named member of the page
   * content changes, the other two and every field stay as they were.
   */
  function PageContentChange(c: Content, e: PageEdit): (r: Content)
    ensures r.fields == c.fields && r.page.Some?
    ensures e.SetSummaryTitle? ==> r.page.value == CurrentPage(c).(summaryTitle := e.title)
    ensures e.SetSummaryBody? ==> r.page.value == CurrentPage(c).(summaryBody := e.body)
    ensures e.SetTakeaways? ==> r.page.value == CurrentPage(c).(takeaways := e.items)
  {
    var p := CurrentPage(c);
    var q := match e
      case SetSummaryTitle(t) => p.(summaryTitle := t)
      case SetSummaryBody(b) => p.(summaryBody := b)
      case SetTakeaways(ts) => p.(takeaways := ts);
    c.(page := Some(q))
  }

  function Takeaways(c: Content): seq<string> {
    CurrentPage(c).takeaways
  }

  /** `handleTakeawayChange(i, v)`: position `i` becomes `v`, nothing else moves. */
  function ReplaceTakeaway(c: Content, i: nat, v: string): (r: Content)
    requires i < |Takeaways(c)|
    ensures |Takeaways(r)| == |Takeaways(c)|
    ensures Takeaways(r)[i] == v
    ensures forall k | 0 <= k < |Takeaways(c)| && k != i :: Takeaways(r)[k] == Takeaways(c)[k]
    ensures r.fields == c.fields
    ensures r.page == Some(CurrentPage(c).(takeaways := Takeaways(r)))
  {
    PageContentChange(c, SetTakeaways(Takeaways(c)[i := v]))
  }

  /**
   * `handleRemoveTakeaway(i)`: keeps every takeaway whose position is not
   * `i`, in order; an index past the end removes nothing.
   */
  function RemoveTakeaway(c: Content, i: nat): (r: Content)
    ensures var before := Takeaways(c);
      && (i < |before| ==> |Takeaways(r)| == |before| - 1)
      && (i >= |before| ==> Takeaways(r) == before)
      && (forall k | 0 <= k < |before| && k < i :: Takeaways(r)[k] == before[k])
      && (forall k | i < k < |before| :: Takeaways(r)[k - 1] == before[k])
    ensures r.fields == c.fields
    ensures r.page == Some(CurrentPage(c).(takeaways := Takeaways(r)))
  {
    var ts := Takeaways(c);
    PageContentChange(c, SetTakeaways(if i < |ts| then ts[..i] + ts[i + 1..] else ts))
  }

  /** `handleAddTakeaway`: an empty takeaway at the end, the others unchanged. */
  function AddTakeaway(c: Content): (r: Content)
    ensures Takeaways(r) == Takeaways(c) + [""]
    ensures r.fields == c.fields
    ensures r.page == Some(CurrentPage(c).(takeaways := Takeaways(r)))
  {
    PageContentChange(c, SetTakeaways(Takeaways(c) + [""]))
  }

  /** Adding a takeaway and removing it again restores the list. */
  lemma AddThenRemove(c: Content)
    ensures Takeaways(RemoveTakeaway(AddTakeaway(c), |Takeaways(c)|)) == Takeaways(c)
  {
    var ts := Takeaways(c) + [""];
    assert ts[..|Takeaways(c)|] + ts[|Takeaways(c)| + 1..] == Takeaways(c);
  }

  // ---------------------------------------------------------------------
  // Multi-select toggle
  // ---------------------------------------------------------------------

  /** Whether `xs` holds no value twice. */
  predicate Distinct(xs: seq<string>) {
    forall i, j | 0 <= i < j < |xs| :: xs[i] != xs[j]
  }

  /**
   * The values of a JavaScript `Set` built from `xs`: each value once. The
   * body keeps first occurrences in order, as the `Set` iterates; the
   * contract states only membership and the absence of repeats.
   */
  function Dedup(xs: seq<string>): (r: seq<string>)
    ensures Distinct(r)
    ensures forall x :: x in r <==> x in xs
    decreases |xs|
  {
    if |xs| == 0 then []
    else
      var rest := Dedup(xs[..|xs| - 1]);
      if xs[|xs| - 1] in rest then rest else rest + [xs[|xs| - 1]]
  }

  /** Removes `x` from a sequence without repetitions. */
  function Without(xs: seq<string>, x: string): (r: seq<string>)
    requires Distinct(xs)
    ensures Distinct(r)
    ensures forall y :: y in r <==> y in xs && y != x
    decreases |xs|
  {
    if |xs| == 0 then []
    else if xs[0] == x then Without(xs[1..], x)
    else
      var rest := Without(xs[1..], x);
      assert xs[0] !in xs[1..];
      [xs[0]] + rest
  }

  /**
   * `new Set(value as string[])` for the values a multi-select field can
   * hold: nothing for `undefined` and `null`, the items of an array of
   * strings, and the characters of a string, which a `Set` iterates.
   * Numbers, booleans and objects make the constructor throw.
   */
  function SelectedValues(v: Option<Json>): (r: Option<seq<string>>)
    ensures IsNullish(v) ==> r == Some([])
    ensures v.Some? && v.value.JArr? ==> (r.Some? <==> forall k | 0 <= k < |v.value.items| :: v.value.items[k].JStr?)
    ensures v.Some? && v.value.JArr? && r.Some? ==> StringsToJson(r.value) == v.value.items
    ensures v.Some? && v.value.JStr? ==>
      r.Some? && |r.value| == |v.value.s| && forall k | 0 <= k < |r.value| :: r.value[k] == [v.value.s[k]]
    ensures v.Some? && (v.value.JNum? || v.value.JBool? || v.value.JObj?) ==> r.None?
  {
    match v
    case None => Some([])
    case Some(JNull) => Some([])
    case Some(JArr(items)) => StringsFromJson(items)
    case Some(JStr(s)) => Some(seq(|s|, k requires 0 <= k < |s| => [s[k]]))
    case Some(_) => None
  }

  /**
   * The option button's click: the clicked option's membership flips,
   * every other option keeps its membership, and repeats collapse.
   */
  function Toggle(values: seq<string>, option: string): (r: seq<string>)
    ensures Distinct(r)
    ensures option in r <==> option !in values
    ensures forall x | x != option :: x in r <==> x in values
  {
    var current := Dedup(values);
    if option in current then Without(current, option) else current + [option]
  }

  /** Toggling the same option twice restores every membership. */
  lemma ToggleTwice(values: seq<string>, option: string, x: string)
    ensures x in Toggle(Toggle(values, option), option) <==> x in values
  {
  }

  /** Toggling an option into a list without repeats and out again gives the list back. */
  lemma ToggleInOut(values: seq<string>, option: string)
    requires Distinct(values) && option !in values
    ensures Toggle(Toggle(values, option), option) == values
  {
    DedupDistinct(values);
    DedupDistinct(values + [option]);
    WithoutLast(values, option);
  }

  lemma {:induction false} DedupDistinct(xs: seq<string>)
    requires Distinct(xs)
    ensures Dedup(xs) == xs
    decreases |xs|
  {
    if |xs| > 0 {
      var init := xs[..|xs| - 1];
      assert Distinct(init);
      DedupDistinct(init);
      assert xs[|xs| - 1] !in init;
      assert init + [xs[|xs| - 1]] == xs;
    }
  }

  lemma {:induction false} WithoutLast(xs: seq<string>, x: string)
    requires Distinct(xs + [x])
    ensures Without(xs + [x], x) == xs
    decreases |xs|
  {
    if |xs| == 0 {
      assert [x][1..] == [];
    } else {
      assert (xs + [x])[1..] == xs[1..] + [x];
      assert Distinct(xs[1..] + [x]) by {
        var t := xs[1..] + [x];
        forall i, j | 0 <= i < j < |t| ensures t[i] != t[j] {
          assert t[i] == (xs + [x])[i + 1] && t[j] == (xs + [x])[j + 1];
        }
      }
      WithoutLast(xs[1..], x);
      assert xs[0] != x by {
        assert (xs + [x])[0] == xs[0] && (xs + [x])[|xs|] == x;
      }
      assert [xs[0]] + xs[1..] == xs;
    }
  }

  /**
   * The toggle applied to a field: the new value is the array of the
   * selected options, or `None` when the current value makes the `Set`
   * constructor throw.
   */
  function ToggleField(c: Content, key: string, option: string): (r: Option<Content>)
    requires key != PageContentKey
    ensures r.Some? <==> SelectedValues(Lookup(c.fields, key)).Some?
    ensures r.Some? ==> r.value.page == c.page && r.value.fields.Keys == c.fields.Keys + {key}
    ensures r.Some? ==> forall k | k in c.fields && k != key :: r.value.fields[k] == c.fields[k]
    ensures r.Some? ==> exists vs :: (
      && r.value.fields[key] == JArr(StringsToJson(vs))
      && Distinct(vs)
      && (option in vs <==> option !in SelectedValues(Lookup(c.fields, key)).value)
      && forall x | x != option :: x in vs <==> x in SelectedValues(Lookup(c.fields, key)).value)
  {
    match SelectedValues(Lookup(c.fields, key))
    case None => None
    case Some(current) =>
      var vs := Toggle(current, option);
      var r := FieldChange(c, key, JArr(StringsToJson(vs)));
      assert r.fields[key] == JArr(StringsToJson(vs));
      Some(r)
  }

  // ---------------------------------------------------------------------
  // Refinement instruction, title and metadata
  // ---------------------------------------------------------------------

  /**
   * `handleRefinementSubmit`: the trimmed instruction is passed on unless it
   * is empty or a refinement is already running.
   */
  function RefinementSubmit(instruction: string, status: Status): (r: Option<string>)
    ensures r.Some? <==> status != RefiningAI && exists k | 0 <= k < |instruction| :: !IsJsWhitespace(instruction[k])
    ensures r.Some? ==> r.value == Trim(instruction) && r.value != []
    ensures r.Some? ==> !IsJsWhitespace(r.value[0]) && !IsJsWhitespace(r.value[|r.value| - 1])
  {
    var t := Trim(instruction);
    if t == "" || status == RefiningAI then None else Some(t)
  }

  /** The first schema property of kind title, in schema order. */
  function TitleKey(schema: Schema): (r: Option<string>)
    ensures r.Some? ==> exists i | 0 <= i < |schema| :: (
      && schema[i] == (r.value, Title)
      && forall j | 0 <= j < i :: schema[j].1 != Title)
    ensures r.None? ==> forall i | 0 <= i < |schema| :: schema[i].1 != Title
  {
    if |schema| == 0 then None
    else if schema[0].1 == Title then Some(schema[0].0)
    else
      var tail: seq<(string, Kind)> := schema[1..];
      assert DistinctNames(tail) by {
        forall a, b | 0 <= a < b < |tail| ensures tail[a].0 != tail[b].0 {
          assert tail[a] == schema[a + 1] && tail[b] == schema[b + 1];
        }
      }
      var r := TitleKey(tail);
      assert r.Some? ==> exists i | 0 <= i < |tail| :: (
        && tail[i] == (r.value, Title)
        && forall j | 0 <= j < i :: tail[j].1 != Title);
      r
  }

  /**
   * The metadata rows: every content field the schema knows, except the
   * page content and the title field, which has its own input.
   */
  function MetadataKeys(c: Content, schema: Schema): (r: set<string>)
    ensures r <= c.fields.Keys
    ensures PageContentKey !in r
    ensures forall k | k in r :: InSchema(schema, k) && Some(k) != TitleKey(schema)
    ensures forall k | k in c.fields && k != PageContentKey && InSchema(schema, k) ::
      k in r || Some(k) == TitleKey(schema)
  {
    set k | k in c.fields && k != PageContentKey && InSchema(schema, k) && Some(k) != TitleKey(schema)
  }
}

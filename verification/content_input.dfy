/**
 * `handleProcess` and `handleRefine` of pages/ContentInputPage.tsx as the
 * sequence of effects each one performs: reducer dispatches, writes of the
 * processed content, and the call to the AI. The AI's outcome (the
 * repaired reply object, or the message of the error it threw) and today's
 * date are inputs.
 */
module ContentInput {
  import opened Wrappers
  import opened Json
  import opened Types
  import opened AppReducer
  import opened Sentinel

  /** What a handler does, in the order it does it. */
  datatype Effect =
    | Dispatch(action: Action)
    | SetProcessed(content: Option<Content>)
    | CallAi

  /** The part of the application state the handlers read and write. */
  datatype Session = Session(app: AppState, processed: Option<Content>)

  /** The reply object, or the `message` of the error the AI call threw. */
  type AiOutcome = Result<map<string, Json>, string>

  const NoSchemaMessage: string := "Please select a valid database before processing."
  const ProcessFailedMessage: string := "Failed to process content with the AI."
  const RefineFailedMessage: string := "Failed to refine content."

  /** `e.message || fallback` */
  function ErrorText(message: string, fallback: string): (t: string)
    requires fallback != ""
    ensures t != ""
    ensures message != "" ==> t == message
  {
    if message != "" then message else fallback
  }

  function Step(s: Session, e: Effect): Session {
    match e
    case Dispatch(a) => s.(app := Reduce(s.app, a))
    case SetProcessed(c) => s.(processed := c)
    case CallAi => s
  }

  /** The session after the effects, applied in order. */
  function Run(s: Session, effects: seq<Effect>): Session
    decreases |effects|
  {
    if |effects| == 0 then s else Run(Step(s, effects[0]), effects[1..])
  }

  /** Running the first effect, then the rest. */
  lemma RunCons(s: Session, e: Effect, rest: seq<Effect>)
    ensures Run(s, [e] + rest) == Run(Step(s, e), rest)
  {
    assert ([e] + rest)[1..] == rest;
  }

  /** Running two effects, then the rest. */
  lemma RunTwo(s: Session, a: Effect, b: Effect, rest: seq<Effect>)
    ensures Run(s, [a, b] + rest) == Run(Step(Step(s, a), b), rest)
  {
    assert [a, b] + rest == [a] + ([b] + rest);
    RunCons(s, a, [b] + rest);
    RunCons(Step(s, a), b, rest);
  }

  // ---------------------------------------------------------------------
  // Processing
  // ---------------------------------------------------------------------

  /** The processed content a successful reply yields: sentinels resolved, then typed. */
  function Processed(raw: map<string, Json>, schema: Schema, today: string): Content {
    ToContent(ResolveProcessed(raw, schema, today))
  }

  /**
   * `handleProcess`. Without a schema it only reports the error. Otherwise
   * it announces the run, clears the processed content, calls the AI, and
   * then either stores the resolved content and returns to idle, or reports
   * the error.
   */
  function HandleProcess(schema: Option<Schema>, outcome: AiOutcome, today: string): (effects: seq<Effect>)
    ensures CallAi in effects <==> schema.Some?
    ensures schema.Some? ==>
      |effects| > 3 && effects[..3] == [Dispatch(SetStatus(ProcessingAI)), SetProcessed(None), CallAi]
  {
    match schema
    case None => [Dispatch(SetError(NoSchemaMessage))]
    case Some(sc) =>
      [Dispatch(SetStatus(ProcessingAI)), SetProcessed(None), CallAi]
      + match outcome
        case Success(raw) => [SetProcessed(Some(Processed(raw, sc, today))), Dispatch(SetStatus(Idle))]
        case Failure(m) => [Dispatch(SetError(ErrorText(m, ProcessFailedMessage)))]
  }

  /** Without a schema the AI is never called, the error is shown and the content is kept. */
  lemma ProcessWithoutSchema(s: Session, outcome: AiOutcome, today: string)
    ensures CallAi !in HandleProcess(None, outcome, today)
    ensures Run(s, HandleProcess(None, outcome, today)) == Session(AppState(Idle, NoSchemaMessage, ""), s.processed)
  {
  }

  /** A failed run leaves no processed content behind and shows a non-empty error. */
  lemma ProcessFailure(s: Session, schema: Schema, message: string, today: string)
    ensures var after := Run(s, HandleProcess(Some(schema), Failure(message), today));
      && after.processed.None?
      && after.app == AppState(Idle, ErrorText(message, ProcessFailedMessage), "")
      && after.app.error != ""
  {
    var e := HandleProcess(Some(schema), Failure(message), today);
    var fail := Dispatch(SetError(ErrorText(message, ProcessFailedMessage)));
    assert e == [Dispatch(SetStatus(ProcessingAI)), SetProcessed(None)] + ([CallAi, fail] + []);
    RunTwo(s, Dispatch(SetStatus(ProcessingAI)), SetProcessed(None), [CallAi, fail] + []);
    RunTwo(Step(Step(s, Dispatch(SetStatus(ProcessingAI))), SetProcessed(None)), CallAi, fail, []);
  }

  /** A successful run stores the resolved reply and ends idle with no message. */
  lemma ProcessSuccess(s: Session, schema: Schema, raw: map<string, Json>, today: string)
    ensures var after := Run(s, HandleProcess(Some(schema), Success(raw), today));
      && after.processed == Some(Processed(raw, schema, today))
      && after.app == AppState(Idle, "", "")
  {
    var e := HandleProcess(Some(schema), Success(raw), today);
    var store := SetProcessed(Some(Processed(raw, schema, today)));
    var idle := Dispatch(SetStatus(Idle));
    assert e == [Dispatch(SetStatus(ProcessingAI)), SetProcessed(None)] + ([CallAi, store] + [idle]);
    RunTwo(s, Dispatch(SetStatus(ProcessingAI)), SetProcessed(None), [CallAi, store] + [idle]);
    RunTwo(Step(Step(s, Dispatch(SetStatus(ProcessingAI))), SetProcessed(None)), CallAi, store, [idle]);
  }

  /** No date field of freshly processed content holds the sentinel. */
  lemma ProcessedHasNoSentinel(raw: map<string, Json>, schema: Schema, today: string)
    requires today != "NOW"
    ensures var c := Processed(raw, schema, today);
      forall k | k in c.fields && IsDateField(schema, k) :: c.fields[k] != Now
  {
    NoSentinelLeft(raw, schema, today);
  }

  // ---------------------------------------------------------------------
  // Refinement
  // ---------------------------------------------------------------------

  /** The processed content a successful refinement yields, earlier dates kept. */
  function Refined(raw: map<string, Json>, schema: Schema, previous: Content, today: string): Content {
    ToContent(ResolveRefined(raw, schema, ToRaw(previous), today))
  }

  /** `handleRefine` exactly as written, with its `finally` reset to idle. */
  function HandleRefineAsWritten(s: Session, schema: Option<Schema>, outcome: AiOutcome, today: string)
    : (effects: seq<Effect>)
    ensures s.processed.None? || schema.None? ==> effects == []
    ensures |effects| > 0 ==> effects[|effects| - 1] == Dispatch(SetStatus(Idle))
  {
    if s.processed.None? || schema.None? then []
    else
      [Dispatch(SetStatus(RefiningAI)), CallAi]
      + (match outcome
         case Success(raw) => [SetProcessed(Some(Refined(raw, schema.value, s.processed.value, today)))]
         case Failure(m) => [Dispatch(SetError(ErrorText(m, RefineFailedMessage)))])
      + [Dispatch(SetStatus(Idle))]
  }

  /**
   * The error of a failed refinement never reaches the screen: the `finally`
   * reset to idle clears the message the `catch` block has just set.
   */
  lemma RefineErrorWiped(s: Session, schema: Schema, message: string, today: string)
    requires s.processed.Some?
    ensures Run(s, HandleRefineAsWritten(s, Some(schema), Failure(message), today)).app == AppState(Idle, "", "")
  {
    var fail := Dispatch(SetError(ErrorText(message, RefineFailedMessage)));
    var idle := Dispatch(SetStatus(Idle));
    assert HandleRefineAsWritten(s, Some(schema), Failure(message), today)
      == [Dispatch(SetStatus(RefiningAI)), CallAi] + ([fail, idle] + []);
    RunTwo(s, Dispatch(SetStatus(RefiningAI)), CallAi, [fail, idle] + []);
    RunTwo(Step(Step(s, Dispatch(SetStatus(RefiningAI))), CallAi), fail, idle, []);
  }

  /**
   * `handleRefine` as evidently intended: the reset to idle only follows a
   * success, since reporting an error already returns to idle.
   */
  function HandleRefine(s: Session, schema: Option<Schema>, outcome: AiOutcome, today: string)
    : (effects: seq<Effect>)
    ensures s.processed.None? || schema.None? ==> effects == []
    ensures CallAi in effects <==> s.processed.Some? && schema.Some?
  {
    if s.processed.None? || schema.None? then []
    else
      [Dispatch(SetStatus(RefiningAI)), CallAi]
      + match outcome
        case Success(raw) =>
          [SetProcessed(Some(Refined(raw, schema.value, s.processed.value, today))), Dispatch(SetStatus(Idle))]
        case Failure(m) => [Dispatch(SetError(ErrorText(m, RefineFailedMessage)))]
  }

  /** Refinement is a no-op without processed content or without a schema. */
  lemma RefineNoOp(s: Session, schema: Option<Schema>, outcome: AiOutcome, today: string)
    requires s.processed.None? || schema.None?
    ensures Run(s, HandleRefine(s, schema, outcome, today)) == s
  {
  }

  /** A failed refinement shows its error, ends idle, and keeps the content. */
  lemma RefineFailureReported(s: Session, schema: Schema, message: string, today: string)
    requires s.processed.Some?
    ensures var after := Run(s, HandleRefine(s, Some(schema), Failure(message), today));
      && after.app == AppState(Idle, ErrorText(message, RefineFailedMessage), "")
      && after.app.error != ""
      && after.processed == s.processed
  {
    var fail := Dispatch(SetError(ErrorText(message, RefineFailedMessage)));
    assert HandleRefine(s, Some(schema), Failure(message), today)
      == [Dispatch(SetStatus(RefiningAI)), CallAi] + [fail];
    RunTwo(s, Dispatch(SetStatus(RefiningAI)), CallAi, [fail]);
  }

  /** On success the corrected handler ends where the original one does. */
  lemma RefineSuccessUnchanged(s: Session, schema: Schema, raw: map<string, Json>, today: string)
    requires s.processed.Some?
    ensures Run(s, HandleRefine(s, Some(schema), Success(raw), today))
      == Run(s, HandleRefineAsWritten(s, Some(schema), Success(raw), today))
    ensures Run(s, HandleRefine(s, Some(schema), Success(raw), today))
      == Session(AppState(Idle, "", ""), Some(Refined(raw, schema, s.processed.value, today)))
  {
    var store := SetProcessed(Some(Refined(raw, schema, s.processed.value, today)));
    var idle := Dispatch(SetStatus(Idle));
    var start := Dispatch(SetStatus(RefiningAI));
    assert HandleRefine(s, Some(schema), Success(raw), today) == [start, CallAi] + ([store, idle] + []);
    assert HandleRefineAsWritten(s, Some(schema), Success(raw), today) == [start, CallAi] + ([store, idle] + []);
    RunTwo(s, start, CallAi, [store, idle] + []);
    RunTwo(Step(Step(s, start), CallAi), store, idle, []);
  }
}

# A verified model of the note pipeline: free text and files → AI → Notion page

The application takes text and files from the user, asks an AI model to
extract values for the properties of a chosen Notion database, lets the user
review and refine the values, and then creates one Notion page from them. The
page has the extracted properties, a summary, key takeaways, the original
text, and links to the uploaded files.

This project models the logic at the centre of that pipeline as pure Dafny
functions over immutable data, and proves what the code promises. The model
covers:

- **AI response schema** (`AiSchema`). How `buildAiSchema` turns a database
  schema into the structured-output schema the AI is asked to fill. This
  includes which properties the AI may write and which it must leave out. It
  also covers the per-type constraints, the keyword heuristic that tells
  creation dates from due dates, and the `required` list.
- **Reply normalisation** (`Normalizer`). Cutting the JSON object out of
  the AI's raw text, the one error message each mode surfaces, and the
  repair of a missing page content. Also how the instruction prompt is
  chosen.
- **`"NOW"` sentinel** (`Sentinel`). The AI answers `"NOW"` for a
  creation date. The sentinel is resolved to today's date after processing,
  and after refinement the previous value is kept if there was one.
- **Notion payload** (`NotionDocument`, `Paragraphs`).
  `buildNotionProperties` decides which properties are sent and in what
  shape. `buildNotionPageBlocks` lays out the page body.
  `createParagraphBlocks` splits text into blocks of at most 2000
  characters per line.
- **Application state** (`AppReducer`, `ContentInput`). The status
  reducer, and the sequence of dispatches `handleProcess` and
  `handleRefine` perform around the AI call.
- **Review screen edits** (`OutputPreview`). Field edits, page-content
  edits, takeaway add/edit/remove, the multi-select toggle, refinement
  submission and the metadata filter.
- **Settings** (`SettingsState`). Adding and removing connections, the
  active connection, provider switching, and clearing.
- **Files** (`FileHandler`, `DropZone`, `Formatters`, `FileIcons`,
  `DatabaseId`). Adding files with their previews and public URLs, removal,
  reset, MIME validation at the drop zone, the file icon and the icon each
  accepted type gets, and the extraction of a 32-hex-digit database id from
  a pasted link.

Shared vocabulary lives in `Wrappers` (`Option`, `Result`), `Text`
(JavaScript string operations), `Seqs` (order-preserving filtering), `Json`
(parsed JSON values and JavaScript truthiness) and `Types` (the data model
of `types.ts`).

Things outside the model appear as parameters:

- The clock: `now` for connection ids, `today` for dates.
- The outcome of every network call.
- `JSON.parse`.
- JavaScript's `Number` conversion.
- The object URLs the browser hands out.
- The built-in default prompt.

Paths below are relative to the repository's source root.

## Model

| member | source | states |
|---|---|---|
| Types.KindOf | types.ts:48-60 | A property's `type` string decides its kind. Every listed type name has its own kind, and any other name falls into the catch-all. Select and multi-select keep their option names. |
| Types.KindRoundTrip | types.ts:48-60 | Reading back a well-formed property's type name and options gives the same property. |
| Types.LookupKind | types.ts:62 | Looking a name up in a database schema finds the entry of that name, or reports that no entry has it. |
| Types.LookupKindAt | types.ts:62 | In a schema with distinct names, each entry is found by its own name. |
| Types.PageFromJson | types.ts:64-68 | A page content is read only from an object that has a string title, a string body, and an array of strings for the takeaways. What it reads is exactly what the object holds. |
| Types.PageRoundTrip | types.ts:64-68 | Encoding a page content as JSON and reading it back gives the same page content. |
| Types.ToContent | types.ts:70-73 | Processed content splits into the property values (every member except `pageContent`) and the page content. |
| Types.ContentRoundTrip | types.ts:70-73 | Processed content that is written to JSON members and read back is unchanged. |
| Types.ProviderOf | types.ts:7-25 | Exactly the keys `gemini` and `openrouter` name a provider, and each names the provider whose key it is. |
| Types.ProviderKeyRoundTrip | types.ts:7-25 | A provider's key names that provider. |
| Types.DefaultModel | types.ts:7-23 | Every provider has at least one model, and its default is the first one listed. |
| Text.IndexOf | hooks/useAI.ts:185 | `indexOf` finds the first position holding the character, or reports that the character is absent. |
| Text.LastIndexOf | hooks/useAI.ts:186 | `lastIndexOf` finds the last position holding the character, or reports that the character is absent. |
| Text.Trim | components/OutputPreview.tsx:62-63 | `trim()` is a slice of the text with only whitespace before and after it. It is empty exactly when the text is all whitespace, and otherwise starts and ends with a character that is not whitespace. |
| Seqs.Filter | hooks/useSettings.ts:57 | `filter` keeps exactly the elements that satisfy the predicate, and keeps them in their original order. |
| Seqs.FilterPartition | components/DropZone.tsx:38-44 | Splitting a list by a predicate and by its complement yields two halves that together are a permutation of the list. |
| AiSchema.DateRoleOf | hooks/useAI.ts:27-38 | A date property is a creation date exactly when its lower-cased name contains a creation keyword. It is a due date exactly when it contains a due keyword and no creation keyword. Creation keywords win. |
| AiSchema.PropFor | hooks/useAI.ts:19-55 | Relation and unknown types get no constraint, and every other type gets one. The constraint's JSON type follows the property type. Select gets its option names as an enum. Multi-select gets them as the enum of its string items. Date gets the guidance its role calls for. |
| AiSchema.GuidanceNamesField | hooks/useAI.ts:17-44 | Every description sent to the AI quotes the name of the property it describes. |
| AiSchema.WritableIndices | hooks/useAI.ts:15-56 | The properties the AI may write are selected in schema order, and none are missing. |
| AiSchema.FieldConstraints | hooks/useAI.ts:13-57 | A property has a constraint exactly when the AI may write it, and every constraint belongs to a schema property. |
| AiSchema.BuildAiSchema | hooks/useAI.ts:12-59 | The response schema always carries the fixed `pageContent` object, and it carries each writable property with that property's constraint. It has no property outside the schema. It requires the writable names and then `pageContent`. |
| AiSchema.PageContentSchemaDescribesPages | hooks/useAI.ts:58 | The `pageContent` object lists a string title, a string body and an array of string takeaways, and requires exactly those three. Every page content, written as JSON, has each listed member with its listed type. |
| AiSchema.DroppedPropertiesAbsent | hooks/useAI.ts:53-56 | A relation or unknown-type property is neither described to the AI nor required from it. |
| AiSchema.WritableRequired | hooks/useAI.ts:56-58 | Every property the AI may write is required in its reply. |
| AiSchema.RequiredInSchemaOrder | hooks/useAI.ts:56-58 | The required names keep the order of the database schema. |
| AiSchema.CreationGuidanceExample | hooks/useAI.ts:29-33 | A property named "Created Date" asks the AI for the `"NOW"` sentinel. |
| AiSchema.DueGuidanceExample | hooks/useAI.ts:30-35 | A property named "Due" asks the AI for a deadline in YYYY-MM-DD form. |
| AiSchema.PlainDateGuidance | hooks/useAI.ts:36-37 | A date whose name contains no character that starts a keyword gets the plain date guidance. |
| Normalizer.JsonSpan | hooks/useAI.ts:185-190 | The extracted text runs from the first `{` to the last `}`, so it starts with `{` and ends with `}`. Nothing is extracted exactly when no `}` follows a `{`. |
| Normalizer.SpanOfWrappedObject | hooks/useAI.ts:183-190 | An object wrapped in prose or a markdown fence that contains no braces is extracted exactly. |
| Normalizer.RepairPageContent | hooks/useAI.ts:197-199 | A missing, falsy or non-object `pageContent` is replaced by the auto-generated default. Every other member is untouched, and a usable page content is left as it is. |
| Normalizer.RepairIdempotent | hooks/useAI.ts:197-199 | Repairing an already repaired reply changes nothing. |
| Normalizer.Normalize | hooks/useAI.ts:181-201 | A reply fails exactly when no object can be extracted or the extract does not parse. Either failure gives the single message of its mode. A successful reply keeps every parsed member and always has an object page content. |
| Normalizer.NormalizeKeepsPage | hooks/useAI.ts:197-201 | A reply with a well-formed page content yields exactly that page content. |
| Normalizer.NormalizeDefaultsPage | hooks/useAI.ts:197-199 | A reply without a page content yields the default page content. |
| Normalizer.ActiveConnection | hooks/useAI.ts:173 | The active connection is one whose id is the active id. If none is found, no connection has that id. |
| Normalizer.FindById | pages/ContentInputPage.tsx:29 | `find` returns the first connection with the id. |
| Normalizer.ProcessingPrompt | hooks/useAI.ts:174 | The prompt is the active connection's own non-empty prompt if there is one. Otherwise it is the global prompt if that is non-empty, and otherwise the built-in default. |
| Normalizer.PromptIsCandidate | hooks/useAI.ts:173-174 | The prompt is always the default, the global prompt, or the non-empty prompt of a connection with the active id. |
| Normalizer.EmptyOverrideFallsBack | hooks/useAI.ts:173-174 | When no connection with the active id has a non-empty prompt, the global prompt is used, or the default when the global prompt is empty. This covers an absent and an empty override alike. |
| Normalizer.FirstActiveOverrideWins | hooks/useAI.ts:173-174 | The first connection with the active id decides: its non-empty prompt is used, whatever the global prompt is. |
| Sentinel.ResolveProcessed | pages/ContentInputPage.tsx:44-50 | After processing, every date property holding `"NOW"` becomes today's date. Every other member is unchanged, and no member is added or dropped. |
| Sentinel.NoSentinelLeft | pages/ContentInputPage.tsx:47-48 | After processing, no date property still holds `"NOW"`. |
| Sentinel.ResolveIdempotent | pages/ContentInputPage.tsx:44-50 | Resolving the sentinel a second time changes nothing. |
| Sentinel.ResolveRefined | pages/ContentInputPage.tsx:64-70 | After refinement, a date property holding `"NOW"` keeps its previous truthy value, or else becomes today's date. Every other member is unchanged. |
| Sentinel.RefinedNoSentinelLeft | pages/ContentInputPage.tsx:65-69 | If the previous content had no sentinel, none survives refinement. |
| Sentinel.IsoDay | pages/ContentInputPage.tsx:48 | Today's date is a ten-character YYYY-MM-DD string and never the sentinel itself. |
| Sentinel.IsoDayRoundTrip | pages/ContentInputPage.tsx:48 | The date string spells back the year, month and day it was made from. |
| Sentinel.CreatedDateExample | pages/ContentInputPage.tsx:45-49 | A "Created Date" of `"NOW"` becomes today, while a text property holding `"NOW"` stays as it is. |
| Sentinel.RefinedDateExample | pages/ContentInputPage.tsx:67-68 | A refined "Created Date" of `"NOW"` keeps the date the content had before. |
| Paragraphs.RunLength | utils/notion.ts:6 | A match of `.{1,2000}` is as long as possible: it stops at the limit, at the end of the text, or at a line terminator. |
| Paragraphs.Chunks | utils/notion.ts:6 | Every paragraph chunk holds 1 to 2000 characters and no line terminator. |
| Paragraphs.ChunksConcat | utils/notion.ts:6 | Joined together, the chunks are the text with its line terminators removed. Nothing else is lost, duplicated or reordered. |
| Paragraphs.OnlyTerminators | utils/notion.ts:6 | A text of line terminators only gives no paragraphs. |
| Paragraphs.ChunksSplitAtTerminator | utils/notion.ts:6 | A line terminator separates chunking: the chunks of `a`, a terminator and `b` are the chunks of `a` followed by the chunks of `b`. |
| Paragraphs.SingleLineChunks | utils/notion.ts:6 | A line of n characters gives ⌈n/2000⌉ chunks, and chunk i is characters 2000·i up to 2000·(i+1). |
| Paragraphs.LongLineExample | utils/notion.ts:6 | A 4500-character line gives chunks of 2000, 2000 and 500 characters. |
| Paragraphs.ParagraphBlocks | utils/notion.ts:6 | Every block is a paragraph of 1 to 2000 characters holding no line terminator, one per regular-expression match, in order. |
| Paragraphs.ParagraphBlocksSpellText | utils/notion.ts:6 | Read one after another, the paragraph blocks spell the text without its line terminators. Nothing else is dropped, repeated or reordered. |
| Paragraphs.ShortLineBlocks | utils/notion.ts:6 | A non-empty line of at most 2000 characters becomes exactly one paragraph holding it. |
| Paragraphs.TwoLineBlocks | utils/notion.ts:6 | Two short lines separated by a line terminator become two paragraphs, one per line. |
| NotionDocument.PropertyValue | hooks/useNotion.ts:17-55 | A property value is sent exactly under the conditions of its type, as one reference predicate states them. The value sent carries the property's type tag. Text kinds need a truthy value. A URL is sent as null when falsy. A number is sent only when it is not NaN. A checkbox is the value's truthiness. A multi-select is sent only when non-empty. A date has a start exactly when it is a non-empty string. |
| NotionDocument.BuildProperties | hooks/useNotion.ts:12-58 | The payload has only schema properties with a value present. Each such property is in the payload exactly when its type's condition holds, and it carries that property's value. |
| NotionDocument.NeverSentKinds | hooks/useNotion.ts:53-54 | Relation and unknown-type properties are never sent. |
| NotionDocument.EmptyStringExample | hooks/useNotion.ts:18-51 | An empty string drops a title. It sends a URL as null and a date as null. |
| NotionDocument.UrlAt | hooks/useNotion.ts:74-75 | A file has a usable public URL exactly when one exists at its index and is non-empty. |
| NotionDocument.FileBlockFor | hooks/useNotion.ts:75-85 | A file without a URL becomes the paperclip "upload failed" callout naming it. With a URL, an image becomes an image block, a PDF an embed, and anything else a named file block. |
| NotionDocument.FileBlocks | hooks/useNotion.ts:73-86 | There is one block per file, in file order, and each is built from the URL at the same index. |
| NotionDocument.FileBlocksExample | hooks/useNotion.ts:73-86 | For two files where only the first, a non-image non-PDF file, has a URL, the first becomes a file block with its URL and name. The second becomes the paperclip "upload failed" callout naming it. |
| NotionDocument.AddedFilesLinkOwnUpload | hooks/useNotion.ts:73-85 | After files are added, the block for each new file links the URL of that file's own upload, or is the "upload failed" callout when the upload gave none. |
| NotionDocument.SummarySection | hooks/useNotion.ts:63-69 | The page opens with the summary heading ("Summary" when the title is empty), then the body paragraphs, a divider, the "Key Takeaways" heading and one bullet per takeaway. |
| NotionDocument.TextSection | hooks/useNotion.ts:70 | The original-text section is present exactly when there is text. It is a divider, a heading and the text's paragraphs. |
| NotionDocument.FileSection | hooks/useNotion.ts:71-86 | The original-files section is present exactly when there are files. It is a divider, a heading and one block per file. |
| NotionDocument.BuildPageBlocks | hooks/useNotion.ts:60-89 | The page body exists exactly when there is page content. It is the summary section, then the text section, then the file section. |
| NotionDocument.SummaryExample | hooks/useNotion.ts:63-69 | An empty title, a two-line body and one takeaway give the "Summary" heading, one paragraph per line, a divider, the "Key Takeaways" heading and one bullet. |
| NotionDocument.FailedUploadSection | hooks/useNotion.ts:71-86 | One file without a URL gives a divider, the "Original Files" heading and the paperclip callout naming the file. |
| NotionDocument.PageBlocksExample | hooks/useNotion.ts:60-89 | With an empty title, a two-line body, one takeaway, no text and one failed upload, the page body is exactly nine blocks: the summary section and the file section, with no "Original Text" section. |
| AppReducer.Reduce | state/appReducer.ts:23-35 | A status change clears both messages. An error or a success sets its own message, clears the other and returns to idle. Reset restores the initial state, and an unknown action changes nothing. |
| AppReducer.AtMostOneMessage | state/appReducer.ts:26-32 | After any recognised action, at most one of the error and the success message is shown. |
| AppReducer.ReduceIdempotent | state/appReducer.ts:23-35 | Dispatching the same action twice has the effect of dispatching it once. |
| AppReducer.RecognisedForgetsState | state/appReducer.ts:26-32 | A recognised action's result does not depend on the state it is applied to. |
| AppReducer.ReduceAll | state/appReducer.ts:23-35 | After a sequence of actions, the last one, if it is recognised, alone decides the state. |
| ContentInput.ErrorText | pages/ContentInputPage.tsx:55 | The shown error is the exception's message when that is non-empty, and otherwise the fallback. It is never empty. |
| ContentInput.HandleProcess | pages/ContentInputPage.tsx:35-57 | The AI is called exactly when a database schema is loaded. With a schema, the status first becomes "processing" and the previous result is cleared. |
| ContentInput.ProcessWithoutSchema | pages/ContentInputPage.tsx:36-39 | Without a schema, the user sees the "select a valid database" error and nothing else changes. |
| ContentInput.ProcessFailure | pages/ContentInputPage.tsx:40-56 | A failed AI call leaves no result and shows the failure message. |
| ContentInput.ProcessSuccess | pages/ContentInputPage.tsx:40-52 | A successful AI call stores the reply with sentinels resolved and returns to idle with no message. |
| ContentInput.ProcessedHasNoSentinel | pages/ContentInputPage.tsx:44-51 | A stored result never holds `"NOW"` in a date property. |
| ContentInput.HandleRefineAsWritten | pages/ContentInputPage.tsx:59-78 | As written, refinement does nothing without a result or a schema. Otherwise its final dispatch is always the `finally` block's status reset to idle. |
| ContentInput.RefineErrorWiped | pages/ContentInputPage.tsx:72-77 | As written, a failed refinement ends with no error shown: the `finally` status reset wipes the message the `catch` set. |
| ContentInput.HandleRefine | pages/ContentInputPage.tsx:59-78 | Refinement calls the AI exactly when there is a result and a schema, and otherwise does nothing. |
| ContentInput.RefineNoOp | pages/ContentInputPage.tsx:60 | Without a result or a schema, refinement leaves the session unchanged. |
| ContentInput.RefineFailureReported | pages/ContentInputPage.tsx:72-75 | A failed refinement keeps the previous result and shows the failure message at idle. |
| ContentInput.RefineSuccessUnchanged | pages/ContentInputPage.tsx:61-71 | A successful refinement stores the refined reply, with sentinels resolved against the previous values, and ends at idle with no message. |
| OutputPreview.FieldChange | components/OutputPreview.tsx:30-35 | Editing a field replaces that one member and keeps the page content. Editing `pageContent` replaces the page content and nothing else. |
| OutputPreview.FieldChangeMatchesRaw | components/OutputPreview.tsx:30-35 | An edit has the same effect as the object spread on the raw processed content. |
| OutputPreview.FieldChangeLocal | components/OutputPreview.tsx:32 | Editing one field leaves every other field as it was. |
| OutputPreview.PageContentChange | components/OutputPreview.tsx:37-43 | A page-content edit changes exactly one member of the current or empty page content and leaves every property field alone. |
| OutputPreview.ReplaceTakeaway | components/OutputPreview.tsx:45-49 | Editing takeaway i sets it and leaves the others and their count unchanged. The summary title, the summary body and every field keep their values. |
| OutputPreview.RemoveTakeaway | components/OutputPreview.tsx:51-54 | Removing takeaway i drops exactly that one. An index out of range removes nothing. The summary title, the summary body and every field keep their values. |
| OutputPreview.AddTakeaway | components/OutputPreview.tsx:56-59 | Adding appends one empty takeaway. The summary title, the summary body and every field keep their values. |
| OutputPreview.AddThenRemove | components/OutputPreview.tsx:51-59 | Adding a takeaway and removing it again restores the list. |
| OutputPreview.SelectedValues | components/OutputPreview.tsx:85 | A null or missing value selects nothing. An array is read only when all its items are strings, and then as exactly those strings in order. A string selects its characters, one per entry, as `new Set` iterates it. A number, boolean or object is unreadable. |
| OutputPreview.Dedup | components/OutputPreview.tsx:85 | The `Set` built from the current values holds each of them once. |
| OutputPreview.Toggle | components/OutputPreview.tsx:86 | Toggling an option selects it exactly when it was not selected, leaves every other selection alone, and keeps the values distinct. |
| OutputPreview.ToggleTwice | components/OutputPreview.tsx:86 | Toggling the same option twice restores the selected set. |
| OutputPreview.ToggleInOut | components/OutputPreview.tsx:86 | On distinct values, toggling an unselected option on and off restores the exact list. |
| OutputPreview.ToggleField | components/OutputPreview.tsx:85-86 | A toggle fails only when the field's value cannot be read as a selection. Otherwise every other field and the page content stay as they were. The field's new selection holds the option exactly when the old one did not, keeps every other option's membership, and has no repeats. |
| OutputPreview.RefinementSubmit | components/OutputPreview.tsx:61-65 | An instruction is submitted exactly when it is not blank and no refinement is running. What is sent is the trimmed instruction. |
| OutputPreview.TitleKey | components/OutputPreview.tsx:23 | The title key is a title property of the schema, and there is none only when the schema has no title property. |
| OutputPreview.MetadataKeys | components/OutputPreview.tsx:75-76 | The metadata rows are exactly the schema members of the content other than `pageContent` and the title. |
| SettingsState.InitialSettings | hooks/useSettings.ts:12-19 | Fresh settings have no connections and no active database. They use Gemini with its first model, an empty key and the default prompt. |
| SettingsState.ClearSettings | hooks/useSettings.ts:88-91 | Clearing returns to the initial settings. |
| SettingsState.Decimal | hooks/useSettings.ts:47 | A connection id is the decimal spelling of the clock reading, without leading zeros. |
| SettingsState.DecimalValue | hooks/useSettings.ts:47 | The id spells back the clock reading it was made from. |
| SettingsState.DecimalInjective | hooks/useSettings.ts:47 | Different clock readings give different ids. |
| SettingsState.AddConnection | hooks/useSettings.ts:45-49 | Adding appends the connection with its new id, makes it active, and changes nothing else. |
| SettingsState.AddConnectionFreshId | hooks/useSettings.ts:47 | The new id differs from every id made at an earlier time. |
| SettingsState.RemoveConnection | hooks/useSettings.ts:55-58 | Removal drops exactly the connections with that id and keeps the others in order, each as often as before. Removing the active connection activates the first remaining one, or none. Removing any other leaves the active id alone. |
| SettingsState.RemoveKeepsActiveValid | hooks/useSettings.ts:57-58 | If the active id named a connection before a removal, it still names one (or is null) after. |
| SettingsState.RemoveAbsentKeepsConnections | hooks/useSettings.ts:57 | Removing an id no connection has keeps the connection list as it is. |
| SettingsState.SetActiveDatabaseId | hooks/useSettings.ts:65-68 | Selecting a database changes the active id and nothing else. |
| SettingsState.UpdateAiSetting | hooks/useSettings.ts:73-81 | An update sets its own key and leaves the other keys alone. Switching to a known provider also selects that provider's first model. Switching to an unknown one keeps the model. |
| SettingsState.ProviderSwitchSelectsOwnModel | hooks/useSettings.ts:76-80 | After switching provider, the selected model belongs to that provider. |
| FileHandler.FillNullsAt | hooks/useFileHandler.ts:49-58 | The back-fill keeps every URL already present. It fills the n-th empty slot with the n-th uploaded URL while there are uploaded URLs left. |
| FileHandler.BackFill | hooks/useFileHandler.ts:49-58 | The loop over the URL list computes the back-fill. |
| FileHandler.AddFilesAsWritten | hooks/useFileHandler.ts:32-59 | As written, adding files appends them and their previews, appends a null placeholder per file, and back-fills the whole list. |
| FileHandler.AddFilesWithoutGaps | hooks/useFileHandler.ts:49-58 | When no earlier upload failed, each new file gets its own uploaded URL. |
| FileHandler.ShiftedUrlExample | hooks/useFileHandler.ts:49-58 | After an earlier failed upload, a new file's URL lands in the earlier file's slot, and the new file is left without one. |
| FileHandler.AddFiles | hooks/useFileHandler.ts:32-59 | Adding files keeps the existing URLs and gives each new file the URL of its own upload. The files, previews and URLs stay aligned. |
| FileHandler.AddFilesAgreeWithoutGaps | hooks/useFileHandler.ts:49-58 | When no earlier upload failed, the intended and the written behaviour coincide. |
| FileHandler.RemoveFile | hooks/useFileHandler.ts:63-71 | Removal drops index i from the files, previews and URLs together, and revokes that file's preview only when it is a blob URL. |
| FileHandler.RemoveKeepsPairing | hooks/useFileHandler.ts:68-70 | After a removal, every remaining file still sits beside its own preview and URL. |
| FileHandler.ResetFiles | hooks/useFileHandler.ts:73-83 | Reset empties the text and all lists, and revokes exactly the blob previews. |
| FileHandler.NonImagesNeverRevoked | hooks/useFileHandler.ts:36-38 | A non-image file's preview is never a blob URL, so it is never revoked. |
| FileHandler.ResetRevokesImagePreviews | hooks/useFileHandler.ts:36-78 | After files are added to an empty state, a reset revokes the object URL of every image among them and nothing else. |
| DropZone.ProcessFiles | components/DropZone.tsx:31-54 | A missing file list does nothing. Otherwise the rejected files produce one message naming them, if there are any. The accepted files are passed on in order, if there are any. |
| DropZone.Partition | components/DropZone.tsx:38-44 | Accepted and rejected files together are a permutation of the selection, each in selection order, with no file in both. |
| DropZone.MimeExamples | components/DropZone.tsx:13-22 | PNG is accepted, while GIF and CSV are not. |
| DropZone.MixedSelection | components/DropZone.tsx:46-53 | A mixed selection both reports the rejected file and passes on the accepted one. |
| DatabaseId.FirstWindowFrom | pages/SettingsPage.tsx:30 | The regex match is the leftmost run of 32 hexadecimal digits. |
| DatabaseId.ExtractId | pages/SettingsPage.tsx:29-33 | The extracted id is the first 32-hex-digit run in the pasted text, or the whole text when there is none. Either way it occurs in the text. |
| DatabaseId.ExtractIdempotent | pages/SettingsPage.tsx:30-31 | Pasting an extracted id again yields the same id. |
| Formatters.FileEmoji | utils/formatters.ts:14-22 | The icon follows the first matching rule: image, then PDF, then Word, then spreadsheet or Excel, then presentation, then text. Each icon is chosen exactly under its rule, and anything else gets the folder. |
| FileIcons.PlainTextIcon | utils/formatters.ts:16-20 | Plain text names no office format and gets the text label. |
| FileIcons.MarkdownIcon | utils/formatters.ts:16-20 | Markdown gets the text label: although it holds every letter of "word", it does not spell it. |
| FileIcons.ImageAndPdfIcons | utils/formatters.ts:15-16 | PNG and JPEG get the picture icon, and PDF gets the page icon. |
| FileIcons.DocxIcon | utils/formatters.ts:17 | A Word document gets the memo icon. |
| FileIcons.XlsxIcon | utils/formatters.ts:17-18 | An Excel workbook names no Word format and gets the chart icon. |
| FileIcons.PptxIcon | utils/formatters.ts:17-19 | A PowerPoint presentation names neither Word nor a spreadsheet, nor spells "excel", and gets the presentation label. |
| FileIcons.AllowedTypesHaveIcons | components/DropZone.tsx:13-22 | No type the drop zone accepts falls through to the folder icon of unknown types. |

## Left out

- Network calls. `processWithGemini`, `processWithOpenRouter`,
  `refineWithGemini`, `refineWithOpenRouter`, `handleFetchSchema`,
  `uploadToNotion`, `handleNotionApiCall`, `uploadFile` and the `api/`
  endpoints are not modelled. Each call's outcome is a parameter: a reply
  text or an error message.
- The `uploadToNotion` request body reads `connection.nionDatabaseId`
  (hooks/useNotion.ts:129). This misspelling sends an undefined parent id.
  The request is network code and is not modelled.
- `JSON.parse`, `Number()` and `URL.createObjectURL` are parameters; their
  own behaviour is not modelled.
- utils/prompts.ts is not part of this model. The default prompt is a
  parameter, and the refinement prompt text is not modelled.
- utils/file.ts is not part of this model (base64 reading of files).
- `formatFileSize` is not modelled, because it is floating-point logarithms
  and rounding.
- Persistence to `localStorage` and the merge of saved settings at load
  (hooks/useSettings.ts:24-43) are not modelled, because they are I/O.
- React rendering, routing, `AppContext`, the service worker and the
  quick-action texts are not modelled, because they are UI only.
- ContentInput.Session: assumes the page's context supplies the processed
  content, the input text, the input files and their setters.
  state/AppContext.tsx:15-34 declares none of them, and the state of
  state/appReducer.ts:9-13 holds only the status, the error and the success
  message. As written, `setProcessedContent(null)` at
  pages/ContentInputPage.tsx:41 would throw, and `handleRefine` would always
  return at line 60. The model follows the evident wiring, with the
  processed content held beside the app state, because the page is written
  against it.
- Interleavings of asynchronous state updates are not modelled. Every
  handler runs to completion on the state it started from.
- `handleUpload` is not modelled: it is network code apart from dispatches
  of the reducer, which is modelled.
- Paragraphs.Chunks: counts Unicode scalar values, not UTF-16 code units.
  A chunk holding characters outside the Basic Multilingual Plane can
  therefore be longer in JavaScript's measure.
- AiSchema.DateRoleOf: lower-cases ASCII letters only. All the keywords
  are ASCII or CJK, so full Unicode case folding only matters for names
  with non-ASCII capitals.
- Types.ToContent: a `pageContent` that is an object but lacks the string
  or array members is read as no page content. JavaScript would carry the
  ill-shaped object along. The model assumes the schema has no property
  named `pageContent`, and has no prototype keys.
- OutputPreview.ReplaceTakeaway: requires the index to be in range.
  JavaScript would grow the array with holes, but the UI only edits
  existing takeaways.
- OutputPreview.SelectedValues: an array with a non-string item is treated
  as unreadable, like a number, boolean or object. JavaScript would build a
  `Set` holding those items; the model covers only string selections.
- OutputPreview.MetadataKeys: returns a set, so the order of the metadata
  rows is not modelled.
- SettingsState.UpdateAiSetting: covers the four string settings the
  settings page edits, not arbitrary keys of `Settings`.
- The error messages of processing and refinement follow the code. A
  failed extraction and a failed parse are caught by the same handler and
  surface one message per mode. They are not two distinct errors.

## Findings

| source | as written | input that shows it | evidently intended | confidence | as-written member | corrected member |
|---|---|---|---|---|---|---|
| pages/ContentInputPage.tsx:72-77 | The `catch` dispatches the error, then `finally` dispatches a status change to idle. The reducer clears the error on every status change (state/appReducer.ts:26). | A refinement whose AI call fails, for example with an unparseable reply. | The failure message stays visible after refinement ends, as it does after processing. | high; not executed | ContentInput.HandleRefineAsWritten, ContentInput.RefineErrorWiped | ContentInput.HandleRefine, ContentInput.RefineFailureReported |
| hooks/useFileHandler.ts:49-58 | The uploaded URLs of a batch are written into the first null slots of the whole URL list, not into the batch's own placeholders. | File `a` was added and its upload failed (URL null). Then file `b` is added and its upload succeeds with URL `u`. `a` gets `u`, and `b` stays null. | Each file in the batch gets the URL of its own upload. | high; not executed | FileHandler.AddFilesAsWritten, FileHandler.ShiftedUrlExample | FileHandler.AddFiles, FileHandler.AddFilesAgreeWithoutGaps |

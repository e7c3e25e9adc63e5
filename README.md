# OmniSharp core, modelled in Dafny

This project models four pieces of the OmniSharp C# language server and proves
properties of them:

- **Text synchronisation for the Language Server Protocol.** This is the
  `TextDocumentSyncHandler` class (module `TextDocumentSync`).
  - It decides whether a selector's documents are synchronised in Full or
    Incremental mode.
  - It turns each didOpen, didChange, didClose or didSave notification into at
    most one call to a backend handler: file open, file close or update buffer.
  - It ignores willSave and willSaveWaitUntil.
  - It stores the client's synchronisation capability and builds three
    registration payloads.
  - The class keeps every call it forwards in a `log` field, and each handler
    method states exactly what it appends to that log.
- **The `highlight` endpoint** (module `Highlighting`).
  - It selects documents by project and normalises the requested
    classifications in place on the request.
  - It classifies either the whole text or the requested lines, filters out the
    spans of classifications that were not requested, and groups the results
    by span.
- **Generation of the TypeScript client declaration** (module
  `TypeScriptGeneration`). This covers the namespace of a type, the choice of
  the TypeScript type an endpoint returns, one signature line per endpoint, and
  the `declare module OmniSharp` text around those lines.
- **Property formatting for the generated TypeScript models** (module
  `TsFluentFormatters`). This covers the type mappings and the optional `?`
  marker on members of request models.

The modules `Wrappers`, `Sequences` and `Strings` supply the support pieces:
- `Option` and `Result`;
- a distinct set difference with LINQ `Except` order;
- subsequence;
- prefix and suffix tests;
- ASCII lower case;
- `Split` and `Join` with their round trip.

In these edge cases the model follows the code as written:
- **Several changes whose first has no range.** Such a didChange is not a
  whole-buffer replacement. It takes the incremental path and fails there on
  the missing range (`RangelessFirstOfSeveralFails`).
- **Conversion of coordinates.** The line and character numbers go through a
  checked conversion to 32 bits, which throws when a number does not fit.
  Nothing truncates them.
- **Malformed ranges.** A range whose start is after its end is not rejected.
  It is forwarded as it is.
- **Repeated capabilities.** `SetCapability` replaces whatever capability was
  stored before, every time it is called (`CapabilityIsOverwritten`).
- **Requested classifications.** A missing *or non-empty* list of requested
  classifications is replaced by every classification. Only an empty list
  stays as it is (`NormalisedClassifications`). This is what the code does,
  and the model keeps it.

## Model

| member | source | states |
|---|---|---|
| TextDocumentSync.SyncKindFor | src/OmniSharp.LanguageServerProtocol/Handlers/TextDocumentSyncHandler.cs:45 | The kind is Incremental exactly when both an open handler and a close handler exist. Otherwise it is Full. |
| TextDocumentSync.CreateHandler | src/OmniSharp.LanguageServerProtocol/Handlers/TextDocumentSyncHandler.cs:45-47 | The new handler stores its handlers and selector, and its sync kind is the one the handlers allow. No capability is stored yet and no call has been forwarded. |
| TextDocumentSync.TextDocumentSyncHandler.constructor | src/OmniSharp.LanguageServerProtocol/Handlers/TextDocumentSyncHandler.cs:61-89 | The options are the initial ones (Incremental, open/close, willSave, willSaveWaitUntil, save with text), with `change` replaced by the given sync kind. |
| TextDocumentSync.ConvertChange | src/OmniSharp.LanguageServerProtocol/Handlers/TextDocumentSyncHandler.cs:114-121 | A change converts exactly when it has a range whose four coordinates fit in 32 bits. The edit then copies the text and the coordinates. A missing range raises NullRange, and a coordinate that does not fit raises Int32Overflow. |
| TextDocumentSync.ConvertChanges | src/OmniSharp.LanguageServerProtocol/Handlers/TextDocumentSyncHandler.cs:113-122 | The conversion succeeds exactly when every change converts. It then gives one edit per change, in order. On failure the error is the one raised by the first change that does not convert. |
| TextDocumentSync.UpdateForChange | src/OmniSharp.LanguageServerProtocol/Handlers/TextDocumentSyncHandler.cs:98-129 | A single change without a range gives a whole-buffer update with that text. Any other batch gives edits only, and it succeeds exactly when every change converts. On failure the error is the one raised by the first change that does not convert. |
| TextDocumentSync.RangelessFirstOfSeveralFails | src/OmniSharp.LanguageServerProtocol/Handlers/TextDocumentSyncHandler.cs:100-118 | Two or more changes whose first has no range fail with NullRange. They are not treated as a whole-buffer update. |
| TextDocumentSync.EmptyChangeForwardsNoEdits | src/OmniSharp.LanguageServerProtocol/Handlers/TextDocumentSyncHandler.cs:100-128 | A didChange with no changes forwards an update with an empty edit list. |
| TextDocumentSync.TextDocumentSyncHandler.HandleDidChange | src/OmniSharp.LanguageServerProtocol/Handlers/TextDocumentSyncHandler.cs:98-129 | On success, exactly one update-buffer call for the document's file is appended to the log. On failure, the error is reported and nothing is forwarded. |
| TextDocumentSync.TextDocumentSyncHandler.HandleDidOpen | src/OmniSharp.LanguageServerProtocol/Handlers/TextDocumentSyncHandler.cs:131-138 | With an open handler, one file-open call is appended, carrying the file name and the text. Without one, the log is unchanged. |
| TextDocumentSync.TextDocumentSyncHandler.HandleDidClose | src/OmniSharp.LanguageServerProtocol/Handlers/TextDocumentSyncHandler.cs:140-146 | With a close handler, one file-close call is appended. Without one, the log is unchanged. |
| TextDocumentSync.TextDocumentSyncHandler.HandleDidSave | src/OmniSharp.LanguageServerProtocol/Handlers/TextDocumentSyncHandler.cs:148-159 | Once the stored capability says didSave, one whole-buffer update with the saved text is appended. Otherwise the log is unchanged. |
| TextDocumentSync.TextDocumentSyncHandler.HandleWillSave | src/OmniSharp.LanguageServerProtocol/Handlers/TextDocumentSyncHandler.cs:161-168 | The log is unchanged whatever the capability says. |
| TextDocumentSync.TextDocumentSyncHandler.HandleWillSaveWaitUntil | src/OmniSharp.LanguageServerProtocol/Handlers/TextDocumentSyncHandler.cs:170-177 | The log is unchanged whatever the capability says. |
| TextDocumentSync.TextDocumentSyncHandler.SetCapability | src/OmniSharp.LanguageServerProtocol/Handlers/TextDocumentSyncHandler.cs:179-182 | The stored capability becomes the given one, replacing any earlier one. |
| TextDocumentSync.TextDocumentSyncHandler.GetChangeRegistrationOptions | src/OmniSharp.LanguageServerProtocol/Handlers/TextDocumentSyncHandler.cs:184-191 | The change registration carries the selector and the current sync kind. |
| TextDocumentSync.TextDocumentSyncHandler.GetRegistrationOptions | src/OmniSharp.LanguageServerProtocol/Handlers/TextDocumentSyncHandler.cs:193-199 | The open/close registration carries the selector. |
| TextDocumentSync.TextDocumentSyncHandler.GetSaveRegistrationOptions | src/OmniSharp.LanguageServerProtocol/Handlers/TextDocumentSyncHandler.cs:201-208 | The save registration carries the selector and asks for the text. |
| TextDocumentSync.Registrations | src/OmniSharp.LanguageServerProtocol/Handlers/TextDocumentSyncHandler.cs:76-208 | All three registrations of a new handler carry the selector it was built with. The change registration reports the sync kind given at construction. |
| TextDocumentSync.SaveTrafficAcrossNegotiation | src/OmniSharp.LanguageServerProtocol/Handlers/TextDocumentSyncHandler.cs:148-182 | Before a capability is set, didSave, willSave and willSaveWaitUntil forward nothing. After didSave support is declared, one didSave forwards exactly one update and willSave still forwards nothing. |
| TextDocumentSync.CapabilityIsOverwritten | src/OmniSharp.LanguageServerProtocol/Handlers/TextDocumentSyncHandler.cs:148-182 | When a capability with didSave is replaced by one without it, a later didSave forwards nothing. |
| TextDocumentSync.OpenCloseWithoutHandlers | src/OmniSharp.LanguageServerProtocol/Handlers/TextDocumentSyncHandler.cs:45-146 | Without open and close handlers, the sync kind is Full and didOpen and didClose forward nothing. |
| Highlighting.HighlightRequest.constructor | src/OmniSharp/Api/v1/Highlighting/OmnisharpController.Highlighting.cs:16 | The request holds the given file name, lines, project names, classifications and exclusions. |
| Highlighting.InProjects | src/OmniSharp/Api/v1/Highlighting/OmnisharpController.Highlighting.cs:21 | The result keeps exactly the documents whose project is named, as an order-preserving subsequence, each as many times as it occurs in the input. |
| Highlighting.SelectDocuments | src/OmniSharp/Api/v1/Highlighting/OmnisharpController.Highlighting.cs:18-22 | A missing or empty project list keeps every document. A non-empty list keeps, in order, exactly the documents of the named projects, each as many times as it occurs. |
| Highlighting.NormalisedClassifications | src/OmniSharp/Api/v1/Highlighting/OmnisharpController.Highlighting.cs:24-32 | An empty request list stays empty. Any other request list becomes every classification. That set loses exactly the excluded ones when the exclusion list is non-empty, and the result is then duplicate-free. |
| Highlighting.NormaliseClassifications | src/OmniSharp/Api/v1/Highlighting/OmnisharpController.Highlighting.cs:24-32 | The request's classifications are overwritten in place with the normalised set. |
| Highlighting.Rejects | src/OmniSharp/Api/v1/Highlighting/OmnisharpController.Highlighting.cs:91-102 | This is the predicate for one row of the filter table. The named filters reject only non-empty types. The filter of any other classification rejects only types with no upper-case letter, since it compares against a lower-cased name. Which types each filter rejects is stated by `NamedFilters`. |
| Highlighting.Kept | src/OmniSharp/Api/v1/Highlighting/OmnisharpController.Highlighting.cs:89-103 | The result keeps exactly the spans that pass every filter of the unrequested classifications, as an order-preserving subsequence. `KeptAppend` pins down how many copies are kept. |
| Highlighting.KeptAppend | src/OmniSharp/Api/v1/Highlighting/OmnisharpController.Highlighting.cs:89-103 | A single span is kept exactly when it passes. Filtering a concatenation is the concatenation of the filtered parts, so each passing span is kept once per occurrence and in its place. |
| Highlighting.KeptByNone | src/OmniSharp/Api/v1/Highlighting/OmnisharpController.Highlighting.cs:89-105 | With no unrequested classification, every span is kept. |
| Highlighting.KeptThenOne | src/OmniSharp/Api/v1/Highlighting/OmnisharpController.Highlighting.cs:89-103 | Applying one more `Where` to the kept spans is the same as filtering by the longer list. |
| Highlighting.FilterSpans | src/OmniSharp/Api/v1/Highlighting/OmnisharpController.Highlighting.cs:87-106 | The loop returns the spans kept by the classifications of the full set that were not requested. When every classification is requested, the input comes back unchanged. |
| Highlighting.NothingUnrequested | src/OmniSharp/Api/v1/Highlighting/OmnisharpController.Highlighting.cs:87-106 | When every classification of the full set is requested, no classification is left to filter by. |
| Highlighting.FilterSpansMeaning | src/OmniSharp/Api/v1/Highlighting/OmnisharpController.Highlighting.cs:87-106 | The output is a subsequence of the input and no unrequested classification rejects any output span. Conversely, every span that no unrequested classification rejects is in the output. |
| Highlighting.NamedFilters | src/OmniSharp/Api/v1/Highlighting/OmnisharpController.Highlighting.cs:91-102 | When the classification is not requested, no output span has a type that ends in " name", is "comment" or starts with "xml doc comment ", is "string" or starts with "string ", or is "preprocessor keyword" or "excluded code". Nor does it have the lower-cased name of any other unrequested classification. |
| Highlighting.LineSpans | src/OmniSharp/Api/v1/Highlighting/OmnisharpController.Highlighting.cs:51-57 | Lines beyond the line count are skipped. The result succeeds exactly when every line that is not skipped is at least 1. Every span comes from line `line-1` of some requested line. An error names the first requested line that is not skipped and is below 1. |
| Highlighting.LineSpansAppend | src/OmniSharp/Api/v1/Highlighting/OmnisharpController.Highlighting.cs:51-57 | One line gives its own spans, nothing when it is beyond the count, or its error. Two runs of lines give the first run's error, else the second's, else both runs' spans one after the other. So a line requested twice contributes twice, in request order. |
| Highlighting.LineSpansErrorPersists | src/OmniSharp/Api/v1/Highlighting/OmnisharpController.Highlighting.cs:51-57 | Once the lines up to some point throw, the whole list throws the same error. |
| Highlighting.LineSpansCoverLine | src/OmniSharp/Api/v1/Highlighting/OmnisharpController.Highlighting.cs:51-57 | Every span of a requested line within range is in the result. |
| Highlighting.ClassifyDocument | src/OmniSharp/Api/v1/Highlighting/OmnisharpController.Highlighting.cs:40-58 | The loops compute exactly `DocumentSpans`: the whole-text spans when no lines are requested, otherwise the spans of the requested lines. |
| Highlighting.DocumentSpans | src/OmniSharp/Api/v1/Highlighting/OmnisharpController.Highlighting.cs:40-58 | With no lines requested, the result is the whole-text spans. Otherwise it succeeds exactly when every requested line that is not beyond the count is at least 1. |
| Highlighting.DocumentSpansFromLines | src/OmniSharp/Api/v1/Highlighting/OmnisharpController.Highlighting.cs:51-57 | When lines are requested, each span a document contributes comes from one of the requested lines within its line count. |
| Highlighting.LineErrorIsShared | src/OmniSharp/Api/v1/Highlighting/OmnisharpController.Highlighting.cs:51-57 | A line error does not depend on the document. A requested line below 1 is never beyond a line count, so when one document throws, every document throws the same error. |
| Highlighting.ResultsOf | src/OmniSharp/Api/v1/Highlighting/OmnisharpController.Highlighting.cs:60-66 | There is one result per span, in order, carrying the span and the document's text and project. |
| Highlighting.Collected | src/OmniSharp/Api/v1/Highlighting/OmnisharpController.Highlighting.cs:36-67 | Collection succeeds exactly when every selected document's spans can be read. |
| Highlighting.CollectedFirstError | src/OmniSharp/Api/v1/Highlighting/OmnisharpController.Highlighting.cs:36-67 | A failed collection reports the error of the first document whose lines throw, with every document before it succeeding. That document is the first one. |
| Highlighting.CollectedPrefix | src/OmniSharp/Api/v1/Highlighting/OmnisharpController.Highlighting.cs:36-67 | The results of the first n documents are a prefix of the results of all of them. |
| Highlighting.CollectedErrorPersists | src/OmniSharp/Api/v1/Highlighting/OmnisharpController.Highlighting.cs:36-67 | Once a document throws, the whole request throws the same error. |
| Highlighting.CollectedMeaning | src/OmniSharp/Api/v1/Highlighting/OmnisharpController.Highlighting.cs:36-67 | Every collected result passes the span filter and carries the project and text of one of the selected documents. |
| Highlighting.CollectedComplete | src/OmniSharp/Api/v1/Highlighting/OmnisharpController.Highlighting.cs:36-67 | On success, every kept span of every selected document yields a result carrying that document's project and text. |
| Highlighting.CollectedHas | src/OmniSharp/Api/v1/Highlighting/OmnisharpController.Highlighting.cs:60-66 | A given kept span of a given selected document is among the results, with that document's project and text. |
| Highlighting.SpanKeys | src/OmniSharp/Api/v1/Highlighting/OmnisharpController.Highlighting.cs:72 | The group keys are duplicate-free and exactly the spans that some result has. They are in order of each key's first occurrence among the results. |
| Highlighting.FirstWithKey | src/OmniSharp/Api/v1/Highlighting/OmnisharpController.Highlighting.cs:73 | The result is the first result, by position, with the given span. |
| Highlighting.ProjectsWithKey | src/OmniSharp/Api/v1/Highlighting/OmnisharpController.Highlighting.cs:73 | The projects listed are exactly those of the results with the given span. The list is non-empty when such a result exists. `ProjectsWithKeyAppend` fixes order and repetitions. |
| Highlighting.ProjectsWithKeyAppend | src/OmniSharp/Api/v1/Highlighting/OmnisharpController.Highlighting.cs:73 | A single result contributes its project exactly when its span matches. Concatenated results contribute in order, so every contributing project is listed once per result, in result order. |
| Highlighting.GroupBySpan | src/OmniSharp/Api/v1/Highlighting/OmnisharpController.Highlighting.cs:69-75 | There is one highlight per distinct span key, in order of first occurrence. Each has the first result's span and text and the projects of all results with that key. |
| Highlighting.GroupBySpanIsOnePerKey | src/OmniSharp/Api/v1/Highlighting/OmnisharpController.Highlighting.cs:71-74 | No two highlights share a span, and a span is highlighted exactly when some result has it. The highlights are in order of each span's first occurrence among the results. |
| Highlighting.EveryResultIsHighlighted | src/OmniSharp/Api/v1/Highlighting/OmnisharpController.Highlighting.cs:71-74 | Each result's project is listed in the highlight of its span. |
| Highlighting.GroupedHighlight | src/OmniSharp/Api/v1/Highlighting/OmnisharpController.Highlighting.cs:60-75 | For results that all pass the filter and come from the documents, any one highlight passes the filter and names at least one project, each of one of the documents. |
| Highlighting.GroupedMeaning | src/OmniSharp/Api/v1/Highlighting/OmnisharpController.Highlighting.cs:60-75 | Every highlight of the collected results shows a span that passed the filter. It names at least one project, and each of them belongs to a selected document. |
| Highlighting.HighlightResponse | src/OmniSharp/Api/v1/Highlighting/OmnisharpController.Highlighting.cs:36-75 | The response succeeds exactly when every selected document's spans can be read, and otherwise gives the first document's error. On success no highlight's type is rejected by an unrequested classification of the full set. Each highlight names at least one project, all of selected documents. |
| Highlighting.CollectResults | src/OmniSharp/Api/v1/Highlighting/OmnisharpController.Highlighting.cs:34-67 | The loop over the documents computes exactly `Collected` for the filter of the unrequested classifications. |
| Highlighting.Highlight | src/OmniSharp/Api/v1/Highlighting/OmnisharpController.Highlighting.cs:16-76 | The request's classifications are normalised in place. The response is the grouped, filtered spans of the selected documents, or the first line error. |
| TypeScriptGeneration.InferNamespace | src/OmniSharp.TypeScriptGeneration/OmnisharpControllerExtractor.cs:92-96 | The namespace always ends in ".". |
| TypeScriptGeneration.LastSegment | src/OmniSharp.TypeScriptGeneration/OmnisharpControllerExtractor.cs:94 | The simple name contains no dot. |
| TypeScriptGeneration.InferNamespaceThenLastSegment | src/OmniSharp.TypeScriptGeneration/OmnisharpControllerExtractor.cs:92-96 | A dotted name is its namespace followed by its simple name. An undotted name has namespace ".". |
| TypeScriptGeneration.ReturnString | src/OmniSharp.TypeScriptGeneration/OmnisharpControllerExtractor.cs:70-79 | `Boolean` gives "boolean". A type whose full name starts with the namespace of `Request` gives its full name. Everything else gives "any". |
| TypeScriptGeneration.PromisedType | src/OmniSharp.TypeScriptGeneration/OmnisharpControllerExtractor.cs:25-27 | The promised type starts with the return type. It is longer exactly when the method returns an array, and then it is the return type followed by "[]" (two characters longer, ending in "[]"). |
| TypeScriptGeneration.InterfaceMethod | src/OmniSharp.TypeScriptGeneration/OmnisharpControllerExtractor.cs:25-35 | The line starts with the action. With a request type it ends with the request's full name, the promised type and ";". Without one it is exactly the action and the promise, with no ";". |
| TypeScriptGeneration.InterfaceMethods | src/OmniSharp.TypeScriptGeneration/OmnisharpControllerExtractor.cs:21-37 | There is exactly one line per method, in order. |
| TypeScriptGeneration.InterfaceMethodParses | src/OmniSharp.TypeScriptGeneration/OmnisharpControllerExtractor.cs:25-35 | The lemma requires that the action has no `"` and that the request type's full name, when there is one, has no `)`. Under those conditions, parsing a signature line gives back the action, the request type's name when there is one, and the return type, with "[]" exactly when the method returns an array. |
| TypeScriptGeneration.Wrapped | src/OmniSharp.TypeScriptGeneration/OmnisharpControllerExtractor.cs:16-18 | The wrapped text starts with the header and ends with a newline followed by the footer. |
| TypeScriptGeneration.GetInterface | src/OmniSharp.TypeScriptGeneration/OmnisharpControllerExtractor.cs:14-19 | The text starts with the module and interface header and ends with a newline and the closing braces. |
| TypeScriptGeneration.GetInterfaceLayout | src/OmniSharp.TypeScriptGeneration/OmnisharpControllerExtractor.cs:14-19 | The body holds the methods' lines, each indented by eight spaces, one per line. With no methods the body is a lone indented empty line. |
| TsFluentFormatters.FormatPropertyType | src/OmniSharp.TypeScriptGeneration/TsFluentFormatters.cs:12-30 | A string dictionary maps to `{ [key: string]: string }`, a Guid to "string" and a Stream to "any". Any other type keeps its member type name. |
| TsFluentFormatters.IsOptionalIn | src/OmniSharp.TypeScriptGeneration/TsFluentFormatters.cs:42-44 | A type whose members are optional has a name strictly longer than `Request`: it contains "Request" and is not "Request" itself. |
| TsFluentFormatters.FormatPropertyName | src/OmniSharp.TypeScriptGeneration/TsFluentFormatters.cs:32-50 | `ArgumentsStream` becomes "Arguments". Members of a type other than `Request` whose name contains "Request" and not "Packet" get a "?". Every other name is kept. |
| TsFluentFormatters.FormattedNameRecoversName | src/OmniSharp.TypeScriptGeneration/TsFluentFormatters.cs:40-49 | Apart from `ArgumentsStream`, the name is the result, or the result without its final "?". |
| TsFluentFormatters.RequestMemberIsOptional | src/OmniSharp.TypeScriptGeneration/TsFluentFormatters.cs:42-46 | A member of `FindUsagesRequest` is optional. |
| TsFluentFormatters.RequestBaseMemberIsRequired | src/OmniSharp.TypeScriptGeneration/TsFluentFormatters.cs:42-49 | A member of `Request` itself is not optional. |
| TsFluentFormatters.PacketMemberIsRequired | src/OmniSharp.TypeScriptGeneration/TsFluentFormatters.cs:42-49 | A member of `RequestPacket` is not optional. |

## Left out

- `Enumerate`: its discovery of the handler triples over the dependency-injection container and its logging are not modelled. Only the sync-kind rule and the construction are modelled (`SyncKindFor`, `CreateHandler`).
- The update-buffer handler is taken to be always present. The code dereferences it without a null check, and the model does not represent its absence.
- `Helpers.FromUri` is a function the handler is given (`fromUri`). URI parsing is not modelled.
- `GetTextDocumentAttributes` is not modelled. It reads the workspace and returns the same attributes on both branches.
- Tasks, cancellation tokens and the backend handlers' own work are not modelled. A forwarded call is recorded in the handler's log, and its result is not modelled.
- HandleDidChange: the exceptions that the expression raises are returned as a `ChangeError` instead of being thrown.
- The Roslyn classifier, `GetTextAsync` and the line table are not modelled. A document carries the spans the classifier reports for its whole text and for each line. `HighlightSpan.FromClassifiedSpan`'s conversion of offsets into lines and columns is not modelled, so a highlight keeps the span and the document text.
- The workspace lookup `GetDocuments(request.FileName)` is a parameter of `Highlight` (`workspaceDocuments`).
- The enum `HighlightClassification` is not part of this model. Its values are a parameter `all`, and the filter for each value follows the code.
- Grouping compares span keys by value. This agrees with grouping by `TextSpan.ToString()` because `ToString` determines a span's start and length.
- Culture-sensitive string operations are modelled as ordinal comparisons with ASCII lower-casing. These are `EndsWith` and `StartsWith` in the span filter, and `ToLower`. `Contains` in the name formatter is ordinal in the code as well.
- The reflection over the controller (`GetControllerMethods`) is not modelled. This covers the HTTP attribute, the parameter type, and the unwrapping of `Task` and `IEnumerable` return types. The model starts from the method records and from the return type after unwrapping.
- FormatPropertyType: the reflection lookup of the property's declared type is a tag (`PropertyType`) on the property.
- The `Unboxed.MoveToFile` refactoring provider and `UncheckedKeywordRecommender` are not part of this model. They are thin wrappers around compiler services.

/** The Language Server Protocol text-synchronisation handler: it turns the
    editor's didOpen, didChange, didClose, didSave, willSave and
    willSaveWaitUntil notifications into at most one request to a backend
    handler, and builds the three registration payloads.

    The backend handlers are collaborators outside the model: every call the
    handler makes to one of them is appended to `log`, so each operation can
    say exactly which calls it makes and with what payload. */
module TextDocumentSync {
  import opened Wrappers

  datatype TextDocumentSyncKind = Full | Incremental

  type Uri = string

  datatype Position = Position(line: int, character: int)
  datatype Range = Range(start: Position, end: Position)

  /** One entry of a didChange notification; a missing range means the text
      replaces the whole document. */
  datatype ContentChange = ContentChange(range: Option<Range>, text: string)

  datatype DocumentFilter = DocumentFilter(language: Option<string>, scheme: Option<string>, pattern: Option<string>)
  type DocumentSelector = seq<DocumentFilter>

  // The requests forwarded to the backend.
  datatype LinePositionSpanTextChange =
    LinePositionSpanTextChange(newText: string, startLine: int, startColumn: int, endLine: int, endColumn: int)
  datatype UpdateBufferRequest =
    UpdateBufferRequest(fileName: string, buffer: Option<string>, changes: Option<seq<LinePositionSpanTextChange>>)
  datatype FileOpenRequest = FileOpenRequest(fileName: string, buffer: string)
  datatype FileCloseRequest = FileCloseRequest(fileName: string)

  /** A call made to one of the three backend handlers. */
  datatype ForwardedCall =
    | UpdateBuffer(update: UpdateBufferRequest)
    | FileOpen(open: FileOpenRequest)
    | FileClose(close: FileCloseRequest)

  // The notifications received from the editor.
  datatype DidOpenParams = DidOpenParams(uri: Uri, text: string)
  datatype DidChangeParams = DidChangeParams(uri: Uri, contentChanges: seq<ContentChange>)
  datatype DidCloseParams = DidCloseParams(uri: Uri)
  datatype DidSaveParams = DidSaveParams(uri: Uri, text: Option<string>)
  datatype TextDocumentSaveReason = Manual | AfterDelay | FocusOut
  datatype WillSaveParams = WillSaveParams(uri: Uri, reason: TextDocumentSaveReason)

  /** What the client declared it supports; set after construction. */
  datatype SynchronizationCapability = SynchronizationCapability(willSave: bool, willSaveWaitUntil: bool, didSave: bool)

  datatype SaveOptions = SaveOptions(includeText: bool)
  datatype TextDocumentSyncOptions =
    TextDocumentSyncOptions(change: TextDocumentSyncKind, openClose: bool, willSave: bool, willSaveWaitUntil: bool, save: SaveOptions)

  // The three registration payloads.
  datatype TextDocumentChangeRegistrationOptions =
    TextDocumentChangeRegistrationOptions(documentSelector: DocumentSelector, syncKind: TextDocumentSyncKind)
  datatype TextDocumentRegistrationOptions = TextDocumentRegistrationOptions(documentSelector: DocumentSelector)
  datatype TextDocumentSaveRegistrationOptions =
    TextDocumentSaveRegistrationOptions(documentSelector: DocumentSelector, includeText: bool)

  /** The exceptions the change translation can raise: a range-less change on
      the incremental path is dereferenced (NullReferenceException), and
      `Convert.ToInt32` rejects a coordinate outside 32 bits (OverflowException). */
  datatype ChangeError = NullRange | Int32Overflow

  const Int32Min: int := -0x8000_0000
  const Int32Max: int := 0x7fff_ffff

  predicate FitsInt32(x: int)
  {
    Int32Min <= x <= Int32Max
  }

  /** The options object as initialised, before the constructor overwrites its `Change`. */
  const InitialOptions := TextDocumentSyncOptions(Incremental, true, true, true, SaveOptions(true))

  /** The sync kind chosen from the backend handlers that exist: incremental
      edits need both an open and a close handler. */
  function SyncKindFor(hasOpenHandler: bool, hasCloseHandler: bool): (kind: TextDocumentSyncKind)
    ensures kind == Incremental <==> hasOpenHandler && hasCloseHandler
    ensures !hasOpenHandler || !hasCloseHandler ==> kind == Full
  {
    if !hasOpenHandler || !hasCloseHandler then Full else Incremental
  }

  /** A change on the incremental path converts when it has a range whose four
      coordinates fit in 32 bits. */
  predicate Convertible(c: ContentChange)
  {
    && c.range.Some?
    && FitsInt32(c.range.value.start.line) && FitsInt32(c.range.value.start.character)
    && FitsInt32(c.range.value.end.line) && FitsInt32(c.range.value.end.character)
  }

  /** `t` carries the text and the four coordinates of `c`. */
  predicate Copies(t: LinePositionSpanTextChange, c: ContentChange)
  {
    && c.range.Some?
    && t.newText == c.text
    && t.startLine == c.range.value.start.line && t.startColumn == c.range.value.start.character
    && t.endLine == c.range.value.end.line && t.endColumn == c.range.value.end.character
  }

  /** The projection of one change into a canonical edit. */
  function ConvertChange(c: ContentChange): (r: Result<LinePositionSpanTextChange, ChangeError>)
    ensures r.Ok? <==> Convertible(c)
    ensures r.Ok? ==> Copies(r.value, c)
    ensures c.range.None? ==> r == Err(NullRange)
    ensures c.range.Some? && !Convertible(c) ==> r == Err(Int32Overflow)
  {
    match c.range
    case None => Err(NullRange)
    case Some(rg) =>
      if FitsInt32(rg.start.character) && FitsInt32(rg.start.line)
         && FitsInt32(rg.end.character) && FitsInt32(rg.end.line)
      then Ok(LinePositionSpanTextChange(c.text, rg.start.line, rg.start.character, rg.end.line, rg.end.character))
      else Err(Int32Overflow)
  }

  /** The `Select(...).ToArray()` over the changes: one edit per change, in
      order; the first change that does not convert raises its error. */
  function ConvertChanges(cs: seq<ContentChange>): (r: Result<seq<LinePositionSpanTextChange>, ChangeError>)
    ensures r.Ok? <==> forall i :: 0 <= i < |cs| ==> Convertible(cs[i])
    ensures r.Ok? ==> |r.value| == |cs| && forall i :: 0 <= i < |cs| ==> Copies(r.value[i], cs[i])
    ensures r.Err? ==> exists i :: 0 <= i < |cs| && !Convertible(cs[i]) && ConvertChange(cs[i]) == Err(r.error)
                                   && forall j :: 0 <= j < i ==> Convertible(cs[j])
  {
    if cs == [] then Ok([])
    else
      match ConvertChange(cs[0])
      case Err(e) => Err(e)
      case Ok(t) =>
        match ConvertChanges(cs[1..])
        case Err(e) =>
          ghost var i :| 0 <= i < |cs[1..]| && !Convertible(cs[1..][i]) && ConvertChange(cs[1..][i]) == Err(e)
                         && forall j :: 0 <= j < i ==> Convertible(cs[1..][j]);
          assert ConvertChange(cs[i + 1]) == Err(e);
          assert forall j :: 0 <= j < i + 1 ==> Convertible(cs[j]) by {
            forall j | 0 <= j < i + 1 ensures Convertible(cs[j]) {
              if j > 0 { assert cs[j] == cs[1..][j - 1]; }
            }
          }
          Err(e)
        case Ok(ts) =>
          assert forall i :: 0 <= i < |cs| ==> Convertible(cs[i]) by {
            forall i | 0 <= i < |cs| ensures Convertible(cs[i]) {
              if i > 0 { assert cs[i] == cs[1..][i - 1]; }
            }
          }
          Ok([t] + ts)
  }

  /** A didChange whose only change has no range replaces the whole buffer. */
  predicate IsWholeBufferChange(cs: seq<ContentChange>)
  {
    |cs| == 1 && cs[0].range.None?
  }

  /** The request a didChange forwards to the update-buffer handler; it does
      not depend on the sync kind. */
  function UpdateForChange(fileName: string, cs: seq<ContentChange>): (r: Result<UpdateBufferRequest, ChangeError>)
    ensures IsWholeBufferChange(cs) ==> r == Ok(UpdateBufferRequest(fileName, Some(cs[0].text), None))
    ensures !IsWholeBufferChange(cs) ==> (r.Ok? <==> forall i :: 0 <= i < |cs| ==> Convertible(cs[i]))
    ensures !IsWholeBufferChange(cs) && r.Ok? ==>
              && r.value.fileName == fileName && r.value.buffer.None? && r.value.changes.Some?
              && |r.value.changes.value| == |cs|
              && forall i :: 0 <= i < |cs| ==> Copies(r.value.changes.value[i], cs[i])
    ensures r.Err? ==> exists i :: 0 <= i < |cs| && !Convertible(cs[i]) && ConvertChange(cs[i]) == Err(r.error)
                                   && forall j :: 0 <= j < i ==> Convertible(cs[j])
  {
    if IsWholeBufferChange(cs) then
      Ok(UpdateBufferRequest(fileName, Some(cs[0].text), None))
    else
      match ConvertChanges(cs)
      case Ok(changes) => Ok(UpdateBufferRequest(fileName, None, Some(changes)))
      case Err(e) => Err(e)
  }

  /** A batch of several changes whose first has no range is not treated as a
      whole-buffer replacement: it fails on that first change. */
  lemma RangelessFirstOfSeveralFails(fileName: string, cs: seq<ContentChange>)
    requires |cs| > 1 && cs[0].range.None?
    ensures UpdateForChange(fileName, cs) == Err(NullRange)
  {
    assert !Convertible(cs[0]);
  }

  /** An empty didChange forwards an update with an empty list of edits. */
  lemma EmptyChangeForwardsNoEdits(fileName: string)
    ensures UpdateForChange(fileName, []) == Ok(UpdateBufferRequest(fileName, None, Some([])))
  {
  }

  class TextDocumentSyncHandler {
    const hasOpenHandler: bool
    const hasCloseHandler: bool
    const documentSelector: DocumentSelector
    /** `Helpers.FromUri`: the file name a document URI stands for. */
    const fromUri: Uri -> string
    var options: TextDocumentSyncOptions
    var capability: Option<SynchronizationCapability>
    /** The calls forwarded to the backend handlers, oldest first. */
    var log: seq<ForwardedCall>

    constructor (hasOpenHandler: bool, hasCloseHandler: bool, documentSelector: DocumentSelector,
                 documentSyncKind: TextDocumentSyncKind, fromUri: Uri -> string)
      ensures this.hasOpenHandler == hasOpenHandler && this.hasCloseHandler == hasCloseHandler
      ensures this.documentSelector == documentSelector && this.fromUri == fromUri
      ensures options == InitialOptions.(change := documentSyncKind)
      ensures options.change == documentSyncKind
      ensures capability == None
      ensures log == []
    {
      this.hasOpenHandler := hasOpenHandler;
      this.hasCloseHandler := hasCloseHandler;
      this.documentSelector := documentSelector;
      this.fromUri := fromUri;
      options := InitialOptions;
      capability := None;
      log := [];
      new;
      options := options.(change := documentSyncKind);
    }

    /** didChange: one update-buffer call, or the exception the translation raises. */
    method HandleDidChange(notification: DidChangeParams) returns (failure: Option<ChangeError>)
      modifies this`log
      ensures UpdateForChange(fromUri(notification.uri), notification.contentChanges).Ok? ==>
                failure == None &&
                log == old(log) + [UpdateBuffer(UpdateForChange(fromUri(notification.uri), notification.contentChanges).value)]
      ensures UpdateForChange(fromUri(notification.uri), notification.contentChanges).Err? ==>
                failure == Some(UpdateForChange(fromUri(notification.uri), notification.contentChanges).error) &&
                log == old(log)
    {
      var changes := notification.contentChanges;
      if |changes| == 1 && changes[0].range.None? {
        log := log + [UpdateBuffer(UpdateBufferRequest(fromUri(notification.uri), Some(changes[0].text), None))];
        return None;
      }
      var converted := ConvertChanges(changes);
      match converted
      case Err(e) =>
        failure := Some(e);
      case Ok(edits) =>
        log := log + [UpdateBuffer(UpdateBufferRequest(fromUri(notification.uri), None, Some(edits)))];
        failure := None;
    }

    /** didOpen: a file-open call when an open handler exists, nothing otherwise. */
    method HandleDidOpen(notification: DidOpenParams)
      modifies this`log
      ensures hasOpenHandler ==>
                log == old(log) + [FileOpen(FileOpenRequest(fromUri(notification.uri), notification.text))]
      ensures !hasOpenHandler ==> log == old(log)
    {
      if hasOpenHandler {
        log := log + [FileOpen(FileOpenRequest(fromUri(notification.uri), notification.text))];
      }
    }

    /** didClose: a file-close call when a close handler exists, nothing otherwise. */
    method HandleDidClose(notification: DidCloseParams)
      modifies this`log
      ensures hasCloseHandler ==> log == old(log) + [FileClose(FileCloseRequest(fromUri(notification.uri)))]
      ensures !hasCloseHandler ==> log == old(log)
    {
      if hasCloseHandler {
        log := log + [FileClose(FileCloseRequest(fromUri(notification.uri)))];
      }
    }

    /** didSave: a whole-buffer update with the saved text, only once the
        client has declared that it sends didSave. */
    method HandleDidSave(notification: DidSaveParams)
      modifies this`log
      ensures capability.Some? && capability.value.didSave ==>
                log == old(log) + [UpdateBuffer(UpdateBufferRequest(fromUri(notification.uri), notification.text, None))]
      ensures !(capability.Some? && capability.value.didSave) ==> log == old(log)
    {
      if capability.Some? && capability.value.didSave {
        log := log + [UpdateBuffer(UpdateBufferRequest(fromUri(notification.uri), notification.text, None))];
      }
    }

    /** willSave: checks the capability and forwards nothing either way. */
    method HandleWillSave(notification: WillSaveParams)
      ensures log == old(log)
    {
      if capability.Some? && capability.value.willSave {
      }
    }

    /** willSaveWaitUntil: checks the capability and forwards nothing either way. */
    method HandleWillSaveWaitUntil(request: WillSaveParams)
      ensures log == old(log)
    {
      if capability.Some? && capability.value.willSaveWaitUntil {
      }
    }

    /** Replaces the stored capability, whatever was stored before. */
    method SetCapability(capability: Option<SynchronizationCapability>)
      modifies this`capability
      ensures this.capability == capability
    {
      this.capability := capability;
    }

    function GetChangeRegistrationOptions(): (r: TextDocumentChangeRegistrationOptions)
      reads this
      ensures r.documentSelector == documentSelector && r.syncKind == options.change
    {
      TextDocumentChangeRegistrationOptions(documentSelector, options.change)
    }

    function GetRegistrationOptions(): (r: TextDocumentRegistrationOptions)
      ensures r.documentSelector == documentSelector
    {
      TextDocumentRegistrationOptions(documentSelector)
    }

    function GetSaveRegistrationOptions(): (r: TextDocumentSaveRegistrationOptions)
      ensures r.documentSelector == documentSelector && r.includeText
    {
      TextDocumentSaveRegistrationOptions(documentSelector, true)
    }
  }

  /** One handler per selector, with the sync kind its backend handlers allow. */
  method CreateHandler(hasOpenHandler: bool, hasCloseHandler: bool, documentSelector: DocumentSelector,
                       fromUri: Uri -> string) returns (h: TextDocumentSyncHandler)
    ensures fresh(h)
    ensures h.hasOpenHandler == hasOpenHandler && h.hasCloseHandler == hasCloseHandler
    ensures h.documentSelector == documentSelector && h.fromUri == fromUri
    ensures h.options.change == SyncKindFor(hasOpenHandler, hasCloseHandler)
    ensures h.capability == None && h.log == []
  {
    var kind := SyncKindFor(hasOpenHandler, hasCloseHandler);
    h := new TextDocumentSyncHandler(hasOpenHandler, hasCloseHandler, documentSelector, kind, fromUri);
  }

  /** All three registrations carry the selector given at construction, and
      the change registration reports the sync kind given there. */
  method Registrations(documentSelector: DocumentSelector, kind: TextDocumentSyncKind, fromUri: Uri -> string)
    returns (change: TextDocumentChangeRegistrationOptions, openClose: TextDocumentRegistrationOptions,
             save: TextDocumentSaveRegistrationOptions)
    ensures change == TextDocumentChangeRegistrationOptions(documentSelector, kind)
    ensures openClose == TextDocumentRegistrationOptions(documentSelector)
    ensures save == TextDocumentSaveRegistrationOptions(documentSelector, true)
  {
    var h := new TextDocumentSyncHandler(true, true, documentSelector, kind, fromUri);
    change := h.GetChangeRegistrationOptions();
    openClose := h.GetRegistrationOptions();
    save := h.GetSaveRegistrationOptions();
  }

  /** Save traffic before and after the client declares didSave support: no
      call before; after, one update per didSave and none per willSave. */
  method SaveTrafficAcrossNegotiation(fromUri: Uri -> string, uri: Uri, text: string)
    returns (before: seq<ForwardedCall>, after: seq<ForwardedCall>)
    ensures before == []
    ensures after == [UpdateBuffer(UpdateBufferRequest(fromUri(uri), Some(text), None))]
  {
    var h := new TextDocumentSyncHandler(true, true, [], Incremental, fromUri);
    h.HandleDidSave(DidSaveParams(uri, Some(text)));
    h.HandleWillSave(WillSaveParams(uri, Manual));
    h.HandleWillSaveWaitUntil(WillSaveParams(uri, Manual));
    before := h.log;
    h.SetCapability(Some(SynchronizationCapability(false, false, true)));
    h.HandleDidSave(DidSaveParams(uri, Some(text)));
    h.HandleWillSave(WillSaveParams(uri, Manual));
    after := h.log;
  }

  /** A later SetCapability overrides an earlier one: after switching didSave
      off again, a didSave is dropped. */
  method CapabilityIsOverwritten(fromUri: Uri -> string, uri: Uri, text: string) returns (calls: seq<ForwardedCall>)
    ensures calls == []
  {
    var h := new TextDocumentSyncHandler(true, true, [], Full, fromUri);
    h.SetCapability(Some(SynchronizationCapability(true, true, true)));
    h.SetCapability(Some(SynchronizationCapability(true, true, false)));
    h.HandleDidSave(DidSaveParams(uri, Some(text)));
    calls := h.log;
  }

  /** With no open or close handler, didOpen and didClose make no call and the
      sync kind is Full. */
  method OpenCloseWithoutHandlers(fromUri: Uri -> string, uri: Uri, text: string)
    returns (kind: TextDocumentSyncKind, calls: seq<ForwardedCall>)
    ensures kind == Full && calls == []
  {
    var h := CreateHandler(false, false, [], fromUri);
    h.HandleDidOpen(DidOpenParams(uri, text));
    h.HandleDidClose(DidCloseParams(uri));
    kind := h.GetChangeRegistrationOptions().syncKind;
    calls := h.log;
  }
}

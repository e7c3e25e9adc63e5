/** The TypeScript declaration of the controller's API: one method
    signature per HTTP endpoint, wrapped in a `declare module OmniSharp`
    block. Reflection over the controller is outside the model: each
    endpoint arrives as a `MethodResult`, and a CLR type as its full name. */
module TypeScriptGeneration {
  import opened Wrappers
  import opened Strings

  datatype ClrType = ClrType(fullName: string)

  /** `typeof(Boolean)`. */
  const BooleanType := ClrType("System.Boolean")

  datatype MethodResult = MethodResult(action: string, requestType: Option<ClrType>, returnType: string, returnsArray: bool)

  //---------------------------------------------------------------------------
  // Namespaces
  //---------------------------------------------------------------------------

  /** Everything of a full type name up to and including its last dot; "."
      when it has no dot. */
  function InferNamespace(fullName: string): (ns: string)
    ensures EndsWith(ns, ".")
  {
    var pieces := Split(fullName, '.');
    Join(pieces[..|pieces| - 1], ".") + "."
  }

  /** The simple name: the text after the last dot. */
  function LastSegment(fullName: string): (segment: string)
    ensures '.' !in segment
  {
    var pieces := Split(fullName, '.');
    pieces[|pieces| - 1]
  }

  /** A dotted name is its namespace followed by its simple name. */
  lemma InferNamespaceThenLastSegment(fullName: string)
    ensures '.' in fullName ==> InferNamespace(fullName) + LastSegment(fullName) == fullName
    ensures '.' !in fullName ==> InferNamespace(fullName) == "."
  {
    JoinSplit(fullName, '.');
  }

  //---------------------------------------------------------------------------
  // Return types
  //---------------------------------------------------------------------------

  /** The TypeScript name of an endpoint's return type: "boolean" for
      `Boolean`, the full name for a type in the namespace of `Request`,
      "any" for everything else; `requestBase` is the `Request` model type
      whose namespace is inferred. */
  function ReturnString(returnType: Option<ClrType>, requestBase: ClrType): (s: string)
    ensures returnType == Some(BooleanType) ==> s == "boolean"
    ensures (returnType != Some(BooleanType) && returnType.Some?
             && StartsWith(returnType.value.fullName, InferNamespace(requestBase.fullName))) ==> s == returnType.value.fullName
    ensures (returnType != Some(BooleanType)
             && !(returnType.Some? && StartsWith(returnType.value.fullName, InferNamespace(requestBase.fullName)))) ==> s == "any"
    ensures s == "boolean" || s == "any" || (returnType.Some? && s == returnType.value.fullName)
  {
    var s := if returnType.Some? && StartsWith(returnType.value.fullName, InferNamespace(requestBase.fullName))
             then returnType.value.fullName else "any";
    if returnType == Some(BooleanType) then "boolean" else s
  }

  //---------------------------------------------------------------------------
  // Method signatures
  //---------------------------------------------------------------------------

  /** The type inside `Promise<...>`: the return type, with "[]" when the endpoint returns a sequence. */
  function PromisedType(m: MethodResult): (promised: string)
    ensures StartsWith(promised, m.returnType)
    ensures m.returnsArray <==> |promised| > |m.returnType|
    ensures m.returnsArray ==> EndsWith(promised, "[]") && |promised| == |m.returnType| + 2
  {
    if m.returnsArray then
      PrefixOfConcat(m.returnType, "[]");
      SuffixOfConcat(m.returnType, "[]");
      m.returnType + "[]"
    else m.returnType
  }

  /** A signature line without a request parameter. */
  function PlainSignature(action: string, promised: string): (line: string)
    ensures StartsWith(line, "(action: \"" + action + "\"")
    ensures line == "(action: \"" + action + "\"" + "): Promise<" + promised + ">"
    ensures line[|line| - 1] == '>'
  {
    var head, tail := "(action: \"" + action + "\"", "): Promise<" + promised + ">";
    PrefixOfConcat(head, tail);
    head + tail
  }

  /** A signature line with a request parameter. */
  function RequestSignature(action: string, request: string, promised: string): (line: string)
    ensures StartsWith(line, "(action: \"" + action + "\"")
    ensures EndsWith(line, ", request: " + request + "): Promise<" + promised + ">;")
    ensures line[|line| - 1] == ';'
  {
    var head, tail := "(action: \"" + action + "\"", ", request: " + request + "): Promise<" + promised + ">;";
    PrefixOfConcat(head, tail);
    SuffixOfConcat(head, tail);
    head + tail
  }

  /** The signature of one endpoint. */
  function InterfaceMethod(m: MethodResult): (line: string)
    ensures StartsWith(line, "(action: \"" + m.action + "\"")
    ensures m.requestType.Some? ==> EndsWith(line, ", request: " + m.requestType.value.fullName + "): Promise<" + PromisedType(m) + ">;")
    ensures m.requestType.None? ==> line == "(action: \"" + m.action + "\"" + "): Promise<" + PromisedType(m) + ">"
    ensures line[|line| - 1] == ';' <==> m.requestType.Some?
  {
    match m.requestType
    case Some(t) => RequestSignature(m.action, t.fullName, PromisedType(m))
    case None => PlainSignature(m.action, PromisedType(m))
  }

  /** `GetInterfaceMethods`: one signature per endpoint, in order. */
  function InterfaceMethods(methods: seq<MethodResult>): (lines: seq<string>)
    ensures |lines| == |methods|
    ensures forall i :: 0 <= i < |methods| ==> lines[i] == InterfaceMethod(methods[i])
  {
    if methods == [] then [] else [InterfaceMethod(methods[0])] + InterfaceMethods(methods[1..])
  }

  //---------------------------------------------------------------------------
  // Reading a signature back
  //---------------------------------------------------------------------------

  /** The text before and after the first occurrence of `c`. */
  function SplitAtFirst(s: string, c: char): (r: Option<(string, string)>)
    ensures r.Some? ==> c !in r.value.0 && s == r.value.0 + [c] + r.value.1
    ensures r.None? <==> c !in s
  {
    if s == [] then None
    else if s[0] == c then Some(([], s[1..]))
    else match SplitAtFirst(s[1..], c)
         case None => None
         case Some((before, after)) => Some(([s[0]] + before, after))
  }

  lemma {:induction false} SplitAtFirstOf(a: string, c: char, b: string)
    requires c !in a
    ensures SplitAtFirst(a + [c] + b, c) == Some((a, b))
  {
    if a != [] {
      assert (a + [c] + b)[1..] == a[1..] + [c] + b;
      SplitAtFirstOf(a[1..], c, b);
      assert [a[0]] + a[1..] == a;
    } else {
      assert (a + [c] + b)[1..] == b;
    }
  }

  const ActionOpen := "(action: \""
  const RequestOpen := ", request: "
  const PromiseOpen := ": Promise<"

  /** The promised type at the end of `text`, which must be `: Promise<`,
      the type, and then `close`. */
  function ParsePromise(text: string, close: string): Option<string>
  {
    match StripPrefix(text, PromiseOpen)
    case None => None
    case Some(promise) => StripSuffix(promise, close)
  }

  /** What follows the action's closing quote: the request type (if any)
      and the promised type. */
  function ParseParameters(rest: string): Option<(Option<string>, string)>
  {
    if rest != [] && rest[0] == ')' then
      match ParsePromise(rest[1..], ">")
      case None => None
      case Some(promised) => Some((None, promised))
    else
      match StripPrefix(rest, RequestOpen)
      case None => None
      case Some(afterRequest) =>
        match SplitAtFirst(afterRequest, ')')
        case None => None
        case Some((request, tail)) =>
          match ParsePromise(tail, ">;")
          case None => None
          case Some(promised) => Some((Some(request), promised))
  }

  /** The parts of a signature line: the action, the request type (if any) and
      the promised type, or None when the line is not a signature. */
  function ParseInterfaceMethod(line: string): Option<(string, Option<string>, string)>
  {
    match StripPrefix(line, ActionOpen)
    case None => None
    case Some(afterOpen) =>
      match SplitAtFirst(afterOpen, '"')
      case None => None
      case Some((action, rest)) =>
        match ParseParameters(rest)
        case None => None
        case Some((request, promised)) => Some((action, request, promised))
  }

  lemma ParseActionOf(action: string, rest: string)
    requires '"' !in action
    ensures ParseInterfaceMethod(ActionOpen + (action + ['"'] + rest)) ==
              match ParseParameters(rest)
              case None => None
              case Some((request, promised)) => Some((action, request, promised))
  {
    StripPrefixOfConcat(ActionOpen, action + ['"'] + rest);
    SplitAtFirstOf(action, '"', rest);
  }

  lemma ParsePromiseOf(promised: string, close: string)
    ensures ParsePromise(PromiseOpen + (promised + close), close) == Some(promised)
  {
    StripPrefixOfConcat(PromiseOpen, promised + close);
    StripSuffixOfConcat(promised, close);
  }

  /** Five strings concatenated, grouped from the right. */
  lemma Regroup(a: string, b: string, c: string, d: string, e: string)
    ensures a + b + c + d + e == a + (b + (c + (d + e)))
  {
  }

  /** A plain signature line, regrouped around the text the parser looks for. */
  lemma PlainSignatureShape(action: string, promised: string)
    ensures PlainSignature(action, promised)
            == ActionOpen + (action + ['"'] + ([')'] + (PromiseOpen + (promised + ">"))))
  {
    var quote, close := "\"", "): Promise<";
    assert close == [')'] + PromiseOpen;
    Regroup(ActionOpen, action, quote, close, promised + ">");
  }

  /** A signature line with a request, regrouped the same way. */
  lemma RequestSignatureShape(action: string, request: string, promised: string)
    ensures RequestSignature(action, request, promised)
            == ActionOpen + (action + ['"'] + (RequestOpen + (request + [')'] + (PromiseOpen + (promised + ">;")))))
  {
    var quote, close := "\"", "): Promise<";
    assert close == [')'] + PromiseOpen;
    Regroup(ActionOpen, action, quote, RequestOpen + request, close + promised + ">;");
  }

  lemma ParsePlainSignature(action: string, promised: string)
    requires '"' !in action
    ensures ParseInterfaceMethod(ActionOpen + (action + ['"'] + ([')'] + (PromiseOpen + (promised + ">")))))
            == Some((action, None, promised))
  {
    var rest := [')'] + (PromiseOpen + (promised + ">"));
    assert rest[1..] == PromiseOpen + (promised + ">");
    ParsePromiseOf(promised, ">");
    assert ParseParameters(rest) == Some((None, promised));
    ParseActionOf(action, rest);
  }

  lemma ParseRequestParameters(request: string, promised: string)
    requires ')' !in request
    ensures ParseParameters(RequestOpen + (request + [')'] + (PromiseOpen + (promised + ">;")))) == Some((Some(request), promised))
  {
    var tail := PromiseOpen + (promised + ">;");
    var rest := RequestOpen + (request + [')'] + tail);
    assert rest[0] == ',';
    StripPrefixOfConcat(RequestOpen, request + [')'] + tail);
    SplitAtFirstOf(request, ')', tail);
    ParsePromiseOf(promised, ">;");
  }

  lemma ParseRequestSignature(action: string, request: string, promised: string)
    requires '"' !in action && ')' !in request
    ensures ParseInterfaceMethod(ActionOpen + (action + ['"'] + (RequestOpen + (request + [')'] + (PromiseOpen + (promised + ">;"))))))
            == Some((action, Some(request), promised))
  {
    ParseRequestParameters(request, promised);
    ParseActionOf(action, RequestOpen + (request + [')'] + (PromiseOpen + (promised + ">;"))));
  }

  /** A signature gives back its endpoint's action, request type name and
      promised type, provided the action has no quote and the request type
      name no closing parenthesis. */
  lemma InterfaceMethodParses(m: MethodResult)
    requires '"' !in m.action
    requires m.requestType.Some? ==> ')' !in m.requestType.value.fullName
    ensures ParseInterfaceMethod(InterfaceMethod(m)) ==
              Some((m.action,
                    if m.requestType.Some? then Some(m.requestType.value.fullName) else None,
                    if m.returnsArray then m.returnType + "[]" else m.returnType))
  {
    match m.requestType
    case None =>
      PlainSignatureShape(m.action, PromisedType(m));
      ParsePlainSignature(m.action, PromisedType(m));
    case Some(t) =>
      RequestSignatureShape(m.action, t.fullName, PromisedType(m));
      ParseRequestSignature(m.action, t.fullName, PromisedType(m));
  }

  //---------------------------------------------------------------------------
  // The declaration
  //---------------------------------------------------------------------------

  const InterfaceHeader := "declare module OmniSharp {\n    interface Api {\n"
  const InterfaceFooter := "    }\n}"
  const MethodIndent := "        "

  /** The lines, each after `indent`, between `header` and `footer`: the
      first indent, then the lines joined by `newline` plus the indent, then
      a final `newline`. */
  function Wrapped(header: string, indent: string, newline: string, footer: string, lines: seq<string>): (text: string)
    ensures StartsWith(text, header) && EndsWith(text, newline + footer)
  {
    var joined := indent + Join(lines, newline + indent);
    var text := header + (joined + newline + footer);
    PrefixOfConcat(header, joined + newline + footer);
    assert text == (header + joined) + (newline + footer);
    SuffixOfConcat(header + joined, newline + footer);
    text
  }

  /** `GetInterface`: the signatures, indented and one per line, inside the
      module and interface blocks. */
  function GetInterface(methods: seq<MethodResult>): (text: string)
    ensures StartsWith(text, InterfaceHeader) && EndsWith(text, "\n" + InterfaceFooter)
  {
    Wrapped(InterfaceHeader, MethodIndent, "\n", InterfaceFooter, InterfaceMethods(methods))
  }

  /** Each line with `indent` in front of it. */
  function Indented(indent: string, lines: seq<string>): (r: seq<string>)
    ensures |r| == |lines|
    ensures forall i :: 0 <= i < |lines| ==> r[i] == indent + lines[i]
  {
    seq(|lines|, i requires 0 <= i < |lines| => indent + lines[i])
  }

  /** Indenting the first line and joining with newline-plus-indent is
      joining the indented lines with newlines. */
  lemma {:induction false} IndentedJoin(indent: string, newline: string, lines: seq<string>)
    requires |lines| > 0
    ensures indent + Join(lines, newline + indent) == Join(Indented(indent, lines), newline)
    decreases |lines|
  {
    if |lines| > 1 {
      var init := lines[..|lines| - 1];
      IndentedJoin(indent, newline, init);
      assert Indented(indent, lines)[..|lines| - 1] == Indented(indent, init);
    }
  }

  /** The wrapped text is every line indented, newline-terminated, between
      the header and the footer; no lines leave one indented empty line. */
  lemma WrappedLayout(header: string, indent: string, newline: string, footer: string, lines: seq<string>)
    ensures lines != [] ==>
              Wrapped(header, indent, newline, footer, lines) ==
              header + (Join(Indented(indent, lines), newline) + newline + footer)
    ensures lines == [] ==> Wrapped(header, indent, newline, footer, lines) == header + (indent + newline + footer)
  {
    if lines != [] {
      IndentedJoin(indent, newline, lines);
    }
  }

  /** The declaration has every signature on a line of its own, indented by
      eight spaces; with no endpoints it still has one indented empty line. */
  lemma GetInterfaceLayout(methods: seq<MethodResult>)
    ensures methods != [] ==>
              GetInterface(methods) ==
              InterfaceHeader + (Join(Indented(MethodIndent, InterfaceMethods(methods)), "\n") + "\n" + InterfaceFooter)
    ensures methods == [] ==> GetInterface(methods) == InterfaceHeader + (MethodIndent + "\n" + InterfaceFooter)
  {
    WrappedLayout(InterfaceHeader, MethodIndent, "\n", InterfaceFooter, InterfaceMethods(methods));
  }
}

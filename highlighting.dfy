/** The `highlight` endpoint: choose the documents of the requested
    projects, normalise the requested classifications, classify the whole
    text or the requested lines of each document, drop the spans of
    classifications that were not requested, and group what remains by span.

    The compiler services (the classifier, the document's text and its line
    table) are outside the model: a document carries the spans the classifier
    reports for its whole text and for each of its lines. */
module Highlighting {
  import opened Wrappers
  import opened Strings
  import opened Sequences

  /** The classification enum: the members the filter names, and every other
      member by its declared name. */
  datatype HighlightClassification =
    | Name
    | Comment
    | String
    | PreprocessorKeyword
    | ExcludedCode
    | Other(enumName: string)

  datatype TextSpan = TextSpan(start: nat, length: nat)
  datatype ClassifiedSpan = ClassifiedSpan(textSpan: TextSpan, classificationType: string)

  /** A workspace document: its project, its text, the spans of its whole
      text, and the spans of each line (`lineSpans[i]` for 0-based line `i`,
      so `|lineSpans|` is the line count). */
  datatype Document = Document(projectName: string, text: string,
                               wholeTextSpans: seq<ClassifiedSpan>, lineSpans: seq<seq<ClassifiedSpan>>)

  datatype ClassifiedResult = ClassifiedResult(span: ClassifiedSpan, text: string, project: string)

  /** What `HighlightSpan.FromClassifiedSpan` is built from: a span, the text
      whose lines locate it, and the projects it was found in. */
  datatype HighlightSpan = HighlightSpan(span: ClassifiedSpan, text: string, projects: seq<string>)

  /** `text.Lines[line - 1]` with a line number of 0 or less throws. */
  datatype HighlightError = LineOutOfRange(line: int)

  class HighlightRequest {
    var fileName: string
    var lines: Option<seq<int>>
    var projectNames: Option<seq<string>>
    var classifications: Option<seq<HighlightClassification>>
    var excludeClassifications: Option<seq<HighlightClassification>>

    constructor (fileName: string, lines: Option<seq<int>>, projectNames: Option<seq<string>>,
                 classifications: Option<seq<HighlightClassification>>,
                 excludeClassifications: Option<seq<HighlightClassification>>)
      ensures this.fileName == fileName && this.lines == lines && this.projectNames == projectNames
      ensures this.classifications == classifications && this.excludeClassifications == excludeClassifications
    {
      this.fileName := fileName;
      this.lines := lines;
      this.projectNames := projectNames;
      this.classifications := classifications;
      this.excludeClassifications := excludeClassifications;
    }
  }

  //---------------------------------------------------------------------------
  // Project filter
  //---------------------------------------------------------------------------

  /** The documents whose project is one of `names` (ordinal comparison). */
  function InProjects(documents: seq<Document>, names: seq<string>): (r: seq<Document>)
    ensures forall d :: d in r <==> d in documents && d.projectName in names
    ensures IsSubsequence(r, documents)
    ensures forall d :: multiset(r)[d] == if d.projectName in names then multiset(documents)[d] else 0
  {
    if documents == [] then []
    else
      assert documents == [documents[0]] + documents[1..];
      if documents[0].projectName in names then [documents[0]] + InProjects(documents[1..], names)
      else InProjects(documents[1..], names)
  }

  /** A non-empty project list restricts the documents; a missing or empty one does not. */
  function SelectDocuments(documents: seq<Document>, projectNames: Option<seq<string>>): (r: seq<Document>)
    ensures projectNames.None? || projectNames.value == [] ==> r == documents
    ensures projectNames.Some? && projectNames.value != [] ==>
              && IsSubsequence(r, documents)
              && (forall d :: d in r <==> d in documents && d.projectName in projectNames.value)
              && (forall d :: multiset(r)[d] == if d.projectName in projectNames.value then multiset(documents)[d] else 0)
  {
    if projectNames.Some? && |projectNames.value| > 0 then InProjects(documents, projectNames.value)
    else documents
  }

  //---------------------------------------------------------------------------
  // Classification normalisation
  //---------------------------------------------------------------------------

  /** The classifications in effect once the request is normalised: a missing
      or non-empty list becomes every classification, an empty list stays
      empty, and a non-empty exclusion list is then subtracted. */
  function NormalisedClassifications(requested: Option<seq<HighlightClassification>>,
                                     excluded: Option<seq<HighlightClassification>>,
                                     all: seq<HighlightClassification>): (r: seq<HighlightClassification>)
    ensures requested == Some([]) ==> r == []
    ensures requested != Some([]) && (excluded.None? || excluded.value == []) ==> r == all
    ensures forall c :: c in r ==> c in all && !(excluded.Some? && c in excluded.value)
    ensures requested != Some([]) ==>
              forall c :: c in all && !(excluded.Some? && c in excluded.value) ==> c in r
    ensures excluded.Some? && excluded.value != [] ==> Distinct(r)
  {
    var base := if requested.None? || |requested.value| > 0 then all else requested.value;
    if excluded.Some? && |excluded.value| > 0 then Except(base, excluded.value) else base
  }

  /** Lines 24-32 of the controller: `request.Classifications` is overwritten in place. */
  method NormaliseClassifications(request: HighlightRequest, all: seq<HighlightClassification>)
    modifies request`classifications
    ensures request.classifications ==
              Some(NormalisedClassifications(old(request.classifications), request.excludeClassifications, all))
  {
    if request.classifications.None? || |request.classifications.value| > 0 {
      request.classifications := Some(all);
    }
    if request.excludeClassifications.Some? && |request.excludeClassifications.value| > 0 {
      request.classifications := Some(Except(request.classifications.value, request.excludeClassifications.value));
    }
  }

  //---------------------------------------------------------------------------
  // Span filter
  //---------------------------------------------------------------------------

  /** The filter that an unrequested classification `c` applies rejects
      spans of type `t`. */
  predicate Rejects(c: HighlightClassification, t: string)
    ensures Rejects(c, t) && !c.Other? ==> |t| > 0
    ensures Rejects(c, t) && c.Other? ==> forall i :: 0 <= i < |t| ==> !('A' <= t[i] <= 'Z')
  {
    match c
    case Name => EndsWith(t, " name")
    case Comment => t == "comment" || StartsWith(t, "xml doc comment ")
    case String => t == "string" || StartsWith(t, "string ")
    case PreprocessorKeyword => t == "preprocessor keyword"
    case ExcludedCode => t == "excluded code"
    case Other(enumName) => t == ToLower(enumName)
  }

  /** No classification of `unrequested` rejects type `t`. */
  predicate Passes(unrequested: seq<HighlightClassification>, t: string)
  {
    forall c :: c in unrequested ==> !Rejects(c, t)
  }

  /** The spans that pass every filter of `unrequested`, in their order. */
  function Kept(unrequested: seq<HighlightClassification>, spans: seq<ClassifiedSpan>): (r: seq<ClassifiedSpan>)
    ensures forall x :: x in r <==> x in spans && Passes(unrequested, x.classificationType)
    ensures IsSubsequence(r, spans)
  {
    if spans == [] then []
    else if Passes(unrequested, spans[0].classificationType) then [spans[0]] + Kept(unrequested, spans[1..])
    else Kept(unrequested, spans[1..])
  }

  /** The filter decides span by span: it keeps a single span exactly when it
      passes, and it distributes over concatenation, so every passing span is
      kept once per occurrence and in its place. */
  lemma {:induction false} KeptAppend(unrequested: seq<HighlightClassification>, a: seq<ClassifiedSpan>,
                                      b: seq<ClassifiedSpan>)
    ensures forall x :: Kept(unrequested, [x]) == if Passes(unrequested, x.classificationType) then [x] else []
    ensures Kept(unrequested, a + b) == Kept(unrequested, a) + Kept(unrequested, b)
    decreases |a|
  {
    forall x ensures Kept(unrequested, [x]) == if Passes(unrequested, x.classificationType) then [x] else [] {
      assert [x][1..] == [];
    }
    if a == [] {
      assert a + b == b;
    } else {
      assert (a + b)[1..] == a[1..] + b;
      KeptAppend(unrequested, a[1..], b);
    }
  }

  /** No filter keeps everything. */
  lemma {:induction false} KeptByNone(spans: seq<ClassifiedSpan>)
    ensures Kept([], spans) == spans
  {
    if spans != [] {
      KeptByNone(spans[1..]);
    }
  }

  /** Applying one more filter to the kept spans is filtering by both. */
  lemma {:induction false} KeptThenOne(unrequested: seq<HighlightClassification>, c: HighlightClassification,
                                       spans: seq<ClassifiedSpan>)
    ensures Kept([c], Kept(unrequested, spans)) == Kept(unrequested + [c], spans)
  {
    if spans != [] {
      KeptThenOne(unrequested, c, spans[1..]);
      var t := spans[0].classificationType;
      assert Passes(unrequested + [c], t) <==> Passes(unrequested, t) && Passes([c], t);
    }
  }

  /** `FilterSpans`: one `Where` per classification of `all` that was not requested. */
  method FilterSpans(all: seq<HighlightClassification>, classifications: seq<HighlightClassification>,
                     spans: seq<ClassifiedSpan>) returns (r: seq<ClassifiedSpan>)
    ensures r == Kept(Except(all, classifications), spans)
    ensures (forall c :: c in all ==> c in classifications) ==> r == spans
  {
    var unrequested := Except(all, classifications);
    r := spans;
    KeptByNone(spans);
    for i := 0 to |unrequested|
      invariant r == Kept(unrequested[..i], spans)
    {
      KeptThenOne(unrequested[..i], unrequested[i], spans);
      assert unrequested[..i + 1] == unrequested[..i] + [unrequested[i]];
      r := Kept([unrequested[i]], r);
    }
    assert unrequested[..|unrequested|] == unrequested;
    if forall c :: c in all ==> c in classifications {
      NothingUnrequested(all, classifications);
    }
  }

  /** When every classification was requested, none is filtered out. */
  lemma NothingUnrequested(all: seq<HighlightClassification>, classifications: seq<HighlightClassification>)
    requires forall c :: c in all ==> c in classifications
    ensures Except(all, classifications) == []
  {
    var unrequested := Except(all, classifications);
    assert forall c :: c !in unrequested;
  }

  /** What the span filter promises: every span it returns was given, and no
      classification of `all` that was not requested matches it; a span that
      no such classification matches is returned. */
  lemma FilterSpansMeaning(all: seq<HighlightClassification>, classifications: seq<HighlightClassification>,
                           spans: seq<ClassifiedSpan>)
    ensures var r := Kept(Except(all, classifications), spans);
            && IsSubsequence(r, spans)
            && (forall i, c :: 0 <= i < |r| && c in all && c !in classifications ==> !Rejects(c, r[i].classificationType))
            && (forall i :: 0 <= i < |spans| &&
                  (forall c :: c in all && c !in classifications ==> !Rejects(c, spans[i].classificationType))
                  ==> spans[i] in r)
  {
    var unrequested := Except(all, classifications);
    var r := Kept(unrequested, spans);
    forall i, c | 0 <= i < |r| && c in all && c !in classifications
      ensures !Rejects(c, r[i].classificationType)
    {
      var k :| 0 <= k < |all| && all[k] == c;
      assert c in unrequested;
    }
    forall i | 0 <= i < |spans| &&
               (forall c :: c in all && c !in classifications ==> !Rejects(c, spans[i].classificationType))
      ensures spans[i] in r
    {
      assert Passes(unrequested, spans[i].classificationType);
    }
  }

  /** The named filters, read off the output when their classification was
      not requested. */
  lemma NamedFilters(all: seq<HighlightClassification>, classifications: seq<HighlightClassification>,
                     spans: seq<ClassifiedSpan>, x: ClassifiedSpan)
    requires x in Kept(Except(all, classifications), spans)
    ensures Name in all && Name !in classifications ==> !EndsWith(x.classificationType, " name")
    ensures Comment in all && Comment !in classifications ==>
              x.classificationType != "comment" && !StartsWith(x.classificationType, "xml doc comment ")
    ensures String in all && String !in classifications ==>
              x.classificationType != "string" && !StartsWith(x.classificationType, "string ")
    ensures PreprocessorKeyword in all && PreprocessorKeyword !in classifications ==>
              x.classificationType != "preprocessor keyword"
    ensures ExcludedCode in all && ExcludedCode !in classifications ==> x.classificationType != "excluded code"
    ensures forall n :: Other(n) in all && Other(n) !in classifications ==> x.classificationType != ToLower(n)
  {
    var r := Kept(Except(all, classifications), spans);
    var i :| 0 <= i < |r| && r[i] == x;
    FilterSpansMeaning(all, classifications, spans);
  }

  //---------------------------------------------------------------------------
  // Line selection
  //---------------------------------------------------------------------------

  /** The spans of the requested lines, in request order: a line beyond the
      line count is skipped, and one of 0 or less that is not skipped throws. */
  function LineSpans(d: Document, lines: seq<int>): (r: Result<seq<ClassifiedSpan>, HighlightError>)
    ensures r.Ok? <==> forall i :: 0 <= i < |lines| && lines[i] <= |d.lineSpans| ==> 1 <= lines[i]
    ensures r.Ok? ==> forall x :: x in r.value ==>
              exists i :: 0 <= i < |lines| && 1 <= lines[i] <= |d.lineSpans| && x in d.lineSpans[lines[i] - 1]
    ensures r.Err? ==> exists i :: 0 <= i < |lines| && r.error.line == lines[i] && lines[i] < 1 &&
                                   (forall j :: 0 <= j < i ==> lines[j] > |d.lineSpans| || 1 <= lines[j])
    decreases |lines|
  {
    if lines == [] then Ok([])
    else
      var init, line := lines[..|lines| - 1], lines[|lines| - 1];
      assert forall i :: 0 <= i < |init| ==> init[i] == lines[i];
      match LineSpans(d, init)
      case Err(e) => Err(e)
      case Ok(prev) =>
        if line > |d.lineSpans| then Ok(prev)
        else if line < 1 then Err(LineOutOfRange(line))
        else
          var r := prev + d.lineSpans[line - 1];
          assert forall x :: x in r ==> x in prev || x in d.lineSpans[line - 1];
          Ok(r)
  }

  /** The lines are read one after the other: one line gives its own spans,
      nothing, or its error, and two runs of lines give the first run's error,
      else the second's, else both runs' spans in order. */
  lemma {:induction false} LineSpansAppend(d: Document, a: seq<int>, b: seq<int>)
    ensures forall l :: LineSpans(d, [l]) ==
              if l > |d.lineSpans| then Ok([]) else if l < 1 then Err(LineOutOfRange(l)) else Ok(d.lineSpans[l - 1])
    ensures LineSpans(d, a + b) ==
              match LineSpans(d, a)
              case Err(e) => Err(e)
              case Ok(p) => (match LineSpans(d, b) case Err(e) => Err(e) case Ok(q) => Ok(p + q))
    decreases |b|
  {
    forall l ensures LineSpans(d, [l]) ==
                     if l > |d.lineSpans| then Ok([]) else if l < 1 then Err(LineOutOfRange(l)) else Ok(d.lineSpans[l - 1])
    {
      assert [l][..0] == [];
      if 1 <= l <= |d.lineSpans| {
        assert [] + d.lineSpans[l - 1] == d.lineSpans[l - 1];
      }
    }
    if b == [] {
      assert a + b == a;
      if LineSpans(d, a).Ok? {
        assert LineSpans(d, a).value + [] == LineSpans(d, a).value;
      }
    } else {
      var init := b[..|b| - 1];
      assert (a + b)[..|a + b| - 1] == a + init;
      LineSpansAppend(d, a, init);
      match LineSpans(d, a)
      case Err(e) =>
      case Ok(p) =>
        match LineSpans(d, init)
        case Err(e) =>
        case Ok(q) =>
          var last := b[|b| - 1];
          if 1 <= last <= |d.lineSpans| {
            assert p + q + d.lineSpans[last - 1] == p + (q + d.lineSpans[last - 1]);
          }
    }
  }

  /** Once a prefix of the lines throws, the whole list throws the same error. */
  lemma {:induction false} LineSpansErrorPersists(d: Document, lines: seq<int>, k: nat)
    requires k <= |lines| && LineSpans(d, lines[..k]).Err?
    ensures LineSpans(d, lines) == LineSpans(d, lines[..k])
    decreases |lines|
  {
    if k < |lines| {
      var init := lines[..|lines| - 1];
      assert init[..k] == lines[..k];
      LineSpansErrorPersists(d, init, k);
    } else {
      assert lines[..k] == lines;
    }
  }

  /** A line within the line count contributes all spans of its line. */
  lemma {:induction false} LineSpansCoverLine(d: Document, lines: seq<int>, i: nat)
    requires i < |lines| && 1 <= lines[i] <= |d.lineSpans|
    requires LineSpans(d, lines).Ok?
    ensures forall x :: x in d.lineSpans[lines[i] - 1] ==> x in LineSpans(d, lines).value
    decreases |lines|
  {
    var init := lines[..|lines| - 1];
    if i < |lines| - 1 {
      LineSpansCoverLine(d, init, i);
    }
  }

  /** Reading one more line: its error, nothing, or its spans after the earlier ones. */
  lemma LineSpansNext(d: Document, lines: seq<int>, i: nat)
    requires i < |lines|
    ensures LineSpans(d, lines[..i + 1]) ==
              match LineSpans(d, lines[..i])
              case Err(e) => Err(e)
              case Ok(p) =>
                if lines[i] > |d.lineSpans| then Ok(p)
                else if lines[i] < 1 then Err(LineOutOfRange(lines[i]))
                else Ok(p + d.lineSpans[lines[i] - 1])
  {
    assert lines[..i + 1][..i] == lines[..i];
  }

  /** The spans of one document: its whole text when no lines are requested,
      the requested lines otherwise. */
  method ClassifyDocument(d: Document, lines: Option<seq<int>>) returns (r: Result<seq<ClassifiedSpan>, HighlightError>)
    ensures r == DocumentSpans(d, lines)
  {
    var spans: seq<ClassifiedSpan> := [];
    if lines.None? || |lines.value| == 0 {
      for j := 0 to |d.wholeTextSpans|
        invariant spans == d.wholeTextSpans[..j]
      {
        spans := spans + [d.wholeTextSpans[j]];
      }
      assert d.wholeTextSpans[..|d.wholeTextSpans|] == d.wholeTextSpans;
      return Ok(spans);
    }
    var ls := lines.value;
    for i := 0 to |ls|
      invariant LineSpans(d, ls[..i]) == Ok(spans)
    {
      LineSpansNext(d, ls, i);
      var line := ls[i];
      if line <= |d.lineSpans| {
        if line < 1 {
          LineSpansErrorPersists(d, ls, i + 1);
          return Err(LineOutOfRange(line));
        }
        var lineSpans := d.lineSpans[line - 1];
        ghost var before := spans;
        for j := 0 to |lineSpans|
          invariant spans == before + lineSpans[..j]
        {
          spans := spans + [lineSpans[j]];
        }
        assert lineSpans[..|lineSpans|] == lineSpans;
      }
    }
    assert ls[..|ls|] == ls;
    r := Ok(spans);
  }

  //---------------------------------------------------------------------------
  // Collection and grouping
  //---------------------------------------------------------------------------

  /** The spans a document contributes, before filtering. */
  function DocumentSpans(d: Document, lines: Option<seq<int>>): (r: Result<seq<ClassifiedSpan>, HighlightError>)
    ensures lines.None? || lines.value == [] ==> r == Ok(d.wholeTextSpans)
    ensures lines.Some? && lines.value != [] ==>
              (r.Ok? <==> forall i :: 0 <= i < |lines.value| && lines.value[i] <= |d.lineSpans| ==> 1 <= lines.value[i])
  {
    if lines.None? || lines.value == [] then Ok(d.wholeTextSpans) else LineSpans(d, lines.value)
  }

  /** When lines are requested, every span a document contributes comes from
      one of the requested lines within its line count. */
  lemma DocumentSpansFromLines(d: Document, lines: Option<seq<int>>)
    requires lines.Some? && lines.value != [] && DocumentSpans(d, lines).Ok?
    ensures forall x :: x in DocumentSpans(d, lines).value ==>
              exists i :: 0 <= i < |lines.value| && 1 <= lines.value[i] <= |d.lineSpans| && x in d.lineSpans[lines.value[i] - 1]
  {
  }

  function ResultsOf(spans: seq<ClassifiedSpan>, d: Document): (r: seq<ClassifiedResult>)
    ensures |r| == |spans|
    ensures forall i :: 0 <= i < |r| ==> r[i] == ClassifiedResult(spans[i], d.text, d.projectName)
  {
    seq(|spans|, i requires 0 <= i < |spans| => ClassifiedResult(spans[i], d.text, d.projectName))
  }

  /** The results of the documents in order; the first document whose lines
      throw aborts the whole request. */
  function Collected(documents: seq<Document>, lines: Option<seq<int>>, unrequested: seq<HighlightClassification>)
    : (r: Result<seq<ClassifiedResult>, HighlightError>)
    ensures r.Ok? <==> forall k :: 0 <= k < |documents| ==> DocumentSpans(documents[k], lines).Ok?
    decreases |documents|
  {
    if documents == [] then Ok([])
    else
      var init, d := documents[..|documents| - 1], documents[|documents| - 1];
      assert forall k :: 0 <= k < |init| ==> init[k] == documents[k];
      match Collected(init, lines, unrequested)
      case Err(e) => Err(e)
      case Ok(prev) =>
        match DocumentSpans(d, lines)
        case Err(e) =>
          assert forall j :: 0 <= j < |init| ==> DocumentSpans(documents[j], lines).Ok?;
          Err(e)
        case Ok(spans) => Ok(prev + ResultsOf(Kept(unrequested, spans), d))
  }

  /** A line error does not depend on the document: a requested line below 1
      is never beyond a line count, so every document throws, and the error
      names the first such line. */
  lemma {:induction false} LineErrorIsShared(d: Document, e: Document, lines: Option<seq<int>>)
    requires DocumentSpans(d, lines).Err?
    ensures DocumentSpans(e, lines) == DocumentSpans(d, lines)
  {
    var ls := lines.value;
    var i :| 0 <= i < |ls| && DocumentSpans(d, lines).error.line == ls[i] && ls[i] < 1 &&
             forall j :: 0 <= j < i ==> ls[j] > |d.lineSpans| || 1 <= ls[j];
    assert !(ls[i] <= |e.lineSpans| ==> 1 <= ls[i]);
    var i' :| 0 <= i' < |ls| && DocumentSpans(e, lines).error.line == ls[i'] && ls[i'] < 1 &&
              forall j :: 0 <= j < i' ==> ls[j] > |e.lineSpans| || 1 <= ls[j];
    assert i == i';
  }

  /** A failed collection reports the error of the first document, which is
      the first document whose lines throw: every document before it (none)
      succeeds. */
  lemma CollectedFirstError(documents: seq<Document>, lines: Option<seq<int>>,
                            unrequested: seq<HighlightClassification>)
    requires Collected(documents, lines, unrequested).Err?
    ensures exists k :: 0 <= k < |documents| &&
              DocumentSpans(documents[k], lines) == Err(Collected(documents, lines, unrequested).error) &&
              forall j :: 0 <= j < k ==> DocumentSpans(documents[j], lines).Ok?
    ensures DocumentSpans(documents[0], lines) == Err(Collected(documents, lines, unrequested).error)
  {
    var k :| 0 <= k < |documents| && DocumentSpans(documents[k], lines).Err?;
    LineErrorIsShared(documents[k], documents[0], lines);
    assert documents[..1][..0] == [];
    CollectedErrorPersists(documents, lines, unrequested, 1);
  }

  /** Once a prefix of the documents throws, the whole request throws the same error. */
  lemma {:induction false} CollectedErrorPersists(documents: seq<Document>, lines: Option<seq<int>>,
                                                  unrequested: seq<HighlightClassification>, k: nat)
    requires k <= |documents| && Collected(documents[..k], lines, unrequested).Err?
    ensures Collected(documents, lines, unrequested) == Collected(documents[..k], lines, unrequested)
    decreases |documents|
  {
    if k < |documents| {
      var init := documents[..|documents| - 1];
      assert init[..k] == documents[..k];
      CollectedErrorPersists(init, lines, unrequested, k);
    } else {
      assert documents[..k] == documents;
    }
  }

  /** Every collected result comes from a selected document, carries that
      document's project, and passes the span filter. */
  lemma {:induction false} CollectedMeaning(documents: seq<Document>, lines: Option<seq<int>>,
                                            unrequested: seq<HighlightClassification>)
    requires Collected(documents, lines, unrequested).Ok?
    ensures forall x :: x in Collected(documents, lines, unrequested).value ==>
              Passes(unrequested, x.span.classificationType) &&
              exists d :: d in documents && x.project == d.projectName && x.text == d.text
    decreases |documents|
  {
    if documents != [] {
      var init, d := documents[..|documents| - 1], documents[|documents| - 1];
      CollectedMeaning(init, lines, unrequested);
      var prev := Collected(init, lines, unrequested).value;
      var spans := DocumentSpans(d, lines).value;
      var kept := Kept(unrequested, spans);
      forall x | x in prev + ResultsOf(kept, d)
        ensures Passes(unrequested, x.span.classificationType) &&
                exists d' :: d' in documents && x.project == d'.projectName && x.text == d'.text
      {
        if x in prev {
          var d' :| d' in init && x.project == d'.projectName && x.text == d'.text;
          assert d' in documents;
        } else {
          var i :| 0 <= i < |ResultsOf(kept, d)| && ResultsOf(kept, d)[i] == x;
          assert x.span == kept[i];
          assert d in documents;
        }
      }
    }
  }

  /** A successful collection is the collection of all documents but the
      last, followed by the last document's kept results. */
  lemma CollectedLast(documents: seq<Document>, lines: Option<seq<int>>, unrequested: seq<HighlightClassification>)
    requires documents != [] && Collected(documents, lines, unrequested).Ok?
    ensures var init, d := documents[..|documents| - 1], documents[|documents| - 1];
            && Collected(init, lines, unrequested).Ok?
            && DocumentSpans(d, lines).Ok?
            && Collected(documents, lines, unrequested).value ==
                 Collected(init, lines, unrequested).value + ResultsOf(Kept(unrequested, DocumentSpans(d, lines).value), d)
  {
  }

  /** The results of the first `n` documents begin the results of all of them. */
  lemma {:induction false} CollectedPrefix(documents: seq<Document>, lines: Option<seq<int>>,
                                           unrequested: seq<HighlightClassification>, n: nat)
    requires n <= |documents| && Collected(documents, lines, unrequested).Ok?
    ensures Collected(documents[..n], lines, unrequested).Ok?
    ensures Collected(documents[..n], lines, unrequested).value <= Collected(documents, lines, unrequested).value
    decreases |documents|
  {
    if n < |documents| {
      var init := documents[..|documents| - 1];
      CollectedLast(documents, lines, unrequested);
      assert init[..n] == documents[..n];
      CollectedPrefix(init, lines, unrequested, n);
    } else {
      assert documents[..n] == documents;
    }
  }

  /** A kept span of document `k` is among the results. */
  lemma CollectedHas(documents: seq<Document>, lines: Option<seq<int>>,
                     unrequested: seq<HighlightClassification>, k: nat, x: ClassifiedSpan)
    requires Collected(documents, lines, unrequested).Ok?
    requires k < |documents| && x in Kept(unrequested, DocumentSpans(documents[k], lines).value)
    ensures ClassifiedResult(x, documents[k].text, documents[k].projectName) in Collected(documents, lines, unrequested).value
  {
    var d, pre := documents[k], documents[..k + 1];
    CollectedPrefix(documents, lines, unrequested, k + 1);
    CollectedLast(pre, lines, unrequested);
    assert pre[|pre| - 1] == d;
    var kept := Kept(unrequested, DocumentSpans(d, lines).value);
    var i :| 0 <= i < |kept| && kept[i] == x;
    InPrefix(Collected(documents, lines, unrequested).value, Collected(pre[..|pre| - 1], lines, unrequested).value,
             ResultsOf(kept, d), i);
  }

  /** An element of the second part of a prefix is an element of the whole. */
  lemma InPrefix<T>(all: seq<T>, before: seq<T>, part: seq<T>, i: nat)
    requires before + part <= all && i < |part|
    ensures part[i] in all
  {
    assert all[|before| + i] == (before + part)[|before| + i];
  }

  /** Conversely, on success every kept span of every selected document
      yields a result with that document's project and text. */
  lemma CollectedComplete(documents: seq<Document>, lines: Option<seq<int>>,
                          unrequested: seq<HighlightClassification>)
    requires Collected(documents, lines, unrequested).Ok?
    ensures forall k, x :: 0 <= k < |documents| && x in Kept(unrequested, DocumentSpans(documents[k], lines).value) ==>
              ClassifiedResult(x, documents[k].text, documents[k].projectName) in Collected(documents, lines, unrequested).value
  {
    forall k, x | 0 <= k < |documents| && x in Kept(unrequested, DocumentSpans(documents[k], lines).value)
      ensures ClassifiedResult(x, documents[k].text, documents[k].projectName) in Collected(documents, lines, unrequested).value
    {
      CollectedHas(documents, lines, unrequested, k, x);
    }
  }

  function KeyOf(r: ClassifiedResult): TextSpan
  {
    r.span.textSpan
  }

  predicate HasKey(results: seq<ClassifiedResult>, key: TextSpan)
  {
    exists i :: 0 <= i < |results| && KeyOf(results[i]) == key
  }

  /** The span key of every result, in order. */
  function Keys(results: seq<ClassifiedResult>): (keys: seq<TextSpan>)
    ensures |keys| == |results|
    ensures forall i :: 0 <= i < |results| ==> keys[i] == KeyOf(results[i])
  {
    seq(|results|, i requires 0 <= i < |results| => KeyOf(results[i]))
  }

  /** The distinct span keys in order of first occurrence. */
  function SpanKeys(results: seq<ClassifiedResult>): (keys: seq<TextSpan>)
    ensures Distinct(keys)
    ensures forall k :: k in keys <==> HasKey(results, k)
    ensures forall k :: k in keys ==> k in Keys(results)
    ensures forall i, j :: 0 <= i < j < |keys| ==> FirstIndex(Keys(results), keys[i]) < FirstIndex(Keys(results), keys[j])
  {
    var all := Keys(results);
    var keys := Except(all, []);
    assert forall k :: HasKey(results, k) ==> k in keys by {
      forall k | HasKey(results, k) ensures k in keys {
        var i :| 0 <= i < |results| && KeyOf(results[i]) == k;
        assert all[i] == k;
      }
    }
    keys
  }

  /** The first result with span key `key`. */
  function FirstWithKey(results: seq<ClassifiedResult>, key: TextSpan): (first: ClassifiedResult)
    requires HasKey(results, key)
    ensures exists i :: 0 <= i < |results| && results[i] == first && KeyOf(first) == key &&
                        forall j :: 0 <= j < i ==> KeyOf(results[j]) != key
  {
    if KeyOf(results[0]) == key then results[0]
    else
      assert HasKey(results[1..], key) by {
        var i :| 0 <= i < |results| && KeyOf(results[i]) == key;
        assert results[1..][i - 1] == results[i];
      }
      var first := FirstWithKey(results[1..], key);
      ghost var i :| 0 <= i < |results[1..]| && results[1..][i] == first && KeyOf(first) == key &&
                     forall j :: 0 <= j < i ==> KeyOf(results[1..][j]) != key;
      assert results[i + 1] == first;
      assert forall j :: 0 <= j < i + 1 ==> KeyOf(results[j]) != key by {
        forall j | 0 <= j < i + 1 ensures KeyOf(results[j]) != key {
          if j > 0 { assert results[j] == results[1..][j - 1]; }
        }
      }
      first
  }

  /** The projects of the results with span key `key`, in order. */
  function ProjectsWithKey(results: seq<ClassifiedResult>, key: TextSpan): (projects: seq<string>)
    ensures |projects| <= |results|
    ensures HasKey(results, key) ==> projects != []
    ensures forall p :: p in projects ==> exists i :: 0 <= i < |results| && KeyOf(results[i]) == key && results[i].project == p
    ensures forall i :: 0 <= i < |results| && KeyOf(results[i]) == key ==> results[i].project in projects
  {
    if results == [] then []
    else
      var rest := ProjectsWithKey(results[1..], key);
      assert HasKey(results, key) && KeyOf(results[0]) != key ==> HasKey(results[1..], key) by {
        if HasKey(results, key) && KeyOf(results[0]) != key {
          var i :| 0 <= i < |results| && KeyOf(results[i]) == key;
          assert results[1..][i - 1] == results[i];
        }
      }
      assert forall p :: p in rest ==> exists i :: 0 <= i < |results| && KeyOf(results[i]) == key && results[i].project == p by {
        forall p | p in rest ensures exists i :: 0 <= i < |results| && KeyOf(results[i]) == key && results[i].project == p {
          var i :| 0 <= i < |results[1..]| && KeyOf(results[1..][i]) == key && results[1..][i].project == p;
          assert results[i + 1] == results[1..][i];
        }
      }
      assert forall i :: 0 < i < |results| ==> results[i] == results[1..][i - 1];
      if KeyOf(results[0]) == key then [results[0].project] + rest else rest
  }

  /** The projects of a group are the results' projects filtered by key: a
      single result contributes its project exactly when its key matches, and
      concatenated results contribute in order, repetitions included. */
  lemma {:induction false} ProjectsWithKeyAppend(a: seq<ClassifiedResult>, b: seq<ClassifiedResult>, key: TextSpan)
    ensures forall x :: ProjectsWithKey([x], key) == if KeyOf(x) == key then [x.project] else []
    ensures ProjectsWithKey(a + b, key) == ProjectsWithKey(a, key) + ProjectsWithKey(b, key)
    decreases |a|
  {
    forall x ensures ProjectsWithKey([x], key) == if KeyOf(x) == key then [x.project] else [] {
      assert [x][1..] == [];
    }
    if a == [] {
      assert a + b == b;
    } else {
      assert (a + b)[1..] == a[1..] + b;
      ProjectsWithKeyAppend(a[1..], b, key);
    }
  }

  /** `GroupBy(span key).Select(...)`: one highlight per distinct span key,
      in order of first occurrence, each with the first result's span and
      text and the projects of all results with that key. */
  function GroupBySpan(results: seq<ClassifiedResult>): (highlights: seq<HighlightSpan>)
    ensures |highlights| == |SpanKeys(results)|
    ensures forall i :: 0 <= i < |highlights| ==>
              && highlights[i].span == FirstWithKey(results, SpanKeys(results)[i]).span
              && highlights[i].text == FirstWithKey(results, SpanKeys(results)[i]).text
              && highlights[i].projects == ProjectsWithKey(results, SpanKeys(results)[i])
  {
    var keys := SpanKeys(results);
    seq(|keys|, i requires 0 <= i < |keys| =>
      var first := FirstWithKey(results, keys[i]);
      HighlightSpan(first.span, first.text, ProjectsWithKey(results, keys[i])))
  }

  /** Grouping keeps exactly one highlight per distinct span key, in order
      of each key's first occurrence among the results. */
  lemma GroupBySpanIsOnePerKey(results: seq<ClassifiedResult>)
    ensures var hs := GroupBySpan(results);
            && (forall i, j :: 0 <= i < j < |hs| ==> hs[i].span.textSpan != hs[j].span.textSpan)
            && (forall k :: HasKey(results, k) <==> exists i :: 0 <= i < |hs| && hs[i].span.textSpan == k)
            && (forall i :: 0 <= i < |hs| ==> hs[i].span.textSpan in Keys(results))
            && (forall i, j :: 0 <= i < j < |hs| ==>
                  FirstIndex(Keys(results), hs[i].span.textSpan) < FirstIndex(Keys(results), hs[j].span.textSpan))
  {
    var hs := GroupBySpan(results);
    var keys := SpanKeys(results);
    assert forall i :: 0 <= i < |hs| ==> hs[i].span.textSpan == keys[i];
    forall k | HasKey(results, k) ensures exists i :: 0 <= i < |hs| && hs[i].span.textSpan == k {
      var i :| 0 <= i < |keys| && keys[i] == k;
      assert hs[i].span.textSpan == k;
    }
  }

  /** No result is lost by grouping: each one's project is listed in the
      highlight of its span. */
  lemma EveryResultIsHighlighted(results: seq<ClassifiedResult>, i: nat)
    requires i < |results|
    ensures exists j :: 0 <= j < |GroupBySpan(results)| &&
              GroupBySpan(results)[j].span.textSpan == KeyOf(results[i]) &&
              results[i].project in GroupBySpan(results)[j].projects
  {
    var keys := SpanKeys(results);
    assert HasKey(results, KeyOf(results[i]));
    var j :| 0 <= j < |keys| && keys[j] == KeyOf(results[i]);
    assert GroupBySpan(results)[j].span.textSpan == keys[j];
  }

  /** One highlight of results that all pass the filter and come from the
      documents: its span passes the filter and its projects are the
      documents' projects. */
  lemma GroupedHighlight(results: seq<ClassifiedResult>, documents: seq<Document>,
                         unrequested: seq<HighlightClassification>, i: nat)
    requires forall x :: x in results ==>
               Passes(unrequested, x.span.classificationType) &&
               exists d :: d in documents && x.project == d.projectName && x.text == d.text
    requires i < |GroupBySpan(results)|
    ensures var h := GroupBySpan(results)[i];
            && Passes(unrequested, h.span.classificationType)
            && h.projects != []
            && forall p :: p in h.projects ==> exists d :: d in documents && d.projectName == p
  {
    var h := GroupBySpan(results)[i];
    var keys := SpanKeys(results);
    assert HasKey(results, keys[i]);
    var first := FirstWithKey(results, keys[i]);
    assert first in results;
    forall p | p in h.projects ensures exists d :: d in documents && d.projectName == p {
      var j :| 0 <= j < |results| && KeyOf(results[j]) == keys[i] && results[j].project == p;
      assert results[j] in results;
    }
  }

  /** Every highlight of the collected results shows a span that passed the
      filter, and names at least one project, each of a selected document. */
  lemma GroupedMeaning(documents: seq<Document>, lines: Option<seq<int>>, unrequested: seq<HighlightClassification>)
    requires Collected(documents, lines, unrequested).Ok?
    ensures forall h :: h in GroupBySpan(Collected(documents, lines, unrequested).value) ==>
              && Passes(unrequested, h.span.classificationType)
              && h.projects != []
              && forall p :: p in h.projects ==> exists d :: d in documents && d.projectName == p
  {
    var results := Collected(documents, lines, unrequested).value;
    var hs := GroupBySpan(results);
    CollectedMeaning(documents, lines, unrequested);
    forall h | h in hs
      ensures && Passes(unrequested, h.span.classificationType)
              && h.projects != []
              && forall p :: p in h.projects ==> exists d :: d in documents && d.projectName == p
    {
      var i :| 0 <= i < |hs| && hs[i] == h;
      GroupedHighlight(results, documents, unrequested, i);
    }
  }

  /** The response the endpoint returns for documents, lines and effective
      classifications: the first line error, or the grouped results. */
  function HighlightResponse(documents: seq<Document>, lines: Option<seq<int>>,
                             classifications: seq<HighlightClassification>, all: seq<HighlightClassification>)
    : (r: Result<seq<HighlightSpan>, HighlightError>)
    ensures r.Ok? <==> forall k :: 0 <= k < |documents| ==> DocumentSpans(documents[k], lines).Ok?
    ensures r.Err? ==> exists k :: 0 <= k < |documents| && DocumentSpans(documents[k], lines) == Err(r.error) &&
                                   forall j :: 0 <= j < k ==> DocumentSpans(documents[j], lines).Ok?
    ensures r.Ok? ==> forall h :: h in r.value ==>
              && (forall c :: c in all && c !in classifications ==> !Rejects(c, h.span.classificationType))
              && h.projects != []
              && forall p :: p in h.projects ==> exists d :: d in documents && d.projectName == p
  {
    var unrequested := Except(all, classifications);
    match Collected(documents, lines, unrequested)
    case Err(e) =>
      CollectedFirstError(documents, lines, unrequested);
      Err(e)
    case Ok(results) =>
      GroupedMeaning(documents, lines, unrequested);
      Ok(GroupBySpan(results))
  }

  /** The `foreach` over the documents: classify each one, filter its spans
      and add one result per kept span; the first line error aborts. */
  method CollectResults(documents: seq<Document>, lines: Option<seq<int>>,
                        classifications: seq<HighlightClassification>, all: seq<HighlightClassification>)
    returns (r: Result<seq<ClassifiedResult>, HighlightError>)
    ensures r == Collected(documents, lines, Except(all, classifications))
  {
    var results: seq<ClassifiedResult> := [];
    for k := 0 to |documents|
      invariant Collected(documents[..k], lines, Except(all, classifications)) == Ok(results)
    {
      assert documents[..k + 1][..k] == documents[..k];
      var d := documents[k];
      var spans := ClassifyDocument(d, lines);
      match spans
      case Err(e) =>
        CollectedErrorPersists(documents, lines, Except(all, classifications), k + 1);
        return Err(e);
      case Ok(found) =>
        var kept := FilterSpans(all, classifications, found);
        results := results + ResultsOf(kept, d);
    }
    assert documents[..|documents|] == documents;
    r := Ok(results);
  }

  /** `Highlight`: `workspaceDocuments` are the documents the workspace has for
      the request's file name, and `all` is the classification enum's values. */
  method Highlight(request: HighlightRequest, workspaceDocuments: seq<Document>, all: seq<HighlightClassification>)
    returns (response: Result<seq<HighlightSpan>, HighlightError>)
    modifies request`classifications
    ensures request.classifications ==
              Some(NormalisedClassifications(old(request.classifications), request.excludeClassifications, all))
    ensures response == HighlightResponse(SelectDocuments(workspaceDocuments, request.projectNames),
                                          request.lines, request.classifications.value, all)
  {
    var documents := workspaceDocuments;
    if request.projectNames.Some? && |request.projectNames.value| > 0 {
      documents := InProjects(documents, request.projectNames.value);
    }
    NormaliseClassifications(request, all);
    var results := CollectResults(documents, request.lines, request.classifications.value, all);
    match results
    case Err(e) =>
      response := Err(e);
    case Ok(found) =>
      response := Ok(GroupBySpan(found));
  }
}

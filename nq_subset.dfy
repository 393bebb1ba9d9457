/** Building a benchmark subset from Natural Questions (scripts/build_nq_subset.py): passage
    extraction from the token list or from the plain document text, the parsing of one NQ
    example into a candidate, the capped and ordered selection of candidates, and the
    sequential assignment of document and query ids. Reading the input file and shuffling
    the candidates are left out: selection starts from the candidates in shuffled order. */
module NqSubset {
  import opened Values

  // ---------------------------------------------------------------- passage extraction

  /** `parts` followed by the outcome r: an exception wins over what was collected. */
  function Prefixed<T>(parts: seq<T>, r: Result<seq<T>>): (p: Result<seq<T>>)
    ensures p.Ok? <==> r.Ok?
    ensures r.Ok? ==> p.value == parts + r.value
  {
    if r.Err? then Err(r.error) else Ok(parts + r.value)
  }

  lemma PrefixedEmpty<T>(r: Result<seq<T>>)
    ensures Prefixed([], r) == r
  {
    if r.Ok? {
      assert [] + r.value == r.value;
    }
  }

  lemma PrefixedPrefixed<T>(a: seq<T>, b: seq<T>, r: Result<seq<T>>)
    ensures Prefixed(a, Prefixed(b, r)) == Prefixed(a + b, r)
  {
    if r.Ok? {
      assert a + (b + r.value) == (a + b) + r.value;
    }
  }

  /** The texts extract_passage_text keeps from toks, in order: a token that is not an
      object has no `get` and raises; an html token and an empty (falsy) token are
      skipped; every other token contributes its `token` value. */
  function TokenParts(toks: seq<Json>): (r: Result<seq<Json>>)
    ensures r.Ok? ==> |r.value| <= |toks|
    ensures r.Ok? ==> forall i :: 0 <= i < |r.value| ==> Truthy(r.value[i])
  {
    if toks == [] then Ok([])
    else if !toks[0].JObj? then Err(TypeError("token has no get"))
    else
      var tok := toks[0].fields;
      var text := GetOr(tok, "token", JStr(""));
      if Truthy(GetOr(tok, "html_token", JBool(false))) || !Truthy(text) then TokenParts(toks[1..])
      else Prefixed([text], TokenParts(toks[1..]))
  }

  /** The strings of parts, when every part is a string. */
  predicate AllStrings(parts: seq<Json>) {
    forall i :: 0 <= i < |parts| ==> parts[i].JStr?
  }

  function Strings(parts: seq<Json>): (r: seq<string>)
    requires AllStrings(parts)
    ensures |r| == |parts| && forall i :: 0 <= i < |r| ==> r[i] == parts[i].s
  {
    if parts == [] then [] else [parts[0].s] + Strings(parts[1..])
  }

  /** `" ".join(parts)`: joining a part that is not a string raises TypeError. */
  function JoinTexts(parts: seq<Json>): (r: Result<string>)
    ensures r.Ok? <==> AllStrings(parts)
  {
    if AllStrings(parts) then Ok(Join(" ", Strings(parts)))
    else Err(TypeError("sequence item: expected str instance"))
  }

  /** What extract_passage_text(tokens, start, end) returns or raises. */
  function PassageText(tokens: seq<Json>, start: int, end: int): Result<string> {
    var parts :- TokenParts(PySlice(tokens, start, end));
    JoinTexts(parts)
  }

  /** extract_passage_text: the loop over tokens[start:end] that collects the kept token
      texts, then their single-space join. */
  method ExtractPassageText(tokens: seq<Json>, start: int, end: int) returns (r: Result<string>)
    ensures r == PassageText(tokens, start, end)
  {
    var toks := PySlice(tokens, start, end);
    var parts: seq<Json> := [];
    var i := 0;
    assert toks[0..] == toks;
    PrefixedEmpty(TokenParts(toks));
    while i < |toks|
      invariant 0 <= i <= |toks|
      invariant TokenParts(toks) == Prefixed(parts, TokenParts(toks[i..]))
    {
      var tok := toks[i];
      assert toks[i..][1..] == toks[i + 1..];
      if !tok.JObj? {
        return Err(TypeError("token has no get"));
      }
      if Truthy(GetOr(tok.fields, "html_token", JBool(false))) {
        i := i + 1;
        continue;
      }
      var text := GetOr(tok.fields, "token", JStr(""));
      if Truthy(text) {
        PrefixedPrefixed(parts, [text], TokenParts(toks[i + 1..]));
        parts := parts + [text];
      }
      i := i + 1;
    }
    assert toks[i..] == [] && parts + [] == parts;
    r := JoinTexts(parts);
  }

  /** When every kept token is a single word, splitting the passage gives back exactly the
      kept tokens, in order: the passage is their single-space join and nothing else. */
  lemma PassageTextWords(tokens: seq<Json>, start: int, end: int)
    requires TokenParts(PySlice(tokens, start, end)).Ok?
    requires var parts := TokenParts(PySlice(tokens, start, end)).value;
      forall i :: 0 <= i < |parts| ==> parts[i].JStr? && IsWord(parts[i].s)
    ensures var parts := TokenParts(PySlice(tokens, start, end)).value;
      && PassageText(tokens, start, end).Ok?
      && Split(PassageText(tokens, start, end).value) == Strings(parts)
  {
    var parts := TokenParts(PySlice(tokens, start, end)).value;
    SplitJoin(Strings(parts));
  }

  /** extract_from_document_text: the whitespace-separated words start..end of the text,
      joined with single spaces. */
  function DocumentTextPassage(text: string, start: int, end: int): string {
    Join(" ", PySlice(Split(text), start, end))
  }

  /** The fallback passage is made of exactly the words start..end of the document text. */
  lemma DocumentTextPassageWords(text: string, start: int, end: int)
    ensures Split(DocumentTextPassage(text, start, end)) == PySlice(Split(text), start, end)
    ensures Strip(DocumentTextPassage(text, start, end)) == DocumentTextPassage(text, start, end)
  {
    var words := PySlice(Split(text), start, end);
    SplitWords(text);
    SliceOfWords(Split(text), start, end);
    SplitJoin(words);
    StripJoinedWords(words);
  }

  lemma SliceOfWords(words: seq<string>, start: int, end: int)
    requires forall i :: 0 <= i < |words| ==> IsWord(words[i])
    ensures forall i :: 0 <= i < |PySlice(words, start, end)| ==> IsWord(PySlice(words, start, end)[i])
  {
    var a := SliceBound(start, |words|);
    var b := SliceBound(end, |words|);
    if a <= b {
      assert forall i :: 0 <= i < b - a ==> words[a..b][i] == words[a + i];
    }
  }

  /** A single-space join of words has no surrounding whitespace. */
  lemma {:induction false} JoinedWordsEnds(words: seq<string>)
    requires words != []
    requires forall i :: 0 <= i < |words| ==> IsWord(words[i])
    ensures var s := Join(" ", words); s != [] && !IsSpace(s[0]) && !IsSpace(s[|s| - 1])
    decreases |words|
  {
    if |words| > 1 {
      var init := words[..|words| - 1];
      JoinedWordsEnds(init);
      var last := words[|words| - 1];
      var s := Join(" ", init) + " " + last;
      assert s[0] == Join(" ", init)[0];
      assert s[|s| - 1] == last[|last| - 1];
    }
  }

  lemma StripJoinedWords(words: seq<string>)
    requires forall i :: 0 <= i < |words| ==> IsWord(words[i])
    ensures Strip(Join(" ", words)) == Join(" ", words)
  {
    if words != [] {
      JoinedWordsEnds(words);
    }
  }

  // ---------------------------------------------------------------- parsing one example

  /** A parsed example: (question, passage, page_id, title, url). Title and url are whatever
      the example holds; page_id is a string or one of them. */
  datatype Candidate = Candidate(question: string, passage: string, pageId: Json, title: Json, url: Json)

  /** The page id: str(example_id) when example_id is truthy, else the url when it is truthy,
      else the title. */
  function PageId(d: map<string, Json>): Json {
    var exampleId := GetOr(d, "example_id", JStr(""));
    if Truthy(exampleId) then JStr(PyStr(exampleId))
    else Or(GetOr(d, "document_url", JStr("")), GetOr(d, "document_title", JStr("")))
  }

  /** The long answer of the first annotation: None when there are no annotations, an error
      when the annotations are not a list of objects or the long answer is not an object. */
  function FirstLongAnswer(d: map<string, Json>): Result<Option<map<string, Json>>> {
    var annotations := GetOr(d, "annotations", JArr([]));
    if !Truthy(annotations) then Ok(None)
    else if !annotations.JArr? then Err(TypeError("annotations[0]"))
    else if !annotations.items[0].JObj? then Err(TypeError("annotation has no get"))
    else
      var longAnswer := GetOr(annotations.items[0].fields, "long_answer", JObj(map[]));
      if !longAnswer.JObj? then Err(TypeError("long_answer has no get"))
      else Ok(Some(longAnswer.fields))
  }

  /** A token index of the long answer, -1 when absent. */
  function Index(longAnswer: map<string, Json>, key: string): Json {
    GetOr(longAnswer, key, JInt(-1))
  }

  /** A token index as Python compares it: an int is itself, a bool is 0 or 1, a float is its
      value; any other value makes the comparison raise. */
  function Number(j: Json): Option<real> {
    match j
    case JInt(i) => Some(i as real)
    case JBool(b) => Some(if b then 1.0 else 0.0)
    case JFloat(r) => Some(r)
    case _ => None
  }

  /** A token index as a slice bound: only an int or a bool can bound a slice. */
  function SliceIndex(j: Json): Option<int> {
    match j
    case JInt(i) => Some(i)
    case JBool(b) => Some(if b then 1 else 0)
    case _ => None
  }

  /** The passage span (start, end) of a long answer, with the three comparisons made in the
      order of the short-circuit test: None as soon as start < 0, end <= start or
      candidate < 0 holds, a TypeError as soon as a comparison that runs has a non-number
      operand, and a TypeError when a kept span cannot bound a slice. */
  function Span(longAnswer: map<string, Json>): Result<Option<(int, int)>> {
    var st := Number(Index(longAnswer, "start_token"));
    if st.None? then Err(TypeError("start_token < 0")) else
    if st.value < 0.0 then Ok(None) else
    var en := Number(Index(longAnswer, "end_token"));
    if en.None? then Err(TypeError("end_token <= start_token")) else
    if en.value <= st.value then Ok(None) else
    var ci := Number(Index(longAnswer, "candidate_index"));
    if ci.None? then Err(TypeError("candidate_index < 0")) else
    if ci.value < 0.0 then Ok(None) else
    var start, end := SliceIndex(Index(longAnswer, "start_token")), SliceIndex(Index(longAnswer, "end_token"));
    if start.None? || end.None? then Err(TypeError("slice indices must be integers"))
    else Ok(Some((start.value, end.value)))
  }

  /** The passage of an example: from a non-empty token list, else from the document text,
      else None. */
  function ExamplePassage(d: map<string, Json>, start: int, end: int): Result<Option<string>> {
    var tokens := Get(d, "document_tokens");
    if Truthy(tokens) && tokens.JArr? then
      var p :- PassageText(tokens.items, start, end);
      Ok(Some(p))
    else if "document_text" in d then
      if d["document_text"].JStr? then Ok(Some(DocumentTextPassage(d["document_text"].s, start, end)))
      else Err(TypeError("document_text has no split"))
    else Ok(None)
  }

  /** parse_nq_example: Ok(None) for an example to skip, Ok(Some(..)) for a candidate, Err
      when the example has a value of a type the code cannot handle. */
  function ParseNqExample(raw: Json): Result<Option<Candidate>> {
    if !raw.JObj? then Err(TypeError("example has no get")) else
    var d := raw.fields;
    var q := GetOr(d, "question_text", JStr(""));
    if !q.JStr? then Err(TypeError("question_text has no strip")) else
    var question := Strip(q.s);
    if question == "" then Ok(None) else
    var longAnswer :- FirstLongAnswer(d);
    if longAnswer.None? then Ok(None) else
    var span :- Span(longAnswer.value);
    if span.None? then Ok(None) else
    var passage :- ExamplePassage(d, span.value.0, span.value.1);
    if passage.None? then Ok(None) else
    var text := Strip(passage.value);
    if text == "" then Ok(None) else
    Ok(Some(Candidate(question, text, PageId(d),
      GetOr(d, "document_title", JStr("")), GetOr(d, "document_url", JStr("")))))
  }

  /** Only the first annotation is read; no annotations means skip. */
  lemma FirstLongAnswerMeaning(d: map<string, Json>)
    ensures FirstLongAnswer(d) == Ok(None) <==> !Truthy(GetOr(d, "annotations", JArr([])))
    ensures FirstLongAnswer(d).Ok? && FirstLongAnswer(d).value.Some? ==>
      var annotations := GetOr(d, "annotations", JArr([]));
      && annotations.JArr? && annotations.items != [] && annotations.items[0].JObj?
      && JObj(FirstLongAnswer(d).value.value) == GetOr(annotations.items[0].fields, "long_answer", JObj(map[]))
    ensures var annotations := GetOr(d, "annotations", JArr([]));
      annotations.JArr? && annotations.items != [] ==>
        FirstLongAnswer(d) == FirstLongAnswer(d["annotations" := JArr([annotations.items[0]])])
  {
  }

  /** The span rule: an unset index reads as -1, a negative start skips the example whatever
      the other two indices are, a start that is not a number is an error, and a span is kept
      exactly when start and end are ints (or bools) and candidate a number with start >= 0,
      end > start and candidate >= 0. */
  lemma SpanMeaning(longAnswer: map<string, Json>)
    ensures "start_token" !in longAnswer ==> Span(longAnswer) == Ok(None)
    ensures var st := Number(Index(longAnswer, "start_token"));
      st.Some? && st.value < 0.0 ==> Span(longAnswer) == Ok(None)
    ensures Number(Index(longAnswer, "start_token")).None? ==> Span(longAnswer).Err?
    ensures var st, en, ci := SliceIndex(Index(longAnswer, "start_token")),
        SliceIndex(Index(longAnswer, "end_token")), Number(Index(longAnswer, "candidate_index"));
      (Span(longAnswer).Ok? && Span(longAnswer).value.Some?)
        <==> (st.Some? && en.Some? && ci.Some? && 0 <= st.value < en.value && 0.0 <= ci.value)
    ensures Span(longAnswer).Ok? && Span(longAnswer).value.Some? ==>
      Span(longAnswer).value.value
        == (SliceIndex(Index(longAnswer, "start_token")).value, SliceIndex(Index(longAnswer, "end_token")).value)
    ensures var st, en, ci := Index(longAnswer, "start_token"), Index(longAnswer, "end_token"),
        Index(longAnswer, "candidate_index");
      st.JInt? && en.JInt? && ci.JInt? ==>
        && Span(longAnswer).Ok?
        && (Span(longAnswer).value.Some? <==> 0 <= st.i < en.i && 0 <= ci.i)
  {
  }

  /** Two spans the short-circuit order decides: a start of -1 skips the example even with a
      null end, and a start of false reads as token 0. */
  lemma SpanExamples()
    ensures Span(map["start_token" := JInt(-1), "end_token" := JNull]) == Ok(None)
    ensures Span(map["start_token" := JBool(false), "end_token" := JInt(3), "candidate_index" := JInt(0)])
      == Ok(Some((0, 3)))
  {
  }

  /** The token list, when it is a non-empty list, wins over the document text; the example
      is skipped when it has neither. */
  lemma ExamplePassageMeaning(d: map<string, Json>, start: int, end: int)
    ensures var tokens := Get(d, "document_tokens");
      Truthy(tokens) && tokens.JArr? && PassageText(tokens.items, start, end).Ok? ==>
        ExamplePassage(d, start, end) == Ok(Some(PassageText(tokens.items, start, end).value))
    ensures var tokens := Get(d, "document_tokens");
      !(Truthy(tokens) && tokens.JArr?) && "document_text" in d && d["document_text"].JStr? ==>
        ExamplePassage(d, start, end) == Ok(Some(DocumentTextPassage(d["document_text"].s, start, end)))
    ensures var tokens := Get(d, "document_tokens");
      !(Truthy(tokens) && tokens.JArr?) && "document_text" !in d ==> ExamplePassage(d, start, end) == Ok(None)
  {
  }

  /** A candidate has a non-empty stripped question, a non-empty stripped passage from the
      span of the first annotation, and the example's page id, title and url. */
  lemma ParseAccepted(raw: Json, c: Candidate)
    requires ParseNqExample(raw) == Ok(Some(c))
    ensures raw.JObj? && GetOr(raw.fields, "question_text", JStr("")).JStr?
    ensures c.question == Strip(GetOr(raw.fields, "question_text", JStr("")).s) && c.question != ""
    ensures var d := raw.fields;
      && FirstLongAnswer(d).Ok? && FirstLongAnswer(d).value.Some?
      && Span(FirstLongAnswer(d).value.value).Ok? && Span(FirstLongAnswer(d).value.value).value.Some?
      && var (st, en) := Span(FirstLongAnswer(d).value.value).value.value;
      && ExamplePassage(d, st, en).Ok? && ExamplePassage(d, st, en).value.Some?
      && c.passage == Strip(ExamplePassage(d, st, en).value.value) && c.passage != ""
    ensures c.pageId == PageId(raw.fields)
    ensures c.title == GetOr(raw.fields, "document_title", JStr(""))
    ensures c.url == GetOr(raw.fields, "document_url", JStr(""))
  {
  }

  /** The skip cases, in the order the code checks them: a blank question, no annotations, a
      rejected span, no passage source, and a passage that strips to nothing. */
  lemma ParseSkips(d: map<string, Json>)
    requires GetOr(d, "question_text", JStr("")).JStr?
    ensures Strip(GetOr(d, "question_text", JStr("")).s) == "" ==> ParseNqExample(JObj(d)) == Ok(None)
    ensures Strip(GetOr(d, "question_text", JStr("")).s) != "" && FirstLongAnswer(d) == Ok(None)
      ==> ParseNqExample(JObj(d)) == Ok(None)
    ensures Strip(GetOr(d, "question_text", JStr("")).s) != ""
      && FirstLongAnswer(d).Ok? && FirstLongAnswer(d).value.Some?
      && Span(FirstLongAnswer(d).value.value) == Ok(None)
      ==> ParseNqExample(JObj(d)) == Ok(None)
  {
  }

  /** The last two skip cases: no passage source, or a passage that strips to nothing. */
  lemma ParseSkipsPassage(d: map<string, Json>, st: int, en: int)
    requires GetOr(d, "question_text", JStr("")).JStr?
    requires Strip(GetOr(d, "question_text", JStr("")).s) != ""
    requires FirstLongAnswer(d).Ok? && FirstLongAnswer(d).value.Some?
    requires Span(FirstLongAnswer(d).value.value) == Ok(Some((st, en)))
    requires ExamplePassage(d, st, en).Ok?
    ensures ExamplePassage(d, st, en).value.None? ==> ParseNqExample(JObj(d)) == Ok(None)
    ensures ExamplePassage(d, st, en).value.Some? && Strip(ExamplePassage(d, st, en).value.value) == ""
      ==> ParseNqExample(JObj(d)) == Ok(None)
    ensures ExamplePassage(d, st, en).value.Some? && Strip(ExamplePassage(d, st, en).value.value) != ""
      ==> (&& ParseNqExample(JObj(d)).Ok? && ParseNqExample(JObj(d)).value.Some?
           && ParseNqExample(JObj(d)).value.value.passage == Strip(ExamplePassage(d, st, en).value.value))
  {
  }

  /** An example that falls back to its document text, with at least one word in the span,
      yields exactly the words of the span as its passage. */
  lemma ParseDocumentText(d: map<string, Json>)
    requires GetOr(d, "question_text", JStr("")).JStr?
    requires Strip(GetOr(d, "question_text", JStr("")).s) != ""
    requires FirstLongAnswer(d).Ok? && FirstLongAnswer(d).value.Some?
    requires Span(FirstLongAnswer(d).value.value).Ok? && Span(FirstLongAnswer(d).value.value).value.Some?
    requires !(Truthy(Get(d, "document_tokens")) && Get(d, "document_tokens").JArr?)
    requires "document_text" in d && d["document_text"].JStr?
    requires var (st, en) := Span(FirstLongAnswer(d).value.value).value.value;
      PySlice(Split(d["document_text"].s), st, en) != []
    ensures var (st, en) := Span(FirstLongAnswer(d).value.value).value.value;
      && ParseNqExample(JObj(d)).Ok? && ParseNqExample(JObj(d)).value.Some?
      && Split(ParseNqExample(JObj(d)).value.value.passage) == PySlice(Split(d["document_text"].s), st, en)
  {
    var (st, en) := Span(FirstLongAnswer(d).value.value).value.value;
    var text := d["document_text"].s;
    var passage := DocumentTextPassage(text, st, en);
    DocumentTextPassageWords(text, st, en);
    assert Split([]) == [];
    assert passage != [];
    ExamplePassageMeaning(d, st, en);
    assert ExamplePassage(d, st, en) == Ok(Some(passage));
    ParseSkipsPassage(d, st, en);
  }

  /** The page id rule, including its treatment of a falsy example id such as 0: the url is
      used then, and the title only when the url is falsy too. */
  lemma PageIdRule(d: map<string, Json>)
    ensures Truthy(GetOr(d, "example_id", JStr(""))) ==> PageId(d) == JStr(PyStr(d["example_id"]))
    ensures GetOr(d, "example_id", JStr("")) == JInt(0) && Truthy(GetOr(d, "document_url", JStr("")))
      ==> PageId(d) == d["document_url"]
    ensures !Truthy(GetOr(d, "example_id", JStr(""))) && !Truthy(GetOr(d, "document_url", JStr("")))
      ==> PageId(d) == GetOr(d, "document_title", JStr(""))
  {
  }

  // ---------------------------------------------------------------- selection

  function PageCount<K(==)>(counts: map<K, nat>, key: K): nat {
    if key in counts then counts[key] else 0
  }

  /** The Counter key of a candidate's page: page ids Python treats as equal keys (1, 1.0
      and True) count as one page. */
  function PageKey(c: Candidate): Json {
    HashKey(c.pageId)
  }

  /** How many entries of s belong to the page with Counter key `key`. */
  function Occurrences<K(==)>(s: seq<Candidate>, keyOf: Candidate -> K, key: K): nat {
    if s == [] then 0 else (if keyOf(s[0]) == key then 1 else 0) + Occurrences(s[1..], keyOf, key)
  }

  /** The selection loop from the remaining candidates, with the page counts so far and the
      number already taken: a candidate whose page is full is skipped, any other is taken,
      and the loop stops right after the take that brings the total to numQueries. */
  function SelectFrom<K(==)>(cands: seq<Candidate>, keyOf: Candidate -> K, counts: map<K, nat>, taken: nat,
                      numQueries: int, maxPerPage: int): Result<seq<Candidate>>
  {
    if cands == [] then Ok([])
    else if !Hashable(cands[0].pageId) then Err(TypeError("unhashable page_id"))
    else
      var key := keyOf(cands[0]);
      if PageCount(counts, key) >= maxPerPage then SelectFrom(cands[1..], keyOf, counts, taken, numQueries, maxPerPage)
      else if taken + 1 >= numQueries then Ok([cands[0]])
      else
        Prefixed([cands[0]], SelectFrom(cands[1..], keyOf, counts[key := PageCount(counts, key) + 1], taken + 1, numQueries, maxPerPage))
  }

  /** The selection loop of build_subset over the shuffled candidates. */
  method Select(cands: seq<Candidate>, numQueries: int, maxPerPage: int) returns (r: Result<seq<Candidate>>)
    ensures r == SelectFrom(cands, PageKey, map[], 0, numQueries, maxPerPage)
  {
    var pageCounts: map<Json, nat> := map[];
    var selected: seq<Candidate> := [];
    var i := 0;
    assert cands[0..] == cands;
    PrefixedEmpty(SelectFrom(cands, PageKey, map[], 0, numQueries, maxPerPage));
    while i < |cands|
      invariant 0 <= i <= |cands|
      invariant SelectFrom(cands, PageKey, map[], 0, numQueries, maxPerPage)
        == Prefixed(selected, SelectFrom(cands[i..], PageKey, pageCounts, |selected|, numQueries, maxPerPage))
    {
      var c := cands[i];
      assert cands[i..][1..] == cands[i + 1..];
      if !Hashable(c.pageId) {
        return Err(TypeError("unhashable page_id"));
      }
      var key := HashKey(c.pageId);
      if PageCount(pageCounts, key) >= maxPerPage {
        i := i + 1;
        continue;
      }
      var pageCounts' := pageCounts[key := PageCount(pageCounts, key) + 1];
      PrefixedPrefixed(selected, [c], SelectFrom(cands[i + 1..], PageKey, pageCounts', |selected| + 1, numQueries, maxPerPage));
      selected := selected + [c];
      pageCounts := pageCounts';
      if |selected| >= numQueries {
        return Ok(selected);
      }
      i := i + 1;
    }
    assert cands[i..] == [] && selected + [] == selected;
    return Ok(selected);
  }

  /** a is a subsequence of b: its elements appear in b in the same order. */
  predicate Subsequence<T(==)>(a: seq<T>, b: seq<T>)
    decreases |b|
  {
    a == [] || (b != [] && ((a[0] == b[0] && Subsequence(a[1..], b[1..])) || Subsequence(a, b[1..])))
  }

  /** Selection keeps candidate order. */
  lemma {:induction false} SelectKeepsOrder<K>(cands: seq<Candidate>, keyOf: Candidate -> K, counts: map<K, nat>, taken: nat,
                                            numQueries: int, maxPerPage: int)
    requires SelectFrom(cands, keyOf, counts, taken, numQueries, maxPerPage).Ok?
    ensures Subsequence(SelectFrom(cands, keyOf, counts, taken, numQueries, maxPerPage).value, cands)
    decreases |cands|
  {
    if cands != [] {
      var key := keyOf(cands[0]);
      if PageCount(counts, key) >= maxPerPage {
        SelectKeepsOrder(cands[1..], keyOf, counts, taken, numQueries, maxPerPage);
      } else if taken + 1 >= numQueries {
        assert [cands[0]][1..] == [];
      } else {
        var counts' := counts[key := PageCount(counts, key) + 1];
        SelectKeepsOrder(cands[1..], keyOf, counts', taken + 1, numQueries, maxPerPage);
        var r := SelectFrom(cands, keyOf, counts, taken, numQueries, maxPerPage).value;
        assert r[1..] == SelectFrom(cands[1..], keyOf, counts', taken + 1, numQueries, maxPerPage).value;
      }
    }
  }

  /** Selection takes at most numQueries candidates (one when numQueries < 1, since the bound
      is checked after the take). */
  lemma {:induction false} SelectBound<K>(cands: seq<Candidate>, keyOf: Candidate -> K, counts: map<K, nat>, taken: nat,
                                       numQueries: int, maxPerPage: int)
    requires SelectFrom(cands, keyOf, counts, taken, numQueries, maxPerPage).Ok?
    ensures var n := |SelectFrom(cands, keyOf, counts, taken, numQueries, maxPerPage).value|;
      n <= numQueries - taken || n <= 1
    decreases |cands|
  {
    if cands != [] {
      var key := keyOf(cands[0]);
      if PageCount(counts, key) >= maxPerPage {
        SelectBound(cands[1..], keyOf, counts, taken, numQueries, maxPerPage);
      } else if taken + 1 < numQueries {
        SelectBound(cands[1..], keyOf, counts[key := PageCount(counts, key) + 1], taken + 1, numQueries, maxPerPage);
      }
    }
  }

  function Min(a: int, b: int): int { if a <= b then a else b }
  function Max(a: int, b: int): int { if a >= b then a else b }

  /** The per-page cap: no page ends up with more than maxPerPage entries, counting those
      it already had. */
  lemma {:induction false} SelectCapped<K>(cands: seq<Candidate>, keyOf: Candidate -> K, counts: map<K, nat>, taken: nat,
                                        numQueries: int, maxPerPage: int, key: K)
    requires SelectFrom(cands, keyOf, counts, taken, numQueries, maxPerPage).Ok?
    ensures var r := SelectFrom(cands, keyOf, counts, taken, numQueries, maxPerPage).value;
      PageCount(counts, key) + Occurrences(r, keyOf, key) <= Max(maxPerPage, PageCount(counts, key))
    decreases |cands|
  {
    if cands != [] {
      var c := cands[0];
      var k := keyOf(c);
      var r := SelectFrom(cands, keyOf, counts, taken, numQueries, maxPerPage).value;
      if PageCount(counts, k) >= maxPerPage {
        SelectCapped(cands[1..], keyOf, counts, taken, numQueries, maxPerPage, key);
      } else if taken + 1 >= numQueries {
        assert r == [c];
        assert Occurrences(r, keyOf, key) == (if k == key then 1 else 0) by {
          assert r[1..] == [];
        }
      } else {
        var counts' := counts[k := PageCount(counts, k) + 1];
        var rest := SelectFrom(cands[1..], keyOf, counts', taken + 1, numQueries, maxPerPage).value;
        SelectCapped(cands[1..], keyOf, counts', taken + 1, numQueries, maxPerPage, key);
        assert r == [c] + rest;
        assert r[1..] == rest;
      }
    }
  }

  lemma GreedySkip(n: int, here: int, m: int, maxPerPage: int)
    requires here == 0 || (here == 1 && maxPerPage <= n)
    ensures Max(n, Min(maxPerPage, n + m)) == Max(n, Min(maxPerPage, n + here + m))
  {
  }

  lemma GreedyTake(n: int, here: int, m: int, maxPerPage: int)
    requires here == 0 || (here == 1 && n < maxPerPage && 0 <= m)
    ensures Max(n + here, Min(maxPerPage, n + here + m)) == Max(n, Min(maxPerPage, n + here + m))
  {
  }

  /** Greediness: unless the loop stopped at numQueries, every page gets as many of its
      candidates as the cap allows. */
  lemma {:induction false} SelectGreedy<K>(cands: seq<Candidate>, keyOf: Candidate -> K, counts: map<K, nat>, taken: nat,
                                        numQueries: int, maxPerPage: int, key: K)
    requires SelectFrom(cands, keyOf, counts, taken, numQueries, maxPerPage).Ok?
    ensures Greedy(cands, keyOf, counts, taken, numQueries, maxPerPage, key)
    decreases |cands|
  {
    if cands == [] {
      assert SelectFrom(cands, keyOf, counts, taken, numQueries, maxPerPage) == Ok([]);
    } else {
      var k := keyOf(cands[0]);
      if PageCount(counts, k) >= maxPerPage {
        SelectGreedy(cands[1..], keyOf, counts, taken, numQueries, maxPerPage, key);
        GreedySkipStep(cands, keyOf, counts, taken, numQueries, maxPerPage, key);
      } else if taken + 1 < numQueries {
        var counts' := counts[k := PageCount(counts, k) + 1];
        SelectGreedy(cands[1..], keyOf, counts', taken + 1, numQueries, maxPerPage, key);
        GreedyTakeStep(cands, keyOf, counts, taken, numQueries, maxPerPage, key);
      } else {
        assert |SelectFrom(cands, keyOf, counts, taken, numQueries, maxPerPage).value| == 1;
      }
    }
  }

  /** The greediness statement of SelectGreedy, for one call of the selection loop. */
  predicate Greedy<K(==)>(cands: seq<Candidate>, keyOf: Candidate -> K, counts: map<K, nat>, taken: nat,
                   numQueries: int, maxPerPage: int, key: K)
    requires SelectFrom(cands, keyOf, counts, taken, numQueries, maxPerPage).Ok?
  {
    var r := SelectFrom(cands, keyOf, counts, taken, numQueries, maxPerPage).value;
    taken + |r| < numQueries ==>
      PageCount(counts, key) + Occurrences(r, keyOf, key)
        == Max(PageCount(counts, key), Min(maxPerPage, PageCount(counts, key) + Occurrences(cands, keyOf, key)))
  }

  lemma GreedySkipStep<K>(cands: seq<Candidate>, keyOf: Candidate -> K, counts: map<K, nat>, taken: nat,
                       numQueries: int, maxPerPage: int, key: K)
    requires cands != [] && Hashable(cands[0].pageId)
    requires PageCount(counts, keyOf(cands[0])) >= maxPerPage
    requires SelectFrom(cands[1..], keyOf, counts, taken, numQueries, maxPerPage).Ok?
    requires Greedy(cands[1..], keyOf, counts, taken, numQueries, maxPerPage, key)
    ensures SelectFrom(cands, keyOf, counts, taken, numQueries, maxPerPage).Ok?
    ensures Greedy(cands, keyOf, counts, taken, numQueries, maxPerPage, key)
  {
    var n := PageCount(counts, key);
    var here := if keyOf(cands[0]) == key then 1 else 0;
    var m := Occurrences(cands[1..], keyOf, key);
    assert Occurrences(cands, keyOf, key) == here + m;
    GreedySkip(n, here, m, maxPerPage);
  }

  lemma GreedyTakeStep<K>(cands: seq<Candidate>, keyOf: Candidate -> K, counts: map<K, nat>, taken: nat,
                       numQueries: int, maxPerPage: int, key: K)
    requires cands != [] && Hashable(cands[0].pageId)
    requires PageCount(counts, keyOf(cands[0])) < maxPerPage && taken + 1 < numQueries
    requires var k := keyOf(cands[0]);
      var counts' := counts[k := PageCount(counts, k) + 1];
      && SelectFrom(cands[1..], keyOf, counts', taken + 1, numQueries, maxPerPage).Ok?
      && Greedy(cands[1..], keyOf, counts', taken + 1, numQueries, maxPerPage, key)
    ensures SelectFrom(cands, keyOf, counts, taken, numQueries, maxPerPage).Ok?
    ensures Greedy(cands, keyOf, counts, taken, numQueries, maxPerPage, key)
  {
    var c := cands[0];
    var k := keyOf(c);
    var counts' := counts[k := PageCount(counts, k) + 1];
    var rest := SelectFrom(cands[1..], keyOf, counts', taken + 1, numQueries, maxPerPage).value;
    assert SelectFrom(cands, keyOf, counts, taken, numQueries, maxPerPage) == Ok([c] + rest);
    var here := if k == key then 1 else 0;
    OccurrencesCons(c, rest, keyOf, key);
    assert Occurrences(cands, keyOf, key) == here + Occurrences(cands[1..], keyOf, key);
    GreedyTakeCounts(taken, numQueries, maxPerPage, |rest|, PageCount(counts, key), PageCount(counts', key), here,
                     Occurrences(rest, keyOf, key), Occurrences(cands[1..], keyOf, key));
  }

  lemma OccurrencesCons<K>(c: Candidate, rest: seq<Candidate>, keyOf: Candidate -> K, key: K)
    ensures Occurrences([c] + rest, keyOf, key) == (if keyOf(c) == key then 1 else 0) + Occurrences(rest, keyOf, key)
  {
    assert ([c] + rest)[1..] == rest;
  }

  /** The counting behind GreedyTakeStep: n of the page before the take, n + here after it,
      `kept` of the page among the later selections and `m` among the later candidates. */
  lemma GreedyTakeCounts(taken: int, numQueries: int, maxPerPage: int, restLen: int, n: int, n': int, here: int,
                         kept: int, m: int)
    requires here == 0 || (here == 1 && n < maxPerPage && 0 <= m)
    requires n' == n + here
    requires taken + 1 + restLen < numQueries ==> n' + kept == Max(n', Min(maxPerPage, n' + m))
    ensures taken + (1 + restLen) < numQueries ==> n + (here + kept) == Max(n, Min(maxPerPage, n + (here + m)))
  {
    GreedyTake(n, here, m, maxPerPage);
  }

  /** The selection properties from the start of the loop: order kept, at most numQueries
      taken (at least one allowed), at most maxPerPage per page, and, when fewer than
      numQueries were taken, min(maxPerPage, candidates of the page) from every page. */
  lemma SelectProperties(cands: seq<Candidate>, numQueries: int, maxPerPage: int, key: Json)
    requires SelectFrom(cands, PageKey, map[], 0, numQueries, maxPerPage).Ok?
    ensures var r := SelectFrom(cands, PageKey, map[], 0, numQueries, maxPerPage).value;
      && Subsequence(r, cands)
      && (|r| <= numQueries || |r| <= 1)
      && Occurrences(r, PageKey, key) <= Max(maxPerPage, 0)
      && (|r| < numQueries ==> Occurrences(r, PageKey, key) == Max(0, Min(maxPerPage, Occurrences(cands, PageKey, key))))
  {
    SelectKeepsOrder(cands, PageKey, map[], 0, numQueries, maxPerPage);
    SelectBound(cands, PageKey, map[], 0, numQueries, maxPerPage);
    SelectCapped(cands, PageKey, map[], 0, numQueries, maxPerPage, key);
    SelectGreedy(cands, PageKey, map[], 0, numQueries, maxPerPage, key);
  }

  // ---------------------------------------------------------------- id assignment

  function DocId(idx: nat): string { "nq_doc_" + Pad5(idx) }
  function QueryId(idx: nat): string { "nq_q_" + Pad5(idx) }

  /** Distinct positions get distinct ids. */
  lemma DocIdInjective(i: nat, j: nat)
    ensures DocId(i) == DocId(j) <==> i == j
    ensures QueryId(i) == QueryId(j) <==> i == j
  {
    if DocId(i) == DocId(j) {
      assert DocId(i)[7..] == Pad5(i) && DocId(j)[7..] == Pad5(j);
      Pad5RoundTrip(i);
      Pad5RoundTrip(j);
    }
    if QueryId(i) == QueryId(j) {
      assert QueryId(i)[5..] == Pad5(i) && QueryId(j)[5..] == Pad5(j);
      Pad5RoundTrip(i);
      Pad5RoundTrip(j);
    }
  }

  /** The ids of positions 0..n-1. */
  function DocIdsBelow(n: nat): set<string> {
    if n == 0 then {} else DocIdsBelow(n - 1) + {DocId(n - 1)}
  }

  /** The id of position m is not among those of the positions before n <= m. */
  lemma {:induction false} FreshDocId(n: nat, m: nat)
    requires n <= m
    ensures DocId(m) !in DocIdsBelow(n)
  {
    if n > 0 {
      FreshDocId(n - 1, m);
      DocIdInjective(n - 1, m);
    }
  }

  /** The document written for the selected candidate at position idx. */
  function DocumentOf(idx: nat, c: Candidate): Json {
    JObj(map[
      "id" := JStr(DocId(idx)),
      "text" := JStr(c.passage),
      "metadata" := JObj(map[
        "source" := JStr("natural_questions"),
        "page_id" := c.pageId,
        "title" := c.title])])
  }

  /** The query written for the selected candidate at position idx. */
  function QueryOf(idx: nat, c: Candidate): Json {
    JObj(map[
      "id" := JStr(QueryId(idx)),
      "query" := JStr(c.question),
      "positive_ids" := JArr([JStr(DocId(idx))])])
  }

  /** The documents and the queries of the first n selected candidates, in order. */
  function DocumentsUpTo(selected: seq<Candidate>, n: nat): (r: seq<Json>)
    requires n <= |selected|
    ensures |r| == n && forall i :: 0 <= i < n ==> r[i] == DocumentOf(i, selected[i])
  {
    if n == 0 then [] else DocumentsUpTo(selected, n - 1) + [DocumentOf(n - 1, selected[n - 1])]
  }

  function QueriesUpTo(selected: seq<Candidate>, n: nat): (r: seq<Json>)
    requires n <= |selected|
    ensures |r| == n && forall i :: 0 <= i < n ==> r[i] == QueryOf(i, selected[i])
  {
    if n == 0 then [] else QueriesUpTo(selected, n - 1) + [QueryOf(n - 1, selected[n - 1])]
  }

  /** The id-assignment loop of build_subset: every selected candidate gets a document and a
      query with the ids of its position. The doc_id_set check never skips a document,
      because the ids of distinct positions differ. */
  method AssignIds(selected: seq<Candidate>) returns (documents: seq<Json>, queries: seq<Json>)
    ensures |documents| == |selected| && |queries| == |selected|
    ensures forall i :: 0 <= i < |selected| ==> documents[i] == DocumentOf(i, selected[i])
    ensures forall i :: 0 <= i < |selected| ==> queries[i] == QueryOf(i, selected[i])
  {
    documents, queries := [], [];
    var docIdSet: set<string> := {};
    for idx := 0 to |selected|
      invariant documents == DocumentsUpTo(selected, idx)
      invariant queries == QueriesUpTo(selected, idx)
      invariant docIdSet == DocIdsBelow(idx)
    {
      var c := selected[idx];
      var docId := DocId(idx);
      if docId !in docIdSet {
        docIdSet := docIdSet + {docId};
        documents := documents + [DocumentOf(idx, c)];
      } else {
        FreshDocId(idx, idx);
        assert false;
      }
      queries := queries + [QueryOf(idx, c)];
    }
  }

  /** The output pairs position by position: query i's only positive is document i, and no
      two documents (or queries) share an id. */
  lemma OutputPaired(selected: seq<Candidate>, i: nat, j: nat)
    requires i < |selected| && j < |selected|
    ensures QueryOf(i, selected[i]).fields["positive_ids"] == JArr([DocumentOf(i, selected[i]).fields["id"]])
    ensures i != j ==> DocumentOf(i, selected[i]).fields["id"] != DocumentOf(j, selected[j]).fields["id"]
    ensures i != j ==> QueryOf(i, selected[i]).fields["id"] != QueryOf(j, selected[j]).fields["id"]
  {
    DocIdInjective(i, j);
  }

  /** Selection followed by id assignment: the part of build_subset after reading and
      shuffling, over the candidates in shuffled order. */
  method BuildFromCandidates(cands: seq<Candidate>, numQueries: int, maxPerPage: int)
    returns (r: Result<(seq<Json>, seq<Json>)>)
    ensures SelectFrom(cands, PageKey, map[], 0, numQueries, maxPerPage).Err? <==> r.Err?
    ensures r.Ok? ==> var selected := SelectFrom(cands, PageKey, map[], 0, numQueries, maxPerPage).value;
      && |r.value.0| == |selected| && |r.value.1| == |selected|
      && (forall i :: 0 <= i < |selected| ==> r.value.0[i] == DocumentOf(i, selected[i]))
      && (forall i :: 0 <= i < |selected| ==> r.value.1[i] == QueryOf(i, selected[i]))
  {
    var selected := Select(cands, numQueries, maxPerPage);
    if selected.Err? {
      return Err(selected.error);
    }
    var documents, queries := AssignIds(selected.value);
    return Ok((documents, queries));
  }
}

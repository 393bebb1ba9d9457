/** The JSON Lines dataset loader (musubi_eval/dataset.py): the lines of documents.jsonl and
    queries.jsonl, each stripped; blank ones skipped, every other one decoded (the decoder is a
    parameter) and turned into exactly one Document or Query, or the load raises. */
module Dataset {
  import opened Values
  import opened Domain
  import RunScenario
  import NqSubset

  const DocumentRowError := "document row must include 'id' and 'text'"
  const QueryRowError := "query row must include 'id', 'query', and 'positive_ids'"

  /** The Document of one decoded row: `id` and `text` must be there and are passed through
      str(); `metadata` is optional. */
  function DocumentOfRow(row: Json): Result<Document> {
    var hasId :- Contains(row, "id");
    var hasText :- if hasId then Contains(row, "text") else Ok(false);
    if !hasId || !hasText then Err(ValueError(DocumentRowError))
    else
      var id :- Subscript(row, "id");
      var text :- Subscript(row, "text");
      var metadata :- OptionalObject(row.fields, "metadata");
      Ok(Document(PyStr(id), PyStr(text), metadata))
  }

  /** `[str(x) for x in ids]`. */
  function Stringify(ids: seq<Json>): (r: seq<string>)
    ensures |r| == |ids| && forall i :: 0 <= i < |ids| ==> r[i] == PyStr(ids[i])
  {
    seq(|ids|, i requires 0 <= i < |ids| => PyStr(ids[i]))
  }

  /** The Query of one decoded row: `id`, `query` and `positive_ids` must be there; the
      positive ids are iterated and each passed through str(); `filter` is optional. */
  function QueryOfRow(row: Json): Result<Query> {
    var hasId :- Contains(row, "id");
    var hasQuery :- if hasId then Contains(row, "query") else Ok(false);
    var hasPositives :- if hasId && hasQuery then Contains(row, "positive_ids") else Ok(false);
    if !hasId || !hasQuery || !hasPositives then Err(ValueError(QueryRowError))
    else
      var positives :- Subscript(row, "positive_ids");
      var pids :- Iterate(positives);
      var id :- Subscript(row, "id");
      var query :- Subscript(row, "query");
      var filter :- OptionalObject(row.fields, "filter");
      Ok(Query(PyStr(id), PyStr(query), Stringify(pids), filter))
  }

  /** Decoding one stripped line and converting the row. */
  function RecordOf<T>(line: string, decode: string -> Result<Json>, convert: Json -> Result<T>): Result<T> {
    var row :- decode(line);
    convert(row)
  }

  /** The load as a function of the lines: front to back, a blank line skipped, any other
      line giving one record, the first failure ending the load. */
  function Loaded<T>(lines: seq<string>, decode: string -> Result<Json>, convert: Json -> Result<T>): Result<seq<T>> {
    if lines == [] then Ok([])
    else
      var line := Strip(lines[0]);
      if line == "" then Loaded(lines[1..], decode, convert)
      else
        var record :- RecordOf(line, decode, convert);
        var rest :- Loaded(lines[1..], decode, convert);
        Ok([record] + rest)
  }

  /** The lines _read_jsonl yields: every line stripped, the empty ones dropped, in order. */
  function NonBlank(lines: seq<string>): (r: seq<string>)
    ensures |r| <= |lines|
    ensures forall i :: 0 <= i < |r| ==> r[i] != ""
  {
    if lines == [] then []
    else
      var line := Strip(lines[0]);
      (if line == "" then [] else [line]) + NonBlank(lines[1..])
  }

  /** load_documents: the loop over the non-blank lines, appending one Document per line. */
  method LoadDocuments(lines: seq<string>, decode: string -> Result<Json>) returns (r: Result<seq<Document>>)
    ensures r == Loaded(lines, decode, DocumentOfRow)
  {
    var docs: seq<Document> := [];
    var i := 0;
    assert lines[i..] == lines;
    ThenNothing(Loaded(lines, decode, DocumentOfRow));
    while i < |lines|
      invariant 0 <= i <= |lines|
      invariant Loaded(lines, decode, DocumentOfRow) == Then(docs, Loaded(lines[i..], decode, DocumentOfRow))
    {
      LoadedStep(lines, i, decode, DocumentOfRow, docs);
      var line := Strip(lines[i]);
      if line != "" {
        var row := decode(line);
        if row.Err? {
          return Err(row.error);
        }
        var doc := DocumentOfRow(row.value);
        assert RecordOf(line, decode, DocumentOfRow) == doc;
        if doc.Err? {
          return Err(doc.error);
        }
        docs := docs + [doc.value];
      }
      i := i + 1;
    }
    assert lines[i..] == [] && docs + [] == docs;
    return Ok(docs);
  }

  /** load_queries: the loop over the non-blank lines, appending one Query per line. */
  method LoadQueries(lines: seq<string>, decode: string -> Result<Json>) returns (r: Result<seq<Query>>)
    ensures r == Loaded(lines, decode, QueryOfRow)
  {
    var queries: seq<Query> := [];
    var i := 0;
    assert lines[i..] == lines;
    ThenNothing(Loaded(lines, decode, QueryOfRow));
    while i < |lines|
      invariant 0 <= i <= |lines|
      invariant Loaded(lines, decode, QueryOfRow) == Then(queries, Loaded(lines[i..], decode, QueryOfRow))
    {
      LoadedStep(lines, i, decode, QueryOfRow, queries);
      var line := Strip(lines[i]);
      if line != "" {
        var row := decode(line);
        if row.Err? {
          return Err(row.error);
        }
        var query := QueryOfRow(row.value);
        assert RecordOf(line, decode, QueryOfRow) == query;
        if query.Err? {
          return Err(query.error);
        }
        queries := queries + [query.value];
      }
      i := i + 1;
    }
    assert lines[i..] == [] && queries + [] == queries;
    return Ok(queries);
  }

  /** One step of the load at line i, after the records `done`: a blank line adds nothing;
      any other line adds its record, or ends the load with its failure. */
  lemma LoadedStep<T>(lines: seq<string>, i: nat, decode: string -> Result<Json>, convert: Json -> Result<T>, done: seq<T>)
    requires i < |lines|
    ensures var line := Strip(lines[i]); var now := Then(done, Loaded(lines[i..], decode, convert));
      var rest := Loaded(lines[i + 1..], decode, convert);
      && (line == "" ==> now == Then(done, rest))
      && (line != "" && RecordOf(line, decode, convert).Err? ==> now == Err(RecordOf(line, decode, convert).error))
      && (line != "" && RecordOf(line, decode, convert).Ok? ==>
            now == Then(done + [RecordOf(line, decode, convert).value], rest))
  {
    assert lines[i..][0] == lines[i] && lines[i..][1..] == lines[i + 1..];
    var line := Strip(lines[i]);
    var rest := Loaded(lines[i + 1..], decode, convert);
    if line != "" && RecordOf(line, decode, convert).Ok? && rest.Ok? {
      var x := RecordOf(line, decode, convert).value;
      assert done + ([x] + rest.value) == done + [x] + rest.value;
    }
  }

  /** The records of lines already stripped and non-blank, front to back. */
  function Records<T>(rows: seq<string>, decode: string -> Result<Json>, convert: Json -> Result<T>): Result<seq<T>> {
    if rows == [] then Ok([])
    else
      var record :- RecordOf(rows[0], decode, convert);
      var rest :- Records(rows[1..], decode, convert);
      Ok([record] + rest)
  }

  /** The load is the records of the non-blank lines. */
  lemma {:induction false} LoadedRecords<T>(lines: seq<string>, decode: string -> Result<Json>, convert: Json -> Result<T>)
    ensures Loaded(lines, decode, convert) == Records(NonBlank(lines), decode, convert)
  {
    if lines != [] {
      var rest := lines[1..];
      LoadedRecords(rest, decode, convert);
      var line := Strip(lines[0]);
      if line == "" {
        assert NonBlank(lines) == NonBlank(rest);
        assert Loaded(lines, decode, convert) == Loaded(rest, decode, convert);
      } else {
        var rows := NonBlank(lines);
        assert rows == [line] + NonBlank(rest);
        assert rows[0] == line && rows[1..] == NonBlank(rest);
        assert Records(rows, decode, convert) == (
          var record :- RecordOf(line, decode, convert);
          var tail :- Records(NonBlank(rest), decode, convert);
          Ok([record] + tail));
      }
    }
  }

  /** The records of the rows: one per row, in order, or the failure of the first row that
      fails. */
  lemma {:induction false} RecordsMeaning<T>(rows: seq<string>, decode: string -> Result<Json>, convert: Json -> Result<T>)
    ensures var r := Records(rows, decode, convert);
      && (r.Ok? <==> forall i :: 0 <= i < |rows| ==> RecordOf(rows[i], decode, convert).Ok?)
      && (r.Ok? ==> |r.value| == |rows| && forall i :: 0 <= i < |rows| ==> RecordOf(rows[i], decode, convert) == Ok(r.value[i]))
      && (r.Err? ==> exists i :: 0 <= i < |rows| && FirstFailure(rows, i, decode, convert) && RecordOf(rows[i], decode, convert) == Err(r.error))
  {
    if rows != [] {
      var tail := rows[1..];
      RecordsMeaning(tail, decode, convert);
      assert forall i :: 0 < i < |rows| ==> rows[i] == tail[i - 1];
      var r := Records(rows, decode, convert);
      if RecordOf(rows[0], decode, convert).Err? {
        assert FirstFailure(rows, 0, decode, convert);
      } else if r.Err? {
        var i :| 0 <= i < |tail| && FirstFailure(tail, i, decode, convert) && RecordOf(tail[i], decode, convert) == Err(r.error);
        assert FirstFailure(rows, i + 1, decode, convert);
      }
    }
  }

  /** Row i is the first row whose record fails. */
  predicate FirstFailure<T>(rows: seq<string>, i: int, decode: string -> Result<Json>, convert: Json -> Result<T>) {
    && 0 <= i < |rows| && RecordOf(rows[i], decode, convert).Err?
    && forall j :: 0 <= j < i ==> RecordOf(rows[j], decode, convert).Ok?
  }

  /** Every non-blank line yields exactly one record, in input order, and blank lines yield
      nothing; the load fails exactly when some non-blank line does not decode or convert, and
      then with the failure of the first such line. */
  lemma LoadedMeaning<T>(lines: seq<string>, decode: string -> Result<Json>, convert: Json -> Result<T>)
    ensures var r := Loaded(lines, decode, convert);
      var rows := NonBlank(lines);
      && (r.Ok? <==> forall i :: 0 <= i < |rows| ==> RecordOf(rows[i], decode, convert).Ok?)
      && (r.Ok? ==> |r.value| == |rows| && forall i :: 0 <= i < |rows| ==> RecordOf(rows[i], decode, convert) == Ok(r.value[i]))
      && (r.Err? ==> exists i :: FirstFailure(rows, i, decode, convert) && RecordOf(rows[i], decode, convert) == Err(r.error))
  {
    LoadedRecords(lines, decode, convert);
    RecordsMeaning(NonBlank(lines), decode, convert);
  }

  /** Blank and whitespace-only lines, wherever they stand, change nothing. */
  lemma {:induction false} LoadedSkipsBlank<T>(before: seq<string>, blank: string, after: seq<string>,
                                                decode: string -> Result<Json>, convert: Json -> Result<T>)
    requires Strip(blank) == ""
    ensures Loaded(before + [blank] + after, decode, convert) == Loaded(before + after, decode, convert)
  {
    if before == [] {
      var lines := [blank] + after;
      assert before + [blank] + after == lines && before + after == after;
      assert lines[0] == blank && lines[1..] == after;
    } else {
      var lines := before + [blank] + after;
      assert lines[0] == before[0] && lines[1..] == before[1..] + [blank] + after;
      assert (before + after)[0] == before[0] && (before + after)[1..] == before[1..] + after;
      LoadedSkipsBlank(before[1..], blank, after, decode, convert);
    }
  }

  /** A document row: rejected with the "must include" ValueError when an object lacks `id` or
      `text`; accepted exactly when it is an object with both and a metadata that is absent,
      null or a map; then id and text are their str() and metadata is None exactly when absent
      or null. */
  lemma DocumentRowMeaning(row: Json)
    ensures row.JObj? && ("id" !in row.fields || "text" !in row.fields) ==> DocumentOfRow(row) == Err(ValueError(DocumentRowError))
    ensures DocumentOfRow(row).Ok? <==>
      row.JObj? && "id" in row.fields && "text" in row.fields && (Get(row.fields, "metadata").JNull? || row.fields["metadata"].JObj?)
    ensures DocumentOfRow(row).Ok? ==> var d := DocumentOfRow(row).value;
      && d.id == PyStr(row.fields["id"]) && d.text == PyStr(row.fields["text"])
      && (d.metadata.None? <==> Get(row.fields, "metadata") == JNull)
      && (d.metadata.Some? ==> row.fields["metadata"] == JObj(d.metadata.value))
  {
  }

  /** A query row: rejected with the "must include" ValueError when an object lacks `id`,
      `query` or `positive_ids`; otherwise the positive ids are the row's list with each element
      passed through str(), in order and of the same length, and the filter is None exactly
      when absent or null. */
  lemma QueryRowMeaning(row: Json)
    ensures row.JObj? && ("id" !in row.fields || "query" !in row.fields || "positive_ids" !in row.fields) ==>
      QueryOfRow(row) == Err(ValueError(QueryRowError))
    ensures QueryOfRow(row).Ok? ==>
      && row.JObj? && "id" in row.fields && "query" in row.fields && "positive_ids" in row.fields
      && Iterate(row.fields["positive_ids"]).Ok?
    ensures QueryOfRow(row).Ok? ==> var q := QueryOfRow(row).value; var pids := Iterate(row.fields["positive_ids"]).value;
      && q.id == PyStr(row.fields["id"]) && q.query == PyStr(row.fields["query"])
      && |q.positiveIds| == |pids| && (forall i :: 0 <= i < |pids| ==> q.positiveIds[i] == PyStr(pids[i]))
      && (q.filter.None? <==> Get(row.fields, "filter") == JNull)
      && (q.filter.Some? ==> row.fields["filter"] == JObj(q.filter.value))
    ensures (&& row.JObj? && "id" in row.fields && "query" in row.fields && "positive_ids" in row.fields
             && row.fields["positive_ids"].JArr? && (Get(row.fields, "filter").JNull? || row.fields["filter"].JObj?))
      ==> QueryOfRow(row).Ok?
  {
  }

  /** A document sent to documents_batch loads back as the same document. */
  lemma PayloadLoadsBack(d: Document)
    ensures DocumentOfRow(JObj(RunScenario.DocumentPayload(d))) == Ok(d)
  {
    var m := RunScenario.DocumentPayload(d);
    assert "id" in m && "text" in m;
    if d.metadata.None? {
      assert "metadata" !in m;
    }
  }

  /** The rows the Natural Questions subset builder writes are accepted by the loader: the
      document keeps its id, passage and metadata, and the query names exactly its document. */
  lemma NqRowsLoad(idx: nat, c: NqSubset.Candidate)
    ensures DocumentOfRow(NqSubset.DocumentOf(idx, c)).Ok?
    ensures var d := DocumentOfRow(NqSubset.DocumentOf(idx, c)).value;
      d.id == NqSubset.DocId(idx) && d.text == c.passage && d.metadata.Some?
    ensures QueryOfRow(NqSubset.QueryOf(idx, c)) ==
      Ok(Query(NqSubset.QueryId(idx), c.question, [NqSubset.DocId(idx)], None))
  {
    var q := NqSubset.QueryOf(idx, c).fields;
    assert "id" in q && "query" in q && "positive_ids" in q && "filter" !in q;
    assert Iterate(q["positive_ids"]) == Ok([JStr(NqSubset.DocId(idx))]);
    assert Stringify([JStr(NqSubset.DocId(idx))]) == [NqSubset.DocId(idx)];
    var d := NqSubset.DocumentOf(idx, c).fields;
    assert "id" in d && "text" in d && "metadata" in d;
  }
}

/** The dataset validator (scripts/validate_dataset.py) over already decoded rows of
    documents.jsonl and queries.jsonl: required keys, duplicate ids, positive ids that name
    no document, and summary statistics. */
module ValidateDataset {
  import opened Values

  /** A decoded JSONL row. */
  type Row = map<string, Json>

  /** One error the validator reports; Message renders it as the script prints it. */
  datatype Issue =
    | MissingRequiredKey(listName: string, index: nat, key: string)
    | DuplicateId(listName: string, index: nat, id: Json, first: nat)
    | UnknownPositiveId(index: nat, queryId: Json, positiveId: Json)
    | FileNotFound(path: string)

  function Message(issue: Issue): string {
    match issue
    case MissingRequiredKey(listName, index, key) =>
      listName + "[" + NatToDecimal(index) + "]: missing required key '" + key + "'"
    case DuplicateId(listName, index, id, first) =>
      listName + "[" + NatToDecimal(index) + "]: " + "duplicate"
        + (" id '" + PyStr(id) + "' (first at index " + NatToDecimal(first) + ")")
    case UnknownPositiveId(index, queryId, positiveId) =>
      "queries[" + NatToDecimal(index) + "] (id=" + PyStr(queryId) + "): positive_id '" + PyStr(positiveId)
        + "' not found in documents"
    case FileNotFound(path) => "file not found: " + path
  }

  lemma MentionsMiddle(a: string, t: string, b: string)
    ensures Mentions(a + t + b, t)
  {
    var s := a + t + b;
    assert s[|a|..|a| + |t|] == t;
  }

  /** Each message names what it is about: the missing key, the word "duplicate", the
      unknown positive id, the missing file. */
  lemma MessageMentions(issue: Issue)
    ensures issue.MissingRequiredKey? ==> Mentions(Message(issue), issue.key)
    ensures issue.DuplicateId? ==> Mentions(Message(issue), "duplicate")
    ensures issue.UnknownPositiveId? ==> Mentions(Message(issue), PyStr(issue.positiveId))
    ensures issue.FileNotFound? ==> Mentions(Message(issue), issue.path)
  {
    match issue
    case MissingRequiredKey(listName, index, key) =>
      MentionsMiddle(listName + "[" + NatToDecimal(index) + "]: missing required key '", key, "'");
    case DuplicateId(listName, index, id, first) =>
      MentionsMiddle(listName + "[" + NatToDecimal(index) + "]: ", "duplicate",
                     " id '" + PyStr(id) + "' (first at index " + NatToDecimal(first) + ")");
    case UnknownPositiveId(index, queryId, positiveId) =>
      MentionsMiddle("queries[" + NatToDecimal(index) + "] (id=" + PyStr(queryId) + "): positive_id '",
                     PyStr(positiveId), "' not found in documents");
    case FileNotFound(path) =>
      MentionsMiddle("file not found: ", path, "");
      assert "file not found: " + path + "" == Message(issue);
  }

  // ---------------------------------------------------------------- required keys

  /** The errors of one row: one per required key it lacks, in the order of `required`. */
  function MissingKeys(item: Row, index: nat, required: seq<string>, listName: string): seq<Issue> {
    if required == [] then []
    else
      var key := required[|required| - 1];
      MissingKeys(item, index, required[..|required| - 1], listName)
        + (if key in item then [] else [MissingRequiredKey(listName, index, key)])
  }

  /** check_required_keys as a function of the rows: row by row, and key by key in each. */
  function RequiredKeyIssues(items: seq<Row>, required: seq<string>, listName: string): seq<Issue> {
    if items == [] then []
    else
      RequiredKeyIssues(items[..|items| - 1], required, listName)
        + MissingKeys(items[|items| - 1], |items| - 1, required, listName)
  }

  /** check_required_keys: the nested loop over rows and required keys. */
  method CheckRequiredKeys(items: seq<Row>, required: seq<string>, listName: string) returns (errors: seq<Issue>)
    ensures errors == RequiredKeyIssues(items, required, listName)
  {
    errors := [];
    var idx := 0;
    while idx < |items|
      invariant 0 <= idx <= |items|
      invariant errors == RequiredKeyIssues(items[..idx], required, listName)
    {
      var item := items[idx];
      ghost var before := errors;
      var j := 0;
      while j < |required|
        invariant 0 <= j <= |required|
        invariant errors == before + MissingKeys(item, idx, required[..j], listName)
      {
        assert required[..j + 1][..j] == required[..j];
        if required[j] !in item {
          errors := errors + [MissingRequiredKey(listName, idx, required[j])];
        }
        j := j + 1;
      }
      assert required[..j] == required;
      assert items[..idx + 1][..idx] == items[..idx];
      idx := idx + 1;
    }
    assert items[..idx] == items;
  }

  lemma {:induction false} MissingKeysMeaning(item: Row, index: nat, required: seq<string>, listName: string)
    ensures forall e :: e in MissingKeys(item, index, required, listName) <==>
      e.MissingRequiredKey? && e.listName == listName && e.index == index && e.key in required && e.key !in item
  {
    if required != [] {
      var init := required[..|required| - 1];
      MissingKeysMeaning(item, index, init, listName);
      assert required == init + [required[|required| - 1]];
    }
  }

  /** An error for row i and key k exactly when k is required and row i lacks it. */
  lemma {:induction false} RequiredKeysMeaning(items: seq<Row>, required: seq<string>, listName: string)
    ensures forall e :: e in RequiredKeyIssues(items, required, listName) <==>
      && e.MissingRequiredKey? && e.listName == listName && e.index < |items|
      && e.key in required && e.key !in items[e.index]
  {
    if items != [] {
      var n := |items| - 1;
      RequiredKeysMeaning(items[..n], required, listName);
      MissingKeysMeaning(items[n], n, required, listName);
      forall e
        ensures e in RequiredKeyIssues(items, required, listName) <==>
          && e.MissingRequiredKey? && e.listName == listName && e.index < |items|
          && e.key in required && e.key !in items[e.index]
      {
        if e.MissingRequiredKey? && e.index < n {
          assert items[..n][e.index] == items[e.index];
        }
      }
    }
  }

  /** Missing-key errors whose row index never goes down. */
  predicate RowOrdered(r: seq<Issue>) {
    forall i, j :: 0 <= i < j < |r| ==> r[i].MissingRequiredKey? && r[j].MissingRequiredKey? && r[i].index <= r[j].index
  }

  /** The errors come row by row: the row index never goes down. */
  lemma {:induction false} RequiredKeysOrdered(items: seq<Row>, required: seq<string>, listName: string)
    ensures RowOrdered(RequiredKeyIssues(items, required, listName))
  {
    if items != [] {
      var n := |items| - 1;
      var prior := RequiredKeyIssues(items[..n], required, listName);
      var last := MissingKeys(items[n], n, required, listName);
      RequiredKeysOrdered(items[..n], required, listName);
      RequiredKeysMeaning(items[..n], required, listName);
      MissingKeysMeaning(items[n], n, required, listName);
      var r := prior + last;
      forall i, j | 0 <= i < j < |r|
        ensures r[i].MissingRequiredKey? && r[j].MissingRequiredKey? && r[i].index <= r[j].index
      {
        if j < |prior| {
          assert r[i] == prior[i] && r[j] == prior[j];
        } else if i < |prior| {
          assert r[i] == prior[i] && prior[i] in prior;
          assert r[j] == last[j - |prior|] && last[j - |prior|] in last;
          assert r[i].index < n && r[j].index == n;
        } else {
          assert r[i] == last[i - |prior|] && last[i - |prior|] in last;
          assert r[j] == last[j - |prior|] && last[j - |prior|] in last;
        }
      }
    }
  }

  /** No errors exactly when every row has every required key. */
  lemma RequiredKeysNone(items: seq<Row>, required: seq<string>, listName: string)
    ensures RequiredKeyIssues(items, required, listName) == [] <==> HasKeys(items, required)
  {
    RequiredKeysMeaning(items, required, listName);
    var r := RequiredKeyIssues(items, required, listName);
    if r != [] {
      assert r[0] in r;
    }
    if exists i, k :: 0 <= i < |items| && k in required && k !in items[i] {
      var i, k :| 0 <= i < |items| && k in required && k !in items[i];
      assert MissingRequiredKey(listName, i, k) in r;
    }
  }

  // ---------------------------------------------------------------- duplicate ids

  /** The id check_duplicate_ids reads: an absent id reads as "". */
  function IdOf(item: Row): Json {
    GetOr(item, "id", JStr(""))
  }

  /** The key that id is under in `seen`. */
  function IdKey(item: Row): Json {
    HashKey(IdOf(item))
  }

  /** The loop of check_duplicate_ids: the errors so far and `seen`, the index where each id
      key was first met; an id that cannot be a key raises TypeError. */
  function DuplicateScan(items: seq<Row>, listName: string): Result<(seq<Issue>, map<Json, nat>)> {
    if items == [] then Ok(([], map[]))
    else
      var n := |items| - 1;
      var prior := DuplicateScan(items[..n], listName);
      if prior.Err? then prior
      else if !Hashable(IdOf(items[n])) then Err(TypeError("unhashable id"))
      else
        var errors := prior.value.0;
        var seen := prior.value.1;
        var key := IdKey(items[n]);
        if key in seen then Ok((errors + [DuplicateId(listName, n, IdOf(items[n]), seen[key])], seen))
        else Ok((errors, seen[key := n]))
  }

  /** check_duplicate_ids as a function of the rows. */
  function DuplicateIdIssues(items: seq<Row>, listName: string): Result<seq<Issue>> {
    var scan := DuplicateScan(items, listName);
    if scan.Err? then Err(scan.error) else Ok(scan.value.0)
  }

  /** check_duplicate_ids: one pass that keeps the first index of every id in `seen`. */
  method CheckDuplicateIds(items: seq<Row>, listName: string) returns (r: Result<seq<Issue>>)
    ensures r == DuplicateIdIssues(items, listName)
  {
    var errors := [];
    var seen: map<Json, nat> := map[];
    var idx := 0;
    while idx < |items|
      invariant 0 <= idx <= |items|
      invariant DuplicateScan(items[..idx], listName) == Ok((errors, seen))
    {
      assert items[..idx + 1][..idx] == items[..idx];
      var itemId := IdOf(items[idx]);
      if !Hashable(itemId) {
        DuplicateScanStops(items, idx + 1, listName);
        return Err(TypeError("unhashable id"));
      }
      var key := HashKey(itemId);
      if key in seen {
        errors := errors + [DuplicateId(listName, idx, itemId, seen[key])];
      } else {
        seen := seen[key := idx];
      }
      idx := idx + 1;
    }
    assert items[..idx] == items;
    return Ok(errors);
  }

  /** Once an id raised, the rest of the rows change nothing. */
  lemma {:induction false} DuplicateScanStops(items: seq<Row>, n: nat, listName: string)
    requires 0 < n <= |items| && DuplicateScan(items[..n], listName).Err?
    ensures DuplicateScan(items, listName) == DuplicateScan(items[..n], listName)
    decreases |items| - n
  {
    if n == |items| {
      assert items[..n] == items;
    } else {
      var init := items[..|items| - 1];
      assert init[..n] == items[..n];
      DuplicateScanStops(init, n, listName);
    }
  }

  /** The scan raises exactly when some row's id is a list or an object. */
  lemma {:induction false} DuplicateScanFails(items: seq<Row>, listName: string)
    ensures DuplicateScan(items, listName).Err? <==> exists i :: 0 <= i < |items| && !Hashable(IdOf(items[i]))
  {
    if items != [] {
      var n := |items| - 1;
      DuplicateScanFails(items[..n], listName);
      if exists i :: 0 <= i < n && !Hashable(IdOf(items[..n][i])) {
        var i :| 0 <= i < n && !Hashable(IdOf(items[..n][i]));
        assert items[i] == items[..n][i];
      }
      if exists i :: 0 <= i < |items| && !Hashable(IdOf(items[i])) {
        var i :| 0 <= i < |items| && !Hashable(IdOf(items[i]));
        if i < n {
          assert items[..n][i] == items[i];
        }
      }
    }
  }

  /** Row f is the first row whose id has the key `key`. */
  predicate FirstWith(items: seq<Row>, f: int, key: Json) {
    && 0 <= f < |items| && IdKey(items[f]) == key
    && forall j :: 0 <= j < f ==> IdKey(items[j]) != key
  }

  /** `seen` holds the key of every row's id and no other. */
  ghost predicate SeenKeys(items: seq<Row>, seen: map<Json, nat>) {
    forall key :: key in seen <==> exists i :: 0 <= i < |items| && IdKey(items[i]) == key
  }

  /** `seen` maps every key to the first row with it. */
  predicate SeenFirst(items: seq<Row>, seen: map<Json, nat>) {
    forall key :: key in seen ==> FirstWith(items, seen[key], key)
  }

  /** The duplicate error a row gives, if any: one naming the first row with its id key. */
  ghost predicate DuplicateOf(items: seq<Row>, listName: string, e: Issue) {
    && e.DuplicateId? && e.listName == listName && 0 <= e.index < |items|
    && e.id == IdOf(items[e.index]) && e.first < e.index && FirstWith(items, e.first, IdKey(items[e.index]))
  }

  /** The errors are exactly the duplicate errors of the rows. */
  ghost predicate DuplicatesListed(items: seq<Row>, listName: string, errors: seq<Issue>) {
    forall e :: e in errors <==> DuplicateOf(items, listName, e)
  }

  /** Duplicate errors in strictly increasing row order. */
  predicate IndexIncreasing(errors: seq<Issue>) {
    forall i, j :: 0 <= i < j < |errors| ==> errors[i].DuplicateId? && errors[j].DuplicateId? && errors[i].index < errors[j].index
  }

  /** What the scan has computed after the rows `items`: `seen` holds the first index of
      every id key met, and there is one error for every later row with a key met before,
      naming that first index, in row order. */
  ghost predicate ScanMeans(items: seq<Row>, listName: string, errors: seq<Issue>, seen: map<Json, nat>) {
    SeenKeys(items, seen) && SeenFirst(items, seen) && DuplicatesListed(items, listName, errors) && IndexIncreasing(errors)
  }

  lemma FirstWithUnique(items: seq<Row>, f: int, g: int, key: Json)
    requires FirstWith(items, f, key) && FirstWith(items, g, key)
    ensures f == g
  {
  }

  lemma FirstWithExtend(items: seq<Row>, f: int, key: Json)
    requires items != [] && f < |items| - 1
    ensures FirstWith(items[..|items| - 1], f, key) <==> FirstWith(items, f, key)
  {
    var init := items[..|items| - 1];
    if 0 <= f {
      assert forall j :: 0 <= j <= f ==> init[j] == items[j];
    }
  }

  /** The keys of one more row. */
  lemma SeenKeysStep(items: seq<Row>, seen: map<Json, nat>, seen': map<Json, nat>)
    requires items != [] && SeenKeys(items[..|items| - 1], seen)
    requires seen'.Keys == seen.Keys + {IdKey(items[|items| - 1])}
    ensures SeenKeys(items, seen')
  {
    var n := |items| - 1;
    var init := items[..n];
    forall k
      ensures k in seen' <==> exists i :: 0 <= i < |items| && IdKey(items[i]) == k
    {
      if exists i :: 0 <= i < |items| && IdKey(items[i]) == k {
        var i :| 0 <= i < |items| && IdKey(items[i]) == k;
        if i < n {
          assert IdKey(init[i]) == k;
        }
      }
      if k in seen {
        var i :| 0 <= i < n && IdKey(init[i]) == k;
        assert IdKey(items[i]) == k;
      }
    }
  }

  /** The first rows of the keys met before stay the first rows. */
  lemma SeenFirstStep(items: seq<Row>, seen: map<Json, nat>)
    requires items != [] && SeenFirst(items[..|items| - 1], seen)
    ensures SeenFirst(items, seen)
  {
    forall k | k in seen
      ensures FirstWith(items, seen[k], k)
    {
      FirstWithExtend(items, seen[k], k);
    }
  }

  /** The duplicate errors of the earlier rows stay what they were. */
  lemma DuplicateOfStep(items: seq<Row>, listName: string, e: Issue)
    requires items != [] && (e.DuplicateId? ==> e.index < |items| - 1)
    ensures DuplicateOf(items[..|items| - 1], listName, e) <==> DuplicateOf(items, listName, e)
  {
    var init := items[..|items| - 1];
    if e.DuplicateId? && 0 <= e.index < |init| {
      assert init[e.index] == items[e.index];
      if e.first < e.index {
        FirstWithExtend(items, e.first, IdKey(items[e.index]));
      }
    }
  }

  /** A row whose id key was met before adds one error naming the first index. */
  lemma ScanStepRepeat(items: seq<Row>, listName: string, errors: seq<Issue>, seen: map<Json, nat>)
    requires items != [] && var n := |items| - 1;
      ScanMeans(items[..n], listName, errors, seen) && IdKey(items[n]) in seen
    ensures var n := |items| - 1;
      ScanMeans(items, listName, errors + [DuplicateId(listName, n, IdOf(items[n]), seen[IdKey(items[n])])], seen)
  {
    var n := |items| - 1;
    var init := items[..n];
    var key := IdKey(items[n]);
    var e0 := DuplicateId(listName, n, IdOf(items[n]), seen[key]);
    var errors' := errors + [e0];
    SeenKeysStep(items, seen, seen);
    SeenFirstStep(items, seen);
    forall e
      ensures e in errors' <==> DuplicateOf(items, listName, e)
    {
      if e.DuplicateId? && e.index == n {
        if DuplicateOf(items, listName, e) {
          FirstWithExtend(items, e.first, key);
          FirstWithUnique(init, e.first, seen[key], key);
        }
      } else if e in errors || DuplicateOf(items, listName, e) {
        DuplicateOfStep(items, listName, e);
      }
    }
    forall e | e in errors
      ensures e.DuplicateId? && e.index < n
    {
      assert DuplicateOf(init, listName, e);
    }
    IndexIncreasingAppend(errors, e0);
  }

  /** An error for a later row than all before keeps the order. */
  lemma IndexIncreasingAppend(errors: seq<Issue>, e0: Issue)
    requires IndexIncreasing(errors) && e0.DuplicateId?
    requires forall e :: e in errors ==> e.DuplicateId? && e.index < e0.index
    ensures IndexIncreasing(errors + [e0])
  {
    var errors' := errors + [e0];
    forall i, j | 0 <= i < j < |errors'|
      ensures errors'[i].DuplicateId? && errors'[j].DuplicateId? && errors'[i].index < errors'[j].index
    {
      assert errors'[i] == errors[i] && errors[i] in errors;
      if j < |errors| {
        assert errors'[j] == errors[j];
      }
    }
  }

  /** A row with a new id key records its index and adds no error. */
  lemma ScanStepFresh(items: seq<Row>, listName: string, errors: seq<Issue>, seen: map<Json, nat>)
    requires items != [] && var n := |items| - 1;
      ScanMeans(items[..n], listName, errors, seen) && IdKey(items[n]) !in seen
    ensures var n := |items| - 1;
      ScanMeans(items, listName, errors, seen[IdKey(items[n]) := n])
  {
    var n := |items| - 1;
    var init := items[..n];
    var key := IdKey(items[n]);
    var seen' := seen[key := n];
    SeenKeysStep(items, seen, seen');
    SeenFirstStep(items, seen);
    forall j | 0 <= j < n
      ensures IdKey(items[j]) != key
    {
      assert IdKey(init[j]) == IdKey(items[j]);
    }
    assert FirstWith(items, n, key);
    forall e
      ensures e in errors <==> DuplicateOf(items, listName, e)
    {
      if e.DuplicateId? && e.index == n && DuplicateOf(items, listName, e) {
        assert false;
      } else if e in errors || DuplicateOf(items, listName, e) {
        DuplicateOfStep(items, listName, e);
      }
    }
  }

  lemma {:induction false} DuplicateScanMeaning(items: seq<Row>, listName: string)
    requires DuplicateScan(items, listName).Ok?
    ensures var scan := DuplicateScan(items, listName).value; ScanMeans(items, listName, scan.0, scan.1)
  {
    if items != [] {
      var n := |items| - 1;
      DuplicateScanMeaning(items[..n], listName);
      var prior := DuplicateScan(items[..n], listName).value;
      if IdKey(items[n]) in prior.1 {
        ScanStepRepeat(items, listName, prior.0, prior.1);
      } else {
        ScanStepFresh(items, listName, prior.0, prior.1);
      }
    }
  }

  /** check_duplicate_ids: an error for row i exactly when an earlier row has an equal id
      (an absent id counting as ""), naming the first such row; at most one per row, in row
      order. */
  lemma DuplicateIdsMeaning(items: seq<Row>, listName: string)
    requires DuplicateIdIssues(items, listName).Ok?
    ensures var r := DuplicateIdIssues(items, listName).value;
      && (forall e :: e in r <==>
            && e.DuplicateId? && e.listName == listName && 0 <= e.index < |items|
            && e.id == IdOf(items[e.index]) && e.first < e.index && FirstWith(items, e.first, IdKey(items[e.index])))
      && (forall i, j :: 0 <= i < j < |r| ==> r[i].DuplicateId? && r[j].DuplicateId? && r[i].index < r[j].index)
  {
    DuplicateScanMeaning(items, listName);
  }

  /** No duplicate errors exactly when no two rows have equal ids. */
  lemma DuplicateIdsNone(items: seq<Row>, listName: string)
    requires DuplicateIdIssues(items, listName).Ok?
    ensures DuplicateIdIssues(items, listName).value == [] <==> UniqueIds(items)
  {
    DuplicateScanMeaning(items, listName);
    var scan := DuplicateScan(items, listName).value;
    var r := scan.0;
    if r != [] {
      assert r[0] in r;
      assert FirstWith(items, r[0].first, IdKey(items[r[0].index]));
    }
    if exists i, j :: 0 <= i < j < |items| && IdKey(items[i]) == IdKey(items[j]) {
      var i, j :| 0 <= i < j < |items| && IdKey(items[i]) == IdKey(items[j]);
      var key := IdKey(items[j]);
      assert key in scan.1;
      var f := scan.1[key];
      assert FirstWith(items, f, key);
      assert DuplicateId(listName, j, IdOf(items[j]), f) in r;
    }
  }

  // ---------------------------------------------------------------- positive ids

  /** The positive ids of a query row: absent reads as an empty list. */
  function PositiveIds(q: Row): Json {
    GetOr(q, "positive_ids", JArr([]))
  }

  /** The errors of query `index` for its positive ids `pids`, in order; `pid not in
      doc_ids` raises on a list or object. */
  function UnknownIds(q: Row, index: nat, pids: seq<Json>, docKeys: set<Json>): Result<seq<Issue>> {
    if pids == [] then Ok([])
    else
      var prior := UnknownIds(q, index, pids[..|pids| - 1], docKeys);
      var pid := pids[|pids| - 1];
      if prior.Err? then prior
      else if !Hashable(pid) then Err(TypeError("unhashable positive_id"))
      else if HashKey(pid) in docKeys then prior
      else Ok(prior.value + [UnknownPositiveId(index, GetOr(q, "id", JStr("?")), pid)])
  }

  /** check_positive_ids_reference as a function of the query rows and the document id
      keys: query by query, positive id by positive id. */
  function ReferenceIssues(queries: seq<Row>, docKeys: set<Json>): Result<seq<Issue>> {
    if queries == [] then Ok([])
    else
      var n := |queries| - 1;
      var prior := ReferenceIssues(queries[..n], docKeys);
      var pids := Iterate(PositiveIds(queries[n]));
      if prior.Err? then prior
      else if pids.Err? then Err(pids.error)
      else
        var more := UnknownIds(queries[n], n, pids.value, docKeys);
        if more.Err? then more else Ok(prior.value + more.value)
  }

  /** check_positive_ids_reference: the nested loop over queries and their positive ids. */
  method CheckPositiveIdsReference(queries: seq<Row>, docKeys: set<Json>) returns (r: Result<seq<Issue>>)
    ensures r == ReferenceIssues(queries, docKeys)
  {
    var errors := [];
    var idx := 0;
    while idx < |queries|
      invariant 0 <= idx <= |queries|
      invariant ReferenceIssues(queries[..idx], docKeys) == Ok(errors)
    {
      var q := queries[idx];
      assert queries[..idx + 1][..idx] == queries[..idx];
      var pids := Iterate(PositiveIds(q));
      if pids.Err? {
        ReferencesStop(queries, idx + 1, docKeys);
        return Err(pids.error);
      }
      ghost var before := errors;
      ghost var found: seq<Issue> := [];
      var j := 0;
      while j < |pids.value|
        invariant 0 <= j <= |pids.value|
        invariant errors == before + found
        invariant UnknownIds(q, idx, pids.value[..j], docKeys) == Ok(found)
      {
        var pid := pids.value[j];
        assert pids.value[..j + 1][..j] == pids.value[..j];
        if !Hashable(pid) {
          UnknownIdsStop(q, idx, pids.value, j + 1, docKeys);
          ReferencesStop(queries, idx + 1, docKeys);
          return Err(TypeError("unhashable positive_id"));
        }
        if HashKey(pid) !in docKeys {
          errors := errors + [UnknownPositiveId(idx, GetOr(q, "id", JStr("?")), pid)];
          found := found + [UnknownPositiveId(idx, GetOr(q, "id", JStr("?")), pid)];
        }
        j := j + 1;
      }
      assert pids.value[..j] == pids.value;
      idx := idx + 1;
    }
    assert queries[..idx] == queries;
    return Ok(errors);
  }

  lemma {:induction false} UnknownIdsStop(q: Row, index: nat, pids: seq<Json>, n: nat, docKeys: set<Json>)
    requires 0 < n <= |pids| && UnknownIds(q, index, pids[..n], docKeys).Err?
    ensures UnknownIds(q, index, pids, docKeys) == UnknownIds(q, index, pids[..n], docKeys)
    decreases |pids| - n
  {
    if n == |pids| {
      assert pids[..n] == pids;
    } else {
      var init := pids[..|pids| - 1];
      assert init[..n] == pids[..n];
      UnknownIdsStop(q, index, init, n, docKeys);
    }
  }

  /** Once a query raised, the later queries change nothing. */
  lemma {:induction false} ReferencesStop(queries: seq<Row>, n: nat, docKeys: set<Json>)
    requires 0 < n <= |queries| && ReferenceIssues(queries[..n], docKeys).Err?
    ensures ReferenceIssues(queries, docKeys) == ReferenceIssues(queries[..n], docKeys)
    decreases |queries| - n
  {
    if n == |queries| {
      assert queries[..n] == queries;
    } else {
      var init := queries[..|queries| - 1];
      assert init[..n] == queries[..n];
      ReferencesStop(init, n, docKeys);
    }
  }

  /** The positive ids of one query give an error for each id that no document has, in
      order; they raise exactly when one of them is a list or an object. */
  lemma {:induction false} UnknownIdsMeaning(q: Row, index: nat, pids: seq<Json>, docKeys: set<Json>)
    ensures var r := UnknownIds(q, index, pids, docKeys);
      && (r.Err? <==> exists p :: p in pids && !Hashable(p))
      && (r.Ok? ==> forall e :: e in r.value <==>
            && e.UnknownPositiveId? && e == UnknownPositiveId(index, GetOr(q, "id", JStr("?")), e.positiveId)
            && e.positiveId in pids && HashKey(e.positiveId) !in docKeys)
  {
    if pids != [] {
      var init := pids[..|pids| - 1];
      UnknownIdsMeaning(q, index, init, docKeys);
      assert pids == init + [pids[|pids| - 1]];
    }
  }

  /** check_positive_ids_reference raises exactly when some query's positive ids are not
      iterable or hold a list or object; otherwise there is one error for every positive
      id that no document has, query by query. */
  lemma {:induction false} ReferencesMeaning(queries: seq<Row>, docKeys: set<Json>)
    ensures var r := ReferenceIssues(queries, docKeys);
      && (r.Err? <==> exists i :: 0 <= i < |queries| && BadPositiveIds(queries[i]))
      && (r.Ok? ==> forall e :: e in r.value <==>
            && e.UnknownPositiveId? && e.index < |queries| && e.queryId == GetOr(queries[e.index], "id", JStr("?"))
            && Iterate(PositiveIds(queries[e.index])).Ok? && e.positiveId in Iterate(PositiveIds(queries[e.index])).value
            && HashKey(e.positiveId) !in docKeys)
  {
    if queries != [] {
      var n := |queries| - 1;
      var init := queries[..n];
      ReferencesMeaning(init, docKeys);
      assert forall i :: 0 <= i < n ==> init[i] == queries[i];
      var pids := Iterate(PositiveIds(queries[n]));
      if pids.Ok? {
        UnknownIdsMeaning(queries[n], n, pids.value, docKeys);
      }
      if exists i :: 0 <= i < |queries| && BadPositiveIds(queries[i]) {
        var i :| 0 <= i < |queries| && BadPositiveIds(queries[i]);
        if i < n {
          assert BadPositiveIds(init[i]);
        }
      }
    }
  }

  /** Positive ids that make the reference check raise. */
  predicate BadPositiveIds(q: Row) {
    var pids := Iterate(PositiveIds(q));
    pids.Err? || exists p :: p in pids.value && !Hashable(p)
  }

  /** The keys of the document ids, `{d["id"] for d in documents if "id" in d}`; a list or
      object id raises. */
  function DocKeys(documents: seq<Row>): Result<set<Json>> {
    if documents == [] then Ok({})
    else
      var d := documents[0];
      var rest := DocKeys(documents[1..]);
      if "id" in d && !Hashable(d["id"]) then Err(TypeError("unhashable id"))
      else if rest.Err? then rest
      else if "id" in d then Ok({HashKey(d["id"])} + rest.value)
      else rest
  }

  /** doc_ids holds exactly the ids of the documents that have one. */
  lemma {:induction false} DocKeysMeaning(documents: seq<Row>)
    requires DocKeys(documents).Ok?
    ensures forall k :: k in DocKeys(documents).value <==>
      exists i :: 0 <= i < |documents| && "id" in documents[i] && HashKey(documents[i]["id"]) == k
  {
    if documents != [] {
      var rest := documents[1..];
      DocKeysMeaning(rest);
      assert forall i :: 0 < i < |documents| ==> documents[i] == rest[i - 1];
      forall k
        ensures k in DocKeys(documents).value <==>
          exists i :: 0 <= i < |documents| && "id" in documents[i] && HashKey(documents[i]["id"]) == k
      {
        if exists i :: 0 < i < |documents| && "id" in documents[i] && HashKey(documents[i]["id"]) == k {
          var i :| 0 < i < |documents| && "id" in documents[i] && HashKey(documents[i]["id"]) == k;
          assert "id" in rest[i - 1] && HashKey(rest[i - 1]["id"]) == k;
        }
      }
    }
  }

  // ---------------------------------------------------------------- statistics

  /** _stats of a list of lengths. */
  datatype Summary = Summary(min: int, max: int, mean: real)

  /** What compute_stats reports. */
  datatype Stats = Stats(
    documentsCount: nat,
    queriesCount: nat,
    queryLengthChars: Summary,
    positiveIdsPerQuery: Summary,
    docTextLengthChars: Summary)

  /** Python's len(): strings, lists and objects have one. */
  function Len(v: Json): Result<nat> {
    match v
    case JStr(s) => Ok(|s|)
    case JArr(items) => Ok(|items|)
    case JObj(fields) => Ok(|fields|)
    case _ => Err(TypeError("object has no len()"))
  }

  /** `[len(row.get(key, default)) for row in rows]`. */
  function Lengths(rows: seq<Row>, key: string, default: Json): Result<seq<nat>> {
    if rows == [] then Ok([])
    else
      var head := Len(GetOr(rows[0], key, default));
      var tail := Lengths(rows[1..], key, default);
      if head.Err? then Err(head.error)
      else if tail.Err? then tail
      else Ok([head.value] + tail.value)
  }

  /** One length per row, in order; the list raises exactly when some row's value has no
      length. */
  lemma {:induction false} LengthsMeaning(rows: seq<Row>, key: string, default: Json)
    ensures var r := Lengths(rows, key, default);
      && (r.Err? <==> exists i :: 0 <= i < |rows| && Len(GetOr(rows[i], key, default)).Err?)
      && (r.Ok? ==>
            && |r.value| == |rows|
            && forall i :: 0 <= i < |rows| ==> Len(GetOr(rows[i], key, default)) == Ok(r.value[i]))
  {
    if rows != [] {
      var rest := rows[1..];
      LengthsMeaning(rest, key, default);
      assert forall i :: 0 < i < |rows| ==> rows[i] == rest[i - 1];
      var r := Lengths(rows, key, default);
      if exists i :: 0 <= i < |rows| && Len(GetOr(rows[i], key, default)).Err? {
        var i :| 0 <= i < |rows| && Len(GetOr(rows[i], key, default)).Err?;
        if i > 0 {
          assert Len(GetOr(rest[i - 1], key, default)).Err?;
        }
      }
    }
  }

  function MinOf(values: seq<nat>): nat
    requires values != []
  {
    if |values| == 1 then values[0]
    else var m := MinOf(values[1..]); if values[0] <= m then values[0] else m
  }

  function MaxOf(values: seq<nat>): nat
    requires values != []
  {
    if |values| == 1 then values[0]
    else var m := MaxOf(values[1..]); if values[0] >= m then values[0] else m
  }

  function SumOf(values: seq<nat>): nat {
    if values == [] then 0 else values[0] + SumOf(values[1..])
  }

  /** _stats: all zeros without values, otherwise min, max and the mean. */
  function Summarize(values: seq<nat>): Summary {
    if values == [] then Summary(0, 0, 0.0)
    else Summary(MinOf(values), MaxOf(values), SumOf(values) as real / |values| as real)
  }

  /** min and max are values of the list, every value lies between them, and the sum lies
      between |values| times each. */
  lemma {:induction false} MinMaxSum(values: seq<nat>)
    requires values != []
    ensures MinOf(values) in values && MaxOf(values) in values
    ensures forall v :: v in values ==> MinOf(values) <= v <= MaxOf(values)
    ensures |values| * MinOf(values) <= SumOf(values) <= |values| * MaxOf(values)
  {
    if |values| > 1 {
      var rest := values[1..];
      MinMaxSum(rest);
      assert values == [values[0]] + rest;
      assert (|rest| + 1) * MinOf(values) == |rest| * MinOf(values) + MinOf(values);
      assert (|rest| + 1) * MaxOf(values) == |rest| * MaxOf(values) + MaxOf(values);
      ScaleMono(|rest|, MinOf(values), MinOf(rest));
      ScaleMono(|rest|, MaxOf(rest), MaxOf(values));
    }
  }

  lemma ScaleMono(n: nat, a: int, b: int)
    requires a <= b
    ensures n * a <= n * b
  {
  }

  lemma MeanBetween(sum: int, n: nat, lo: int, hi: int)
    requires n > 0 && n * lo <= sum <= n * hi
    ensures lo as real <= sum as real / n as real <= hi as real
  {
    var q := sum as real / n as real;
    assert q * n as real == sum as real;
    assert lo as real * n as real <= q * n as real <= hi as real * n as real;
  }

  /** _stats: no values give all zeros; otherwise min and max are values of the list, all
      values lie between them, and so does the mean. */
  lemma SummaryBounds(values: seq<nat>)
    ensures var s := Summarize(values);
      && (values == [] ==> s == Summary(0, 0, 0.0))
      && (values != [] ==>
            && s.min in values && s.max in values
            && (forall v :: v in values ==> s.min <= v <= s.max)
            && s.min as real <= s.mean <= s.max as real)
  {
    if values != [] {
      MinMaxSum(values);
      MeanBetween(SumOf(values), |values|, MinOf(values), MaxOf(values));
    }
  }

  /** compute_stats: the row counts and a summary of the query lengths, the positive ids
      per query and the document text lengths. */
  function ComputeStats(documents: seq<Row>, queries: seq<Row>): Result<Stats> {
    var queryLengths := Lengths(queries, "query", JStr(""));
    var positiveCounts := Lengths(queries, "positive_ids", JArr([]));
    var docTextLengths := Lengths(documents, "text", JStr(""));
    if queryLengths.Err? then Err(queryLengths.error)
    else if positiveCounts.Err? then Err(positiveCounts.error)
    else if docTextLengths.Err? then Err(docTextLengths.error)
    else Ok(Stats(|documents|, |queries|, Summarize(queryLengths.value), Summarize(positiveCounts.value),
                  Summarize(docTextLengths.value)))
  }

  /** The counts are the numbers of rows, and each summary is over one value per row. */
  lemma ComputeStatsMeaning(documents: seq<Row>, queries: seq<Row>)
    requires ComputeStats(documents, queries).Ok?
    ensures var s := ComputeStats(documents, queries).value;
      && s.documentsCount == |documents| && s.queriesCount == |queries|
      && s.queryLengthChars == Summarize(Lengths(queries, "query", JStr("")).value)
      && |Lengths(queries, "query", JStr("")).value| == |queries|
      && |Lengths(queries, "positive_ids", JArr([])).value| == |queries|
      && |Lengths(documents, "text", JStr("")).value| == |documents|
  {
    LengthsMeaning(queries, "query", JStr(""));
    LengthsMeaning(queries, "positive_ids", JArr([]));
    LengthsMeaning(documents, "text", JStr(""));
  }

  // ---------------------------------------------------------------- validate

  /** The errors and, unless a file is missing, the statistics. */
  datatype Report = Report(issues: seq<Issue>, stats: Option<Stats>)

  const DocumentKeys: seq<string> := ["id", "text"]
  const QueryKeys: seq<string> := ["id", "query", "positive_ids"]

  /** The file-not-found errors, documents first. */
  function NotFound(docsPath: string, queriesPath: string, fileExists: string -> bool): seq<Issue> {
    (if fileExists(docsPath) then [] else [FileNotFound(docsPath)])
      + (if fileExists(queriesPath) then [] else [FileNotFound(queriesPath)])
  }

  /** validate for the two paths, given which paths exist and what reading a path yields
      (the rows, or the ValueError of an undecodable line). */
  function ValidateOf(docsPath: string, queriesPath: string, fileExists: string -> bool,
                      load: string -> Result<seq<Row>>): Result<Report>
  {
    var notFound := NotFound(docsPath, queriesPath, fileExists);
    if notFound != [] then Ok(Report(notFound, None))
    else
      var documents :- load(docsPath);
      var queries :- load(queriesPath);
      var dupDocuments :- DuplicateIdIssues(documents, "documents");
      var dupQueries :- DuplicateIdIssues(queries, "queries");
      var docKeys :- DocKeys(documents);
      var references :- ReferenceIssues(queries, docKeys);
      var stats :- ComputeStats(documents, queries);
      Ok(Report(RequiredKeyIssues(documents, DocumentKeys, "documents")
                  + RequiredKeyIssues(queries, QueryKeys, "queries")
                  + dupDocuments + dupQueries + references, Some(stats)))
  }

  /** validate: the existence checks, the loads, then the checks in their fixed order. */
  method Validate(docsPath: string, queriesPath: string, fileExists: string -> bool,
                  load: string -> Result<seq<Row>>) returns (r: Result<Report>)
    ensures r == ValidateOf(docsPath, queriesPath, fileExists, load)
  {
    var errors := [];
    if !fileExists(docsPath) {
      errors := errors + [FileNotFound(docsPath)];
    }
    if !fileExists(queriesPath) {
      errors := errors + [FileNotFound(queriesPath)];
    }
    if errors != [] {
      assert errors == NotFound(docsPath, queriesPath, fileExists);
      return Ok(Report(errors, None));
    }
    var documents :- load(docsPath);
    var queries :- load(queriesPath);
    var missingDocumentKeys := CheckRequiredKeys(documents, DocumentKeys, "documents");
    var missingQueryKeys := CheckRequiredKeys(queries, QueryKeys, "queries");
    var dupDocuments :- CheckDuplicateIds(documents, "documents");
    var dupQueries :- CheckDuplicateIds(queries, "queries");
    var docKeys :- DocKeys(documents);
    var references :- CheckPositiveIdsReference(queries, docKeys);
    var stats :- ComputeStats(documents, queries);
    errors := missingDocumentKeys + missingQueryKeys + dupDocuments + dupQueries + references;
    return Ok(Report(errors, Some(stats)));
  }

  /** A missing file gives only the file-not-found errors, one per missing file, and no
      statistics. */
  lemma ValidateMissingFiles(docsPath: string, queriesPath: string, fileExists: string -> bool,
                             load: string -> Result<seq<Row>>)
    requires !fileExists(docsPath) || !fileExists(queriesPath)
    ensures var r := ValidateOf(docsPath, queriesPath, fileExists, load);
      && r.Ok? && r.value.stats.None?
      && (forall e :: e in r.value.issues ==> e.FileNotFound?)
      && (FileNotFound(docsPath) in r.value.issues <==> !fileExists(docsPath))
      && (FileNotFound(queriesPath) in r.value.issues <==> !fileExists(queriesPath))
      && |r.value.issues| == (if fileExists(docsPath) then 0 else 1) + (if fileExists(queriesPath) then 0 else 1)
  {
  }

  /** Every row has every required key. */
  predicate HasKeys(items: seq<Row>, required: seq<string>) {
    forall i, k :: 0 <= i < |items| && k in required ==> k in items[i]
  }

  /** No two rows have ids Python takes as equal. */
  predicate UniqueIds(items: seq<Row>) {
    forall i, j :: 0 <= i < j < |items| ==> IdKey(items[i]) != IdKey(items[j])
  }

  /** Every positive id of every query is the id of some document. */
  predicate PositiveIdsKnown(documents: seq<Row>, queries: seq<Row>) {
    forall i :: 0 <= i < |queries| ==>
      && Iterate(PositiveIds(queries[i])).Ok?
      && forall p :: p in Iterate(PositiveIds(queries[i])).value ==> HasDocument(documents, p)
  }

  predicate HasDocument(documents: seq<Row>, p: Json) {
    exists d :: 0 <= d < |documents| && "id" in documents[d] && HashKey(documents[d]["id"]) == HashKey(p)
  }

  /** A dataset whose rows have their keys, whose ids are unique among the documents and
      among the queries, and whose positive ids all name a document. */
  predicate Clean(documents: seq<Row>, queries: seq<Row>) {
    && HasKeys(documents, DocumentKeys) && HasKeys(queries, QueryKeys)
    && UniqueIds(documents) && UniqueIds(queries)
    && PositiveIdsKnown(documents, queries)
  }

  /** No reference errors exactly when every positive id names a document. */
  lemma ReferencesNone(documents: seq<Row>, queries: seq<Row>)
    requires DocKeys(documents).Ok? && ReferenceIssues(queries, DocKeys(documents).value).Ok?
    ensures ReferenceIssues(queries, DocKeys(documents).value).value == [] <==> PositiveIdsKnown(documents, queries)
  {
    var docKeys := DocKeys(documents).value;
    DocKeysMeaning(documents);
    ReferencesMeaning(queries, docKeys);
    var references := ReferenceIssues(queries, docKeys).value;
    assert forall i :: 0 <= i < |queries| ==> !BadPositiveIds(queries[i]);
    if references != [] {
      var e := references[0];
      assert e in references;
      assert !HasDocument(documents, e.positiveId);
    }
    if !PositiveIdsKnown(documents, queries) {
      var i :| 0 <= i < |queries| && !(Iterate(PositiveIds(queries[i])).Ok? &&
        forall p :: p in Iterate(PositiveIds(queries[i])).value ==> HasDocument(documents, p));
      assert !BadPositiveIds(queries[i]);
      var p :| p in Iterate(PositiveIds(queries[i])).value && !HasDocument(documents, p);
      assert UnknownPositiveId(i, GetOr(queries[i], "id", JStr("?")), p) in references;
    }
  }

  /** When both files load and nothing raises, validate reports no error exactly when the
      dataset is clean. */
  lemma ValidateClean(docsPath: string, queriesPath: string, fileExists: string -> bool,
                      load: string -> Result<seq<Row>>)
    requires fileExists(docsPath) && fileExists(queriesPath)
    requires ValidateOf(docsPath, queriesPath, fileExists, load).Ok?
    ensures load(docsPath).Ok? && load(queriesPath).Ok?
    ensures var r := ValidateOf(docsPath, queriesPath, fileExists, load).value;
      r.stats.Some? && (r.issues == [] <==> Clean(load(docsPath).value, load(queriesPath).value))
  {
    var documents := load(docsPath).value;
    var queries := load(queriesPath).value;
    RequiredKeysNone(documents, DocumentKeys, "documents");
    RequiredKeysNone(queries, QueryKeys, "queries");
    DuplicateIdsNone(documents, "documents");
    DuplicateIdsNone(queries, "queries");
    ReferencesNone(documents, queries);
  }
}

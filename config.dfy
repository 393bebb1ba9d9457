/** The scenario configuration loader (musubi_eval/config.py, load_scenario) over the value the
    YAML document decodes to: the required keys, the search parameter list with its default
    names, and the defaults of the optional sections. */
module Config {
  import opened Values
  import opened Domain

  // ---------------------------------------------------------------- int() and float()

  predicate AllDigits(s: string) {
    forall k :: 0 <= k < |s| ==> IsDigit(s[k])
  }

  /** An optional sign and what follows it. */
  function Signed(t: string): (bool, string) {
    if t != [] && (t[0] == '+' || t[0] == '-') then (t[0] == '-', t[1..]) else (false, t)
  }

  /** int() of a string: surrounding whitespace, an optional sign, then decimal digits. */
  function ParseInt(s: string): Result<int> {
    var (negative, digits) := Signed(Strip(s));
    if digits == [] || !AllDigits(digits) then Err(ValueError("invalid literal for int()"))
    else
      var n: int := DecimalValue(digits);
      Ok(if negative then -n else n)
  }

  /** The position of the first '.' in s, or |s|. */
  function DotAt(s: string): (k: nat)
    ensures k <= |s| && (k < |s| ==> s[k] == '.')
    ensures forall j :: 0 <= j < k ==> s[j] != '.'
  {
    if s == [] || s[0] == '.' then 0 else 1 + DotAt(s[1..])
  }

  function Pow10(n: nat): (r: nat)
    ensures r >= 1
  {
    if n == 0 then 1 else 10 * Pow10(n - 1)
  }

  /** float() of a string: surrounding whitespace, an optional sign, then digits with at most
      one decimal point and at least one digit. */
  function ParseFloat(s: string): Result<real> {
    var (negative, body) := Signed(Strip(s));
    FloatOfBody(negative, body)
  }

  /** The number a sign and a body of digits with at most one decimal point denote. */
  function FloatOfBody(negative: bool, body: string): Result<real> {
    var dot := DotAt(body);
    var whole := body[..dot];
    var fraction := if dot < |body| then body[dot + 1..] else "";
    if |whole| + |fraction| == 0 || !AllDigits(whole) || !AllDigits(fraction) then
      Err(ValueError("could not convert string to float"))
    else
      var x := DecimalValue(whole) as real + FractionValue(fraction);
      Ok(if negative then -x else x)
  }

  /** The value of the digits after a decimal point. */
  function FractionValue(fraction: string): (r: real)
    requires AllDigits(fraction)
    ensures fraction == "" ==> r == 0.0
  {
    DecimalValue(fraction) as real / Pow10(|fraction|) as real
  }

  /** Python's int(v) on a decoded value; a float is truncated toward zero. */
  function PyInt(v: Json): Result<int> {
    match v
    case JBool(b) => Ok(if b then 1 else 0)
    case JInt(i) => Ok(i)
    case JFloat(r) => Ok(Trunc(r))
    case JStr(s) => ParseInt(s)
    case _ => Err(TypeError("int() argument must be a string or a number"))
  }

  /** Python's float(v) on a decoded value. */
  function PyFloat(v: Json): Result<real> {
    match v
    case JBool(b) => Ok(if b then 1.0 else 0.0)
    case JInt(i) => Ok(i as real)
    case JFloat(r) => Ok(r)
    case JStr(s) => ParseFloat(s)
    case _ => Err(TypeError("float() argument must be a string or a number"))
  }

  lemma StripPlain(s: string)
    requires s != [] && !IsSpace(s[0]) && !IsSpace(s[|s| - 1])
    ensures Strip(s) == s
  {
    assert LStrip(s) == s;
  }

  /** A sign (or none) followed by decimal digits, with nothing around them. */
  function SignedDigits(negative: bool, d: string): string {
    (if negative then "-" else "") + d
  }

  lemma ParseSignedDigits(negative: bool, d: string)
    requires d != [] && AllDigits(d)
    ensures Strip(SignedDigits(negative, d)) == SignedDigits(negative, d)
    ensures Signed(SignedDigits(negative, d)) == (negative, d)
  {
    var s := SignedDigits(negative, d);
    assert IsDigit(d[0]) && IsDigit(d[|d| - 1]);
    assert s[|s| - 1] == d[|d| - 1];
    StripPlain(s);
    if negative {
      assert s[0] == '-' && s[1..] == d;
    } else {
      assert s == d;
    }
  }

  /** A run of digits has no decimal point. */
  lemma DigitsNoDot(d: string)
    requires AllDigits(d)
    ensures DotAt(d) == |d| && d[..DotAt(d)] == d
  {
    if DotAt(d) < |d| {
      assert false;
    }
  }

  /** A signed run of digits is read by int() as the number it denotes. */
  lemma ParseIntDigits(negative: bool, d: string)
    requires d != [] && AllDigits(d)
    ensures var n: int := DecimalValue(d);
      ParseInt(SignedDigits(negative, d)) == Ok(if negative then -n else n)
  {
    ParseSignedDigits(negative, d);
  }

  /** A body of digits alone denotes its decimal value. */
  lemma FloatOfDigits(negative: bool, d: string)
    requires d != [] && AllDigits(d)
    ensures var n: int := DecimalValue(d);
      FloatOfBody(negative, d) == Ok((if negative then -n else n) as real)
  {
    DigitsNoDot(d);
    assert AllDigits("");
  }

  /** A signed run of digits is read by float() as the number it denotes. */
  lemma ParseFloatDigits(negative: bool, d: string)
    requires d != [] && AllDigits(d)
    ensures var n: int := DecimalValue(d);
      ParseFloat(SignedDigits(negative, d)) == Ok((if negative then -n else n) as real)
  {
    ParseSignedDigits(negative, d);
    FloatOfDigits(negative, d);
  }

  /** str() of an integer is its sign, if negative, and the digits of its magnitude. */
  lemma IntToDecimalSigned(i: int)
    ensures var n: nat := if i < 0 then -i else i;
      && IntToDecimal(i) == SignedDigits(i < 0, NatToDecimal(n)) && DecimalValue(NatToDecimal(n)) == n
  {
    var n: nat := if i < 0 then -i else i;
    DecimalRoundTrip(n);
    if i >= 0 {
      assert "" + NatToDecimal(n) == NatToDecimal(n);
    }
  }

  /** int() reads back what str() writes for an integer. */
  lemma ParseIntRoundTrip(i: int)
    ensures ParseInt(IntToDecimal(i)) == Ok(i)
  {
    var n: nat := if i < 0 then -i else i;
    var d := NatToDecimal(n);
    IntToDecimalSigned(i);
    ParseIntDigits(i < 0, d);
  }

  /** A string that spells an integer's sign and magnitude is read by float() as it. */
  lemma ParseFloatOfSpelling(s: string, i: int)
    requires var n: nat := if i < 0 then -i else i;
      s == SignedDigits(i < 0, NatToDecimal(n)) && DecimalValue(NatToDecimal(n)) == n
    ensures ParseFloat(s) == Ok(i as real)
  {
    var n: nat := if i < 0 then -i else i;
    var d := NatToDecimal(n);
    ParseFloatDigits(i < 0, d);
    var v: int := DecimalValue(d);
    assert (if i < 0 then -v else v) == i;
  }

  /** float() reads an integer written by str() as that number. */
  lemma ParseFloatOfInteger(i: int)
    ensures ParseFloat(IntToDecimal(i)) == Ok(i as real)
  {
    IntToDecimalSigned(i);
    ParseFloatOfSpelling(IntToDecimal(i), i);
  }

  // ---------------------------------------------------------------- lookups

  /** _require_key: the value under `key`, or "missing required key: <key>". Membership and
      indexing are Python's, so a value that is not a mapping raises a TypeError instead
      (or, for a list or string that happens to contain the key, when it is indexed). */
  function RequireKey(d: Json, key: string): Result<Json> {
    var present :- Contains(d, key);
    if !present then Err(MissingKey(key)) else Subscript(d, key)
  }

  /** `raw.get(name, {})` of an optional section, which must then be a mapping for its own
      `.get` calls. */
  function Section(raw: map<string, Json>, name: string): Result<map<string, Json>> {
    match GetOr(raw, name, JObj(map[]))
    case JObj(m) => Ok(m)
    case _ => Err(TypeError(name + " has no attribute 'get'"))
  }

  // ---------------------------------------------------------------- search parameters

  /** The name a parameter set gets without a usable one of its own. */
  function DefaultName(i: nat): string {
    "param_" + NatToDecimal(i)
  }

  /** The SearchParam of the i-th entry of search.params (counting from 1). */
  function ParamOf(p: Json, i: nat): Result<SearchParam> {
    if !p.JObj? then Err(TypeError("search parameter has no attribute 'get'"))
    else
      var name := Or(Get(p.fields, "name"), JStr(DefaultName(i)));
      var k :- RequireKey(p, "k");
      var kValue :- PyInt(k);
      var filter :- OptionalObject(p.fields, "filter");
      Ok(SearchParam(PyStr(name), kValue, Get(p.fields, "ef"), Get(p.fields, "alpha"), filter))
  }

  /** The entries from position i on, each converted by `convert` with its number (the entry
      at position j is number j + 1), stopping at the first failure. */
  function Numbered<T>(items: seq<Json>, i: nat, convert: (Json, nat) -> Result<T>): Result<seq<T>>
    requires i <= |items|
    decreases |items| - i
  {
    if i == |items| then Ok([])
    else
      var x :- convert(items[i], i + 1);
      var rest :- Numbered(items, i + 1, convert);
      Ok([x] + rest)
  }

  /** The parameter sets of the entries of search.params from position i on. */
  function ParamsFrom(items: seq<Json>, i: nat): Result<seq<SearchParam>>
    requires i <= |items|
  {
    Numbered(items, i, ParamOf)
  }

  /** The loop of load_scenario over search.params, appending one SearchParam per entry. */
  method ParseParams(items: seq<Json>) returns (r: Result<seq<SearchParam>>)
    ensures r == ParamsFrom(items, 0)
  {
    var params: seq<SearchParam> := [];
    var i := 0;
    ThenNothing(Numbered(items, 0, ParamOf));
    while i < |items|
      invariant 0 <= i <= |items|
      invariant Numbered(items, 0, ParamOf) == Then(params, Numbered(items, i, ParamOf))
    {
      var param := ParamOf(items[i], i + 1);
      if param.Err? {
        return Err(param.error);
      }
      NumberedStep(items, i, ParamOf, params);
      params := params + [param.value];
      i := i + 1;
    }
    assert params + [] == params;
    return Ok(params);
  }

  lemma NumberedStep<T>(items: seq<Json>, i: nat, convert: (Json, nat) -> Result<T>, done: seq<T>)
    requires i < |items| && convert(items[i], i + 1).Ok?
    ensures Then(done, Numbered(items, i, convert))
         == Then(done + [convert(items[i], i + 1).value], Numbered(items, i + 1, convert))
  {
    var rest := Numbered(items, i + 1, convert);
    if rest.Ok? {
      var x := convert(items[i], i + 1).value;
      assert done + ([x] + rest.value) == done + [x] + rest.value;
    }
  }

  /** Entry j is the first entry from position i on that `convert` refuses. */
  predicate FirstRefused<T>(items: seq<Json>, i: nat, convert: (Json, nat) -> Result<T>, j: int) {
    && i <= j < |items| && convert(items[j], j + 1).Err?
    && forall m :: i <= m < j ==> convert(items[m], m + 1).Ok?
  }

  /** The entries are converted one for one and in order, the entry at position j being number
      j + 1; the conversion fails exactly when an entry is refused, with the error of the first
      one refused. */
  lemma {:induction false} NumberedMeaning<T>(items: seq<Json>, i: nat, convert: (Json, nat) -> Result<T>)
    requires i <= |items|
    ensures var r := Numbered(items, i, convert);
      && (r.Ok? <==> forall j :: i <= j < |items| ==> convert(items[j], j + 1).Ok?)
      && (r.Ok? ==> |r.value| == |items| - i
                    && forall j :: i <= j < |items| ==> convert(items[j], j + 1) == Ok(r.value[j - i]))
      && (r.Err? ==> exists j :: FirstRefused(items, i, convert, j) && convert(items[j], j + 1) == Err(r.error))
    decreases |items| - i
  {
    if i < |items| {
      NumberedMeaning(items, i + 1, convert);
      var r := Numbered(items, i, convert);
      var head := convert(items[i], i + 1);
      var rest := Numbered(items, i + 1, convert);
      if head.Err? {
        assert FirstRefused(items, i, convert, i);
      } else if rest.Err? {
        var j :| FirstRefused(items, i + 1, convert, j) && convert(items[j], j + 1) == Err(rest.error);
        assert FirstRefused(items, i, convert, j);
      } else {
        assert r.value == [head.value] + rest.value;
        forall j | i < j < |items|
          ensures convert(items[j], j + 1) == Ok(r.value[j - i])
        {
          assert r.value[j - i] == rest.value[j - (i + 1)];
        }
      }
    }
  }

  /** Entry i has a name of its own when it is truthy; otherwise it is named param_<i>; k is
      the int() of the required `k`, whose absence raises "missing required key: k"; `ef` and
      `alpha` are passed through as they are. */
  lemma ParamOfMeaning(p: Json, i: nat)
    ensures p.JObj? && "k" !in p.fields ==> ParamOf(p, i) == Err(MissingKey("k"))
    ensures ParamOf(p, i).Ok? ==> var sp := ParamOf(p, i).value;
      && p.JObj? && "k" in p.fields && PyInt(p.fields["k"]) == Ok(sp.k)
      && sp.name == (if Truthy(Get(p.fields, "name")) then PyStr(p.fields["name"]) else DefaultName(i))
      && sp.ef == Get(p.fields, "ef") && sp.alpha == Get(p.fields, "alpha")
      && (sp.filter.None? <==> Get(p.fields, "filter") == JNull)
    ensures (&& p.JObj? && "k" in p.fields && PyInt(p.fields["k"]).Ok?
             && (Get(p.fields, "filter").JNull? || p.fields["filter"].JObj?))
      ==> ParamOf(p, i).Ok?
  {
  }

  // ---------------------------------------------------------------- load_scenario

  const ParamsListError := "search.params must be a non-empty list"

  /** `yaml.safe_load(...) or {}`: an empty or falsy document reads as an empty mapping. */
  function TopLevel(y: Json): Json {
    if Truthy(y) then y else JObj(map[])
  }

  /** The required values: base_url, the two dataset paths, and the non-empty search.params
      list. */
  datatype Required = Required(baseUrl: Json, documentsPath: Json, queriesPath: Json, params: seq<Json>)

  /** The required-key lookups of load_scenario, in its order, and the check of search.params. */
  function RequiredOf(raw: Json): (r: Result<Required>)
    ensures r.Ok? ==> r.value.params != []
  {
    var baseUrl :- RequireKey(raw, "base_url");
    var datasets :- RequireKey(raw, "datasets");
    var documentsPath :- RequireKey(datasets, "documents");
    var queriesPath :- RequireKey(datasets, "queries");
    var search :- RequireKey(raw, "search");
    var paramsRaw :- RequireKey(search, "params");
    if !paramsRaw.JArr? || paramsRaw.items == [] then Err(ValueError(ParamsListError))
    else Ok(Required(baseUrl, documentsPath, queriesPath, paramsRaw.items))
  }

  /** The retry section: attempts, base and maximum backoff, defaulting to 3, 0.5 and 5.0. */
  function RetryOf(raw: map<string, Json>): Result<RetryConfig> {
    var retry :- Section(raw, "retry");
    var maxAttempts :- PyInt(GetOr(retry, "max_attempts", JInt(3)));
    var base :- PyFloat(GetOr(retry, "base_backoff_sec", JFloat(0.5)));
    var max :- PyFloat(GetOr(retry, "max_backoff_sec", JFloat(5.0)));
    Ok(RetryConfig(maxAttempts, base, max))
  }

  /** The ingestion section: poll interval and timeout, defaulting to 1.0 and 600.0. */
  function IngestionOf(raw: map<string, Json>): Result<IngestionConfig> {
    var ingestion :- Section(raw, "ingestion");
    var poll :- PyFloat(GetOr(ingestion, "poll_interval_sec", JFloat(1.0)));
    var timeout :- PyFloat(GetOr(ingestion, "timeout_sec", JFloat(600.0)));
    Ok(IngestionConfig(poll, timeout))
  }

  /** The optional settings, in the order load_scenario reads them: retry, ingestion, the
      output, evidently and mlflow sections (which only have to be mappings here), then
      timeout_sec, defaulting to 30.0. */
  function SettingsOf(raw: map<string, Json>): Result<(RetryConfig, IngestionConfig, real)> {
    var retry :- RetryOf(raw);
    var ingestion :- IngestionOf(raw);
    var _ :- Section(raw, "output");
    var _ :- Section(raw, "evidently");
    var _ :- Section(raw, "mlflow");
    var timeout :- PyFloat(GetOr(raw, "timeout_sec", JFloat(30.0)));
    Ok((retry, ingestion, timeout))
  }

  /** load_scenario on the decoded document. */
  function ScenarioOf(y: Json): Result<ScenarioConfig> {
    var raw := TopLevel(y);
    var required :- RequiredOf(raw);
    var searchParams :- ParamsFrom(required.params, 0);
    var settings :- SettingsOf(raw.fields);
    Ok(ScenarioConfig(RStripSlashes(PyStr(required.baseUrl)), PyStr(required.documentsPath),
                      PyStr(required.queriesPath), searchParams, settings.2, settings.0, settings.1))
  }

  /** load_scenario: the lookups in the order of the source, with the parameter loop. */
  method LoadScenario(y: Json) returns (r: Result<ScenarioConfig>)
    ensures r == ScenarioOf(y)
  {
    var raw := if Truthy(y) then y else JObj(map[]);
    var baseUrl :- RequireKey(raw, "base_url");
    var datasets :- RequireKey(raw, "datasets");
    var documentsPath :- RequireKey(datasets, "documents");
    var queriesPath :- RequireKey(datasets, "queries");
    var search :- RequireKey(raw, "search");
    var paramsRaw :- RequireKey(search, "params");
    if !paramsRaw.JArr? || paramsRaw.items == [] {
      return Err(ValueError(ParamsListError));
    }
    assert RequiredOf(raw) == Ok(Required(baseUrl, documentsPath, queriesPath, paramsRaw.items));
    var searchParams :- ParseParams(paramsRaw.items);
    var retry :- RetryOf(raw.fields);
    var ingestion :- IngestionOf(raw.fields);
    var output :- Section(raw.fields, "output");
    var evidently :- Section(raw.fields, "evidently");
    var mlflow :- Section(raw.fields, "mlflow");
    var timeout :- PyFloat(GetOr(raw.fields, "timeout_sec", JFloat(30.0)));
    assert SettingsOf(raw.fields) == Ok((retry, ingestion, timeout));
    return Ok(ScenarioConfig(RStripSlashes(PyStr(baseUrl)), PyStr(documentsPath), PyStr(queriesPath),
                             searchParams, timeout, retry, ingestion));
  }

  /** Each required key, when absent and everything before it is in place, raises
      "missing required key: <key>"; an empty document lacks base_url. The checks come in the
      order base_url, datasets, documents, queries, search, params, then the list check. */
  lemma MissingRequiredKeys(y: Json)
    ensures !Truthy(y) ==> ScenarioOf(y) == Err(MissingKey("base_url"))
    ensures y.JObj? && "base_url" !in y.fields ==> ScenarioOf(y) == Err(MissingKey("base_url"))
    ensures y.JObj? && "base_url" in y.fields && "datasets" !in y.fields ==> ScenarioOf(y) == Err(MissingKey("datasets"))
    ensures (&& y.JObj? && "base_url" in y.fields && "datasets" in y.fields && y.fields["datasets"].JObj?
             && "documents" !in y.fields["datasets"].fields)
      ==> ScenarioOf(y) == Err(MissingKey("documents"))
    ensures (&& y.JObj? && "base_url" in y.fields && "datasets" in y.fields && y.fields["datasets"].JObj?
             && "documents" in y.fields["datasets"].fields && "queries" !in y.fields["datasets"].fields)
      ==> ScenarioOf(y) == Err(MissingKey("queries"))
    ensures (&& y.JObj? && "base_url" in y.fields && "datasets" in y.fields && y.fields["datasets"].JObj?
             && "documents" in y.fields["datasets"].fields && "queries" in y.fields["datasets"].fields
             && "search" !in y.fields)
      ==> ScenarioOf(y) == Err(MissingKey("search"))
    ensures (&& y.JObj? && "base_url" in y.fields && "datasets" in y.fields && y.fields["datasets"].JObj?
             && "documents" in y.fields["datasets"].fields && "queries" in y.fields["datasets"].fields
             && "search" in y.fields && y.fields["search"].JObj? && "params" !in y.fields["search"].fields)
      ==> ScenarioOf(y) == Err(MissingKey("params"))
    ensures (&& y.JObj? && "base_url" in y.fields && "datasets" in y.fields && y.fields["datasets"].JObj?
             && "documents" in y.fields["datasets"].fields && "queries" in y.fields["datasets"].fields
             && "search" in y.fields && y.fields["search"].JObj? && "params" in y.fields["search"].fields
             && var p := y.fields["search"].fields["params"]; !p.JArr? || p.items == [])
      ==> ScenarioOf(y) == Err(ValueError(ParamsListError))
  {
  }

  /** None of the optional keys load_scenario reads is present. */
  predicate NoOptionalKeys(raw: map<string, Json>) {
    && "retry" !in raw && "ingestion" !in raw && "output" !in raw
    && "evidently" !in raw && "mlflow" !in raw && "timeout_sec" !in raw
  }

  /** An absent retry section takes the RetryConfig defaults. */
  lemma RetryDefaults(raw: map<string, Json>)
    requires "retry" !in raw
    ensures RetryOf(raw) == Ok(RetryConfig(3, 0.5, 5.0))
  {
    assert Section(raw, "retry") == Ok(map[]);
  }

  /** An absent ingestion section takes the IngestionConfig defaults. */
  lemma IngestionDefaults(raw: map<string, Json>)
    requires "ingestion" !in raw
    ensures IngestionOf(raw) == Ok(IngestionConfig(1.0, 600.0))
  {
    assert Section(raw, "ingestion") == Ok(map[]);
  }

  /** An absent section or timeout takes the dataclass default; with no optional key at all
      the settings are the defaults. */
  lemma SettingsDefaults(raw: map<string, Json>)
    ensures "retry" !in raw ==> RetryOf(raw) == Ok(RetryConfig(3, 0.5, 5.0))
    ensures "ingestion" !in raw ==> IngestionOf(raw) == Ok(IngestionConfig(1.0, 600.0))
    ensures SettingsOf(raw).Ok? && "timeout_sec" !in raw ==> SettingsOf(raw).value.2 == 30.0
    ensures NoOptionalKeys(raw) ==>
      SettingsOf(raw) == Ok((RetryConfig(3, 0.5, 5.0), IngestionConfig(1.0, 600.0), 30.0))
  {
    if "retry" !in raw {
      RetryDefaults(raw);
    }
    if "ingestion" !in raw {
      IngestionDefaults(raw);
    }
    if NoOptionalKeys(raw) {
      assert Section(raw, "output") == Ok(map[]);
      assert Section(raw, "evidently") == Ok(map[]);
      assert Section(raw, "mlflow") == Ok(map[]);
    }
  }

  /** A loaded scenario: base_url is the configured one with its trailing slashes removed, and
      the parameter sets are those of the search.params entries, one for one and in order. */
  lemma ScenarioMeaning(y: Json)
    requires ScenarioOf(y).Ok?
    ensures RequiredOf(TopLevel(y)).Ok? && SettingsOf(TopLevel(y).fields).Ok?
    ensures var cfg := ScenarioOf(y).value; var required := RequiredOf(TopLevel(y)).value;
      var url := PyStr(required.baseUrl);
      && StartsWith(url, cfg.baseUrl) && (cfg.baseUrl == [] || cfg.baseUrl[|cfg.baseUrl| - 1] != '/')
      && (forall k :: |cfg.baseUrl| <= k < |url| ==> url[k] == '/')
      && required.params != [] && |cfg.searchParams| == |required.params|
      && (forall j :: 0 <= j < |required.params| ==> ParamOf(required.params[j], j + 1) == Ok(cfg.searchParams[j]))
      && (cfg.retry, cfg.ingestion, cfg.timeoutSec) == SettingsOf(TopLevel(y).fields).value
  {
    ScenarioParts(y);
    var required := RequiredOf(TopLevel(y)).value;
    NumberedMeaning(required.params, 0, ParamOf);
  }

  /** A loaded scenario is put together from the required values, the parameter sets and the
      settings. */
  lemma ScenarioParts(y: Json)
    requires ScenarioOf(y).Ok?
    ensures RequiredOf(TopLevel(y)).Ok? && SettingsOf(TopLevel(y).fields).Ok?
    ensures var cfg := ScenarioOf(y).value; var required := RequiredOf(TopLevel(y)).value;
      && ParamsFrom(required.params, 0) == Ok(cfg.searchParams)
      && cfg.baseUrl == RStripSlashes(PyStr(required.baseUrl))
      && (cfg.retry, cfg.ingestion, cfg.timeoutSec) == SettingsOf(TopLevel(y).fields).value
  {
  }

  /** The document of MinimalScenario, with the given base_url, paths and k. */
  function MinimalDocument(baseUrl: string, documents: string, queries: string, k: int): Json {
    JObj(map[
      "base_url" := JStr(baseUrl),
      "datasets" := JObj(map["documents" := JStr(documents), "queries" := JStr(queries)]),
      "search" := JObj(map["params" := JArr([JObj(map["k" := JInt(k)])])])])
  }

  lemma MinimalRequired(baseUrl: string, documents: string, queries: string, k: int)
    ensures RequiredOf(MinimalDocument(baseUrl, documents, queries, k))
         == Ok(Required(JStr(baseUrl), JStr(documents), JStr(queries), [JObj(map["k" := JInt(k)])]))
  {
    var y := MinimalDocument(baseUrl, documents, queries, k);
    var datasets := JObj(map["documents" := JStr(documents), "queries" := JStr(queries)]);
    var search := JObj(map["params" := JArr([JObj(map["k" := JInt(k)])])]);
    assert RequireKey(y, "base_url") == Ok(JStr(baseUrl));
    assert RequireKey(y, "datasets") == Ok(datasets);
    assert RequireKey(datasets, "documents") == Ok(JStr(documents));
    assert RequireKey(datasets, "queries") == Ok(JStr(queries));
    assert RequireKey(y, "search") == Ok(search);
    assert RequireKey(search, "params") == Ok(JArr([JObj(map["k" := JInt(k)])]));
  }

  lemma MinimalParams(k: int)
    ensures ParamsFrom([JObj(map["k" := JInt(k)])], 0) == Ok([SearchParam(DefaultName(1), k, JNull, JNull, None)])
  {
    var p := JObj(map["k" := JInt(k)]);
    var sp := SearchParam(DefaultName(1), k, JNull, JNull, None);
    assert ParamOf(p, 1) == Ok(sp);
    assert Numbered([p], 1, ParamOf) == Ok([]);
    assert Numbered([p], 0, ParamOf) == Ok([sp] + []);
    assert [sp] + [] == [sp];
  }

  lemma MinimalSettings(baseUrl: string, documents: string, queries: string, k: int)
    ensures SettingsOf(MinimalDocument(baseUrl, documents, queries, k).fields)
         == Ok((RetryConfig(3, 0.5, 5.0), IngestionConfig(1.0, 600.0), 30.0))
  {
    var raw := MinimalDocument(baseUrl, documents, queries, k).fields;
    assert NoOptionalKeys(raw);
    SettingsDefaults(raw);
  }

  /** A document with the required keys and no optional section loads, with the defaults. */
  lemma MinimalScenario(baseUrl: string, documents: string, queries: string, k: int)
    ensures ScenarioOf(MinimalDocument(baseUrl, documents, queries, k))
         == Ok(ScenarioConfig(RStripSlashes(baseUrl), documents, queries,
              [SearchParam(DefaultName(1), k, JNull, JNull, None)], 30.0,
              RetryConfig(3, 0.5, 5.0), IngestionConfig(1.0, 600.0)))
  {
    var y := MinimalDocument(baseUrl, documents, queries, k);
    assert TopLevel(y) == y;
    MinimalRequired(baseUrl, documents, queries, k);
    MinimalParams(k);
    MinimalSettings(baseUrl, documents, queries, k);
  }
}

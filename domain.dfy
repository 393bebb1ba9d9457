/** The record types of the evaluation core (musubi_eval/domain/models.py and the
    configuration records of musubi_eval/config.py), and the arithmetic mean the aggregation
    uses. */
module Domain {
  import opened Values

  /** A document to ingest. */
  datatype Document = Document(id: string, text: string, metadata: Option<map<string, Json>>)

  /** A labelled query: its text, the ids of its relevant documents, and an optional filter. */
  datatype Query = Query(
    id: string,
    query: string,
    positiveIds: seq<string>,
    filter: Option<map<string, Json>>)

  /** One search configuration under test. `ef` and `alpha` are passed to the backend as they
      were given (the configuration loader does not coerce them); JNull stands for None. */
  datatype SearchParam = SearchParam(
    name: string,
    k: int,
    ef: Json,
    alpha: Json,
    filter: Option<map<string, Json>>)

  /** The ranking-quality metrics of one query. */
  datatype QueryMetrics = QueryMetrics(recallAtK: real, mrr: real, ndcgAtK: real)

  datatype RetryConfig = RetryConfig(maxAttempts: int, baseBackoffSec: real, maxBackoffSec: real)

  datatype IngestionConfig = IngestionConfig(pollIntervalSec: real, timeoutSec: real)

  /** The scenario settings the evaluation core reads. */
  datatype ScenarioConfig = ScenarioConfig(
    baseUrl: string,
    documentsPath: string,
    queriesPath: string,
    searchParams: seq<SearchParam>,
    timeoutSec: real,
    retry: RetryConfig,
    ingestion: IngestionConfig)

  function Sum(values: seq<real>): real {
    if values == [] then 0.0 else Sum(values[..|values| - 1]) + values[|values| - 1]
  }

  /** The arithmetic mean; 0.0 for no values. */
  function Mean(values: seq<real>): real {
    if values == [] then 0.0 else Sum(values) / |values| as real
  }

  lemma {:induction false} SumConstant(values: seq<real>, c: real)
    requires forall i :: 0 <= i < |values| ==> values[i] == c
    ensures Sum(values) == |values| as real * c
  {
    if values != [] {
      SumConstant(values[..|values| - 1], c);
    }
  }

  /** The mean of values that all equal c is c (and the mean of nothing is 0.0). */
  lemma MeanConstant(values: seq<real>, c: real)
    requires forall i :: 0 <= i < |values| ==> values[i] == c
    ensures Mean(values) == if values == [] then 0.0 else c
  {
    SumConstant(values, c);
  }

  lemma MeanExamples()
    ensures Mean([]) == 0.0
    ensures Mean([1.0, 2.0, 3.0]) == 2.0
  {
    assert [1.0, 2.0, 3.0][..2] == [1.0, 2.0];
    assert [1.0, 2.0][..1] == [1.0];
    assert [1.0][..0] == [];
  }

  lemma {:induction false} SumBounds(values: seq<real>, lo: real, hi: real)
    requires forall i :: 0 <= i < |values| ==> lo <= values[i] <= hi
    ensures |values| as real * lo <= Sum(values) <= |values| as real * hi
  {
    if values != [] {
      SumBounds(values[..|values| - 1], lo, hi);
    }
  }

  /** The mean of values within [lo, hi] is within [lo, hi]. */
  lemma MeanBounds(values: seq<real>, lo: real, hi: real)
    requires values != []
    requires forall i :: 0 <= i < |values| ==> lo <= values[i] <= hi
    ensures lo <= Mean(values) <= hi
  {
    SumBounds(values, lo, hi);
    var n := |values| as real;
    assert n * lo <= Sum(values) <= n * hi;
    assert Sum(values) / n >= lo by {
      assert Sum(values) >= lo * n;
    }
    assert Sum(values) / n <= hi by {
      assert Sum(values) <= hi * n;
    }
  }
}

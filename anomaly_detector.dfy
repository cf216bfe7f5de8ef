/** The anomaly detector (anomaly_detector.py): its `is_trained` lifecycle
    and the labelling of rows. Fitting and scoring by scikit-learn are
    inputs: a fitted forest is an opaque value, `predict` gives the forest's
    verdict for a row (-1 anomalous, 1 normal) and `score` its decision value. */
module AnomalyDetector {
  import opened Common

  /** A fitted isolation forest with its scaler, known only by the number of
      rows it was fitted on. */
  datatype Forest = Forest(fittedRows: nat)

  /** A row of the results frame: the metric and the columns detection adds. */
  datatype Row = Row(metric: Metric, anomaly: int, isAnomaly: string, score: Option<real>)

  /** The warnings `display_anomalies` prints for one row. */
  datatype Warning = HighCpu | HighMemory | HighNetwork

  /** What `display_anomalies` reports. */
  datatype Report = NoAnomalies | Alerts(rows: seq<Row>, warnings: seq<seq<Warning>>)

  const ANOMALY := -1
  const CPU_LIMIT := 80.0
  const MEMORY_LIMIT := 80.0
  const NETWORK_LIMIT := 700.0

  /** `load_data`: the frame, `None` when the file does not exist; any other
      read error propagates. */
  function LoadData(file: File<Metric>): (r: Try<Option<seq<Metric>>>)
    ensures r == Value(None) <==> file.Missing?
    ensures r.Raised? <==> file.Unreadable?
    ensures file.Stored? ==> r == Value(Some(file.rows))
  {
    match file
    case Missing => Value(None)
    case Stored(rows) => Value(Some(rows))
    case Unreadable(e) => Raised(e)
  }

  /** One row labelled with the forest's verdict. */
  function Label(m: Metric, verdict: int): (r: Row)
    ensures r.metric == m && r.anomaly == verdict && r.score == None
    ensures r.isAnomaly == "YES" <==> verdict == ANOMALY
    ensures r.isAnomaly == "NO" <==> verdict != ANOMALY
  {
    Row(m, verdict, if verdict == ANOMALY then "YES" else "NO", None)
  }

  /** `df[df['anomaly'] == -1]`: the anomalous rows, in order. */
  function Flagged(rows: seq<Row>): (r: seq<Row>)
    ensures |r| <= |rows|
    ensures forall x :: x in r ==> x in rows && x.anomaly == ANOMALY
    decreases |rows|
  {
    if rows == [] then []
    else
      var rest := Flagged(rows[..|rows| - 1]);
      var last := rows[|rows| - 1];
      if last.anomaly == ANOMALY then rest + [last] else rest
  }

  /** The filter keeps a single row exactly when it is anomalous. */
  lemma FlaggedSingleton(x: Row)
    ensures Flagged([x]) == if x.anomaly == ANOMALY then [x] else []
  {
    assert [x][..0] == [];
  }

  /** The filter distributes over concatenation. With `FlaggedSingleton`
      this determines `Flagged` completely: the anomalous rows, each once,
      in frame order. */
  lemma {:induction false} FlaggedAppend(a: seq<Row>, b: seq<Row>)
    ensures Flagged(a + b) == Flagged(a) + Flagged(b)
    decreases |b|
  {
    if b == [] {
      assert a + b == a;
    } else {
      var init, last := b[..|b| - 1], b[|b| - 1];
      var ab := a + b;
      assert ab[..|ab| - 1] == a + init;
      assert ab[|ab| - 1] == last;
      FlaggedAppend(a, init);
      var tail := if last.anomaly == ANOMALY then [last] else [];
      assert Flagged(ab) == Flagged(a + init) + tail;
      assert Flagged(b) == Flagged(init) + tail;
    }
  }

  /** How many rows are anomalous. */
  function CountFlagged(rows: seq<Row>): nat
    decreases |rows|
  {
    if rows == [] then 0 else (if rows[0].anomaly == ANOMALY then 1 else 0) + CountFlagged(rows[1..])
  }

  /** Every anomalous row is kept by the filter. */
  lemma {:induction false} FlaggedComplete(rows: seq<Row>, i: nat)
    requires i < |rows| && rows[i].anomaly == ANOMALY
    ensures rows[i] in Flagged(rows)
    decreases |rows|
  {
    if i < |rows| - 1 {
      FlaggedComplete(rows[..|rows| - 1], i);
    }
  }

  /** The filter's length is the number of anomalous rows. */
  lemma {:induction false} FlaggedCount(rows: seq<Row>)
    ensures |Flagged(rows)| == CountFlagged(rows)
    decreases |rows|
  {
    if rows != [] {
      FlaggedCount(rows[..|rows| - 1]);
      CountFlaggedSnoc(rows[..|rows| - 1], rows[|rows| - 1]);
      assert rows == rows[..|rows| - 1] + [rows[|rows| - 1]];
    }
  }

  lemma {:induction false} CountFlaggedSnoc(rows: seq<Row>, x: Row)
    ensures CountFlagged(rows + [x]) == CountFlagged(rows) + (if x.anomaly == ANOMALY then 1 else 0)
    decreases |rows|
  {
    if rows != [] {
      assert (rows + [x])[1..] == rows[1..] + [x];
      CountFlaggedSnoc(rows[1..], x);
    }
  }

  /** The warnings for one row. */
  function Warnings(r: Row): (ws: seq<Warning>)
    ensures HighCpu in ws <==> r.metric.cpuUsage > CPU_LIMIT
    ensures HighMemory in ws <==> r.metric.memoryUsage > MEMORY_LIMIT
    ensures HighNetwork in ws <==> r.metric.networkTraffic > NETWORK_LIMIT
  {
    (if r.metric.cpuUsage > CPU_LIMIT then [HighCpu] else [])
    + (if r.metric.memoryUsage > MEMORY_LIMIT then [HighMemory] else [])
    + (if r.metric.networkTraffic > NETWORK_LIMIT then [HighNetwork] else [])
  }

  /** `display_anomalies`: "No anomalies" when none is flagged, else each
      flagged row with its warnings. */
  function DisplayAnomalies(rows: seq<Row>): (r: Report)
    ensures r.NoAnomalies? <==> Flagged(rows) == []
    ensures r.Alerts? ==> r.rows == Flagged(rows) && |r.warnings| == |r.rows|
                          && forall i :: 0 <= i < |r.rows| ==> r.warnings[i] == Warnings(r.rows[i])
  {
    var flagged := Flagged(rows);
    if |flagged| == 0 then NoAnomalies
    else Alerts(flagged, seq(|flagged|, i requires 0 <= i < |flagged| => Warnings(flagged[i])))
  }

  /** The frame `/detect` writes: every row labelled with the forest's
      verdict and carrying its decision value. */
  function Scored(rows: seq<Metric>, predict: Metric -> int, score: Metric -> real): (r: seq<Row>)
    ensures |r| == |rows|
    ensures forall i :: 0 <= i < |rows| ==>
              r[i].metric == rows[i] && r[i].anomaly == predict(rows[i])
              && (r[i].isAnomaly == "YES" <==> predict(rows[i]) == ANOMALY)
              && r[i].score == Some(score(rows[i]))
  {
    seq(|rows|, i requires 0 <= i < |rows| => Label(rows[i], predict(rows[i])).(score := Some(score(rows[i]))))
  }

  /** The anomalies of an analysis are exactly the rows the forest rejected:
      each is marked "YES", and every rejected row is among them. */
  lemma ScoredAnomalies(rows: seq<Metric>, predict: Metric -> int, score: Metric -> real)
    ensures var r := Scored(rows, predict, score);
            && (forall x :: x in Flagged(r) ==> x.isAnomaly == "YES" && predict(x.metric) == ANOMALY)
            && (forall i :: 0 <= i < |rows| && predict(rows[i]) == ANOMALY ==> r[i] in Flagged(r))
  {
    var r := Scored(rows, predict, score);
    forall x | x in Flagged(r)
      ensures x.isAnomaly == "YES" && predict(x.metric) == ANOMALY
    {
      var i :| 0 <= i < |r| && r[i] == x;
    }
    forall i | 0 <= i < |rows| && predict(rows[i]) == ANOMALY
      ensures r[i] in Flagged(r)
    {
      FlaggedComplete(r, i);
    }
  }

  class Detector {
    var model: Option<Forest>
    var isTrained: bool

    /** A detector is trained exactly when it holds a model. */
    ghost predicate Valid()
      reads this
    {
      isTrained <==> model.Some?
    }

    constructor ()
      ensures Valid() && model == None && !isTrained
    {
      model := None;
      isTrained := false;
    }

    /** `train_model`: fits a forest and marks the detector trained. Fitting
        an empty frame raises inside scikit-learn; the only caller never
        does it. */
    method TrainModel(rows: seq<Metric>)
      requires |rows| > 0
      modifies this
      ensures Valid() && isTrained && model == Some(Forest(|rows|))
    {
      model := Some(Forest(|rows|));
      isTrained := true;
    }

    /** `detect_anomalies`: `None` when untrained; otherwise the same rows
        with `anomaly` the forest's verdict and `is_anomaly` "YES" iff it is
        -1. The source adds the columns to the caller's frame in place. */
    method DetectAnomalies(rows: seq<Metric>, predict: Metric -> int) returns (r: Option<seq<Row>>)
      ensures r.None? <==> !isTrained
      ensures r.Some? ==> |r.value| == |rows|
      ensures r.Some? ==> forall i :: 0 <= i < |rows| ==>
                r.value[i].metric == rows[i] && r.value[i].anomaly == predict(rows[i])
                && (r.value[i].isAnomaly == "YES" <==> predict(rows[i]) == ANOMALY)
                && (r.value[i].isAnomaly == "NO" <==> predict(rows[i]) != ANOMALY)
                && r.value[i].score == None
    {
      if !isTrained {
        return None;
      }
      var labelled := seq(|rows|, i requires 0 <= i < |rows| => Label(rows[i], predict(rows[i])));
      r := Some(labelled);
    }

    /** `get_anomaly_score`: adds `anomaly_score` to every row; with no model
        it raises. Which exception depends on the scaler, which is not
        modelled (an unfitted scaler fails first, a fitted one leaves the call
        on `None` to fail), so the error text stands for either. */
    method AnomalyScores(rows: seq<Row>, score: Metric -> real) returns (r: Try<seq<Row>>)
      ensures r.Raised? <==> model.None?
      ensures r.Value? ==> |r.value| == |rows|
      ensures r.Value? ==> forall i :: 0 <= i < |rows| ==> r.value[i] == rows[i].(score := Some(score(rows[i].metric)))
    {
      if model.None? {
        return Raised("no fitted model");
      }
      r := Value(seq(|rows|, i requires 0 <= i < |rows| => rows[i].(score := Some(score(rows[i].metric)))));
    }

    /** `save_model`: what is pickled to the model file, nothing when
        untrained. */
    method SaveModel() returns (written: Option<Forest>)
      requires Valid()
      ensures written.Some? <==> isTrained
      ensures written == model
    {
      if !isTrained {
        return None;
      }
      written := model;
    }

    /** `load_model`: a model file that exists makes the detector trained; a
        missing one (`FileNotFoundError`) changes nothing. */
    method LoadModel(file: Option<Forest>)
      requires Valid()
      modifies this
      ensures Valid()
      ensures file.Some? ==> isTrained && model == file
      ensures file.None? ==> isTrained == old(isTrained) && model == old(model)
    {
      if file.Some? {
        model := file;
        isTrained := true;
      }
    }
  }
}

/** The Flask routes (app.py) over the backend's three files: the metrics
    CSV, the results CSV and the pickled model. Each route's body is inside a
    `try` that turns any exception into a 500 reply carrying `str(e)`; the
    only exceptions modelled are the read errors of an unreadable CSV. What
    `collect_data`, the forest's `predict` and its `decision_function` return
    are inputs. The route functions also give the replies as the dashboard
    and the action panel decode them. */
module Api {
  import opened Common
  import DataCollector
  import opened AnomalyDetector
  import ActionPanel
  import Dashboard

  /** config.py's SIMULATION_MODE, which `/status` reports whatever mode the
      collector fell back to. */
  const SIMULATION_MODE := DataCollector.DEFAULT_CONFIG.simulationMode

  /** The part of a JSON reply besides `status` and `message`. */
  datatype Payload =
    | NoPayload
    | Collected(data: seq<Metric>)
    | TrainedOn(recordsUsed: nat)
    | Analysis(totalRecords: nat, anomaliesFound: nat, anomalies: seq<Row>)
    | StatusData(dataCollected: bool, totalRecords: nat, modelTrained: bool,
                 modelFileExists: bool, simulationMode: bool, timestamp: string)
    | AnomalyList(totalAnomalies: nat, anomalies: seq<Row>)
    | MetricList(totalRecords: nat, metrics: seq<Metric>)

  /** An HTTP reply: its code and its JSON body. */
  datatype Response = Response(code: nat, status: string, message: Option<string>, payload: Payload)

  /** The reply of a route that failed. */
  function Failure(code: nat, message: string): (r: Response)
    ensures r.status == "error" && r.code == code && r.message == Some(message)
  {
    Response(code, "error", Some(message), NoPayload)
  }

  const NOT_TRAINED := "Model not trained yet. Train the model first using /train"
  const NO_TRAINING_DATA := "No data available to train. Collect data first using /collect"
  const NO_ANALYSIS_DATA := "No data available to analyze"
  const NO_RESULTS := "No anomaly detection results found. Run /detect first"
  const NO_METRICS := "No data collected yet. Use /collect first"
  const CLEARED := "All data and model cleared successfully"

  /** `request.json.get('num_collections', 1) if request.json else 1`, and
      the number of passes `range` makes of it. */
  function Iterations(json: JsonBody): (n: nat)
    ensures json.NoBody? || json.numCollections.None? ==> n == 1
    ensures json.Json? && json.numCollections.Some? ==>
              n == if json.numCollections.value < 0 then 0 else json.numCollections.value
  {
    var requested := if json.Json? && json.numCollections.Some? then json.numCollections.value else 1;
    if requested < 0 then 0 else requested
  }

  /** The metrics of the first `n` collections, in collection order. */
  function Gathered(batch: nat -> seq<Metric>, n: nat): seq<Metric>
    decreases n
  {
    if n == 0 then [] else Gathered(batch, n - 1) + batch(n - 1)
  }

  /** Collections of `k` metrics each gather `n * k` metrics, and the first
      collection comes first. */
  lemma {:induction false} GatheredLength(batch: nat -> seq<Metric>, n: nat, k: nat)
    requires forall i :: 0 <= i < n ==> |batch(i)| == k
    ensures |Gathered(batch, n)| == n * k
    ensures n > 0 ==> Gathered(batch, n)[..k] == batch(0)
    decreases n
  {
    if n > 0 {
      GatheredLength(batch, n - 1, k);
      if n == 1 {
        assert Gathered(batch, 1) == [] + batch(0);
      }
    }
  }

  /** The "Collect Data" button asks for five collections: with the three
      simulated instances of config.py that is fifteen new metrics. */
  lemma CollectButtonGathers(batch: nat -> seq<Metric>)
    requires forall i :: 0 <= i < 5 ==> |batch(i)| == DataCollector.DEFAULT_CONFIG.numInstances
    ensures var n := Iterations(ActionPanel.RequestBody("collect"));
            n == 5 && |Gathered(batch, n)| == 15
  {
    GatheredLength(batch, 5, 3);
  }

  /** How the action panel reads a reply: `status`, `message` and
      `anomalies_found`. */
  function AsReply(r: Response): (reply: ActionPanel.Reply)
    ensures reply.Envelope? && reply.status == r.status && reply.message == r.message
    ensures reply.anomaliesFound.Some? <==> r.payload.Analysis?
  {
    ActionPanel.Envelope(r.status, r.message,
      if r.payload.Analysis? then Some(r.payload.anomaliesFound as int) else None)
  }

  /** How `fetchStatus` reads a reply: only a "success" reply is used. */
  function AsStatusFetch(r: Response): (f: Dashboard.Fetch<Option<SystemStatus>>)
    ensures f.Succeeded? <==> r.status == "success"
    ensures f.Succeeded? && r.payload.StatusData? ==>
              f.payload == Some(SystemStatus(r.payload.totalRecords, r.payload.modelTrained))
  {
    if r.status != "success" then Dashboard.Rejected
    else if r.payload.StatusData? then
      Dashboard.Succeeded(Some(SystemStatus(r.payload.totalRecords, r.payload.modelTrained)))
    else Dashboard.Succeeded(None)
  }

  /** How `fetchMetrics` reads a reply. */
  function AsMetricsFetch(r: Response): (f: Dashboard.Fetch<Option<seq<Metric>>>)
    ensures f.Succeeded? <==> r.status == "success"
    ensures f.Succeeded? && r.payload.MetricList? ==> f.payload == Some(r.payload.metrics)
  {
    if r.status != "success" then Dashboard.Rejected
    else if r.payload.MetricList? then Dashboard.Succeeded(Some(r.payload.metrics))
    else Dashboard.Succeeded(None)
  }

  /** How `fetchAnomalies` reads a reply: the metric columns of each row. */
  function AsAnomaliesFetch(r: Response): (f: Dashboard.Fetch<Option<seq<Metric>>>)
    ensures f.Succeeded? <==> r.status == "success"
    ensures f.Succeeded? && r.payload.AnomalyList? ==>
              f.payload.Some? && |f.payload.value| == |r.payload.anomalies|
              && forall i :: 0 <= i < |r.payload.anomalies| ==> f.payload.value[i] == r.payload.anomalies[i].metric
  {
    if r.status != "success" then Dashboard.Rejected
    else if r.payload.AnomalyList? then
      var rows := r.payload.anomalies;
      Dashboard.Succeeded(Some(seq(|rows|, i requires 0 <= i < |rows| => rows[i].metric)))
    else Dashboard.Succeeded(None)
  }

  /** The backend process: its files and its one detector. */
  class Server {
    var dataFile: File<Metric>
    var resultsFile: File<Row>
    var modelFile: Option<Forest>
    const detector: Detector

    ghost predicate Valid()
      reads this, detector
    {
      detector.Valid()
    }

    /** Start-up: a fresh detector, which loads the model when its file
        exists. */
    constructor (data: File<Metric>, results: File<Row>, model: Option<Forest>)
      ensures Valid() && fresh(detector)
      ensures dataFile == data && resultsFile == results && modelFile == model
      ensures detector.model == model && (detector.isTrained <==> model.Some?)
    {
      dataFile := data;
      resultsFile := results;
      modelFile := model;
      var d := new Detector();
      d.LoadModel(model);
      detector := d;
    }

    /** `POST /collect`: the metrics of `Iterations(json)` collections,
        `batch(i)` being what the i-th `collect_data` call returned, appended
        to the metrics file. An unreadable metrics file fails the route with
        nothing written; gathering nothing while no file exists leaves a file
        no read can parse (`DataCollector.SaveToCsv`). */
    method Collect(json: JsonBody, batch: nat -> seq<Metric>) returns (resp: Response)
      modifies this
      ensures resultsFile == old(resultsFile) && modelFile == old(modelFile)
      ensures var all := Gathered(batch, Iterations(json));
              var saved := DataCollector.SaveToCsv(old(dataFile), all);
              && (saved.Raised? ==> resp == Failure(500, saved.error) && dataFile == old(dataFile))
              && (saved.Value? ==>
                    && dataFile == saved.value
                    && resp == Response(200, "success", Some("Collected " + NatToString(|all|) + " metrics"), Collected(all)))
    {
      var n := Iterations(json);
      var all: seq<Metric> := [];
      var i := 0;
      while i < n
        invariant 0 <= i <= n
        invariant all == Gathered(batch, i)
      {
        all := all + batch(i);
        i := i + 1;
      }
      var saved := DataCollector.SaveToCsv(dataFile, all);
      if saved.Raised? {
        return Failure(500, saved.error);
      }
      dataFile := saved.value;
      resp := Response(200, "success", Some("Collected " + NatToString(|all|) + " metrics"), Collected(all));
    }

    /** `POST /train`: fits the detector on the whole metrics file and pickles
        it. A missing or empty file is a 400 and an unreadable one a 500,
        both leaving the detector and the model file as they were. */
    method Train() returns (resp: Response)
      requires Valid()
      modifies this, detector
      ensures Valid()
      ensures dataFile == old(dataFile) && resultsFile == old(resultsFile)
      ensures old(dataFile).Unreadable? ==>
                resp == Failure(500, old(dataFile).error)
                && modelFile == old(modelFile) && detector.model == old(detector.model)
      ensures old(dataFile).Missing? || old(dataFile) == Stored([]) ==>
                resp == Failure(400, NO_TRAINING_DATA)
                && modelFile == old(modelFile) && detector.model == old(detector.model)
      ensures old(dataFile).Stored? && old(dataFile).rows != [] ==>
                var n := |old(dataFile).rows|;
                && detector.isTrained && detector.model == Some(Forest(n)) && modelFile == Some(Forest(n))
                && resp == Response(200, "success", Some("Model trained successfully on " + NatToString(n) + " records"), TrainedOn(n))
    {
      var df := LoadData(dataFile);
      if df.Raised? {
        return Failure(500, df.error);
      }
      if df.value.None? || |df.value.value| == 0 {
        return Failure(400, NO_TRAINING_DATA);
      }
      var rows := df.value.value;
      detector.TrainModel(rows);
      modelFile := detector.SaveModel();
      resp := Response(200, "success", Some("Model trained successfully on " + NatToString(|rows|) + " records"), TrainedOn(|rows|));
    }

    /** `POST /detect`: refuses an untrained detector before looking at the
        data; otherwise labels and scores every metric, writes the results
        file and replies with the rows the forest rejected. */
    method Detect(predict: Metric -> int, score: Metric -> real) returns (resp: Response)
      requires Valid()
      modifies this
      ensures dataFile == old(dataFile) && modelFile == old(modelFile)
      ensures !detector.isTrained ==> resp == Failure(400, NOT_TRAINED) && resultsFile == old(resultsFile)
      ensures detector.isTrained && dataFile.Unreadable? ==>
                resp == Failure(500, dataFile.error) && resultsFile == old(resultsFile)
      ensures detector.isTrained && (dataFile.Missing? || dataFile == Stored([])) ==>
                resp == Failure(400, NO_ANALYSIS_DATA) && resultsFile == old(resultsFile)
      ensures detector.isTrained && dataFile.Stored? && dataFile.rows != [] ==>
                var results := Scored(dataFile.rows, predict, score);
                && resultsFile == Stored(results)
                && resp == Response(200, "success", Some("Analysis complete"),
                                    Analysis(|results|, |Flagged(results)|, Flagged(results)))
    {
      if !detector.isTrained {
        return Failure(400, NOT_TRAINED);
      }
      var df := LoadData(dataFile);
      if df.Raised? {
        return Failure(500, df.error);
      }
      if df.value.None? || |df.value.value| == 0 {
        return Failure(400, NO_ANALYSIS_DATA);
      }
      var rows := df.value.value;
      var labelled := detector.DetectAnomalies(rows, predict);
      var scored := detector.AnomalyScores(labelled.value, score);
      assert scored.value == Scored(rows, predict, score);
      resultsFile := Stored(scored.value);
      var anomalies := Flagged(scored.value);
      resp := Response(200, "success", Some("Analysis complete"), Analysis(|scored.value|, |anomalies|, anomalies));
    }

    /** `GET /status`: whether the metrics file exists and how many rows it
        holds, whether the detector is trained and whether the model file
        exists. `now` is the formatted clock time. */
    function Status(now: string): (r: Response)
      reads this, detector
      ensures dataFile.Unreadable? <==> r.code == 500
      ensures r.status == "success" <==> !dataFile.Unreadable?
      ensures r.status == "success" ==>
                && r.payload.StatusData?
                && (r.payload.dataCollected <==> !dataFile.Missing?)
                && r.payload.totalRecords == |DataCollector.Existing(dataFile)|
                && (r.payload.modelTrained <==> detector.isTrained)
                && (r.payload.modelFileExists <==> modelFile.Some?)
                && r.payload.simulationMode == SIMULATION_MODE
    {
      match dataFile
      case Unreadable(e) => Failure(500, e)
      case _ =>
        Response(200, "success", None,
          StatusData(!dataFile.Missing?, |DataCollector.Existing(dataFile)|, detector.isTrained,
                     modelFile.Some?, SIMULATION_MODE, now))
    }

    /** `GET /anomalies`: the rejected rows of the last analysis; 404 before
        any. */
    function Anomalies(): (r: Response)
      reads this
      ensures r.code == 404 <==> resultsFile.Missing?
      ensures r.status == "success" <==> resultsFile.Stored?
      ensures resultsFile.Stored? ==>
                r.payload == AnomalyList(|Flagged(resultsFile.rows)|, Flagged(resultsFile.rows))
                && |r.payload.anomalies| <= |resultsFile.rows|
    {
      match resultsFile
      case Missing => Failure(404, NO_RESULTS)
      case Unreadable(e) => Failure(500, e)
      case Stored(rows) => Response(200, "success", None, AnomalyList(|Flagged(rows)|, Flagged(rows)))
    }

    /** `GET /metrics`: every collected metric; 404 before any collection. */
    function Metrics(): (r: Response)
      reads this
      ensures r.code == 404 <==> dataFile.Missing?
      ensures r.status == "success" <==> dataFile.Stored?
      ensures dataFile.Stored? ==> r.payload == MetricList(|dataFile.rows|, dataFile.rows)
    {
      match dataFile
      case Missing => Failure(404, NO_METRICS)
      case Unreadable(e) => Failure(500, e)
      case Stored(rows) => Response(200, "success", None, MetricList(|rows|, rows))
    }

    /** `POST /clear`: removes the three files and resets the detector. */
    method Clear() returns (resp: Response)
      modifies this, detector
      ensures Valid()
      ensures dataFile.Missing? && resultsFile.Missing? && modelFile.None?
      ensures detector.model.None? && !detector.isTrained
      ensures resp == Response(200, "success", Some(CLEARED), NoPayload)
    {
      dataFile := Missing;
      resultsFile := Missing;
      modelFile := None;
      detector.model := None;
      detector.isTrained := false;
      resp := Response(200, "success", Some(CLEARED), NoPayload);
    }
  }

  /** A first collection of no passes (`num_collections` zero or negative)
      writes a metrics file without a header. From then on `/status` and
      `/metrics` answer 500, and so does the next `/collect`, whose read of
      the file fails before anything is saved, until "Clear" removes it. */
  lemma NoPassCollectJamsReads(batch: nat -> seq<Metric>, k: int, s: Server, now: string)
    requires k <= 0
    requires s.dataFile == DataCollector.SaveToCsv(Missing, Gathered(batch, Iterations(Json(Some(k))))).value
    ensures s.dataFile == Unreadable(DataCollector.EMPTY_CSV_ERROR)
    ensures s.Status(now) == Failure(500, DataCollector.EMPTY_CSV_ERROR)
    ensures s.Metrics() == Failure(500, DataCollector.EMPTY_CSV_ERROR)
    ensures forall more :: DataCollector.SaveToCsv(s.dataFile, more) == Raised(DataCollector.EMPTY_CSV_ERROR)
  {
    assert Gathered(batch, 0) == [];
  }

  /** After "Clear", the next refresh of the dashboard shows zero records and
      an untrained model, but `/metrics` and `/anomalies` now reply 404, which
      the page ignores: the charts and the anomaly list keep what they showed
      before. */
  lemma ClearedRefreshKeepsCharts(s: Server, v: Dashboard.View, now: string)
    requires s.dataFile.Missing? && s.resultsFile.Missing? && !s.detector.isTrained
    ensures var after := Dashboard.Run(v, Dashboard.LoadAllDataEvents(
              Dashboard.Fetches(AsStatusFetch(s.Status(now)), AsMetricsFetch(s.Metrics()), AsAnomaliesFetch(s.Anomalies()))));
            && after.systemStatus == Some(SystemStatus(0, false))
            && after.metrics == v.metrics && after.anomalies == v.anomalies
            && !after.loading && !after.refreshing
  {
    var f := Dashboard.Fetches(AsStatusFetch(s.Status(now)), AsMetricsFetch(s.Metrics()), AsAnomaliesFetch(s.Anomalies()));
    Dashboard.LoadAllDataMerges(v, f);
  }

  /** A successful detect shows the number of rejected rows in its toast. */
  lemma DetectToastCountsAnomalies(rows: seq<Metric>, predict: Metric -> int, score: Metric -> real)
    ensures var results := Scored(rows, predict, score);
            var resp := Response(200, "success", Some("Analysis complete"),
                                 Analysis(|results|, |Flagged(results)|, Flagged(results)));
            ActionPanel.Notify("detect", AsReply(resp))
              == ActionPanel.OnSuccess(ActionPanel.DETECT_PREFIX + NatToString(CountFlagged(results)) + ActionPanel.DETECT_SUFFIX)
  {
    FlaggedCount(Scored(rows, predict, score));
  }
}

# Cloud-Sentinel, modelled in Dafny

Cloud-Sentinel watches the resource usage of cloud instances. It has two parts:

- **The backend** is a Flask service.
  - It collects CPU, memory and network samples. These are simulated, or read from AWS EC2 and CloudWatch.
  - It appends them to a metrics CSV.
  - It fits an isolation forest on that file and pickles the model.
  - It labels every sample as anomalous or normal and writes a results CSV.
  - It serves status, metrics and anomalies.
- **The frontend** is a Next.js dashboard.
  - On mount and every 30 s, it polls `/status`, `/metrics` and `/anomalies` concurrently.
  - It merges the replies into its state.
  - It renders four statistics cards, four charts and an anomaly list.
  - An action panel lets the user POST `collect`, `train`, `detect` and `clear`, then refreshes.

The project has one module per source file:

- `common.dfy` (`Common`): shared types and the decimal text of integers.
- `dashboard.dfy` (`Dashboard`): the page controller.
- `action_panel.dfy` (`ActionPanel`), `statistics_grid.dfy` (`StatisticsGrid`), `charts_section.dfy` (`ChartsSection`) and `anomalies_section.dfy` (`AnomaliesSection`): the four components.
- `data_collector.dfy` (`DataCollector`), `anomaly_detector.dfy` (`AnomalyDetector`) and `api.dfy` (`Api`): the backend.

Code that updates state in place becomes a class, and its methods are proved against pure specification functions:

- the page's state cells;
- the action panel's busy map;
- `AnimatedCounter`;
- the collector, the detector and the server's files.

Each kind of outside input is modelled this way:

- **Disk files** are values: missing, stored with rows, or present but unreadable.
- **Randomness, the AWS replies, the forest's predictions and decision values** are function-valued inputs.
- **The concurrency of the page** is a sequence of events, applied left to right:
  - a call starts;
  - one of its three fetches settles;
  - the call settles.

  Any interleaving of overlapping calls is such a sequence.

Behaviours of the code that the model makes explicit, and that a reader might not expect:

- **`refreshing` is one boolean.** With two overlapping refreshes, the first to settle clears it while the other is still in flight (`Dashboard.OverlapClearsRefreshingEarly`). One might expect the flag to stay true while any call is in flight. The code keeps only the other half: the flag is never on with no call in flight (the invariant `Dashboard.Page.Valid`).
- **Every settled refresh clears `loading`.** One might expect only the first refresh to clear it. What can be seen is the same either way, because nothing ever sets `loading` back to true (`Dashboard.LoadingClearsOnce`).
- **`AnimatedCounter` does not reset the shown number.** When its target changes to a new positive value, the old number stays on screen until the first tick of the new run; only a change to 0 shows 0 at once (`StatisticsGrid.Counter.SetValue`).
- **Clearing leaves the charts stale.** After "Clear", `/metrics` and `/anomalies` answer 404, and the page ignores replies that are not "success". The next refresh therefore shows zero records but keeps the old charts and anomaly list (`Api.ClearedRefreshKeepsCharts`).
- **The `/status` payload has no `status` field.** The statistics grid reads only `total_records` and `model_trained`, but the page also hands the payload to the navigation bar, which tests `status === "healthy"`; that test is never true, so the header always says "System Warning" (the navigation bar is not part of this model).
- **`num_collections` can be zero or negative.** It is not checked, so such a value makes zero passes, where one might expect it to be refused. On a fresh install this is not harmless: saving no metrics to a missing file writes a CSV with no header, which pandas cannot read back. Until "Clear", `/status`, `/metrics`, `/train` and `/collect` answer 500 (`Api.NoPassCollectJamsReads`); since the model can then no longer be trained, `/detect` answers 400 "Model not trained yet".
- **`/status` reports config.py's `SIMULATION_MODE`** (False), not the collector's own mode, which falls back to simulation when the AWS clients cannot be created.
- **The anomaly badges use one set of thresholds for all three readings.** Network traffic is in MB, yet it is compared against the 60 and 80 limits meant for percentages.

## Model

| member | source | states |
|---|---|---|
| Common.NatToString | app.py:78 | the decimal text of a count used in messages is non-empty, all digits and without a leading zero |
| Common.IntToString | frontend/components/action-panel.tsx:39 | the text of a JavaScript number starts with '-' exactly when it is negative |
| Common.ParseNatToString | frontend/components/action-panel.tsx:39 | reading the decimal text of a count gives the count back |
| Common.NatToStringInjective | data_collector.py:61 | different counts have different decimal texts |
| ActionPanel.FailureReason | frontend/components/action-panel.tsx:30-32 | a failed envelope carries its non-empty `message`, else "<action> failed" |
| ActionPanel.RequestBody | frontend/components/action-panel.tsx:20 | only collect sends a body, and that body asks for 5 collections |
| ActionPanel.Notify | frontend/components/action-panel.tsx:28-45 | an exception or a non-"success" envelope gives the failure text "❌ Failed to <action>: <reason>"; a success gives the action's success text; an unknown action calls no callback |
| ActionPanel.ExactlyOneCallback | frontend/components/action-panel.tsx:17-49 | for each of the four actions, every reply calls exactly one of onSuccess and onError |
| ActionPanel.DetectReportsCount | frontend/components/action-panel.tsx:39 | the detect toast's number, read back, is `anomalies_found`, or 0 when that is absent |
| ActionPanel.ClickEffect | frontend/components/action-panel.tsx:95-107 | a busy button takes no click; refresh reloads the page; any other button posts to "/<id>" |
| ActionPanel.Panel.constructor | frontend/components/action-panel.tsx:13 | no action starts busy |
| ActionPanel.Panel.Begin | frontend/components/action-panel.tsx:18-20 | marks the action busy and builds its request body |
| ActionPanel.Panel.Finish | frontend/components/action-panel.tsx:28-48 | clears the action's busy flag whatever the reply, and gives the notice of `Notify` |
| ActionPanel.Panel.Press | frontend/components/action-panel.tsx:100-107 | a click acts as `ClickEffect` says; only a dispatch sets a busy flag and sends a body |
| ActionPanel.Panel.HandleAction | frontend/components/action-panel.tsx:17-49 | a whole action leaves its busy flag false and gives exactly `Notify`'s notice |
| Dashboard.FetchIsolation | frontend/app/page.tsx:39-73 | each fetch writes only its own cell, only on "success", and never the flags |
| Dashboard.LoadAllDataMerges | frontend/app/page.tsx:75-83 | one `loadAllData` call decides each cell by its own fetch alone and clears both flags, whichever fetches failed |
| Dashboard.LoadingClearsOnce | frontend/app/page.tsx:75-83 | after any interleaving, `loading` is true iff it was true and no call has settled |
| Dashboard.MetricsKeptAfter | frontend/app/page.tsx:51-61 | events that do not write the metrics cell leave it unchanged |
| Dashboard.StatusKeptAfter | frontend/app/page.tsx:39-49 | events that do not write the status cell leave it unchanged |
| Dashboard.AnomaliesKeptAfter | frontend/app/page.tsx:63-73 | events that do not write the anomalies cell leave it unchanged |
| Dashboard.StatusLastWriteWins | frontend/app/page.tsx:44-46 | over any interleaving, the status shown is the payload of the last successful status fetch |
| Dashboard.StatusUnwrittenKept | frontend/app/page.tsx:44-46 | with no successful status fetch, the status stays as it was |
| Dashboard.MetricsLastWriteWins | frontend/app/page.tsx:56-58 | the metrics shown are those of the last successful metrics fetch, or [] when that reply had none |
| Dashboard.MetricsUnwrittenKept | frontend/app/page.tsx:56-58 | with no successful metrics fetch, the metrics stay as they were |
| Dashboard.AnomaliesLastWriteWins | frontend/app/page.tsx:68-70 | the anomalies shown are those of the last successful anomalies fetch, or [] when that reply had none |
| Dashboard.AnomaliesUnwrittenKept | frontend/app/page.tsx:68-70 | with no successful anomalies fetch, the anomalies stay as they were |
| Dashboard.RefreshingFollowsLastFlagEvent | frontend/app/page.tsx:75-83 | `refreshing` is whatever the last call start or call settle set it to |
| Dashboard.OverlapClearsRefreshingEarly | frontend/app/page.tsx:75-83 | with two overlapping calls, `refreshing` is false once the first settles, though the second is still in flight |
| Dashboard.Page.constructor | frontend/app/page.tsx:31-35 | the page starts with no status, empty lists, `loading` true and `refreshing` false; every method of the page keeps `refreshing` off while no call is in flight |
| Dashboard.Page.StartLoad | frontend/app/page.tsx:77 | starting a call sets `refreshing` and nothing else |
| Dashboard.Page.StatusSettled | frontend/app/page.tsx:39-49 | a settled status fetch applies its step to the state |
| Dashboard.Page.MetricsSettled | frontend/app/page.tsx:51-61 | a settled metrics fetch applies its step to the state |
| Dashboard.Page.AnomaliesSettled | frontend/app/page.tsx:63-73 | a settled anomalies fetch applies its step to the state |
| Dashboard.Page.Settle | frontend/app/page.tsx:79-82 | a settled call clears `refreshing` and `loading` |
| Dashboard.Page.LoadAllData | frontend/app/page.tsx:75-83 | a whole call takes the state to `Run` of its five events, with both flags clear |
| Dashboard.Page.Mount | frontend/app/page.tsx:85-87 | mounting starts one call and arms the 30 s interval |
| Dashboard.Page.IntervalFires | frontend/app/page.tsx:87 | a firing starts a call only while the interval is armed |
| Dashboard.Page.Unmount | frontend/app/page.tsx:88 | unmounting disarms the interval and changes no cell |
| Dashboard.Page.OnActionNotice | frontend/app/page.tsx:91-98 | a success notice raises a success toast and starts one refresh; a failure raises an error toast and starts none |
| Dashboard.StopMeansNoMoreLoads | frontend/app/page.tsx:85-89 | after unmounting, no number of timer firings starts another call |
| StatisticsGrid.Increment | frontend/components/statistics-grid.tsx:28 | the step is the ceiling of a thirtieth of the target |
| StatisticsGrid.TicksFromShape | frontend/components/statistics-grid.tsx:29-37 | the ticks climb by the step, strictly increase, never pass the target and end exactly on it |
| StatisticsGrid.TicksFromLength | frontend/components/statistics-grid.tsx:29-37 | a counter k steps short of the target reaches it in at most k ticks |
| StatisticsGrid.DisplayedSpec | frontend/components/statistics-grid.tsx:21-40 | a counter shows only 0 for 0, and otherwise reaches its target in 1 to 30 strictly increasing values |
| StatisticsGrid.Counter.Start | frontend/components/statistics-grid.tsx:21-37 | a target of 0 shows 0 at once; any other target arms the interval from 0, with the run `Displayed` still to show |
| StatisticsGrid.Counter.constructor | frontend/components/statistics-grid.tsx:19-21 | a counter mounts showing 0 and runs the effect for its target |
| StatisticsGrid.Counter.SetValue | frontend/components/statistics-grid.tsx:39-40 | only a changed target re-runs the effect; a new positive target keeps the old number shown until the next tick, a new 0 shows 0 at once |
| StatisticsGrid.Counter.Tick | frontend/components/statistics-grid.tsx:29-37 | one interval callback shows the next pending value, and stops on the target |
| StatisticsGrid.RunToTarget | frontend/components/statistics-grid.tsx:18-43 | a mounted counter ticked until its interval stops shows exactly `Displayed` of its target |
| StatisticsGrid.Stats | frontend/components/statistics-grid.tsx:46-84 | four cards, in order: records (0 with no status), anomalies (glowing iff any), model ("Trained" iff the status says so) and time |
| StatisticsGrid.Body | frontend/components/statistics-grid.tsx:114-119 | a skeleton while loading; otherwise an animated counter exactly for numeric values |
| StatisticsGrid.Caption | frontend/components/statistics-grid.tsx:122 | the alert caption appears only on the anomalies card, and only with anomalies |
| StatisticsGrid.AlertCardAgrees | frontend/components/statistics-grid.tsx:56-122 | the anomalies card glows exactly when it shows the alert caption |
| ChartsSection.LastWindow | frontend/components/charts-section.tsx:23 | the last min(12, n) metrics, in order |
| ChartsSection.ChartData | frontend/components/charts-section.tsx:23-28 | one point per metric of the last-12 window, in order, and none only for no metrics |
| ChartsSection.SumAtLeast | frontend/components/charts-section.tsx:34-36 | readings all at least lo sum to at least n times lo |
| ChartsSection.SumAtMost | frontend/components/charts-section.tsx:34-36 | readings all at most hi sum to at most n times hi |
| ChartsSection.AverageWithinBounds | frontend/components/charts-section.tsx:31-38 | each average lies between the least and the greatest reading |
| ChartsSection.AverageData | frontend/components/charts-section.tsx:40-44 | three bars, CPU, Memory and Network, carrying the channel means, all 0 without metrics |
| ChartsSection.LinePanel | frontend/components/charts-section.tsx:54-56 | a line card shows a skeleton iff loading, and a chart iff there are metrics |
| ChartsSection.AveragePanel | frontend/components/charts-section.tsx:195-197 | the average card shows a skeleton iff loading, and "no data" iff there are no metrics |
| ChartsSection.PanelsAgree | frontend/components/charts-section.tsx:54-197 | the window test and the length test never disagree, so all four cards show the same branch |
| AnomaliesSection.BadgeTone | frontend/components/anomalies-section.tsx:21-82 | red above 80, yellow above 60 up to 80, gray otherwise |
| AnomaliesSection.HighAndWarningExclusive | frontend/components/anomalies-section.tsx:21-22 | no reading is both high and warning |
| AnomaliesSection.EntryFor | frontend/components/anomalies-section.tsx:76-106 | all three readings use the same thresholds |
| AnomaliesSection.Render | frontend/components/anomalies-section.tsx:24-57 | a skeleton iff loading, whatever the list; "All Clear" iff not loading and no anomalies; else one entry per anomaly, in order, with its id, time and the tone of each reading |
| DataCollector.InstanceLabelsDistinct | data_collector.py:61 | different instance numbers give different ids |
| DataCollector.SimulatedMetric | data_collector.py:45-66 | the normal draws, except that a roll under 0.1 replaces the chosen reading with the spike |
| DataCollector.AtMostOneSpike | data_collector.py:50-57 | injection overrides at most one of the three readings |
| DataCollector.FirstNameTag | data_collector.py:100-102 | the position of the first "Name" tag, if there is one |
| DataCollector.InstanceName | data_collector.py:95-103 | the value of the first "Name" tag, else the instance id |
| DataCollector.Infos | data_collector.py:84-88 | one record per instance, in order |
| DataCollector.FlattenCount | data_collector.py:82-83 | flattening yields exactly as many records as the reservations hold instances |
| DataCollector.FlattenPosition | data_collector.py:82-83 | instance j of reservation r sits at position (instances of the earlier reservations) + j; with FlattenCount, every instance appears exactly once, in order |
| DataCollector.FlattenPrefix | data_collector.py:82-83 | flattening takes the reservations in order, from the first |
| DataCollector.LatestIndex | data_collector.py:130 | the latest datapoint: a greatest timestamp, the last such in input order |
| DataCollector.CloudWatchAverage | data_collector.py:128-137 | the latest datapoint's average; 0.0 with no datapoints or after an error |
| DataCollector.SourceFor | data_collector.py:183-191 | CloudWatch is used iff simulation is off and AWS is on |
| DataCollector.SaveToCsv | data_collector.py:197-206 | the new metrics follow the rows already in the file, which are kept; only a missing file is tolerated; saving no metrics to a missing file leaves a file that cannot be read |
| DataCollector.Collector.constructor | data_collector.py:10-34 | a failure to create the AWS clients forces simulation mode |
| DataCollector.Collector.SimulateMetricData | data_collector.py:36-68 | one simulated metric per instance number 1..N, in order |
| DataCollector.Collector.GetAwsInstances | data_collector.py:70-93 | the records of all instances, in order; [] when the call raised |
| DataCollector.Collector.CollectRealAwsData | data_collector.py:139-177 | simulation when no instance runs; otherwise one metric per instance, named by its "Name" tag, with CloudWatch's CPU reading |
| DataCollector.Collector.CollectData | data_collector.py:179-191 | simulation unless simulation is off and AWS is on; in AWS mode with no running instance (or a failed describe call) it falls back to simulation; otherwise one metric per instance, named after it |
| AnomalyDetector.LoadData | anomaly_detector.py:17-27 | a missing file gives None; any other read error propagates |
| AnomalyDetector.Label | anomaly_detector.py:83-84 | `is_anomaly` is "YES" iff the verdict is -1, else "NO" |
| AnomalyDetector.Flagged | app.py:151 | only anomalous rows of the frame, never more rows than it has |
| AnomalyDetector.FlaggedAppend | app.py:151 | the filter of a concatenation is the concatenation of the filters, so it keeps frame order and each row's multiplicity |
| AnomalyDetector.FlaggedSingleton | app.py:151 | a single row is kept exactly when it is anomalous |
| AnomalyDetector.FlaggedComplete | app.py:151 | every anomalous row is kept by the filter |
| AnomalyDetector.FlaggedCount | app.py:157 | the filter's length is the number of anomalous rows |
| AnomalyDetector.CountFlaggedSnoc | app.py:157 | one more row adds one to the anomaly count iff it is anomalous |
| AnomalyDetector.Warnings | anomaly_detector.py:157-163 | a warning per reading above 80 % CPU, 80 % memory or 700 MB of network traffic |
| AnomalyDetector.DisplayAnomalies | anomaly_detector.py:140-163 | "no anomalies" iff none is flagged; otherwise each flagged row with its warnings |
| AnomalyDetector.Scored | app.py:143-144 | the written frame: every row labelled with its verdict and carrying its decision value |
| AnomalyDetector.ScoredAnomalies | app.py:143-151 | an analysis reports exactly the rows the forest rejected, each marked "YES" |
| AnomalyDetector.Detector.constructor | anomaly_detector.py:12-15 | a new detector has no model and is not trained |
| AnomalyDetector.Detector.TrainModel | anomaly_detector.py:38-58 | training stores a fitted model and marks the detector trained |
| AnomalyDetector.Detector.DetectAnomalies | anomaly_detector.py:62-90 | None when untrained; otherwise every row labelled with the forest's verdict |
| AnomalyDetector.Detector.AnomalyScores | anomaly_detector.py:92-103 | raises with no model; otherwise adds each row's decision value |
| AnomalyDetector.Detector.SaveModel | anomaly_detector.py:105-122 | writes the model only when trained |
| AnomalyDetector.Detector.LoadModel | anomaly_detector.py:124-138 | an existing model file makes the detector trained; a missing one changes nothing |
| Api.Failure | app.py:82-86 | an error reply carries "error" with its code and message |
| Api.Iterations | app.py:66-69 | `num_collections`, default 1, with a negative count making no passes |
| Api.GatheredLength | app.py:68-71 | k metrics per collection over n collections give n times k metrics, the first collection first |
| Api.CollectButtonGathers | app.py:66-71 | the collect button asks for 5 collections, which with 3 simulated instances gather 15 metrics |
| Api.AsReply | frontend/components/action-panel.tsx:28-42 | the action panel reads `status`, `message` and `anomalies_found` from a reply |
| Api.AsStatusFetch | frontend/app/page.tsx:39-49 | `fetchStatus` uses only "success" replies, and takes their record count and trained flag |
| Api.AsMetricsFetch | frontend/app/page.tsx:51-61 | `fetchMetrics` uses only "success" replies, and takes their metrics |
| Api.AsAnomaliesFetch | frontend/app/page.tsx:63-73 | `fetchAnomalies` uses only "success" replies, and takes the metric columns of their rows, in order |
| Api.Server.constructor | app.py:16-22 | start-up loads the model iff its file exists |
| Api.Server.Collect | app.py:59-86 | gathers the metrics of every collection and appends them to the metrics file as `SaveToCsv` says; an unreadable file is a 500 and nothing is written |
| Api.Server.Train | app.py:88-119 | no data is a 400 and an unreadable file a 500, both changing nothing; otherwise it trains on every row and saves the model |
| Api.Server.Detect | app.py:121-165 | refuses an untrained model first, then missing data; otherwise writes the scored frame and replies with its anomalies |
| Api.Server.Status | app.py:167-200 | reports whether data exists and how many rows it has, whether the model is trained and whether its file exists |
| Api.Server.Anomalies | app.py:202-229 | 404 before any detection; otherwise the anomalous rows of the results file |
| Api.Server.Metrics | app.py:231-255 | 404 before any collection; otherwise every collected metric |
| Api.Server.Clear | app.py:257-287 | removes the three files and resets the detector to untrained |
| Api.NoPassCollectJamsReads | app.py:66-76 | a first `/collect` with no passes leaves a metrics file that makes `/status`, `/metrics` and every later `/collect` answer 500 |
| Api.ClearedRefreshKeepsCharts | app.py:257-287 | after a clear, a refresh shows 0 records and an untrained model but keeps the old charts and anomaly list |
| Api.DetectToastCountsAnomalies | app.py:151-157 | a successful detect's toast shows the number of rows the forest rejected |

## Left out

- **HTTP and JSON transport** are not modelled: CORS, status lines, headers and encoding. A reply is its code and its decoded body.
- **`request.json`** is assumed to decode to a falsy document or an object. A body without a JSON content type, or one that is not valid JSON, makes Flask raise; a truthy document that is not an object (`[1]`, `5`, `"x"`) passes `if request.json` and then fails on `.get`. `collect` answers 500 in each case, and the model has no such input.
- **A non-integer `num_collections`** makes `range` raise, which becomes a 500. The model takes an integer.
- **Timers and clocks:**
  - `setInterval`'s 30 s and 30 ms periods are not modelled. Each firing is one call.
  - `datetime.now()` and `toLocaleTimeString` are not modelled. Every formatted time is an input string; the collector takes one per metric.
- **Floating point** is not modelled. Readings are exact reals, and the two-decimal rounding on both sides is not modelled.
- **Randomness** is left out. `random.uniform`, `random.random` and `random.choice` are the fields of a `Draw` input.
- **The AWS replies** are inputs:
  - EC2's `describe_instances` is an input, and a raised exception is `None`.
  - CloudWatch's `get_metric_statistics` is an input, and a raised exception is `None`.
- **scikit-learn, pandas and pickle:**
  - Fitting, scaling, `predict` and `decision_function` are inputs. `AnomalyDetector.Forest` only records how many rows it was fitted on.
  - The `StandardScaler` field is not modelled.
  - A pickle that exists but cannot be read would stop start-up. It is not modelled.
- **Files:**
  - Every CSV read error other than a missing file is one `Unreadable` case.
  - Failures of `os.remove` and of writing are not modelled.
  - An empty collection saved to a missing file is modelled as an `Unreadable` file carrying pandas' `EmptyDataError` text.
- **Presentation:**
  - JSX layout, icons, colours and `toast` rendering are not modelled. Toasts are values.
  - `window.location.reload()` is modelled as the `Reload` click.
  - `toLocaleString()` digit grouping is not modelled.
- **`console.error` and `print` logging** are not modelled.
- **Other code:**
  - The `/` and `/health` routes are not part of this model.
  - frontend/components/navigation.tsx is not part of this model.
  - `metricsCount`, passed to the statistics grid but unused there, is not modelled.
  - config.py is reduced to the constants the core reads: the later `SIMULATION_MODE = False`, `USE_AWS = True` and three simulated instances.
- **AnomalyDetector.Detector.TrainModel** requires a non-empty frame. scikit-learn raises on an empty one, and `/train` never passes one. That exception is not modelled.
- **StatisticsGrid.Counter.Start** takes natural targets. The only values the page passes are a record count and a list length, so negative targets are not modelled.
- **DataCollector.Collector.CollectData** states the CloudWatch case with instances only by instance name and length; `CollectRealAwsData` gives the full readings.
- **Api.Server.Collect** takes each `collect_data` result as the input `batch(i)`, rather than calling the collector. `DataCollector.Collector.CollectData` models what that result is.
- **Concurrent requests** are not modelled. `app.run` serves requests on threads, so two of them can interleave on the detector and the CSV files; the model applies each request atomically.

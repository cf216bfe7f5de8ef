/** The dashboard page (frontend/app/page.tsx): five state cells refreshed by
    `loadAllData`, which the mount effect runs once and then on a 30 s
    interval, and which a successful action runs again.

    Each fetch is an input: the envelope it decoded, or the exception it
    caught. Overlapping calls are modelled as an interleaving of events: a
    call starts (`refreshing` set), each of its three fetches writes its own
    cell when it settles, and the call's `finally` clears both flags. */
module Dashboard {
  import opened Common
  import ActionPanel

  /** How one GET settled: an envelope with `status === 'success'` and the
      field it carries (absent is possible), an envelope with any other status,
      or an exception from `fetch` or `response.json()`. */
  datatype Fetch<+T> = Succeeded(payload: T) | Rejected | Threw

  /** The three fetches of one `loadAllData` call. */
  datatype Fetches = Fetches(
    status: Fetch<Option<SystemStatus>>,
    metrics: Fetch<Option<seq<Metric>>>,
    anomalies: Fetch<Option<seq<Metric>>>)

  /** The page's state cells. */
  datatype View = View(
    systemStatus: Option<SystemStatus>,
    metrics: seq<Metric>,
    anomalies: seq<Metric>,
    loading: bool,
    refreshing: bool)

  /** One step of the event loop that touches the page state. */
  datatype Event =
    | Started
    | StatusFetched(status: Fetch<Option<SystemStatus>>)
    | MetricsFetched(metrics: Fetch<Option<seq<Metric>>>)
    | AnomaliesFetched(anomalies: Fetch<Option<seq<Metric>>>)
    | Settled

  function InitialView(): View {
    View(None, [], [], true, false)
  }

  /** `fetchStatus`: `setSystemStatus(result.data)` on success only. */
  function MergeStatus(current: Option<SystemStatus>, f: Fetch<Option<SystemStatus>>): Option<SystemStatus> {
    if f.Succeeded? then f.payload else current
  }

  /** `fetchMetrics` / `fetchAnomalies`: `set(result.x || [])` on success only. */
  function MergeList(current: seq<Metric>, f: Fetch<Option<seq<Metric>>>): seq<Metric> {
    match f
    case Succeeded(p) => if p.Some? then p.value else []
    case _ => current
  }

  function Step(v: View, e: Event): View {
    match e
    case Started => v.(refreshing := true)
    case StatusFetched(f) => v.(systemStatus := MergeStatus(v.systemStatus, f))
    case MetricsFetched(f) => v.(metrics := MergeList(v.metrics, f))
    case AnomaliesFetched(f) => v.(anomalies := MergeList(v.anomalies, f))
    case Settled => v.(refreshing := false, loading := false)
  }

  /** The state after the events `es`, in order. */
  function Run(v: View, es: seq<Event>): View
    decreases |es|
  {
    if es == [] then v else Step(Run(v, es[..|es| - 1]), es[|es| - 1])
  }

  /** The events of one `loadAllData` call that nothing overlaps. */
  function LoadAllDataEvents(f: Fetches): seq<Event> {
    [Started, StatusFetched(f.status), MetricsFetched(f.metrics), AnomaliesFetched(f.anomalies), Settled]
  }

  predicate WritesStatus(e: Event) { e.StatusFetched? && e.status.Succeeded? }
  predicate WritesMetrics(e: Event) { e.MetricsFetched? && e.metrics.Succeeded? }
  predicate WritesAnomalies(e: Event) { e.AnomaliesFetched? && e.anomalies.Succeeded? }
  predicate TouchesRefreshing(e: Event) { e.Started? || e.Settled? }

  /** Each fetch writes only its own cell, and only on success: a failed
      fetch leaves every cell as it was, and no fetch touches the flags. */
  lemma FetchIsolation(v: View, e: Event)
    requires e.StatusFetched? || e.MetricsFetched? || e.AnomaliesFetched?
    ensures Step(v, e).loading == v.loading && Step(v, e).refreshing == v.refreshing
    ensures !WritesStatus(e) ==> Step(v, e).systemStatus == v.systemStatus
    ensures !WritesMetrics(e) ==> Step(v, e).metrics == v.metrics
    ensures !WritesAnomalies(e) ==> Step(v, e).anomalies == v.anomalies
  {
  }

  /** A whole call: each cell is decided by its own fetch alone, then both
      flags are clear, whichever fetches failed. */
  lemma {:induction false} LoadAllDataMerges(v: View, f: Fetches)
    ensures Run(v, LoadAllDataEvents(f)) == View(
              MergeStatus(v.systemStatus, f.status),
              MergeList(v.metrics, f.metrics),
              MergeList(v.anomalies, f.anomalies),
              false, false)
  {
    var es := LoadAllDataEvents(f);
    assert es[..1][..0] == [];
    assert es[..2][..1] == es[..1];
    assert es[..3][..2] == es[..2];
    assert es[..4][..3] == es[..3];
    assert es[..5] == es && es[..4] == es[..5][..4];
    assert Run(v, es[..1]) == Step(v, es[0]);
    assert Run(v, es[..2]) == Step(Run(v, es[..1]), es[1]);
    assert Run(v, es[..3]) == Step(Run(v, es[..2]), es[2]);
    assert Run(v, es[..4]) == Step(Run(v, es[..3]), es[3]);
  }

  /** `loading` is cleared by the first settled call and never set again: it
      is true after `es` iff it was true before and no call settled. */
  lemma {:induction false} LoadingClearsOnce(v: View, es: seq<Event>)
    ensures Run(v, es).loading <==> v.loading && Settled !in es
    decreases |es|
  {
    if es != [] {
      LoadingClearsOnce(v, es[..|es| - 1]);
      assert es == es[..|es| - 1] + [es[|es| - 1]];
    }
  }

  /** Events after position `k` that do not write the metrics cell leave it
      as it was after the first `k` events. */
  lemma {:induction false} MetricsKeptAfter(v: View, es: seq<Event>, k: nat)
    requires k <= |es|
    requires forall j :: k <= j < |es| ==> !WritesMetrics(es[j])
    ensures Run(v, es).metrics == Run(v, es[..k]).metrics
    decreases |es|
  {
    if k < |es| {
      var init := es[..|es| - 1];
      assert init[..k] == es[..k];
      MetricsKeptAfter(v, init, k);
    } else {
      assert es[..k] == es;
    }
  }

  lemma {:induction false} StatusKeptAfter(v: View, es: seq<Event>, k: nat)
    requires k <= |es|
    requires forall j :: k <= j < |es| ==> !WritesStatus(es[j])
    ensures Run(v, es).systemStatus == Run(v, es[..k]).systemStatus
    decreases |es|
  {
    if k < |es| {
      var init := es[..|es| - 1];
      assert init[..k] == es[..k];
      StatusKeptAfter(v, init, k);
    } else {
      assert es[..k] == es;
    }
  }

  lemma {:induction false} AnomaliesKeptAfter(v: View, es: seq<Event>, k: nat)
    requires k <= |es|
    requires forall j :: k <= j < |es| ==> !WritesAnomalies(es[j])
    ensures Run(v, es).anomalies == Run(v, es[..k]).anomalies
    decreases |es|
  {
    if k < |es| {
      var init := es[..|es| - 1];
      assert init[..k] == es[..k];
      AnomaliesKeptAfter(v, init, k);
    } else {
      assert es[..k] == es;
    }
  }

  /** Last write wins per cell, across any interleaving of overlapping calls:
      the status shown is the payload of the last successful status fetch,
      or the initial one when no status fetch succeeded. */
  lemma StatusLastWriteWins(v: View, es: seq<Event>, i: nat)
    requires i < |es| && WritesStatus(es[i])
    requires forall j :: i < j < |es| ==> !WritesStatus(es[j])
    ensures Run(v, es).systemStatus == es[i].status.payload
  {
    StatusKeptAfter(v, es, i + 1);
    assert es[..i + 1][..i] == es[..i];
  }

  lemma StatusUnwrittenKept(v: View, es: seq<Event>)
    requires forall j :: 0 <= j < |es| ==> !WritesStatus(es[j])
    ensures Run(v, es).systemStatus == v.systemStatus
  {
    StatusKeptAfter(v, es, 0);
  }

  /** The metrics shown are those of the last successful metrics fetch
      (`[]` when its envelope had no `metrics`). */
  lemma MetricsLastWriteWins(v: View, es: seq<Event>, i: nat)
    requires i < |es| && WritesMetrics(es[i])
    requires forall j :: i < j < |es| ==> !WritesMetrics(es[j])
    ensures Run(v, es).metrics == (var p := es[i].metrics.payload; if p.Some? then p.value else [])
  {
    MetricsKeptAfter(v, es, i + 1);
    assert es[..i + 1][..i] == es[..i];
  }

  lemma MetricsUnwrittenKept(v: View, es: seq<Event>)
    requires forall j :: 0 <= j < |es| ==> !WritesMetrics(es[j])
    ensures Run(v, es).metrics == v.metrics
  {
    MetricsKeptAfter(v, es, 0);
  }

  lemma AnomaliesLastWriteWins(v: View, es: seq<Event>, i: nat)
    requires i < |es| && WritesAnomalies(es[i])
    requires forall j :: i < j < |es| ==> !WritesAnomalies(es[j])
    ensures Run(v, es).anomalies == (var p := es[i].anomalies.payload; if p.Some? then p.value else [])
  {
    AnomaliesKeptAfter(v, es, i + 1);
    assert es[..i + 1][..i] == es[..i];
  }

  lemma AnomaliesUnwrittenKept(v: View, es: seq<Event>)
    requires forall j :: 0 <= j < |es| ==> !WritesAnomalies(es[j])
    ensures Run(v, es).anomalies == v.anomalies
  {
    AnomaliesKeptAfter(v, es, 0);
  }

  /** `refreshing` is one flag: it follows the last start or settle, so the
      first of two overlapping calls to settle clears it while the other is
      still in flight. */
  lemma {:induction false} RefreshingFollowsLastFlagEvent(v: View, es: seq<Event>, i: nat)
    requires i < |es| && TouchesRefreshing(es[i])
    requires forall j :: i < j < |es| ==> !TouchesRefreshing(es[j])
    ensures Run(v, es).refreshing == es[i].Started?
    decreases |es|
  {
    if i < |es| - 1 {
      RefreshingFollowsLastFlagEvent(v, es[..|es| - 1], i);
    }
  }

  /** Two overlapping calls, the first settling before the second: the flag
      is already clear though a call is still in flight. */
  lemma OverlapClearsRefreshingEarly(f: Fetches)
    ensures var es := [Started, Started] + LoadAllDataEvents(f)[1..];
            Run(InitialView(), es).refreshing == false
  {
    var es := [Started, Started] + LoadAllDataEvents(f)[1..];
    RefreshingFollowsLastFlagEvent(InitialView(), es, |es| - 1);
  }

  /** A toast raised by the page on an action's notice. */
  datatype Toast = SuccessToast(text: string) | ErrorToast(text: string)

  /** The page component's state. `inFlight` and `loadsStarted` are ghost
      bookkeeping: how many `loadAllData` calls have not yet settled, and
      how many were ever started. */
  class Page {
    var systemStatus: Option<SystemStatus>
    var metrics: seq<Metric>
    var anomalies: seq<Metric>
    var loading: bool
    var refreshing: bool
    var intervalActive: bool
    ghost var inFlight: nat
    ghost var loadsStarted: nat

    function State(): View
      reads this
    {
      View(systemStatus, metrics, anomalies, loading, refreshing)
    }

    /** The half of "refreshing while a call is in flight" that one shared
        flag keeps: the spinner is never on with no call in flight. (The
        other half fails: see `OverlapClearsRefreshingEarly`.) */
    ghost predicate Valid()
      reads this
    {
      refreshing ==> inFlight > 0
    }

    /** The `useState` initial values. */
    constructor ()
      ensures Valid() && State() == InitialView()
      ensures !intervalActive && inFlight == 0 && loadsStarted == 0
    {
      systemStatus, metrics, anomalies := None, [], [];
      loading, refreshing := true, false;
      intervalActive := false;
      inFlight, loadsStarted := 0, 0;
    }

    /** `loadAllData` up to its first await: `setRefreshing(true)` and the
        three requests issued. */
    method StartLoad()
      requires Valid()
      modifies this
      ensures Valid()
      ensures State() == Step(old(State()), Started)
      ensures intervalActive == old(intervalActive)
      ensures inFlight == old(inFlight) + 1 && loadsStarted == old(loadsStarted) + 1
    {
      refreshing := true;
      inFlight := inFlight + 1;
      loadsStarted := loadsStarted + 1;
    }

    /** `fetchStatus` settling; its own try/catch swallows a failure. */
    method StatusSettled(f: Fetch<Option<SystemStatus>>)
      requires inFlight > 0
      requires Valid()
      modifies this
      ensures Valid()
      ensures State() == Step(old(State()), StatusFetched(f))
      ensures intervalActive == old(intervalActive)
      ensures inFlight == old(inFlight) && loadsStarted == old(loadsStarted)
    {
      if f.Succeeded? {
        systemStatus := f.payload;
      }
    }

    method MetricsSettled(f: Fetch<Option<seq<Metric>>>)
      requires inFlight > 0
      requires Valid()
      modifies this
      ensures Valid()
      ensures State() == Step(old(State()), MetricsFetched(f))
      ensures intervalActive == old(intervalActive)
      ensures inFlight == old(inFlight) && loadsStarted == old(loadsStarted)
    {
      if f.Succeeded? {
        metrics := if f.payload.Some? then f.payload.value else [];
      }
    }

    method AnomaliesSettled(f: Fetch<Option<seq<Metric>>>)
      requires inFlight > 0
      requires Valid()
      modifies this
      ensures Valid()
      ensures State() == Step(old(State()), AnomaliesFetched(f))
      ensures intervalActive == old(intervalActive)
      ensures inFlight == old(inFlight) && loadsStarted == old(loadsStarted)
    {
      if f.Succeeded? {
        anomalies := if f.payload.Some? then f.payload.value else [];
      }
    }

    /** The `finally` of `loadAllData`, once `Promise.all` has settled. */
    method Settle()
      requires inFlight > 0
      requires Valid()
      modifies this
      ensures Valid()
      ensures State() == Step(old(State()), Settled)
      ensures intervalActive == old(intervalActive)
      ensures inFlight == old(inFlight) - 1 && loadsStarted == old(loadsStarted)
    {
      refreshing := false;
      loading := false;
      inFlight := inFlight - 1;
    }

    /** A whole `loadAllData` call that nothing overlaps. */
    method LoadAllData(f: Fetches)
      requires Valid()
      modifies this
      ensures Valid()
      ensures State() == Run(old(State()), LoadAllDataEvents(f))
      ensures !loading && !refreshing
      ensures intervalActive == old(intervalActive)
      ensures inFlight == old(inFlight) && loadsStarted == old(loadsStarted) + 1
    {
      ghost var v := State();
      StartLoad();
      StatusSettled(f.status);
      MetricsSettled(f.metrics);
      AnomaliesSettled(f.anomalies);
      Settle();
      LoadAllDataMerges(v, f);
    }

    /** The mount effect: one call started at once and the interval set. */
    method Mount()
      requires Valid()
      modifies this
      ensures Valid()
      ensures State() == Step(old(State()), Started)
      ensures intervalActive
      ensures inFlight == old(inFlight) + 1 && loadsStarted == old(loadsStarted) + 1
    {
      StartLoad();
      intervalActive := true;
    }

    /** The interval firing: a new call starts while the interval is set;
        after the cleanup nothing happens. */
    method IntervalFires()
      requires Valid()
      modifies this
      ensures Valid()
      ensures old(intervalActive) ==> State() == Step(old(State()), Started) && loadsStarted == old(loadsStarted) + 1 && inFlight == old(inFlight) + 1
      ensures !old(intervalActive) ==> State() == old(State()) && loadsStarted == old(loadsStarted) && inFlight == old(inFlight)
      ensures intervalActive == old(intervalActive)
    {
      if intervalActive {
        StartLoad();
      }
    }

    /** The effect's cleanup, `clearInterval`; idempotent. */
    method Unmount()
      requires Valid()
      modifies this
      ensures Valid()
      ensures !intervalActive
      ensures State() == old(State()) && inFlight == old(inFlight) && loadsStarted == old(loadsStarted)
    {
      intervalActive := false;
    }

    /** `handleActionSuccess` / `handleActionError`: a success toast and
        exactly one new `loadAllData`; an error toast and none. */
    method OnActionNotice(n: ActionPanel.Notice) returns (toast: Option<Toast>)
      requires Valid()
      modifies this
      ensures Valid()
      ensures n.OnSuccess? ==> toast == Some(SuccessToast(n.text))
                               && State() == Step(old(State()), Started)
                               && loadsStarted == old(loadsStarted) + 1 && inFlight == old(inFlight) + 1
      ensures n.OnError? ==> toast == Some(ErrorToast(n.text))
      ensures !n.OnSuccess? ==> State() == old(State()) && loadsStarted == old(loadsStarted) && inFlight == old(inFlight)
      ensures n.NoCallback? ==> toast == None
      ensures intervalActive == old(intervalActive)
    {
      match n
      case OnSuccess(text) =>
        toast := Some(SuccessToast(text));
        StartLoad();
      case OnError(text) =>
        toast := Some(ErrorToast(text));
      case NoCallback =>
        toast := None;
    }
  }

  /** A page mounted, then unmounted: any number of later interval firings
      start no call. */
  method StopMeansNoMoreLoads(firings: nat) returns (page: Page)
    ensures page.Valid() && page.loadsStarted == 1 && !page.intervalActive
  {
    page := new Page();
    page.Mount();
    page.Unmount();
    var i := 0;
    while i < firings
      invariant 0 <= i <= firings
      invariant page.Valid() && !page.intervalActive && page.loadsStarted == 1
    {
      page.IntervalFires();
      i := i + 1;
    }
  }
}

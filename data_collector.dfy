/** The metrics collector (data_collector.py). The random draws, the clock
    reading taken for each metric, the EC2 `describe_instances` reply and the
    CloudWatch replies are inputs; an exception from either AWS call is the
    reply `None`. */
module DataCollector {
  import opened Common

  /** The settings the collector reads from config.py. */
  datatype Config = Config(simulationMode: bool, useAws: bool, numInstances: nat)

  /** config.py's values: its later assignments win (SIMULATION_MODE is
      False, USE_AWS True, three simulated instances). */
  const DEFAULT_CONFIG := Config(false, true, 3)

  /** The chance of injecting a spike into a simulated instance. */
  const ANOMALY_RATE := 0.1

  datatype Spike = CpuSpike | MemorySpike | NetworkSpike

  /** The random draws for one instance: the three normal readings, the
      `random.random()` roll, the `random.choice` of spike and the spike's
      reading. */
  datatype Draw = Draw(cpu: real, memory: real, network: real, roll: real, spike: Spike, spikeValue: real)

  datatype Tag = Tag(key: string, value: string)

  /** An instance of the EC2 reply; `tags` is absent when it has no `Tags`. */
  datatype Instance = Instance(instanceId: string, instanceType: string, tags: Option<seq<Tag>>)

  datatype Reservation = Reservation(instances: seq<Instance>)

  /** One record of `get_aws_instances`. */
  datatype InstanceInfo = InstanceInfo(id: string, instanceType: string, name: string)

  datatype Datapoint = Datapoint(timestamp: int, average: real)

  datatype Source = Simulated | RealAws

  /** `instance-<k>`. */
  function InstanceLabel(k: nat): string {
    "instance-" + NatToString(k)
  }

  /** Distinct instance numbers give distinct ids. */
  lemma InstanceLabelsDistinct(a: nat, b: nat)
    requires a != b
    ensures InstanceLabel(a) != InstanceLabel(b)
  {
    if InstanceLabel(a) == InstanceLabel(b) {
      assert NatToString(a) == InstanceLabel(a)[9..];
      assert NatToString(b) == InstanceLabel(b)[9..];
      NatToStringInjective(a, b);
    }
  }

  /** One simulated metric: the normal draws, with one reading replaced by
      the spike when the roll falls under the anomaly rate. */
  function SimulatedMetric(d: Draw, now: string, id: string): (m: Metric)
    ensures m.timestamp == now && m.instanceId == id
    ensures d.roll >= ANOMALY_RATE ==> m == Metric(now, id, d.cpu, d.memory, d.network)
    ensures d.roll < ANOMALY_RATE ==>
              && (m.cpuUsage == if d.spike == CpuSpike then d.spikeValue else d.cpu)
              && (m.memoryUsage == if d.spike == MemorySpike then d.spikeValue else d.memory)
              && (m.networkTraffic == if d.spike == NetworkSpike then d.spikeValue else d.network)
  {
    var cpu := if d.roll < ANOMALY_RATE && d.spike == CpuSpike then d.spikeValue else d.cpu;
    var memory := if d.roll < ANOMALY_RATE && d.spike == MemorySpike then d.spikeValue else d.memory;
    var network := if d.roll < ANOMALY_RATE && d.spike == NetworkSpike then d.spikeValue else d.network;
    Metric(now, id, cpu, memory, network)
  }

  /** Injection overrides at most one of the three readings. */
  lemma AtMostOneSpike(d: Draw, now: string, id: string)
    ensures var m := SimulatedMetric(d, now, id);
            (if m.cpuUsage != d.cpu then 1 else 0)
            + (if m.memoryUsage != d.memory then 1 else 0)
            + (if m.networkTraffic != d.network then 1 else 0) <= 1
  {
  }

  /** The position of the first tag whose key is "Name". */
  function FirstNameTag(tags: seq<Tag>): (r: Option<nat>)
    ensures r.Some? ==> r.value < |tags| && tags[r.value].key == "Name"
                        && forall j :: 0 <= j < r.value ==> tags[j].key != "Name"
    ensures r.None? ==> forall j :: 0 <= j < |tags| ==> tags[j].key != "Name"
  {
    if tags == [] then None
    else if tags[0].key == "Name" then Some(0)
    else
      var rest := FirstNameTag(tags[1..]);
      if rest.Some? then Some(rest.value + 1) else None
  }

  /** `_get_instance_name`: the value of the first "Name" tag, else the id. */
  function InstanceName(inst: Instance): (name: string)
    ensures inst.tags.None? ==> name == inst.instanceId
    ensures inst.tags.Some? ==>
              var tags := inst.tags.value;
              && ((forall j :: 0 <= j < |tags| ==> tags[j].key != "Name") ==> name == inst.instanceId)
              && (forall i ::
                    (0 <= i < |tags| && tags[i].key == "Name" && forall j :: 0 <= j < i ==> tags[j].key != "Name")
                    ==> name == tags[i].value)
  {
    if inst.tags.None? then inst.instanceId
    else
      var k := FirstNameTag(inst.tags.value);
      if k.Some? then inst.tags.value[k.value].value else inst.instanceId
  }

  function Info(inst: Instance): InstanceInfo {
    InstanceInfo(inst.instanceId, inst.instanceType, InstanceName(inst))
  }

  function Infos(xs: seq<Instance>): (r: seq<InstanceInfo>)
    ensures |r| == |xs| && forall i :: 0 <= i < |xs| ==> r[i] == Info(xs[i])
  {
    seq(|xs|, i requires 0 <= i < |xs| => Info(xs[i]))
  }

  /** All instances of all reservations, reservation by reservation. */
  function Flatten(rs: seq<Reservation>): seq<Instance>
    decreases |rs|
  {
    if rs == [] then [] else Flatten(rs[..|rs| - 1]) + rs[|rs| - 1].instances
  }

  /** How many instances the reservations hold, counted reservation by
      reservation from the front. */
  function InstanceCount(rs: seq<Reservation>): nat
    decreases |rs|
  {
    if rs == [] then 0 else |rs[0].instances| + InstanceCount(rs[1..])
  }

  /** Flattening keeps every instance once: one record per instance. */
  lemma {:induction false} FlattenCount(rs: seq<Reservation>)
    ensures |Flatten(rs)| == InstanceCount(rs)
    decreases |rs|
  {
    if rs != [] {
      FlattenPrefix(rs);
      FlattenCount(rs[1..]);
    }
  }

  /** Flattening peels off the first reservation as well as the last. */
  lemma {:induction false} FlattenPrefix(rs: seq<Reservation>)
    requires rs != []
    ensures Flatten(rs) == rs[0].instances + Flatten(rs[1..])
    decreases |rs|
  {
    if |rs| > 1 {
      var init := rs[..|rs| - 1];
      FlattenPrefix(init);
      assert init[1..] == rs[1..][..|rs[1..]| - 1];
    } else {
      assert rs[..0] == [] && rs[1..] == [];
    }
  }

  /** Instance `j` of reservation `r` sits at its own position of the
      flattening: after every instance of the earlier reservations. With
      `FlattenCount`, each instance appears there exactly once. */
  lemma {:induction false} FlattenPosition(rs: seq<Reservation>, r: nat, j: nat)
    requires r < |rs| && j < |rs[r].instances|
    ensures |Flatten(rs[..r])| + j < |Flatten(rs)|
    ensures Flatten(rs)[|Flatten(rs[..r])| + j] == rs[r].instances[j]
    decreases |rs|
  {
    var init := rs[..|rs| - 1];
    if r == |rs| - 1 {
      assert rs[..r] == init;
    } else {
      assert init[..r] == rs[..r];
      FlattenPosition(init, r, j);
    }
  }

  /** The latest datapoint, as `sorted(points, key=Timestamp)[-1]` picks it:
      a maximal timestamp, and of several such the last in input order since
      the sort is stable. */
  function LatestIndex(ps: seq<Datapoint>): (k: nat)
    requires ps != []
    ensures k < |ps|
    ensures forall j :: 0 <= j < |ps| ==> ps[j].timestamp <= ps[k].timestamp
    ensures forall j :: k < j < |ps| ==> ps[j].timestamp < ps[k].timestamp
    decreases |ps|
  {
    if |ps| == 1 then 0
    else
      var k := LatestIndex(ps[..|ps| - 1]);
      if ps[|ps| - 1].timestamp >= ps[k].timestamp then |ps| - 1 else k
  }

  /** `get_cloudwatch_metric`: the latest average, 0.0 for no datapoints or
      an error. */
  function CloudWatchAverage(reply: Option<seq<Datapoint>>): (avg: real)
    ensures reply.None? || reply.value == [] ==> avg == 0.0
    ensures reply.Some? && reply.value != [] ==>
              exists k :: 0 <= k < |reply.value| && avg == reply.value[k].average
                          && forall j :: 0 <= j < |reply.value| ==> reply.value[j].timestamp <= reply.value[k].timestamp
  {
    if reply.None? || reply.value == [] then 0.0
    else reply.value[LatestIndex(reply.value)].average
  }

  /** `collect_data`'s choice of source. */
  function SourceFor(simulationMode: bool, useAws: bool): (s: Source)
    ensures s == RealAws <==> !simulationMode && useAws
  {
    if simulationMode then Simulated else if useAws then RealAws else Simulated
  }

  /** The rows a file holds before `save_to_csv` appends; a missing file
      holds none. */
  function Existing(file: File<Metric>): seq<Metric> {
    if file.Stored? then file.rows else []
  }

  /** What reading back a CSV written from a frame with no columns raises:
      `pd.DataFrame([]).to_csv` writes no header, and `pd.read_csv` then
      fails with `EmptyDataError`. */
  const EMPTY_CSV_ERROR := "No columns to parse from file"

  /** `save_to_csv`: the file afterwards. The new metrics go after the rows
      already there, which are kept; only a missing file is tolerated, any
      other read error propagates and nothing is written. Saving no metrics
      to a missing file writes a frame with no columns, which no later read
      can parse. */
  function SaveToCsv(file: File<Metric>, metrics: seq<Metric>): (r: Try<File<Metric>>)
    ensures r.Raised? <==> file.Unreadable?
    ensures file.Missing? && metrics == [] ==> r == Value(Unreadable(EMPTY_CSV_ERROR))
    ensures (r.Value? && r.value.Stored?) <==> (file.Stored? || (file.Missing? && metrics != []))
    ensures r.Value? && r.value.Stored? ==>
              |r.value.rows| == |Existing(file)| + |metrics|
              && r.value.rows[..|Existing(file)|] == Existing(file)
              && r.value.rows[|Existing(file)|..] == metrics
  {
    match file
    case Missing => if metrics == [] then Value(Unreadable(EMPTY_CSV_ERROR)) else Value(Stored(metrics))
    case Stored(rows) => Value(Stored(rows + metrics))
    case Unreadable(e) => Raised(e)
  }

  class Collector {
    var simulationMode: bool
    const useAws: bool
    const numInstances: nat

    /** `__init__`: when AWS is wanted and simulation is off, a failure to
        create the clients (`clientsReady` false) forces simulation. */
    constructor (cfg: Config, clientsReady: bool)
      ensures useAws == cfg.useAws && numInstances == cfg.numInstances
      ensures simulationMode <==> cfg.simulationMode || (cfg.useAws && !clientsReady)
    {
      simulationMode := cfg.simulationMode;
      useAws := cfg.useAws;
      numInstances := cfg.numInstances;
      new;
      if useAws && !simulationMode {
        if !clientsReady {
          simulationMode := true;
        }
      }
    }

    /** `simulate_metric_data`: one metric per instance number 1..N, in
        order; `draws(k)` are the draws for the (k+1)-th instance and `now(k)`
        the formatted clock reading taken for it. */
    method SimulateMetricData(draws: nat -> Draw, now: nat -> string) returns (ms: seq<Metric>)
      ensures |ms| == numInstances
      ensures forall k :: 0 <= k < |ms| ==> ms[k] == SimulatedMetric(draws(k), now(k), InstanceLabel(k + 1))
    {
      ms := [];
      var instance := 1;
      while instance < numInstances + 1
        invariant 1 <= instance <= numInstances + 1
        invariant |ms| == instance - 1
        invariant forall k :: 0 <= k < |ms| ==> ms[k] == SimulatedMetric(draws(k), now(k), InstanceLabel(k + 1))
      {
        ms := ms + [SimulatedMetric(draws(instance - 1), now(instance - 1), InstanceLabel(instance))];
        instance := instance + 1;
      }
    }

    /** `get_aws_instances`: one record per instance, reservations in order
        and instances in order within each; `[]` when the call raised. */
    method GetAwsInstances(reply: Option<seq<Reservation>>) returns (infos: seq<InstanceInfo>)
      ensures reply.None? ==> infos == []
      ensures reply.Some? ==> infos == Infos(Flatten(reply.value))
    {
      if reply.None? {
        return [];
      }
      var rs := reply.value;
      infos := [];
      var i := 0;
      while i < |rs|
        invariant 0 <= i <= |rs|
        invariant infos == Infos(Flatten(rs[..i]))
      {
        var xs := rs[i].instances;
        var j := 0;
        while j < |xs|
          invariant 0 <= j <= |xs|
          invariant infos == Infos(Flatten(rs[..i]) + xs[..j])
        {
          assert xs[..j + 1] == xs[..j] + [xs[j]];
          infos := infos + [Info(xs[j])];
          j := j + 1;
        }
        assert rs[..i + 1][..i] == rs[..i];
        assert xs[..j] == xs;
        i := i + 1;
      }
      assert rs[..i] == rs;
    }

    /** `collect_real_aws_data`: simulation when no instance runs, otherwise
        one metric per instance named by its "Name" tag, with the CPU
        reading from CloudWatch and the other two drawn at random. */
    method CollectRealAwsData(reply: Option<seq<Reservation>>, cloudWatch: string -> Option<seq<Datapoint>>,
                              draws: nat -> Draw, now: nat -> string) returns (ms: seq<Metric>)
      ensures var infos := if reply.None? then [] else Infos(Flatten(reply.value));
              && (infos == [] ==>
                    && |ms| == numInstances
                    && forall k :: 0 <= k < |ms| ==> ms[k] == SimulatedMetric(draws(k), now(k), InstanceLabel(k + 1)))
              && (infos != [] ==>
                    && |ms| == |infos|
                    && forall k :: 0 <= k < |ms| ==>
                         ms[k] == Metric(now(k), infos[k].name, CloudWatchAverage(cloudWatch(infos[k].id)),
                                         draws(k).memory, draws(k).network))
    {
      var infos := GetAwsInstances(reply);
      if infos == [] {
        ms := SimulateMetricData(draws, now);
        return;
      }
      ms := [];
      var k := 0;
      while k < |infos|
        invariant 0 <= k <= |infos| && |ms| == k
        invariant forall i :: 0 <= i < k ==>
                    ms[i] == Metric(now(i), infos[i].name, CloudWatchAverage(cloudWatch(infos[i].id)),
                                    draws(i).memory, draws(i).network)
      {
        var cpu := CloudWatchAverage(cloudWatch(infos[k].id));
        ms := ms + [Metric(now(k), infos[k].name, cpu, draws(k).memory, draws(k).network)];
        k := k + 1;
      }
    }

    /** `collect_data`: simulation mode simulates, else AWS mode reads
        CloudWatch, else it simulates. */
    method CollectData(reply: Option<seq<Reservation>>, cloudWatch: string -> Option<seq<Datapoint>>,
                       draws: nat -> Draw, now: nat -> string) returns (ms: seq<Metric>)
      ensures SourceFor(simulationMode, useAws) == Simulated ==>
                |ms| == numInstances
                && forall k :: 0 <= k < |ms| ==> ms[k] == SimulatedMetric(draws(k), now(k), InstanceLabel(k + 1))
      ensures SourceFor(simulationMode, useAws) == RealAws && (reply.None? || Flatten(reply.value) == []) ==>
                |ms| == numInstances
                && forall k :: 0 <= k < |ms| ==> ms[k] == SimulatedMetric(draws(k), now(k), InstanceLabel(k + 1))
      ensures SourceFor(simulationMode, useAws) == RealAws && reply.Some? && Flatten(reply.value) != [] ==>
                |ms| == |Flatten(reply.value)|
                && forall k :: 0 <= k < |ms| ==> ms[k].instanceId == InstanceName(Flatten(reply.value)[k])
    {
      if simulationMode {
        ms := SimulateMetricData(draws, now);
      } else if useAws {
        ms := CollectRealAwsData(reply, cloudWatch, draws, now);
      } else {
        ms := SimulateMetricData(draws, now);
      }
    }
  }
}

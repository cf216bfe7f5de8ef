/** The anomaly list (frontend/components/anomalies-section.tsx): the two
    threshold predicates, the badge tone they select, and which of skeleton,
    "All Clear" or list the card shows. */
module AnomaliesSection {
  import opened Common

  const HIGH_ABOVE := 80.0
  const WARNING_ABOVE := 60.0

  predicate IsHigh(v: real) { v > HIGH_ABOVE }

  predicate IsWarning(v: real) { v > WARNING_ABOVE && v <= HIGH_ABOVE }

  /** The colour of a badge. */
  datatype Tone = Red | Yellow | Gray

  /** One entry of the list: the instance, its time, and one badge tone per
      reading. */
  datatype Entry = Entry(instanceId: string, timestamp: string, cpu: Tone, memory: Tone, network: Tone)

  datatype Section = Skeleton | AllClear | Listing(entries: seq<Entry>)

  /** The badge class: high wins over warning, anything else is gray. Each
      reading gets exactly one tone, split at 60 and 80 (80 itself is a
      warning, 60 itself is gray). */
  function BadgeTone(v: real): (t: Tone)
    ensures t == Red <==> v > 80.0
    ensures t == Yellow <==> 60.0 < v <= 80.0
    ensures t == Gray <==> v <= 60.0
  {
    if IsHigh(v) then Red else if IsWarning(v) then Yellow else Gray
  }

  /** The two predicates never hold together. */
  lemma HighAndWarningExclusive(v: real)
    ensures !(IsHigh(v) && IsWarning(v))
  {
  }

  /** The same thresholds for all three readings. */
  function EntryFor(m: Metric): (e: Entry)
    ensures e.instanceId == m.instanceId && e.timestamp == m.timestamp
    ensures e.cpu == BadgeTone(m.cpuUsage) && e.memory == BadgeTone(m.memoryUsage)
    ensures e.network == BadgeTone(m.networkTraffic)
  {
    Entry(m.instanceId, m.timestamp, BadgeTone(m.cpuUsage), BadgeTone(m.memoryUsage), BadgeTone(m.networkTraffic))
  }

  /** The card: skeleton while loading whatever the list, then "All Clear"
      for no anomalies, else one entry per anomaly in input order. */
  function Render(anomalies: seq<Metric>, loading: bool): (s: Section)
    ensures s.Skeleton? <==> loading
    ensures s.AllClear? <==> !loading && anomalies == []
    ensures s.Listing? ==> |s.entries| == |anomalies| > 0
    ensures s.Listing? ==> forall i :: 0 <= i < |anomalies| ==> s.entries[i] == EntryFor(anomalies[i])
    ensures s.Listing? ==> forall i :: 0 <= i < |anomalies| ==>
              && s.entries[i].instanceId == anomalies[i].instanceId
              && s.entries[i].timestamp == anomalies[i].timestamp
              && (s.entries[i].cpu == Red <==> anomalies[i].cpuUsage > 80.0)
              && (s.entries[i].memory == Red <==> anomalies[i].memoryUsage > 80.0)
              && (s.entries[i].network == Red <==> anomalies[i].networkTraffic > 80.0)
  {
    if loading then Skeleton
    else if |anomalies| == 0 then AllClear
    else Listing(seq(|anomalies|, i requires 0 <= i < |anomalies| => EntryFor(anomalies[i])))
  }
}

/** The statistics cards (frontend/components/statistics-grid.tsx): the four
    card values derived from the page state, and `AnimatedCounter`, whose
    interval callback walks a counter up to its target. Timer periods are not
    modelled; each tick is one call of the interval callback. */
module StatisticsGrid {
  import opened Common

  /** Number of ticks the counter is meant to take at most. */
  const STEPS := 30

  /** `Math.ceil(value / 30)`. */
  function Increment(value: nat): (inc: nat)
    ensures value > 0 ==> inc >= 1 && inc * STEPS >= value && (inc - 1) * STEPS < value
    ensures value == 0 ==> inc == 0
  {
    (value + STEPS - 1) / STEPS
  }

  /** The values the interval callback shows, from a counter at `current`:
      each tick adds `inc`; the tick that reaches or passes `value` shows
      `value` and clears the interval. */
  function TicksFrom(value: nat, inc: nat, current: nat): (r: seq<nat>)
    requires inc > 0 && current < value
    ensures r != []
    decreases value - current
  {
    var next := current + inc;
    if next >= value then [value] else [next] + TicksFrom(value, inc, next)
  }

  /** Everything one run of the effect shows for target `value`: 0 at once
      when the target is 0, otherwise the ticks from a counter of 0. */
  function Displayed(value: nat): seq<nat> {
    if value == 0 then [0] else TicksFrom(value, Increment(value), 0)
  }

  /** The ticks climb by `inc` from `current`, never pass `value`, strictly
      increase, and end exactly at `value`. */
  lemma {:induction false} TicksFromShape(value: nat, inc: nat, current: nat)
    requires inc > 0 && current < value
    ensures var r := TicksFrom(value, inc, current);
            && |r| >= 1 && r[|r| - 1] == value
            && (forall i :: 0 <= i < |r| ==> current < r[i] <= value)
            && (forall i :: 0 <= i < |r| - 1 ==> r[i] == current + (i + 1) * inc)
            && (forall i, j :: 0 <= i < j < |r| ==> r[i] < r[j])
    decreases value - current
  {
    var next := current + inc;
    if next < value {
      TicksFromShape(value, inc, next);
      var rest := TicksFrom(value, inc, next);
      var r := TicksFrom(value, inc, current);
      assert r == [next] + rest;
      forall i | 0 <= i < |r| - 1
        ensures r[i] == current + (i + 1) * inc
      {
        if i > 0 {
          assert r[i] == rest[i - 1] == next + i * inc;
        }
      }
    }
  }

  /** A counter `k` increments short of the target reaches it in at most `k`
      ticks. */
  lemma {:induction false} TicksFromLength(value: nat, inc: nat, current: nat, k: nat)
    requires inc > 0 && current < value
    requires current + k * inc >= value
    ensures |TicksFrom(value, inc, current)| <= k
    decreases k
  {
    var next := current + inc;
    if next < value {
      TicksFromLength(value, inc, next, k - 1);
    }
  }

  /** `AnimatedCounter` for target `value`: 0 shows only 0; a positive target
      is reached in at most 30 strictly increasing steps, none above it. */
  lemma DisplayedSpec(value: nat)
    ensures var r := Displayed(value);
            && 1 <= |r| <= STEPS
            && r[|r| - 1] == value
            && (forall i :: 0 <= i < |r| ==> r[i] <= value)
            && (forall i, j :: 0 <= i < j < |r| ==> r[i] < r[j])
            && (value == 0 ==> r == [0])
  {
    if value > 0 {
      TicksFromShape(value, Increment(value), 0);
      TicksFromLength(value, Increment(value), 0, STEPS);
    }
  }

  /** One mounted `AnimatedCounter`. `pending` is the ghost list of values
      the live interval has yet to show. */
  class Counter {
    var value: nat
    var displayValue: nat
    var current: nat
    var increment: nat
    var ticking: bool
    ghost var pending: seq<nat>

    ghost predicate Valid()
      reads this
    {
      && (ticking ==> value > 0 && increment == Increment(value) && current < value
                      && pending == TicksFrom(value, increment, current))
      && (!ticking ==> pending == [] && displayValue == value)
    }

    /** The effect body for target `v`, shared by mount and re-run. */
    method Start(v: nat)
      modifies this
      ensures Valid() && value == v
      ensures v == 0 ==> displayValue == 0 && !ticking
      ensures v > 0 ==> ticking && current == 0 && pending == Displayed(v)
                        && displayValue == old(displayValue)
    {
      value := v;
      if v == 0 {
        displayValue := 0;
        ticking := false;
        pending := [];
      } else {
        current := 0;
        increment := Increment(v);
        ticking := true;
        pending := TicksFrom(v, increment, 0);
      }
    }

    /** Mounting: `useState(0)`, then the effect runs for the first target. */
    constructor (v: nat)
      ensures Valid() && value == v && displayValue == 0
      ensures v == 0 ==> !ticking
      ensures v > 0 ==> ticking && pending == Displayed(v)
    {
      displayValue := 0;
      value := v;
      current := 0;
      increment := 0;
      ticking := false;
      pending := [];
      new;
      Start(v);
    }

    /** A render with target `v`. Only a changed target re-runs the effect:
        the old interval is cleared and a new run starts from a counter of 0,
        while the old number stays on screen until the first tick. */
    method SetValue(v: nat)
      requires Valid()
      modifies this
      ensures Valid() && value == v
      ensures v == old(value) ==> displayValue == old(displayValue) && pending == old(pending)
      ensures v != old(value) && v == 0 ==> displayValue == 0 && !ticking
      ensures v != old(value) && v > 0 ==> ticking && pending == Displayed(v)
                                           && displayValue == old(displayValue)
    {
      if v != value {
        ticking := false;
        Start(v);
      }
    }

    /** One call of the interval callback; no interval, no call. */
    method Tick()
      requires Valid()
      modifies this
      ensures Valid() && value == old(value)
      ensures old(ticking) ==> displayValue == old(pending)[0] && pending == old(pending)[1..]
      ensures !old(ticking) ==> displayValue == old(displayValue) && pending == old(pending)
    {
      if ticking {
        current := current + increment;
        if current >= value {
          displayValue := value;
          ticking := false;
          pending := [];
        } else {
          displayValue := current;
          pending := pending[1..];
        }
      }
    }
  }

  /** A mounted counter ticked until its interval stops shows its target. */
  method RunToTarget(v: nat) returns (shown: seq<nat>)
    ensures shown == Displayed(v)
  {
    var c := new Counter(v);
    shown := if v == 0 then [0] else [];
    while c.ticking
      invariant c.Valid() && c.value == v
      invariant shown + c.pending == Displayed(v)
      decreases |c.pending|
    {
      ghost var before := c.pending;
      ghost var shownBefore := shown;
      c.Tick();
      shown := shown + [c.displayValue];
      ShowNext(shownBefore, before);
    }
  }

  /** Showing the head of the pending values moves it, and only it, to the
      shown ones. */
  lemma ShowNext(shown: seq<nat>, pending: seq<nat>)
    requires pending != []
    ensures (shown + [pending[0]]) + pending[1..] == shown + pending
  {
    assert pending == [pending[0]] + pending[1..];
  }

  datatype StatValue = Count(n: nat) | Text(text: string)

  /** One card: its id, its title, the value shown and whether it glows. */
  datatype Stat = Stat(id: string, title: string, value: StatValue, glow: bool)

  /** What a card's body shows. */
  datatype CardBody = Skeleton | Animated(target: nat) | Plain(text: string)

  const ALERT_CAPTION := "\U{26A0}\U{FE0F} Alerts active"

  /** The `stats` array. `now` is the formatted clock time. */
  function Stats(status: Option<SystemStatus>, anomaliesCount: nat, now: string): (r: seq<Stat>)
    ensures |r| == 4
    ensures r[0].id == "records" && r[1].id == "anomalies" && r[2].id == "model" && r[3].id == "lastUpdated"
    ensures r[0].value == Count(if status.Some? then status.value.totalRecords else 0)
    ensures r[1].value == Count(anomaliesCount)
    ensures r[1].glow <==> anomaliesCount > 0
    ensures r[2].value.Text? && (r[2].value.text == "Trained" <==> status.Some? && status.value.modelTrained)
    ensures r[3].value == Text(now)
    ensures !r[0].glow && !r[2].glow && !r[3].glow
  {
    var trained := status.Some? && status.value.modelTrained;
    [ Stat("records", "Total Records", Count(if status.Some? then status.value.totalRecords else 0), false),
      Stat("anomalies", "Anomalies Detected", Count(anomaliesCount), anomaliesCount > 0),
      Stat("model", "Model Status", Text(if trained then "Trained" else "Not Trained"), false),
      Stat("lastUpdated", "Last Updated", Text(now), false) ]
  }

  /** A card's body: a skeleton while loading, otherwise an animated counter
      for a number and plain text for a string. */
  function Body(stat: Stat, loading: bool): (b: CardBody)
    ensures b.Skeleton? <==> loading
    ensures b.Animated? <==> !loading && stat.value.Count?
    ensures b.Animated? ==> b.target == stat.value.n
  {
    if loading then Skeleton
    else match stat.value
      case Count(n) => Animated(n)
      case Text(t) => Plain(t)
  }

  /** The caption under a card's value. */
  function Caption(stat: Stat, anomaliesCount: nat): (c: string)
    ensures c == ALERT_CAPTION <==> stat.id == "anomalies" && anomaliesCount > 0
  {
    if stat.id == "anomalies" && anomaliesCount > 0 then ALERT_CAPTION else "Active"
  }

  /** The anomalies card glows exactly when it shows the alert caption. */
  lemma AlertCardAgrees(status: Option<SystemStatus>, anomaliesCount: nat, now: string)
    ensures var card := Stats(status, anomaliesCount, now)[1];
            card.glow <==> Caption(card, anomaliesCount) == ALERT_CAPTION
  {
  }
}

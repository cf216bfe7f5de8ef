/** Types shared by the dashboard and the backend, and the decimal rendering
    of integers that the messages of both sides use. */
module Common {

  datatype Option<+T> = None | Some(value: T)

  /** The outcome of a Python call that may raise: a value, or an exception
      whose `str(e)` is `error`. */
  datatype Try<+T> = Value(value: T) | Raised(error: string)

  /** A CSV or pickle file on the backend's disk: absent, readable with the
      given rows, or present but failing to parse (the parse error's text). */
  datatype File<+T> = Missing | Stored(rows: seq<T>) | Unreadable(error: string)

  /** One sample of one instance: a row of `data/metrics.csv` and an element of
      the dashboard's `metrics` and `anomalies` arrays. */
  datatype Metric = Metric(
    timestamp: string,
    instanceId: string,
    cpuUsage: real,
    memoryUsage: real,
    networkTraffic: real)

  /** The fields of the `/status` payload the dashboard reads. */
  datatype SystemStatus = SystemStatus(totalRecords: nat, modelTrained: bool)

  /** A POST body as `request.json` gives it: a falsy JSON document (`null`,
      `{}`, `0`, ...), which `if request.json` skips, or a JSON object that
      may carry `num_collections`. */
  datatype JsonBody = NoBody | Json(numCollections: Option<int>)

  predicate IsDigits(s: string) {
    forall i :: 0 <= i < |s| ==> '0' <= s[i] <= '9'
  }

  function DigitChar(d: nat): (c: char)
    requires d < 10
    ensures '0' <= c <= '9' && (c - '0') as nat == d
  {
    "0123456789"[d]
  }

  /** Decimal text of a natural number, without leading zeros, as JavaScript's
      template literals and Python's f-strings write it. */
  function NatToString(n: nat): (s: string)
    ensures |s| >= 1 && IsDigits(s)
    ensures |s| > 1 ==> s[0] != '0'
    decreases n
  {
    if n < 10 then [DigitChar(n)] else NatToString(n / 10) + [DigitChar(n % 10)]
  }

  function IntToString(i: int): (s: string)
    ensures |s| >= 1
    ensures s[0] == '-' <==> i < 0
  {
    if i < 0 then "-" + NatToString(-i) else NatToString(i)
  }

  /** The value of a string of decimal digits. */
  function ParseNat(s: string): nat
    requires IsDigits(s)
  {
    if s == [] then 0 else ParseNat(s[..|s| - 1]) * 10 + (s[|s| - 1] - '0') as nat
  }

  /** Reading back the decimal text of `n` gives `n`: the number in a message
      is the number that was reported. */
  lemma {:induction false} ParseNatToString(n: nat)
    ensures ParseNat(NatToString(n)) == n
    decreases n
  {
    if n >= 10 {
      var s := NatToString(n);
      ParseNatToString(n / 10);
      assert s[..|s| - 1] == NatToString(n / 10);
    }
  }

  /** Distinct numbers get distinct decimal texts. */
  lemma NatToStringInjective(m: nat, n: nat)
    requires NatToString(m) == NatToString(n)
    ensures m == n
  {
    ParseNatToString(m);
    ParseNatToString(n);
  }

  function Min(a: int, b: int): int {
    if a <= b then a else b
  }
}

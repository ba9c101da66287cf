/**
  The shapes of the records the Meraki dashboard API returns, and the pure
  per-record computations of one collection cycle: the device status
  encoding and the choice of the latest uplink sample.
*/
module Records {
  import opened Wrappers

  /** A JSON object whose fields are strings: a device status record, the
      organization record, or the identity part of an uplink record. */
  type Record = map<string, string>

  /** One point of an uplink time series, with its numeric fields. */
  type Point = map<string, real>

  /** An entry of the uplinks loss-and-latency response: its string fields
      and its `timeSeries`, which may be absent. */
  datatype UplinkRecord = UplinkRecord(fields: Record, timeSeries: Option<seq<Point>>)

  /** The label value used for a missing field. */
  const Unknown := "Unknown"

  /** `r.get(key, default)` on a record. */
  function FieldOr(r: Record, key: string, default: string): string
  {
    if key in r then r[key] else default
  }

  /** `p.get(key, default)` on a time-series point. */
  function NumberOr(p: Point, key: string, default: real): real
  {
    if key in p then p[key] else default
  }

  // ---------------------------------------------------------------------
  // Device status encoding

  /** Lowercasing of one character (ASCII letters; every other character
      is left as it is). */
  function LowerChar(c: char): char
  {
    if 'A' <= c <= 'Z' then (c as int + 32) as char else c
  }

  /** `s.lower()`, character by character. */
  function Lower(s: string): (t: string)
    ensures |t| == |s|
    ensures forall i :: 0 <= i < |s| ==> t[i] == LowerChar(s[i])
  {
    if s == [] then [] else [LowerChar(s[0])] + Lower(s[1..])
  }

  /** The status names in the order of their codes, as the status gauge's
      help text documents them (0 dormant, 1 online, 2 alerting, 3 offline). */
  const StatusNames: seq<string> := ["dormant", "online", "alerting", "offline"]

  /** The lookup table the collector builds for each device. */
  const StatusMapping: map<string, int> :=
    map["dormant" := 0, "online" := 1, "alerting" := 2, "offline" := 3]

  /** The code of a status string; -1 for anything not in the table. A
      code other than -1 names, through the help text's order, exactly the
      lowercased status. */
  function StatusCode(status: string): (code: int)
    ensures -1 <= code < |StatusNames|
    ensures code == -1 <==> Lower(status) !in StatusMapping
    ensures code != -1 ==> StatusNames[code] == Lower(status)
  {
    var key := Lower(status);
    if key in StatusMapping then StatusMapping[key] else -1
  }

  /** `s` equals the lower-case word `word` up to letter case. */
  predicate EqualIgnoringCase(s: string, word: string)
  {
    |s| == |word| && forall i :: 0 <= i < |s| ==> LowerChar(s[i]) == word[i]
  }

  lemma LowerIsWord(s: string, word: string)
    ensures Lower(s) == word <==> EqualIgnoringCase(s, word)
  {
    if EqualIgnoringCase(s, word) {
      assert forall i :: 0 <= i < |s| ==> Lower(s)[i] == word[i];
    }
  }

  /** The status code of a string is the position of the documented status
      name it equals up to case, and -1 exactly when it equals none of them. */
  lemma StatusCodeMeaning(s: string)
    ensures forall k :: 0 <= k < |StatusNames| ==> (StatusCode(s) == k <==> EqualIgnoringCase(s, StatusNames[k]))
    ensures StatusCode(s) == -1 <==> forall k :: 0 <= k < |StatusNames| ==> !EqualIgnoringCase(s, StatusNames[k])
    ensures -1 <= StatusCode(s) < |StatusNames|
  {
    forall k | 0 <= k < |StatusNames|
      ensures StatusCode(s) == k <==> EqualIgnoringCase(s, StatusNames[k])
    {
      LowerIsWord(s, StatusNames[k]);
    }
    var key := Lower(s);
    if key in StatusMapping {
      assert key == StatusNames[0] || key == StatusNames[1] || key == StatusNames[2] || key == StatusNames[3];
    }
  }

  /** Upper- and lower-case spellings of one word have the same code. */
  lemma StatusCodeIgnoresCase(s: string, t: string)
    requires |s| == |t|
    requires forall i :: 0 <= i < |s| ==> LowerChar(s[i]) == LowerChar(t[i])
    ensures StatusCode(s) == StatusCode(t)
  {
    assert Lower(s) == Lower(t);
  }

  /** A capitalised status is recognised: `Online` is published as 1. */
  lemma OnlineInAnyCase()
    ensures StatusCode("Online") == 1 && StatusCode("ONLINE") == 1
  {
    LowerIsWord("Online", "online");
    LowerIsWord("ONLINE", "online");
  }

  /** The default used for a record without a status is not recognised. */
  lemma UnknownIsMinusOne()
    ensures StatusCode("unknown") == -1
  {
    StatusCodeMeaning("unknown");
    assert !EqualIgnoringCase("unknown", StatusNames[0]);
  }

  /** The code published for a device record: its `status` field, or
      `unknown` when the record has none. */
  function DeviceStatus(device: Record): (code: int)
    ensures -1 <= code <= 3
    ensures "status" !in device ==> code == -1
    ensures "status" in device ==> forall k :: 0 <= k < |StatusNames| ==>
      (code == k <==> EqualIgnoringCase(device["status"], StatusNames[k]))
  {
    StatusCodeMeaning(FieldOr(device, "status", "unknown"));
    StatusCode(FieldOr(device, "status", "unknown"))
  }

  // ---------------------------------------------------------------------
  // Uplink sample selection

  /** The loss and latency values published for one uplink. */
  datatype Sample = Sample(loss: real, latency: real)

  /** The values of one point, each 0.0 when the point lacks the field. */
  function PointSample(p: Point): (s: Sample)
    ensures "lossPercent" in p ==> s.loss == p["lossPercent"]
    ensures "lossPercent" !in p ==> s.loss == 0.0
    ensures "latencyMs" in p ==> s.latency == p["latencyMs"]
    ensures "latencyMs" !in p ==> s.latency == 0.0
  {
    Sample(NumberOr(p, "lossPercent", 0.0), NumberOr(p, "latencyMs", 0.0))
  }

  /** The sample of an uplink's time series: none for a missing or empty
      series, otherwise that of its last point. */
  function LatestSample(series: Option<seq<Point>>): (r: Option<Sample>)
    ensures r.None? <==> series.None? || series.value == []
  {
    match series
    case None => None
    case Some(points) =>
      if points == [] then None else Some(PointSample(points[|points| - 1]))
  }

  /** Only the last point matters: the points before it never change the
      sample, so the gauge shows the newest value and no aggregate. */
  lemma {:induction false} LatestSampleIsLastPoint(earlier: seq<Point>, last: Point)
    ensures LatestSample(Some(earlier + [last])) == LatestSample(Some([last]))
    ensures LatestSample(Some(earlier + [last])) ==
      Some(Sample(if "lossPercent" in last then last["lossPercent"] else 0.0,
                  if "latencyMs" in last then last["latencyMs"] else 0.0))
  {
    var points := earlier + [last];
    assert points[|points| - 1] == last;
  }
}

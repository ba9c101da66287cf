/**
  One collection cycle of the Meraki API exporter: the device status and
  uplink records fetched from the dashboard API become writes of gauge
  samples, and which of them happen depends on which fetch fails.

  The fetch results, the two configuration values and the elapsed time of
  the cycle are inputs; the registry the scrape endpoint reads is the
  class `Registry` at the end of this module.
*/
module Exporter {
  import opened Wrappers
  import opened Records
  import opened Metrics

  // ---------------------------------------------------------------------
  // Configuration, requests and fetch results

  /** The two configuration values, as read from the environment
      (`None` when the variable is not set). */
  datatype Config = Config(orgId: Option<string>, apiKey: Option<string>)

  /** Both values are set and non-empty: the cycle is skipped when either
      variable is unset or set to the empty string. */
  predicate ConfigPresent(cfg: Config)
    ensures !ConfigPresent(cfg) <==> cfg.orgId in {None, Some("")} || cfg.apiKey in {None, Some("")}
  {
    cfg.orgId.Some? && cfg.orgId.value != "" && cfg.apiKey.Some? && cfg.apiKey.value != ""
  }

  /** Why a fetch failed: a non-2xx status, or a transport error. */
  datatype FetchError = HttpStatus(code: int) | Transport(reason: string)

  /** What each of the three API calls returns if it is made. */
  datatype Responses = Responses(
    devices: Result<seq<Record>, FetchError>,
    organization: Result<Record, FetchError>,
    uplinks: Result<seq<UplinkRecord>, FetchError>)

  /** An outbound GET: its URL, the API key header and the query parameters. */
  datatype Request = Request(url: string, apiKey: string, query: seq<(string, int)>)

  const ApiBase := "https://api.meraki.com/api/v1/organizations/"

  /** The device statuses request: one page of up to 1000 records. */
  function StatusRequest(orgId: string, apiKey: string): (r: Request)
    ensures r.apiKey == apiKey && r.query == [("perPage", 1000)]
    ensures |r.url| > |ApiBase + orgId| && r.url[..|ApiBase + orgId|] == ApiBase + orgId
    ensures r.url[|ApiBase + orgId|..] == "/devices/statuses"
  {
    Request(ApiBase + orgId + "/devices/statuses", apiKey, [("perPage", 1000)])
  }

  /** The organization record request, without query parameters. */
  function OrganizationRequest(orgId: string, apiKey: string): (r: Request)
    ensures r.apiKey == apiKey && r.query == []
    ensures r.url == ApiBase + orgId
  {
    Request(ApiBase + orgId, apiKey, [])
  }

  /** The uplinks loss-and-latency request over the last 300 seconds. */
  function UplinkRequest(orgId: string, apiKey: string): (r: Request)
    ensures r.apiKey == apiKey && r.query == [("timespan", 300)]
    ensures |r.url| > |ApiBase + orgId| && r.url[..|ApiBase + orgId|] == ApiBase + orgId
    ensures r.url[|ApiBase + orgId|..] == "/devices/uplinksLossAndLatency"
  {
    Request(ApiBase + orgId + "/devices/uplinksLossAndLatency", apiKey, [("timespan", 300)])
  }

  /** The three fetches, in the order they are made. */
  datatype Stage = DeviceStatuses | Organization | UplinkLossAndLatency

  /** What the cycle logs as its result. */
  datatype Outcome = ConfigMissing | Failed(stage: Stage, error: FetchError) | Completed

  /** The cycle stops at the first failing fetch and reports its error;
      it completes only when all three fetches succeed. */
  function CycleOutcome(cfg: Config, resp: Responses): (r: Outcome)
    ensures r == ConfigMissing <==> !ConfigPresent(cfg)
    ensures r == Completed <==>
      ConfigPresent(cfg) && resp.devices.Success? && resp.organization.Success? && resp.uplinks.Success?
    ensures r.Failed? && r.stage == DeviceStatuses ==> resp.devices == Failure(r.error)
    ensures r.Failed? && r.stage == Organization ==>
      resp.devices.Success? && resp.organization == Failure(r.error)
    ensures r.Failed? && r.stage == UplinkLossAndLatency ==>
      resp.devices.Success? && resp.organization.Success? && resp.uplinks == Failure(r.error)
  {
    if !ConfigPresent(cfg) then ConfigMissing
    else if resp.devices.Failure? then Failed(DeviceStatuses, resp.devices.error)
    else if resp.organization.Failure? then Failed(Organization, resp.organization.error)
    else if resp.uplinks.Failure? then Failed(UplinkLossAndLatency, resp.uplinks.error)
    else Completed
  }

  /** The requests the cycle makes, in order: none without configuration,
      and no request after a failed one. */
  function IssuedRequests(cfg: Config, resp: Responses): (r: seq<Request>)
    ensures !ConfigPresent(cfg) ==> r == []
    ensures ConfigPresent(cfg) ==> 1 <= |r| <= 3 && r[0] == StatusRequest(cfg.orgId.value, cfg.apiKey.value)
    ensures ConfigPresent(cfg) ==> (|r| >= 2 <==> resp.devices.Success?)
    ensures ConfigPresent(cfg) ==> (|r| == 3 <==> resp.devices.Success? && resp.organization.Success?)
    ensures |r| >= 2 ==> r[1] == OrganizationRequest(cfg.orgId.value, cfg.apiKey.value)
    ensures |r| == 3 ==> r[2] == UplinkRequest(cfg.orgId.value, cfg.apiKey.value)
  {
    if !ConfigPresent(cfg) then []
    else
      var orgId, apiKey := cfg.orgId.value, cfg.apiKey.value;
      if resp.devices.Failure? then [StatusRequest(orgId, apiKey)]
      else if resp.organization.Failure? then
        [StatusRequest(orgId, apiKey), OrganizationRequest(orgId, apiKey)]
      else
        [StatusRequest(orgId, apiKey), OrganizationRequest(orgId, apiKey), UplinkRequest(orgId, apiKey)]
  }

  /** The three endpoints differ, so each request names one fetch. */
  lemma RequestUrlsDistinct(orgId: string, apiKey: string)
    ensures StatusRequest(orgId, apiKey).url != OrganizationRequest(orgId, apiKey).url
    ensures StatusRequest(orgId, apiKey).url != UplinkRequest(orgId, apiKey).url
    ensures OrganizationRequest(orgId, apiKey).url != UplinkRequest(orgId, apiKey).url
  {
  }

  /** The last request issued is the one whose fetch the outcome reports:
      a failing fetch is the last one made, and a completed cycle makes all
      three. */
  lemma IssuedRequestsFollowOutcome(cfg: Config, resp: Responses)
    ensures CycleOutcome(cfg, resp) == ConfigMissing ==> IssuedRequests(cfg, resp) == []
    ensures CycleOutcome(cfg, resp) == Completed ==> |IssuedRequests(cfg, resp)| == 3
    ensures CycleOutcome(cfg, resp).Failed? ==>
      var n := |IssuedRequests(cfg, resp)|;
      match CycleOutcome(cfg, resp).stage
      case DeviceStatuses => n == 1
      case Organization => n == 2
      case UplinkLossAndLatency => n == 3
  {
  }

  // ---------------------------------------------------------------------
  // Labels

  /** The label values of a device's status sample, in the order of
      `StatusLabelNames`. */
  function DeviceLabels(device: Record, org: Record): (labels: seq<string>)
    ensures |labels| == |StatusLabelNames|
    ensures forall i :: 0 <= i < |labels| && StatusLabelNames[i] in {"serial", "networkId", "productType", "model"} ==>
      labels[i] == (if StatusLabelNames[i] in device then device[StatusLabelNames[i]] else Unknown)
    ensures labels[1] == (if "name" in device then device["name"] else if "mac" in device then device["mac"] else Unknown)
    ensures labels[5] == (if "name" in org then org["name"] else Unknown)
    ensures labels[6] == (if "id" in org then org["id"] else Unknown)
  {
    [ FieldOr(device, "serial", Unknown),
      FieldOr(device, "name", FieldOr(device, "mac", Unknown)),
      FieldOr(device, "networkId", Unknown),
      FieldOr(device, "productType", Unknown),
      FieldOr(device, "model", Unknown),
      FieldOr(org, "name", Unknown),
      FieldOr(org, "id", Unknown) ]
  }

  /** The label values shared by an uplink's loss and latency samples, in
      the order of `UplinkLabelNames`. */
  function UplinkLabels(uplink: Record, org: Record): (labels: seq<string>)
    ensures |labels| == |UplinkLabelNames|
    ensures forall i :: 0 <= i < 4 ==>
      labels[i] == (if UplinkLabelNames[i] in uplink then uplink[UplinkLabelNames[i]] else Unknown)
    ensures labels[4] == (if "name" in org then org["name"] else Unknown)
    ensures labels[5] == (if "id" in org then org["id"] else Unknown)
  {
    [ FieldOr(uplink, "serial", Unknown),
      FieldOr(uplink, "networkId", Unknown),
      FieldOr(uplink, "uplink", Unknown),
      FieldOr(uplink, "ip", Unknown),
      FieldOr(org, "name", Unknown),
      FieldOr(org, "id", Unknown) ]
  }

  // ---------------------------------------------------------------------
  // The writes of one cycle

  function DeviceKey(device: Record, org: Record): SeriesKey
  {
    SeriesKey(StatusMetric, DeviceLabels(device, org))
  }

  function LossKey(uplink: UplinkRecord, org: Record): SeriesKey
  {
    SeriesKey(LossMetric, UplinkLabels(uplink.fields, org))
  }

  function LatencyKey(uplink: UplinkRecord, org: Record): SeriesKey
  {
    SeriesKey(LatencyMetric, UplinkLabels(uplink.fields, org))
  }

  /** The status write for one device record. */
  function DeviceWrite(device: Record, org: Record): Write
  {
    Write(DeviceKey(device, org), DeviceStatus(device) as real)
  }

  /** One status write per device, in response order. */
  function DeviceWrites(devices: seq<Record>, org: Record): (r: seq<Write>)
    ensures |r| == |devices|
  {
    seq(|devices|, i requires 0 <= i < |devices| => DeviceWrite(devices[i], org))
  }

  /** The writes for one uplink: none when its series is missing or empty,
      otherwise loss then latency of its latest point. */
  function UplinkWritesOf(uplink: UplinkRecord, org: Record): seq<Write>
  {
    match LatestSample(uplink.timeSeries)
    case None => []
    case Some(s) => [Write(LossKey(uplink, org), s.loss), Write(LatencyKey(uplink, org), s.latency)]
  }

  /** The writes for the uplinks, in response order. */
  function UplinkWrites(uplinks: seq<UplinkRecord>, org: Record): (r: seq<Write>)
  {
    if uplinks == [] then []
    else UplinkWrites(uplinks[..|uplinks| - 1], org) + UplinkWritesOf(uplinks[|uplinks| - 1], org)
  }

  /** The writes of a cycle whose configuration is present: none if the
      device or organization fetch fails; the device writes alone if the
      uplink fetch fails; otherwise device writes followed by uplink writes. */
  function CycleWrites(resp: Responses): (r: seq<Write>)
    ensures resp.devices.Failure? || resp.organization.Failure? ==> r == []
    ensures resp.devices.Success? && resp.organization.Success? ==>
      |resp.devices.value| <= |r| &&
      r[..|resp.devices.value|] == DeviceWrites(resp.devices.value, resp.organization.value)
    ensures resp.devices.Success? && resp.organization.Success? && resp.uplinks.Failure? ==>
      r == DeviceWrites(resp.devices.value, resp.organization.value)
  {
    match resp.devices
    case Failure(_) => []
    case Success(devices) =>
      match resp.organization
      case Failure(_) => []
      case Success(org) =>
        DeviceWrites(devices, org) +
        (match resp.uplinks
         case Failure(_) => []
         case Success(uplinks) => UplinkWrites(uplinks, org))
  }

  /** The registry after one cycle: untouched without configuration,
      otherwise the cycle's writes followed by the timing sample. */
  function CycleGauges(g: Gauges, cfg: Config, resp: Responses, elapsed: real): (r: Gauges)
    ensures !ConfigPresent(cfg) ==> r == g
    ensures ConfigPresent(cfg) ==> TimingKey in r && r[TimingKey] == elapsed
    ensures ConfigPresent(cfg) && (resp.devices.Failure? || resp.organization.Failure?) ==>
      r == g[TimingKey := elapsed]
  {
    if !ConfigPresent(cfg) then g
    else ApplyWrites(g, CycleWrites(resp))[TimingKey := elapsed]
  }

  // ---------------------------------------------------------------------
  // Lemmas about the writes

  lemma {:induction false} UplinkWritesAppend(a: seq<UplinkRecord>, b: seq<UplinkRecord>, org: Record)
    ensures UplinkWrites(a + b, org) == UplinkWrites(a, org) + UplinkWrites(b, org)
  {
    if b == [] {
      assert a + b == a;
    } else {
      var n := |b| - 1;
      assert (a + b)[..|a + b| - 1] == a + b[..n];
      assert (a + b)[|a + b| - 1] == b[n];
      UplinkWritesAppend(a, b[..n], org);
    }
  }

  /** An uplink with a missing or empty series has no writes; any other has
      two, loss then latency under the same labels, with the last point's
      `lossPercent` and `latencyMs` (0.0 when absent). */
  lemma UplinkWritesOfShape(uplink: UplinkRecord, org: Record)
    ensures UplinkWritesOf(uplink, org) == [] <==> uplink.timeSeries.None? || uplink.timeSeries.value == []
    ensures UplinkWritesOf(uplink, org) != [] ==>
      var w, points := UplinkWritesOf(uplink, org), uplink.timeSeries.value;
      var last := points[|points| - 1];
      |w| == 2 &&
      w[0].key.metric == LossMetric && w[1].key.metric == LatencyMetric &&
      w[0].key.labels == UplinkLabels(uplink.fields, org) && w[1].key.labels == UplinkLabels(uplink.fields, org) &&
      w[0].value == (if "lossPercent" in last then last["lossPercent"] else 0.0) &&
      w[1].value == (if "latencyMs" in last then last["latencyMs"] else 0.0)
  {
  }

  lemma UplinkWritesSingle(u: UplinkRecord, org: Record)
    ensures UplinkWrites([u], org) == UplinkWritesOf(u, org)
  {
    assert [u][..0] == [];
  }

  /** Uplink writes are under loss or latency keys with a full label set. */
  lemma {:induction false} UplinkWritesShape(uplinks: seq<UplinkRecord>, org: Record)
    ensures forall j :: 0 <= j < |UplinkWrites(uplinks, org)| ==>
      var k := UplinkWrites(uplinks, org)[j].key;
      (k.metric == LossMetric || k.metric == LatencyMetric) && |k.labels| == |UplinkLabelNames|
  {
    if uplinks != [] {
      UplinkWritesShape(uplinks[..|uplinks| - 1], org);
    }
  }

  /** A key whose labels no later non-empty uplink has is not written. */
  lemma {:induction false} UplinkWritesAvoid(uplinks: seq<UplinkRecord>, org: Record, k: SeriesKey)
    requires forall j :: 0 <= j < |uplinks| && LatestSample(uplinks[j].timeSeries).Some? ==>
      UplinkLabels(uplinks[j].fields, org) != k.labels
    ensures Untouched(UplinkWrites(uplinks, org), k)
  {
    if uplinks != [] {
      var n := |uplinks| - 1;
      UplinkWritesAvoid(uplinks[..n], org, k);
    }
  }

  /** Every write of a cycle is under a well-formed key other than the
      timing gauge's. */
  lemma CycleWritesShape(resp: Responses)
    ensures forall j :: 0 <= j < |CycleWrites(resp)| ==>
      KeyWellFormed(CycleWrites(resp)[j].key) && CycleWrites(resp)[j].key != TimingKey
  {
    if resp.devices.Success? && resp.organization.Success? {
      var org := resp.organization.value;
      var d := DeviceWrites(resp.devices.value, org);
      var u: seq<Write> := if resp.uplinks.Success? then UplinkWrites(resp.uplinks.value, org) else [];
      if resp.uplinks.Success? {
        UplinkWritesShape(resp.uplinks.value, org);
      }
      assert CycleWrites(resp) == d + u;
      forall j | 0 <= j < |d + u|
        ensures KeyWellFormed((d + u)[j].key) && (d + u)[j].key != TimingKey
      {
        if j >= |d| {
          assert (d + u)[j] == u[j - |d|];
        }
      }
    }
  }

  /** The writes of a cycle that got past the organization fetch. */
  lemma CycleWritesAfterOrganization(resp: Responses)
    requires resp.devices.Success? && resp.organization.Success?
    ensures CycleWrites(resp) == DeviceWrites(resp.devices.value, resp.organization.value) +
      (if resp.uplinks.Success? then UplinkWrites(resp.uplinks.value, resp.organization.value) else [])
  {
  }

  lemma DeviceWritesSnoc(devices: seq<Record>, org: Record, i: nat)
    requires i < |devices|
    ensures DeviceWrites(devices[..i + 1], org) ==
      DeviceWrites(devices[..i], org) + [DeviceWrite(devices[i], org)]
  {
  }

  /** Uplink writes never touch a key outside the loss and latency families. */
  lemma UplinkWritesAvoidOtherMetrics(uplinks: seq<UplinkRecord>, org: Record, k: SeriesKey)
    requires k.metric != LossMetric && k.metric != LatencyMetric
    ensures Untouched(UplinkWrites(uplinks, org), k)
  {
    UplinkWritesShape(uplinks, org);
  }

  /** The write for device `i`, and no later write under its key unless a
      later device has the same labels. */
  lemma DeviceWriteAt(devices: seq<Record>, org: Record, i: nat)
    requires i < |devices|
    requires forall j :: i < j < |devices| ==> DeviceLabels(devices[j], org) != DeviceLabels(devices[i], org)
    ensures DeviceWrites(devices, org)[i] == DeviceWrite(devices[i], org)
    ensures Untouched(DeviceWrites(devices, org)[i + 1..], DeviceKey(devices[i], org))
  {
    var d := DeviceWrites(devices, org);
    var later := d[i + 1..];
    forall j | 0 <= j < |later|
      ensures later[j].key != DeviceKey(devices[i], org)
    {
      assert later[j] == d[i + 1 + j];
    }
  }

  // ---------------------------------------------------------------------
  // Properties of a cycle

  /** No sample is ever removed. */
  lemma CycleNeverPrunes(g: Gauges, cfg: Config, resp: Responses, elapsed: real)
    ensures g.Keys <= CycleGauges(g, cfg, resp, elapsed).Keys
  {
    ApplyWritesKeys(g, CycleWrites(resp));
  }

  /** A cycle keeps every sample's label set fully populated. */
  lemma CyclePreservesWellFormed(g: Gauges, cfg: Config, resp: Responses, elapsed: real)
    ensures WellFormed(g) ==> WellFormed(CycleGauges(g, cfg, resp, elapsed))
  {
    if WellFormed(g) && ConfigPresent(cfg) {
      CycleWritesShape(resp);
      ApplyWritesWellFormed(g, CycleWrites(resp));
    }
  }

  /** Running the cycle again on the same responses changes nothing but the
      timing sample, which holds the later elapsed time. */
  lemma CycleIdempotent(g: Gauges, cfg: Config, resp: Responses, elapsed1: real, elapsed2: real)
    ensures CycleGauges(CycleGauges(g, cfg, resp, elapsed1), cfg, resp, elapsed2)
         == CycleGauges(g, cfg, resp, elapsed2)
  {
    if ConfigPresent(cfg) {
      var ws := CycleWrites(resp);
      CycleWritesShape(resp);
      ApplyWritesThenSetTwice(g, ws, TimingKey, elapsed1, elapsed2);
    }
  }

  /** After a cycle that reached the device loop, a device's status sample
      holds its status code unless a later device has the same labels;
      this holds whatever the uplink fetch returned. */
  lemma DeviceStatusPublished(g: Gauges, cfg: Config, resp: Responses, i: nat, elapsed: real)
    requires ConfigPresent(cfg) && resp.devices.Success? && resp.organization.Success?
    requires i < |resp.devices.value|
    requires forall j :: i < j < |resp.devices.value| ==>
      DeviceLabels(resp.devices.value[j], resp.organization.value)
        != DeviceLabels(resp.devices.value[i], resp.organization.value)
    ensures var k := DeviceKey(resp.devices.value[i], resp.organization.value);
      k in CycleGauges(g, cfg, resp, elapsed) &&
      CycleGauges(g, cfg, resp, elapsed)[k] == DeviceStatus(resp.devices.value[i]) as real
  {
    var devices, org := resp.devices.value, resp.organization.value;
    var d := DeviceWrites(devices, org);
    var u: seq<Write> := if resp.uplinks.Success? then UplinkWrites(resp.uplinks.value, org) else [];
    var k := DeviceKey(devices[i], org);
    CycleWritesAfterOrganization(resp);
    DeviceWriteAt(devices, org, i);
    if resp.uplinks.Success? {
      UplinkWritesAvoidOtherMetrics(resp.uplinks.value, org, k);
    }
    LastWriteWinsAcross(g, d, u, i);
  }

  /** Performing the uplink writes leaves uplink `i`'s latest sample under
      its loss and latency keys, unless a later non-empty uplink has the
      same labels. */
  lemma UplinkWritesPublish(g: Gauges, uplinks: seq<UplinkRecord>, org: Record, i: nat)
    requires i < |uplinks| && LatestSample(uplinks[i].timeSeries).Some?
    requires forall j :: i < j < |uplinks| && LatestSample(uplinks[j].timeSeries).Some? ==>
      UplinkLabels(uplinks[j].fields, org) != UplinkLabels(uplinks[i].fields, org)
    ensures var r, s := ApplyWrites(g, UplinkWrites(uplinks, org)), LatestSample(uplinks[i].timeSeries).value;
      LossKey(uplinks[i], org) in r && r[LossKey(uplinks[i], org)] == s.loss &&
      LatencyKey(uplinks[i], org) in r && r[LatencyKey(uplinks[i], org)] == s.latency
  {
    var u := uplinks[i];
    var lk, tk := LossKey(u, org), LatencyKey(u, org);
    var before, after := uplinks[..i], uplinks[i + 1..];
    assert uplinks == before + [u] + after;
    UplinkWritesAppend(before + [u], after, org);
    UplinkWritesAppend(before, [u], org);
    UplinkWritesSingle(u, org);
    var p, w, s := UplinkWrites(before, org), UplinkWritesOf(u, org), UplinkWrites(after, org);
    ApplyWritesAppend(g, p + w, s);
    ApplyWritesAppend(g, p, w);
    var mid := ApplyWrites(g, p);
    ApplyTwoWrites(mid, w[0], w[1]);
    assert w == [w[0], w[1]];
    forall j | 0 <= j < |after| && LatestSample(after[j].timeSeries).Some?
      ensures UplinkLabels(after[j].fields, org) != lk.labels
    {
      assert after[j] == uplinks[i + 1 + j];
    }
    UplinkWritesAvoid(after, org, lk);
    UplinkWritesAvoid(after, org, tk);
    ApplyWritesUntouched(ApplyWrites(mid, w), s, lk);
    ApplyWritesUntouched(ApplyWrites(mid, w), s, tk);
  }

  /** After a completed cycle, an uplink with a non-empty series has its
      loss and latency samples set from the last point of that series (0.0
      for a missing field), unless a later non-empty uplink has the same
      labels. */
  lemma UplinkSamplePublished(g: Gauges, cfg: Config, resp: Responses, i: nat, elapsed: real)
    requires ConfigPresent(cfg)
    requires resp.devices.Success? && resp.organization.Success? && resp.uplinks.Success?
    requires i < |resp.uplinks.value|
    requires resp.uplinks.value[i].timeSeries.Some? && resp.uplinks.value[i].timeSeries.value != []
    requires forall j :: i < j < |resp.uplinks.value| && LatestSample(resp.uplinks.value[j].timeSeries).Some? ==>
      UplinkLabels(resp.uplinks.value[j].fields, resp.organization.value)
        != UplinkLabels(resp.uplinks.value[i].fields, resp.organization.value)
    ensures var u, org := resp.uplinks.value[i], resp.organization.value;
      var last := u.timeSeries.value[|u.timeSeries.value| - 1];
      var r := CycleGauges(g, cfg, resp, elapsed);
      LossKey(u, org) in r && LatencyKey(u, org) in r &&
      r[LossKey(u, org)] == (if "lossPercent" in last then last["lossPercent"] else 0.0) &&
      r[LatencyKey(u, org)] == (if "latencyMs" in last then last["latencyMs"] else 0.0)
  {
    var uplinks, org := resp.uplinks.value, resp.organization.value;
    var d := DeviceWrites(resp.devices.value, org);
    var points := uplinks[i].timeSeries.value;
    LatestSampleIsLastPoint(points[..|points| - 1], points[|points| - 1]);
    assert points[..|points| - 1] + [points[|points| - 1]] == points;
    CycleWritesAfterOrganization(resp);
    ApplyWritesAppend(g, d, UplinkWrites(uplinks, org));
    UplinkWritesPublish(ApplyWrites(g, d), uplinks, org, i);
  }

  /** When the uplink fetch fails after the device loop, the status samples
      are those a completed cycle would have left, whatever its uplinks, and
      no loss or latency sample changes. */
  lemma UplinkFailureKeepsDeviceStatus(g: Gauges, cfg: Config, resp: Responses, uplinks: seq<UplinkRecord>, elapsed: real)
    requires ConfigPresent(cfg) && resp.devices.Success? && resp.organization.Success? && resp.uplinks.Failure?
    ensures var r, full := CycleGauges(g, cfg, resp, elapsed), CycleGauges(g, cfg, resp.(uplinks := Success(uplinks)), elapsed);
      forall k: SeriesKey :: k.metric == StatusMetric ==> (k in r <==> k in full) && (k in r ==> r[k] == full[k])
    ensures var r := CycleGauges(g, cfg, resp, elapsed);
      forall k: SeriesKey :: k.metric == LossMetric || k.metric == LatencyMetric ==> (k in r <==> k in g) && (k in g ==> r[k] == g[k])
  {
    var org := resp.organization.value;
    var d := DeviceWrites(resp.devices.value, org);
    var u := UplinkWrites(uplinks, org);
    CycleWritesAfterOrganization(resp.(uplinks := Success(uplinks)));
    ApplyWritesAppend(g, d, u);
    UplinkWritesShape(uplinks, org);
    forall k: SeriesKey | k.metric == StatusMetric
      ensures (k in ApplyWrites(g, d) <==> k in ApplyWrites(g, d + u))
      ensures k in ApplyWrites(g, d) ==> ApplyWrites(g, d)[k] == ApplyWrites(g, d + u)[k]
    {
      ApplyWritesUntouched(ApplyWrites(g, d), u, k);
    }
    forall k: SeriesKey | k.metric == LossMetric || k.metric == LatencyMetric
      ensures (k in ApplyWrites(g, d) <==> k in g) && (k in g ==> ApplyWrites(g, d)[k] == g[k])
    {
      ApplyWritesUntouched(g, d, k);
    }
  }

  /** An uplink whose series is missing or empty has no effect: the cycle
      leaves what it leaves without that uplink in the response. */
  lemma EmptySeriesSkipped(g: Gauges, cfg: Config, resp: Responses,
                           before: seq<UplinkRecord>, u: UplinkRecord, after: seq<UplinkRecord>, elapsed: real)
    requires resp.uplinks == Success(before + [u] + after)
    requires u.timeSeries.None? || u.timeSeries.value == []
    ensures CycleGauges(g, cfg, resp, elapsed)
         == CycleGauges(g, cfg, resp.(uplinks := Success(before + after)), elapsed)
  {
    if resp.organization.Success? {
      var org := resp.organization.value;
      UplinkWritesAppend(before + [u], after, org);
      UplinkWritesAppend(before, [u], org);
      UplinkWritesAppend(before, after, org);
      UplinkWritesSingle(u, org);
      assert UplinkWrites(before + [u], org) == UplinkWrites(before, org);
    }
  }

  /** Only the last point of a series is published: dropping every earlier
      point from it does not change what the cycle leaves. */
  lemma OnlyLastPointCounts(g: Gauges, cfg: Config, resp: Responses,
                            before: seq<UplinkRecord>, u: UplinkRecord, after: seq<UplinkRecord>,
                            earlier: seq<Point>, last: Point, elapsed: real)
    requires resp.uplinks == Success(before + [u] + after)
    requires u.timeSeries == Some(earlier + [last])
    ensures CycleGauges(g, cfg, resp, elapsed)
         == CycleGauges(g, cfg, resp.(uplinks := Success(before + [u.(timeSeries := Some([last]))] + after)), elapsed)
  {
    if resp.organization.Success? {
      var org := resp.organization.value;
      var u' := u.(timeSeries := Some([last]));
      LatestSampleIsLastPoint(earlier, last);
      UplinkWritesAppend(before + [u], after, org);
      UplinkWritesAppend(before, [u], org);
      UplinkWritesAppend(before + [u'], after, org);
      UplinkWritesAppend(before, [u'], org);
      UplinkWritesSingle(u, org);
      UplinkWritesSingle(u', org);
    }
  }

  // ---------------------------------------------------------------------
  // The registry and the cycle

  /** The gauge samples the scrape endpoint serves, keyed by metric family
      and label values. */
  class Registry {
    var gauges: Gauges

    ghost predicate Valid()
      reads this
    {
      WellFormed(gauges)
    }

    /** At start-up the labelled gauges have no samples and the unlabelled
        timing gauge reads 0. */
    constructor ()
      ensures gauges == map[TimingKey := 0.0]
      ensures Valid()
    {
      gauges := map[TimingKey := 0.0];
    }

    /** `gauge.labels(...).set(value)`: adds or overwrites one sample. The
        label values fill the family's declared label names. */
    method Set(key: SeriesKey, value: real)
      requires KeyWellFormed(key)
      modifies this
      ensures gauges == old(gauges)[key := value]
      ensures old(Valid()) ==> Valid()
    {
      gauges := gauges[key := value];
    }

    /** The device loop: one status sample per device record. */
    method PublishDeviceStatuses(devices: seq<Record>, org: Record)
      modifies this
      ensures gauges == ApplyWrites(old(gauges), DeviceWrites(devices, org))
      ensures old(Valid()) ==> Valid()
    {
      for i := 0 to |devices|
        invariant gauges == ApplyWrites(old(gauges), DeviceWrites(devices[..i], org))
        invariant old(Valid()) ==> Valid()
      {
        var device := devices[i];
        Set(SeriesKey(StatusMetric, DeviceLabels(device, org)), DeviceStatus(device) as real);
        DeviceWritesSnoc(devices, org, i);
        ApplyWritesSnoc(old(gauges), DeviceWrites(devices[..i], org), DeviceWrite(device, org));
      }
      assert devices[..|devices|] == devices;
    }

    /** The uplink loop: two samples per uplink with a non-empty series,
        taken from its last point; an uplink without one is skipped. */
    method PublishUplinks(uplinks: seq<UplinkRecord>, org: Record)
      modifies this
      ensures gauges == ApplyWrites(old(gauges), UplinkWrites(uplinks, org))
      ensures old(Valid()) ==> Valid()
    {
      for i := 0 to |uplinks|
        invariant gauges == ApplyWrites(old(gauges), UplinkWrites(uplinks[..i], org))
        invariant old(Valid()) ==> Valid()
      {
        var uplink := uplinks[i];
        ghost var done := UplinkWrites(uplinks[..i], org);
        assert uplinks[..i + 1][..i] == uplinks[..i];
        assert UplinkWrites(uplinks[..i + 1], org) == done + UplinkWritesOf(uplink, org);
        var labels := UplinkLabels(uplink.fields, org);
        var series := if uplink.timeSeries.Some? then uplink.timeSeries.value else [];
        if series == [] {
          assert done + [] == done;
          continue;
        }
        var latest := series[|series| - 1];
        var loss := NumberOr(latest, "lossPercent", 0.0);
        var latency := NumberOr(latest, "latencyMs", 0.0);
        Set(SeriesKey(LossMetric, labels), loss);
        Set(SeriesKey(LatencyMetric, labels), latency);
        ghost var w := UplinkWritesOf(uplink, org);
        ApplyWritesAppend(old(gauges), done, w);
        ApplyTwoWrites(ApplyWrites(old(gauges), done), w[0], w[1]);
        assert w == [w[0], w[1]];
      }
      assert uplinks[..|uplinks|] == uplinks;
    }

    /** One collection cycle. */
    method CollectDeviceStatusMetrics(cfg: Config, resp: Responses, elapsed: real)
      returns (requests: seq<Request>, outcome: Outcome)
      modifies this
      ensures gauges == CycleGauges(old(gauges), cfg, resp, elapsed)
      ensures outcome == CycleOutcome(cfg, resp)
      ensures requests == IssuedRequests(cfg, resp)
      ensures !ConfigPresent(cfg) ==> gauges == old(gauges) && requests == []
      ensures ConfigPresent(cfg) ==> TimingKey in gauges && gauges[TimingKey] == elapsed
      ensures ConfigPresent(cfg) && (resp.devices.Failure? || resp.organization.Failure?) ==>
        gauges == old(gauges)[TimingKey := elapsed]
      ensures old(Valid()) ==> Valid()
    {
      if !ConfigPresent(cfg) {
        return [], ConfigMissing;
      }
      var orgId, apiKey := cfg.orgId.value, cfg.apiKey.value;
      ghost var start := gauges;

      var statusRequest, orgRequest, uplinkRequest :=
        StatusRequest(orgId, apiKey), OrganizationRequest(orgId, apiKey), UplinkRequest(orgId, apiKey);
      requests := [statusRequest];
      match resp.devices {
        case Failure(e) =>
          outcome := Failed(DeviceStatuses, e);
        case Success(devices) =>
          requests := requests + [orgRequest];
          assert requests == [statusRequest, orgRequest];
          match resp.organization {
            case Failure(e) =>
              outcome := Failed(Organization, e);
            case Success(org) =>
              PublishDeviceStatuses(devices, org);
              requests := requests + [uplinkRequest];
              assert requests == [statusRequest, orgRequest, uplinkRequest];
              CycleWritesAfterOrganization(resp);
              match resp.uplinks {
                case Failure(e) =>
                  outcome := Failed(UplinkLossAndLatency, e);
                  assert DeviceWrites(devices, org) + [] == DeviceWrites(devices, org);
                case Success(uplinks) =>
                  PublishUplinks(uplinks, org);
                  ApplyWritesAppend(start, DeviceWrites(devices, org), UplinkWrites(uplinks, org));
                  outcome := Completed;
              }
          }
      }

      // The `finally` block: the timing sample is set however the fetches went.
      Set(TimingKey, elapsed);
    }
  }
}

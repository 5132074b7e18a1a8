/** The time-series side of src/influxdb.js: the point written for a flow or a
    threat record (measurement, timestamp, tags and fields), the rule that
    attaches geolocation tags, and the batch writers that write one point per
    record and flush once. The client library is a buffer of written points
    and a flush counter; whether it throws or its flush rejects is given. */
module TimeSeries {
  import opened Js
  import opened Normalize
  import GeoIp

  const FlowMeasurement := "network_flow"
  const ThreatMeasurement := "network_threat"

  datatype FieldValue = IntValue(int) | FloatValue(real) | StringValue(string)

  /** Which address a geolocation block describes. */
  datatype Role = Source | Dest

  /** The tag and field keys the writers use; `Name` gives each one's
      line-protocol name. */
  datatype Key =
    | SourceAddress | DestinationAddress | Protocol | Application
    | ThreatType | ThreatCategory | Severity
    | Country(role: Role) | City(role: Role) | Isp(role: Role)
    | Latitude(role: Role) | Longitude(role: Role)
    | Bytes | Packets | SourcePort | DestinationPort | Duration
    | Direction | ClientName | Category | Action

  function RolePrefix(r: Role): string
  {
    if r == Source then "source" else "dest"
  }

  function Name(k: Key): string
  {
    match k
    case SourceAddress => "sourceAddress"
    case DestinationAddress => "destinationAddress"
    case Protocol => "protocol"
    case Application => "application"
    case ThreatType => "threatType"
    case ThreatCategory => "threatCategory"
    case Severity => "severity"
    case Country(r) => RolePrefix(r) + "Country"
    case City(r) => RolePrefix(r) + "City"
    case Isp(r) => RolePrefix(r) + "ISP"
    case Latitude(r) => RolePrefix(r) + "Latitude"
    case Longitude(r) => RolePrefix(r) + "Longitude"
    case Bytes => "bytes"
    case Packets => "packets"
    case SourcePort => "sourcePort"
    case DestinationPort => "destinationPort"
    case Duration => "duration"
    case Direction => "direction"
    case ClientName => "clientName"
    case Category => "category"
    case Action => "action"
  }

  /** A line-protocol point. */
  datatype Point = Point(measurement: string, time: Date, tags: map<Key, string>, fields: map<Key, FieldValue>)

  /** What the call sites test: `geoip.lookupIp(ip)` without `await` is a
      Promise, whose `latitude` is undefined, so no usable result. */
  const UnawaitedLookup: Option<GeoIp.GeoResult> := None

  // ---------------------------------------------------------------------------
  // Point construction

  predicate CoordTruthy(c: Option<Float>)
  {
    c.Some? && FloatTruthy(c.value)
  }

  /** `geo && geo.latitude && geo.longitude`. */
  predicate Usable(geo: Option<GeoIp.GeoResult>)
  {
    geo.Some? && CoordTruthy(geo.value.latitude) && CoordTruthy(geo.value.longitude)
  }

  /** The geolocation block for one address. */
  function WithGeo(p: Point, role: Role, geo: Option<GeoIp.GeoResult>): Point
  {
    if !Usable(geo) then p
    else
      var g := geo.value;
      var t1 := p.tags[Country(role) := OrElse(g.country, "unknown")];
      var t2 := if Truthy(g.city) then t1[City(role) := g.city.value] else t1;
      var t3 := if Truthy(g.isp) then t2[Isp(role) := g.isp.value] else t2;
      var f := p.fields[Latitude(role) := FloatValue(g.latitude.value.value)]
                       [Longitude(role) := FloatValue(g.longitude.value.value)];
      p.(tags := t3, fields := f)
  }

  /** `parseInt(n, 10) || 0` for a JavaScript integer `n`: the number is
      converted to its decimal text and read back. */
  function Reparse(n: int): int
  {
    match ParseInt(IntText(n), Ten)
    case Int(v) => if v != 0 then v else 0
    case NaN => 0
  }

  /** `if (n) point.intField(name, parseInt(n, 10) || 0)`. The reparse gives
      the number back (`ReparseIdentity`), so the field holds `n` itself;
      `AddIntReparses` states that this is the source's expression. */
  function AddInt(f: map<Key, FieldValue>, k: Key, n: Number): map<Key, FieldValue>
  {
    if NumTruthy(n) then f[k := IntValue(n.value)] else f
  }

  /** `if (x) point.floatField(name, parseFloat(x) || 0)`; a finite number
      reads back as itself. */
  function AddFloat(f: map<Key, FieldValue>, k: Key, x: Float): map<Key, FieldValue>
  {
    if FloatTruthy(x) then f[k := FloatValue(x.value)] else f
  }

  /** `if (s) point.stringField(name, s)`. */
  function AddString(f: map<Key, FieldValue>, k: Key, s: Option<string>): map<Key, FieldValue>
  {
    if Truthy(s) then f[k := StringValue(s.value)] else f
  }

  /** The geolocation blocks, added only when enrichment is on and the
      address is truthy. */
  function WithGeoBlocks(p: Point, geoipEnabled: bool, sourceIp: Option<string>, destIp: Option<string>,
                         sourceGeo: Option<GeoIp.GeoResult>, destGeo: Option<GeoIp.GeoResult>): Point
  {
    var withSource := if geoipEnabled && Truthy(sourceIp) then WithGeo(p, Source, sourceGeo) else p;
    if geoipEnabled && Truthy(destIp) then WithGeo(withSource, Dest, destGeo) else withSource
  }

  /** The point `writeFlowPoint` builds, given what each address's lookup
      yielded. A flow record has no `sourceAddress`, `destinationAddress`,
      `direction`, `clientName` or `category` property, so those read as
      undefined. */
  function FlowPoint(flow: FlowRecord, geoipEnabled: bool,
                     sourceGeo: Option<GeoIp.GeoResult>, destGeo: Option<GeoIp.GeoResult>): Point
  {
    var tags := map[
      SourceAddress := OrElse(Or(flow.sourceIP, None), "unknown"),
      DestinationAddress := OrElse(Or(flow.destinationIP, None), "unknown"),
      Protocol := OrElse(flow.protocol, "unknown"),
      Application := OrElse(flow.application, "unknown")];
    var p := WithGeoBlocks(Point(FlowMeasurement, flow.timestamp, tags, map[]), geoipEnabled,
                           Or(flow.sourceIP, None), Or(flow.destinationIP, None), sourceGeo, destGeo);
    var f1 := AddInt(AddInt(p.fields, Bytes, flow.bytes), Packets, flow.packets);
    var f2 := AddInt(AddInt(f1, SourcePort, flow.sourcePort), DestinationPort, flow.destinationPort);
    var f3 := AddFloat(f2, Duration, flow.duration);
    var f4 := AddString(AddString(AddString(f3, Direction, None), ClientName, None), Category, None);
    p.(fields := AddString(f4, Action, Some(flow.action)))
  }

  /** The point `writeThreatPoint` builds. */
  function ThreatPoint(threat: ThreatRecord, geoipEnabled: bool,
                       sourceGeo: Option<GeoIp.GeoResult>, destGeo: Option<GeoIp.GeoResult>): Point
  {
    var tags := map[
      SourceAddress := OrElse(threat.sourceIP, "unknown"),
      DestinationAddress := OrElse(threat.destinationIP, "unknown"),
      Protocol := OrElse(threat.protocol, "unknown"),
      ThreatType := if threat.threatType != "" then threat.threatType else "unknown",
      ThreatCategory := if threat.threatCategory != "" then threat.threatCategory else "unknown",
      Severity := if threat.severity != "" then threat.severity else "medium"];
    var p := WithGeoBlocks(Point(ThreatMeasurement, threat.timestamp, tags, map[]), geoipEnabled,
                           threat.sourceIP, threat.destinationIP, sourceGeo, destGeo);
    var f1 := AddInt(AddInt(p.fields, SourcePort, threat.sourcePort), DestinationPort, threat.destinationPort);
    p.(fields := AddString(f1, Action, Some(threat.action)))
  }

  // ---------------------------------------------------------------------------
  // Properties of the points

  /** Reading an integer's decimal text back gives the integer. */
  lemma ReparseIdentity(n: int)
    ensures Reparse(n) == n
  {
    ParseIntText(n, Ten);
  }

  /** A numeric field is present exactly when its value is truthy (a zero or
      NaN count adds nothing), and it then holds `parseInt(n, 10) || 0`. */
  lemma AddIntReparses(f: map<Key, FieldValue>, k: Key, n: Number)
    ensures AddInt(f, k, n) == if NumTruthy(n) then f[k := IntValue(Reparse(n.value))] else f
  {
    if NumTruthy(n) {
      ReparseIdentity(n.value);
    }
  }

  /** The geolocation block is added exactly when both coordinates are
      truthy; its country defaults to "unknown", city and ISP appear only
      when present, and no other tag or field changes. */
  lemma WithGeoRule(p: Point, role: Role, geo: Option<GeoIp.GeoResult>)
    ensures var q := WithGeo(p, role, geo);
      && (!Usable(geo) ==> q == p)
      && (Usable(geo) ==>
            var g := geo.value;
            && q.measurement == p.measurement && q.time == p.time
            && q.tags == p.tags[Country(role) := OrElse(g.country, "unknown")]
                 + (if Truthy(g.city) then map[City(role) := g.city.value] else map[])
                 + (if Truthy(g.isp) then map[Isp(role) := g.isp.value] else map[])
            && q.fields == p.fields[Latitude(role) := FloatValue(g.latitude.value.value)]
                                   [Longitude(role) := FloatValue(g.longitude.value.value)])
  {
    if Usable(geo) {
      var g := geo.value;
      var t1 := p.tags[Country(role) := OrElse(g.country, "unknown")];
      var t2 := if Truthy(g.city) then t1[City(role) := g.city.value] else t1;
      MergeOptional(t1, City(role), Truthy(g.city), if Truthy(g.city) then g.city.value else "");
      MergeOptional(t2, Isp(role), Truthy(g.isp), if Truthy(g.isp) then g.isp.value else "");
    }
  }

  /** Adding a key when a condition holds is merging a one-key map or none. */
  lemma MergeOptional<K, V>(m: map<K, V>, k: K, c: bool, v: V)
    ensures (if c then m[k := v] else m) == m + (if c then map[k := v] else map[])
  {
    if !c {
      assert m + map[] == m;
    } else {
      assert m[k := v] == m + map[k := v];
    }
  }

  /** Flow tags are always the two addresses, the protocol and the
      application with their "unknown" defaults; each numeric field is
      present exactly when truthy and holds the record's value; `direction`,
      `clientName` and `category` never appear and `action` always does. */
  lemma FlowPointContents(flow: FlowRecord, geoipEnabled: bool)
    requires flow.action != ""
    ensures var p := FlowPoint(flow, geoipEnabled, UnawaitedLookup, UnawaitedLookup);
      && p.measurement == FlowMeasurement && p.time == flow.timestamp
      && p.tags == map[
           SourceAddress := OrElse(flow.sourceIP, "unknown"),
           DestinationAddress := OrElse(flow.destinationIP, "unknown"),
           Protocol := OrElse(flow.protocol, "unknown"),
           Application := OrElse(flow.application, "unknown")]
      && (Bytes in p.fields <==> NumTruthy(flow.bytes))
      && (NumTruthy(flow.bytes) ==> p.fields[Bytes] == IntValue(flow.bytes.value))
      && (Packets in p.fields <==> NumTruthy(flow.packets))
      && (NumTruthy(flow.packets) ==> p.fields[Packets] == IntValue(flow.packets.value))
      && (SourcePort in p.fields <==> NumTruthy(flow.sourcePort))
      && (NumTruthy(flow.sourcePort) ==> p.fields[SourcePort] == IntValue(flow.sourcePort.value))
      && (DestinationPort in p.fields <==> NumTruthy(flow.destinationPort))
      && (NumTruthy(flow.destinationPort) ==> p.fields[DestinationPort] == IntValue(flow.destinationPort.value))
      && (Duration in p.fields <==> FloatTruthy(flow.duration))
      && (FloatTruthy(flow.duration) ==> p.fields[Duration] == FloatValue(flow.duration.value))
      && Action in p.fields && p.fields[Action] == StringValue(flow.action)
      && p.fields.Keys <= {Bytes, Packets, SourcePort, DestinationPort, Duration, Action}
  {
    var tags := map[
      SourceAddress := OrElse(Or(flow.sourceIP, None), "unknown"),
      DestinationAddress := OrElse(Or(flow.destinationIP, None), "unknown"),
      Protocol := OrElse(flow.protocol, "unknown"),
      Application := OrElse(flow.application, "unknown")];
    var p := Point(FlowMeasurement, flow.timestamp, tags, map[]);
    assert WithGeoBlocks(p, geoipEnabled, Or(flow.sourceIP, None), Or(flow.destinationIP, None),
                         UnawaitedLookup, UnawaitedLookup) == p;
    var f0: map<Key, FieldValue> := map[];
    var f1 := AddInt(f0, Bytes, flow.bytes);
    var f2 := AddInt(f1, Packets, flow.packets);
    var f3 := AddInt(f2, SourcePort, flow.sourcePort);
  }

  /** Threat points always carry the address, protocol, type, category and
      severity tags with their defaults, the port fields only when truthy,
      and always the action. */
  lemma ThreatPointContents(threat: ThreatRecord, geoipEnabled: bool)
    requires threat.action != ""
    ensures var p := ThreatPoint(threat, geoipEnabled, UnawaitedLookup, UnawaitedLookup);
      && p.measurement == ThreatMeasurement && p.time == threat.timestamp
      && p.tags == map[
           SourceAddress := OrElse(threat.sourceIP, "unknown"),
           DestinationAddress := OrElse(threat.destinationIP, "unknown"),
           Protocol := OrElse(threat.protocol, "unknown"),
           ThreatType := if threat.threatType != "" then threat.threatType else "unknown",
           ThreatCategory := if threat.threatCategory != "" then threat.threatCategory else "unknown",
           Severity := if threat.severity != "" then threat.severity else "medium"]
      && (SourcePort in p.fields <==> NumTruthy(threat.sourcePort))
      && (NumTruthy(threat.sourcePort) ==> p.fields[SourcePort] == IntValue(threat.sourcePort.value))
      && (DestinationPort in p.fields <==> NumTruthy(threat.destinationPort))
      && (NumTruthy(threat.destinationPort) ==> p.fields[DestinationPort] == IntValue(threat.destinationPort.value))
      && Action in p.fields && p.fields[Action] == StringValue(threat.action)
      && p.fields.Keys <= {SourcePort, DestinationPort, Action}
  {
    var tags := map[
      SourceAddress := OrElse(threat.sourceIP, "unknown"),
      DestinationAddress := OrElse(threat.destinationIP, "unknown"),
      Protocol := OrElse(threat.protocol, "unknown"),
      ThreatType := if threat.threatType != "" then threat.threatType else "unknown",
      ThreatCategory := if threat.threatCategory != "" then threat.threatCategory else "unknown",
      Severity := if threat.severity != "" then threat.severity else "medium"];
    var p := Point(ThreatMeasurement, threat.timestamp, tags, map[]);
    assert WithGeoBlocks(p, geoipEnabled, threat.sourceIP, threat.destinationIP,
                         UnawaitedLookup, UnawaitedLookup) == p;
    var f0: map<Key, FieldValue> := map[];
  }

  /** With usable lookups, enrichment on and truthy addresses, the flow point
      carries both geolocation blocks. */
  lemma FlowPointWithGeo(flow: FlowRecord, sourceGeo: GeoIp.GeoResult, destGeo: GeoIp.GeoResult)
    requires Truthy(flow.sourceIP) && Truthy(flow.destinationIP)
    requires Usable(Some(sourceGeo)) && Usable(Some(destGeo))
    ensures var p := FlowPoint(flow, true, Some(sourceGeo), Some(destGeo));
      && Country(Source) in p.tags && Country(Dest) in p.tags
      && p.tags[Country(Source)] == OrElse(sourceGeo.country, "unknown")
      && p.tags[Country(Dest)] == OrElse(destGeo.country, "unknown")
      && Latitude(Source) in p.fields && Longitude(Source) in p.fields
      && Latitude(Dest) in p.fields && Longitude(Dest) in p.fields
      && p.fields[Latitude(Source)] == FloatValue(sourceGeo.latitude.value.value)
      && p.fields[Longitude(Source)] == FloatValue(sourceGeo.longitude.value.value)
      && p.fields[Latitude(Dest)] == FloatValue(destGeo.latitude.value.value)
      && p.fields[Longitude(Dest)] == FloatValue(destGeo.longitude.value.value)
  {
    var tags := map[
      SourceAddress := OrElse(Or(flow.sourceIP, None), "unknown"),
      DestinationAddress := OrElse(Or(flow.destinationIP, None), "unknown"),
      Protocol := OrElse(flow.protocol, "unknown"),
      Application := OrElse(flow.application, "unknown")];
    BothGeoBlocks(Point(FlowMeasurement, flow.timestamp, tags, map[]),
                  Or(flow.sourceIP, None), Or(flow.destinationIP, None), sourceGeo, destGeo);
  }

  /** The same for a threat point: with usable lookups, enrichment on and
      truthy addresses, both geolocation blocks are attached. */
  lemma ThreatPointWithGeo(threat: ThreatRecord, sourceGeo: GeoIp.GeoResult, destGeo: GeoIp.GeoResult)
    requires Truthy(threat.sourceIP) && Truthy(threat.destinationIP)
    requires Usable(Some(sourceGeo)) && Usable(Some(destGeo))
    ensures var p := ThreatPoint(threat, true, Some(sourceGeo), Some(destGeo));
      && Country(Source) in p.tags && Country(Dest) in p.tags
      && p.tags[Country(Source)] == OrElse(sourceGeo.country, "unknown")
      && p.tags[Country(Dest)] == OrElse(destGeo.country, "unknown")
      && Latitude(Source) in p.fields && Longitude(Source) in p.fields
      && Latitude(Dest) in p.fields && Longitude(Dest) in p.fields
      && p.fields[Latitude(Source)] == FloatValue(sourceGeo.latitude.value.value)
      && p.fields[Longitude(Source)] == FloatValue(sourceGeo.longitude.value.value)
      && p.fields[Latitude(Dest)] == FloatValue(destGeo.latitude.value.value)
      && p.fields[Longitude(Dest)] == FloatValue(destGeo.longitude.value.value)
  {
    var tags := map[
      SourceAddress := OrElse(threat.sourceIP, "unknown"),
      DestinationAddress := OrElse(threat.destinationIP, "unknown"),
      Protocol := OrElse(threat.protocol, "unknown"),
      ThreatType := if threat.threatType != "" then threat.threatType else "unknown",
      ThreatCategory := if threat.threatCategory != "" then threat.threatCategory else "unknown",
      Severity := if threat.severity != "" then threat.severity else "medium"];
    var base := Point(ThreatMeasurement, threat.timestamp, tags, map[]);
    BothGeoBlocks(base, threat.sourceIP, threat.destinationIP, sourceGeo, destGeo);
    var q := WithGeoBlocks(base, true, threat.sourceIP, threat.destinationIP, Some(sourceGeo), Some(destGeo));
    var f1 := AddInt(AddInt(q.fields, SourcePort, threat.sourcePort), DestinationPort, threat.destinationPort);
    assert ThreatPoint(threat, true, Some(sourceGeo), Some(destGeo)) == q.(fields := AddString(f1, Action, Some(threat.action)));
    ThreatFieldsKeep(q.fields, threat.sourcePort, threat.destinationPort, threat.action, Latitude(Source));
    ThreatFieldsKeep(q.fields, threat.sourcePort, threat.destinationPort, threat.action, Longitude(Source));
    ThreatFieldsKeep(q.fields, threat.sourcePort, threat.destinationPort, threat.action, Latitude(Dest));
    ThreatFieldsKeep(q.fields, threat.sourcePort, threat.destinationPort, threat.action, Longitude(Dest));
  }

  /** The fields a threat point adds after geolocation leave every other
      field as it was. */
  lemma ThreatFieldsKeep(f: map<Key, FieldValue>, sourcePort: Number, destinationPort: Number, action: string, k: Key)
    requires k != SourcePort && k != DestinationPort && k != Action && k in f
    ensures var g := AddString(AddInt(AddInt(f, SourcePort, sourcePort), DestinationPort, destinationPort), Action, Some(action));
      k in g && g[k] == f[k]
  {
  }

  /** With both addresses present and both lookups usable, each address gets
      its country and coordinates. */
  lemma BothGeoBlocks(p: Point, sourceIp: Option<string>, destIp: Option<string>,
                      sourceGeo: GeoIp.GeoResult, destGeo: GeoIp.GeoResult)
    requires Truthy(sourceIp) && Truthy(destIp)
    requires Usable(Some(sourceGeo)) && Usable(Some(destGeo))
    ensures var q := WithGeoBlocks(p, true, sourceIp, destIp, Some(sourceGeo), Some(destGeo));
      && Country(Source) in q.tags && Country(Dest) in q.tags
      && q.tags[Country(Source)] == OrElse(sourceGeo.country, "unknown")
      && q.tags[Country(Dest)] == OrElse(destGeo.country, "unknown")
      && Latitude(Source) in q.fields && Longitude(Source) in q.fields
      && Latitude(Dest) in q.fields && Longitude(Dest) in q.fields
      && q.fields[Latitude(Source)] == FloatValue(sourceGeo.latitude.value.value)
      && q.fields[Longitude(Source)] == FloatValue(sourceGeo.longitude.value.value)
      && q.fields[Latitude(Dest)] == FloatValue(destGeo.latitude.value.value)
      && q.fields[Longitude(Dest)] == FloatValue(destGeo.longitude.value.value)
  {
  }

  /** As written no geolocation key ever appears, whatever the setting: the
      enriched point equals the point built with enrichment off. */
  lemma NoGeoAsWritten(flow: FlowRecord, threat: ThreatRecord)
    ensures FlowPoint(flow, true, UnawaitedLookup, UnawaitedLookup)
         == FlowPoint(flow, false, UnawaitedLookup, UnawaitedLookup)
    ensures ThreatPoint(threat, true, UnawaitedLookup, UnawaitedLookup)
         == ThreatPoint(threat, false, UnawaitedLookup, UnawaitedLookup)
  {
  }

  // ---------------------------------------------------------------------------
  // The write API

  datatype StoreError = WriteRejected(index: nat) | FlushRejected

  /** The index of the first record whose point the library rejects, or `n`. */
  function FirstRejected(rejects: nat -> bool, n: nat, from: nat): (k: nat)
    requires from <= n
    ensures from <= k <= n
    ensures k < n ==> rejects(k)
    ensures forall i :: from <= i < k ==> !rejects(i)
    decreases n - from
  {
    if from == n then n else if rejects(from) then from else FirstRejected(rejects, n, from + 1)
  }

  /** One more record adds its point at the end. */
  lemma FlowPointsSnoc(records: seq<FlowRecord>, count: nat, geoipEnabled: bool)
    requires count < |records|
    ensures FlowPoints(records[..count + 1], geoipEnabled)
         == FlowPoints(records[..count], geoipEnabled) + [FlowPoint(records[count], geoipEnabled, UnawaitedLookup, UnawaitedLookup)]
  {
    assert records[..count + 1][..count] == records[..count];
  }

  function FlowPoints(records: seq<FlowRecord>, geoipEnabled: bool): (ps: seq<Point>)
    ensures |ps| == |records|
  {
    if records == [] then []
    else FlowPoints(records[..|records| - 1], geoipEnabled)
         + [FlowPoint(records[|records| - 1], geoipEnabled, UnawaitedLookup, UnawaitedLookup)]
  }

  /** One more record adds its point at the end. */
  lemma ThreatPointsSnoc(records: seq<ThreatRecord>, count: nat, geoipEnabled: bool)
    requires count < |records|
    ensures ThreatPoints(records[..count + 1], geoipEnabled)
         == ThreatPoints(records[..count], geoipEnabled) + [ThreatPoint(records[count], geoipEnabled, UnawaitedLookup, UnawaitedLookup)]
  {
    assert records[..count + 1][..count] == records[..count];
  }

  function ThreatPoints(records: seq<ThreatRecord>, geoipEnabled: bool): (ps: seq<Point>)
    ensures |ps| == |records|
  {
    if records == [] then []
    else ThreatPoints(records[..|records| - 1], geoipEnabled)
         + [ThreatPoint(records[|records| - 1], geoipEnabled, UnawaitedLookup, UnawaitedLookup)]
  }

  /** The client: `enabled` is `USE_INFLUXDB === "true"` (the write API exists
      exactly then, since a missing token ends the process), `points` the
      points handed to `writePoint`, `flushes` the calls to `flush`. */
  class TimeSeriesStore {
    const enabled: bool
    const geoipEnabled: bool
    var points: seq<Point>
    var flushes: nat

    constructor(enabled: bool, geoipEnabled: bool)
      ensures this.enabled == enabled && this.geoipEnabled == geoipEnabled
      ensures points == [] && flushes == 0
    {
      this.enabled := enabled;
      this.geoipEnabled := geoipEnabled;
      points := [];
      flushes := 0;
    }

    /** `writeFlowPoint`: nothing when disabled; otherwise the point, unless
        the library throws while building it (`rejects`), which `ok` reports. */
    method WriteFlowPoint(flow: FlowRecord, rejects: bool) returns (ok: bool)
      modifies this
      ensures ok == (!enabled || !rejects)
      ensures enabled && !rejects ==> points == old(points) + [FlowPoint(flow, geoipEnabled, UnawaitedLookup, UnawaitedLookup)]
      ensures !(enabled && !rejects) ==> points == old(points)
      ensures flushes == old(flushes)
    {
      if !enabled {
        return true;
      }
      if rejects {
        return false;
      }
      points := points + [FlowPoint(flow, geoipEnabled, UnawaitedLookup, UnawaitedLookup)];
      ok := true;
    }

    /** `writeThreatPoint`. */
    method WriteThreatPoint(threat: ThreatRecord, rejects: bool) returns (ok: bool)
      modifies this
      ensures ok == (!enabled || !rejects)
      ensures enabled && !rejects ==> points == old(points) + [ThreatPoint(threat, geoipEnabled, UnawaitedLookup, UnawaitedLookup)]
      ensures !(enabled && !rejects) ==> points == old(points)
      ensures flushes == old(flushes)
    {
      if !enabled {
        return true;
      }
      if rejects {
        return false;
      }
      points := points + [ThreatPoint(threat, geoipEnabled, UnawaitedLookup, UnawaitedLookup)];
      ok := true;
    }

    /** One turn of the loop in `WriteFlowPoints`: the next record's point,
        unless the library rejects it. */
    method WriteNextFlow(records: seq<FlowRecord>, count: nat, rejects: nat -> bool, ghost base: seq<Point>)
      returns (ok: bool)
      requires enabled && count < |records|
      requires points == base + FlowPoints(records[..count], geoipEnabled)
      modifies this
      ensures ok == !rejects(count)
      ensures ok ==> points == base + FlowPoints(records[..count + 1], geoipEnabled)
      ensures !ok ==> points == old(points)
      ensures flushes == old(flushes)
    {
      ghost var before := points;
      ok := WriteFlowPoint(records[count], rejects(count));
      if ok {
        FlowPointsSnoc(records, count, geoipEnabled);
        SnocStep(before, base, FlowPoints(records[..count], geoipEnabled),
                 FlowPoint(records[count], geoipEnabled, UnawaitedLookup, UnawaitedLookup),
                 FlowPoints(records[..count + 1], geoipEnabled), points);
      }
    }

    /** The loop of `storeFlowRecords`: one point per record, in order, up to
        the first point the library rejects. */
    method WriteFlowPoints(records: seq<FlowRecord>, rejects: nat -> bool) returns (count: nat)
      requires enabled
      modifies this
      ensures count == FirstRejected(rejects, |records|, 0)
      ensures points == old(points) + FlowPoints(records[..count], geoipEnabled)
      ensures flushes == old(flushes)
    {
      count := 0;
      while count < |records|
        invariant 0 <= count <= |records|
        invariant forall i :: 0 <= i < count ==> !rejects(i)
        invariant points == old(points) + FlowPoints(records[..count], geoipEnabled)
        invariant flushes == old(flushes)
      {
        var ok := WriteNextFlow(records, count, rejects, old(points));
        if !ok {
          FirstRejectedAt(rejects, |records|, count);
          return;
        }
        count := count + 1;
      }
      FirstRejectedNone(rejects, |records|);
    }

    /** `storeFlowRecords`: 0 when disabled; otherwise one point per record in
        order, one flush, and the record count. A rejected point stops the
        batch before the flush. */
    method StoreFlowRecords(records: seq<FlowRecord>, rejects: nat -> bool, flushRejects: bool)
      returns (r: Result<nat, StoreError>)
      modifies this
      ensures !enabled ==> r == Ok(0) && points == old(points) && flushes == old(flushes)
      ensures enabled ==>
        var k := FirstRejected(rejects, |records|, 0);
        && points == old(points) + FlowPoints(records[..k], geoipEnabled)
        && (k < |records| ==> r == Err(WriteRejected(k)) && flushes == old(flushes))
        && (k == |records| ==>
              flushes == old(flushes) + 1 && r == (if flushRejects then Err(FlushRejected) else Ok(|records|)))
    {
      if !enabled {
        return Ok(0);
      }
      var count := WriteFlowPoints(records, rejects);
      if count < |records| {
        return Err(WriteRejected(count));
      }
      flushes := flushes + 1;
      if flushRejects {
        return Err(FlushRejected);
      }
      r := Ok(count);
    }

    /** One turn of the loop in `WriteThreatPoints`: the next record's point,
        unless the library rejects it. */
    method WriteNextThreat(records: seq<ThreatRecord>, count: nat, rejects: nat -> bool, ghost base: seq<Point>)
      returns (ok: bool)
      requires enabled && count < |records|
      requires points == base + ThreatPoints(records[..count], geoipEnabled)
      modifies this
      ensures ok == !rejects(count)
      ensures ok ==> points == base + ThreatPoints(records[..count + 1], geoipEnabled)
      ensures !ok ==> points == old(points)
      ensures flushes == old(flushes)
    {
      ghost var before := points;
      ok := WriteThreatPoint(records[count], rejects(count));
      if ok {
        ThreatPointsSnoc(records, count, geoipEnabled);
        SnocStep(before, base, ThreatPoints(records[..count], geoipEnabled),
                 ThreatPoint(records[count], geoipEnabled, UnawaitedLookup, UnawaitedLookup),
                 ThreatPoints(records[..count + 1], geoipEnabled), points);
      }
    }

    /** The loop of `storeThreatRecords`: one point per record, in order, up to
        the first point the library rejects. */
    method WriteThreatPoints(records: seq<ThreatRecord>, rejects: nat -> bool) returns (count: nat)
      requires enabled
      modifies this
      ensures count == FirstRejected(rejects, |records|, 0)
      ensures points == old(points) + ThreatPoints(records[..count], geoipEnabled)
      ensures flushes == old(flushes)
    {
      count := 0;
      while count < |records|
        invariant 0 <= count <= |records|
        invariant forall i :: 0 <= i < count ==> !rejects(i)
        invariant points == old(points) + ThreatPoints(records[..count], geoipEnabled)
        invariant flushes == old(flushes)
      {
        var ok := WriteNextThreat(records, count, rejects, old(points));
        if !ok {
          FirstRejectedAt(rejects, |records|, count);
          return;
        }
        count := count + 1;
      }
      FirstRejectedNone(rejects, |records|);
    }

    /** `storeThreatRecords`: 0 when disabled; otherwise one point per record in
        order, one flush, and the record count. A rejected point stops the
        batch before the flush. */
    method StoreThreatRecords(records: seq<ThreatRecord>, rejects: nat -> bool, flushRejects: bool)
      returns (r: Result<nat, StoreError>)
      modifies this
      ensures !enabled ==> r == Ok(0) && points == old(points) && flushes == old(flushes)
      ensures enabled ==>
        var k := FirstRejected(rejects, |records|, 0);
        && points == old(points) + ThreatPoints(records[..k], geoipEnabled)
        && (k < |records| ==> r == Err(WriteRejected(k)) && flushes == old(flushes))
        && (k == |records| ==>
              flushes == old(flushes) + 1 && r == (if flushRejects then Err(FlushRejected) else Ok(|records|)))
    {
      if !enabled {
        return Ok(0);
      }
      var count := WriteThreatPoints(records, rejects);
      if count < |records| {
        return Err(WriteRejected(count));
      }
      flushes := flushes + 1;
      if flushRejects {
        return Err(FlushRejected);
      }
      r := Ok(count);
    }
  }

  /** The first rejection is the first index that rejects. */
  lemma FirstRejectedAt(rejects: nat -> bool, n: nat, k: nat)
    requires k < n && rejects(k) && forall i :: 0 <= i < k ==> !rejects(i)
    ensures FirstRejected(rejects, n, 0) == k
  {
  }

  /** With no rejection among the first `n` indices, there is none. */
  lemma FirstRejectedNone(rejects: nat -> bool, n: nat)
    requires forall i :: 0 <= i < n ==> !rejects(i)
    ensures FirstRejected(rejects, n, 0) == n
  {
  }
}

/** Geolocation of flow addresses: the private-address classifier, the two
    HTTP providers' reply mappings, their fixed-window rate limiters, the
    two-tier cache (an in-memory map and one timestamped file per address)
    and the lookup that falls back from memory to file to provider A
    (ipapi.co) to provider B (ip-api.com). The providers' replies, the clock
    and the cache directory are parameters and state; nothing here does I/O. */
module GeoIp {
  import opened Js

  // ---------------------------------------------------------------------------
  // Configuration

  /** Provider A's hourly allowance. The figure is `30000 / 30`, which is
      1000 per hour, although the accompanying comment speaks of about 42. */
  const IpapiRateLimit: nat := 30000 / 30
  const IpApiRateLimit: nat := 45
  const IpapiPeriod: nat := 3600000
  const IpApiPeriod: nat := 60000
  /** Thirty days in milliseconds. */
  const CacheTtl: nat := 30 * 24 * 60 * 60 * 1000

  // ---------------------------------------------------------------------------
  // Results and provider replies

  /** A geolocation result. Coordinates come from JSON numbers and every
      field may be missing from the provider's document. */
  datatype GeoResult = GeoResult(
    ip: string,
    latitude: Option<Float>,
    longitude: Option<Float>,
    country: Option<string>,
    city: Option<string>,
    isp: Option<string>,
    asn: Option<string>)

  /** What one HTTPS request yields: a connection error (or a request the
      client refuses to make), or a status code with a body that is `None`
      when it is not valid JSON. */
  datatype Reply<B> = NetworkError | Response(statusCode: int, body: Option<B>)

  /** The fields of an ipapi.co document the code reads; `error` is the
      truthiness of its `error` member. */
  datatype IpapiBody = IpapiBody(
    error: bool,
    latitude: Option<Float>,
    longitude: Option<Float>,
    countryCode: Option<string>,
    city: Option<string>,
    org: Option<string>,
    asn: Option<string>)

  /** The fields of an ip-api.com document the code reads (`as` is
      `autonomousSystem` here). */
  datatype IpApiBody = IpApiBody(
    status: Option<string>,
    lat: Option<Float>,
    lon: Option<Float>,
    countryCode: Option<string>,
    city: Option<string>,
    isp: Option<string>,
    autonomousSystem: Option<string>)

  /** ipapi.co: anything but a 200 with a JSON body and no error is null. */
  function MapIpapi(ip: string, reply: Reply<IpapiBody>): Option<GeoResult>
  {
    match reply
    case NetworkError => None
    case Response(code, body) =>
      if code != 200 || body.None? || body.value.error then None
      else
        var b := body.value;
        Some(GeoResult(ip, b.latitude, b.longitude, b.countryCode, b.city, b.org, b.asn))
  }

  /** ip-api.com: anything but a 200 with status "success" is null. */
  function MapIpApi(ip: string, reply: Reply<IpApiBody>): Option<GeoResult>
  {
    match reply
    case NetworkError => None
    case Response(code, body) =>
      if code != 200 || body.None? || body.value.status != Some("success") then None
      else
        var b := body.value;
        Some(GeoResult(ip, b.lat, b.lon, b.countryCode, b.city, b.isp, b.autonomousSystem))
  }

  /** Provider A answers exactly for a 200 reply whose document carries no
      error, and then only renames the document's fields. */
  lemma MapIpapiRules(ip: string, reply: Reply<IpapiBody>)
    ensures MapIpapi(ip, reply).Some?
        <==> reply.Response? && reply.statusCode == 200 && reply.body.Some? && !reply.body.value.error
    ensures MapIpapi(ip, reply).Some? ==>
      var b := reply.body.value;
      var g := MapIpapi(ip, reply).value;
      && g.ip == ip && g.latitude == b.latitude && g.longitude == b.longitude
      && g.country == b.countryCode && g.city == b.city && g.isp == b.org && g.asn == b.asn
  {
  }

  /** Provider B answers exactly for a 200 reply whose status is "success",
      and then only renames the document's fields. */
  lemma MapIpApiRules(ip: string, reply: Reply<IpApiBody>)
    ensures MapIpApi(ip, reply).Some?
        <==> reply.Response? && reply.statusCode == 200 && reply.body.Some?
             && reply.body.value.status == Some("success")
    ensures MapIpApi(ip, reply).Some? ==>
      var b := reply.body.value;
      var g := MapIpApi(ip, reply).value;
      && g.ip == ip && g.latitude == b.lat && g.longitude == b.lon
      && g.country == b.countryCode && g.city == b.city && g.isp == b.isp && g.asn == b.autonomousSystem
  {
  }

  /** Both providers produce the same result from the same data: the two
      mappings differ only in the names of the document's fields. */
  lemma ProvidersAgree(ip: string, a: IpapiBody, b: IpApiBody)
    requires !a.error && b.status == Some("success")
    requires a.latitude == b.lat && a.longitude == b.lon && a.countryCode == b.countryCode
    requires a.city == b.city && a.org == b.isp && a.asn == b.autonomousSystem
    ensures MapIpapi(ip, Response(200, Some(a))) == MapIpApi(ip, Response(200, Some(b)))
    ensures MapIpapi(ip, Response(200, Some(a))).Some?
  {
  }

  // ---------------------------------------------------------------------------
  // Private addresses

  /** `1[6-9]|2[0-9]|3[0-1]`: the second octets 16 to 31. */
  predicate SecondOctet172(a: char, b: char)
  {
    || (a == '1' && '6' <= b <= '9')
    || (a == '2' && '0' <= b <= '9')
    || (a == '3' && '0' <= b <= '1')
  }

  /** The anchored IPv4 alternation. */
  predicate IsPrivateV4(ip: string)
  {
    || StartsWith(ip, "10.")
    || (StartsWith(ip, "172.") && |ip| >= 7 && SecondOctet172(ip[4], ip[5]) && ip[6] == '.')
    || StartsWith(ip, "192.168.")
    || StartsWith(ip, "127.")
    || StartsWith(ip, "0.")
  }

  /** The anchored, case-insensitive IPv6 alternation. */
  predicate IsPrivateV6(ip: string)
  {
    var l := Lower(ip);
    StartsWith(l, "::1") || StartsWith(l, "fe80:") || StartsWith(l, "fc00:")
    || StartsWith(l, "fd00:") || StartsWith(l, "::ffff:")
  }

  predicate IsPrivateIp(ip: string)
  {
    IsPrivateV4(ip) || IsPrivateV6(ip)
  }

  /** The private ranges written out as a table of literal prefixes. */
  const PrivateV4Prefixes: seq<string> := [
    "10.",
    "172.16.", "172.17.", "172.18.", "172.19.", "172.20.", "172.21.", "172.22.", "172.23.",
    "172.24.", "172.25.", "172.26.", "172.27.", "172.28.", "172.29.", "172.30.", "172.31.",
    "192.168.", "127.", "0."]

  const PrivateV6Prefixes: seq<string> := ["::1", "fe80:", "fc00:", "fd00:", "::ffff:"]

  lemma Octet172InTable(a: char, b: char)
    requires SecondOctet172(a, b)
    ensures "172." + [a, b, '.'] in PrivateV4Prefixes
  {
    if a == '1' && b == '6' {
      assert "172." + [a, b, '.'] == PrivateV4Prefixes[1];
    } else if a == '1' && b == '7' {
      assert "172." + [a, b, '.'] == PrivateV4Prefixes[2];
    } else if a == '1' && b == '8' {
      assert "172." + [a, b, '.'] == PrivateV4Prefixes[3];
    } else if a == '1' && b == '9' {
      assert "172." + [a, b, '.'] == PrivateV4Prefixes[4];
    } else if a == '2' && b == '0' {
      assert "172." + [a, b, '.'] == PrivateV4Prefixes[5];
    } else if a == '2' && b == '1' {
      assert "172." + [a, b, '.'] == PrivateV4Prefixes[6];
    } else if a == '2' && b == '2' {
      assert "172." + [a, b, '.'] == PrivateV4Prefixes[7];
    } else if a == '2' && b == '3' {
      assert "172." + [a, b, '.'] == PrivateV4Prefixes[8];
    } else if a == '2' && b == '4' {
      assert "172." + [a, b, '.'] == PrivateV4Prefixes[9];
    } else if a == '2' && b == '5' {
      assert "172." + [a, b, '.'] == PrivateV4Prefixes[10];
    } else if a == '2' && b == '6' {
      assert "172." + [a, b, '.'] == PrivateV4Prefixes[11];
    } else if a == '2' && b == '7' {
      assert "172." + [a, b, '.'] == PrivateV4Prefixes[12];
    } else if a == '2' && b == '8' {
      assert "172." + [a, b, '.'] == PrivateV4Prefixes[13];
    } else if a == '2' && b == '9' {
      assert "172." + [a, b, '.'] == PrivateV4Prefixes[14];
    } else if a == '3' && b == '0' {
      assert "172." + [a, b, '.'] == PrivateV4Prefixes[15];
    } else {
      assert "172." + [a, b, '.'] == PrivateV4Prefixes[16];
    }
  }

  lemma TablePrefixIsPrivate(ip: string, p: string)
    requires p in PrivateV4Prefixes && StartsWith(ip, p)
    ensures IsPrivateV4(ip)
  {
    var i :| 0 <= i < |PrivateV4Prefixes| && PrivateV4Prefixes[i] == p;
    assert ip[..|p|] == p;
    if 1 <= i <= 16 {
      assert |p| == 7 && p[..4] == "172." && p[6] == '.';
      assert ip[..4] == p[..4];
      assert ip[4] == p[4] && ip[5] == p[5] && ip[6] == p[6];
      assert SecondOctet172(p[4], p[5]) by {
        if i == 1 {
          assert p == "172.16.";
        } else if i == 2 {
          assert p == "172.17.";
        } else if i == 3 {
          assert p == "172.18.";
        } else if i == 4 {
          assert p == "172.19.";
        } else if i == 5 {
          assert p == "172.20.";
        } else if i == 6 {
          assert p == "172.21.";
        } else if i == 7 {
          assert p == "172.22.";
        } else if i == 8 {
          assert p == "172.23.";
        } else if i == 9 {
          assert p == "172.24.";
        } else if i == 10 {
          assert p == "172.25.";
        } else if i == 11 {
          assert p == "172.26.";
        } else if i == 12 {
          assert p == "172.27.";
        } else if i == 13 {
          assert p == "172.28.";
        } else if i == 14 {
          assert p == "172.29.";
        } else if i == 15 {
          assert p == "172.30.";
        } else if i == 16 {
          assert p == "172.31.";
        }
      }
    }
  }

  /** A private IPv4 address starts with one of the table's prefixes. */
  lemma V4InTable(ip: string)
    requires IsPrivateV4(ip)
    ensures exists p :: p in PrivateV4Prefixes && StartsWith(ip, p)
  {
    var v4 := PrivateV4Prefixes;
    if StartsWith(ip, "10.") {
      assert StartsWith(ip, v4[0]);
    } else if StartsWith(ip, "172.") && |ip| >= 7 && SecondOctet172(ip[4], ip[5]) && ip[6] == '.' {
      Octet172InTable(ip[4], ip[5]);
      assert ip[..7] == "172." + [ip[4], ip[5], '.'];
      assert StartsWith(ip, ip[..7]);
    } else if StartsWith(ip, "192.168.") {
      assert StartsWith(ip, v4[17]);
    } else if StartsWith(ip, "127.") {
      assert StartsWith(ip, v4[18]);
    } else {
      assert StartsWith(ip, v4[19]);
    }
  }

  /** The IPv6 alternation is the IPv6 table, read on the lower-cased text. */
  lemma V6Table(ip: string)
    ensures IsPrivateV6(ip) <==> exists p :: p in PrivateV6Prefixes && StartsWith(Lower(ip), p)
  {
    var v6 := PrivateV6Prefixes;
    var l := Lower(ip);
    if StartsWith(l, "::1") {
      assert StartsWith(l, v6[0]);
    } else if StartsWith(l, "fe80:") {
      assert StartsWith(l, v6[1]);
    } else if StartsWith(l, "fc00:") {
      assert StartsWith(l, v6[2]);
    } else if StartsWith(l, "fd00:") {
      assert StartsWith(l, v6[3]);
    } else if StartsWith(l, "::ffff:") {
      assert StartsWith(l, v6[4]);
    }
    if p :| p in v6 && StartsWith(l, p) {
      var i :| 0 <= i < |v6| && v6[i] == p;
      assert IsPrivateV6(ip) by {
        if i == 0 {} else if i == 1 {} else if i == 2 {} else if i == 3 {} else {}
      }
    }
  }

  /** The classifier is true exactly for an address that starts with one of
      the IPv4 prefixes, or whose lower-cased form starts with one of the
      IPv6 prefixes. */
  lemma IsPrivateIpPrefixes(ip: string)
    ensures IsPrivateIp(ip)
        <==> (exists p :: p in PrivateV4Prefixes && StartsWith(ip, p))
             || (exists p :: p in PrivateV6Prefixes && StartsWith(Lower(ip), p))
  {
    if IsPrivateV4(ip) {
      V4InTable(ip);
    }
    if p :| p in PrivateV4Prefixes && StartsWith(ip, p) {
      TablePrefixIsPrivate(ip, p);
    }
    V6Table(ip);
  }

  /** The addresses `lookupIp` refuses before looking at its cache. */
  predicate Skipped(ip: string)
  {
    ip == "" || IsPrivateIp(ip) || ip == "127.0.0.1" || ip == "localhost"
  }

  // ---------------------------------------------------------------------------
  // Rate limiting

  /** A fixed-window counter: the calls charged since `resetTime`. */
  datatype Window = Window(count: nat, resetTime: int)

  datatype Admission = Admission(granted: bool, window: Window)

  /** One rate-limit check: the window restarts at `now` once `period` has
      elapsed, and a call is granted, and charged, while the count is below
      the limit. */
  function Admit(w: Window, now: int, period: nat, limit: nat): Admission
  {
    var current := if now - w.resetTime >= period then Window(0, now) else w;
    if current.count < limit then Admission(true, current.(count := current.count + 1))
    else Admission(false, current)
  }

  datatype Run = Run(grants: nat, window: Window)

  /** Successive checks at the instants `times`. */
  function AdmitAll(w: Window, times: seq<int>, period: nat, limit: nat): Run
    decreases |times|
  {
    if times == [] then Run(0, w)
    else
      var a := Admit(w, times[0], period, limit);
      var rest := AdmitAll(a.window, times[1..], period, limit);
      Run(rest.grants + (if a.granted then 1 else 0), rest.window)
  }

  /** A check never takes a window past its limit, and it is granted exactly
      when the (possibly restarted) count is below the limit. */
  lemma AdmitBound(w: Window, now: int, period: nat, limit: nat)
    requires w.count <= limit
    ensures Admit(w, now, period, limit).window.count <= limit
    ensures var elapsed := now - w.resetTime >= period;
      Admit(w, now, period, limit).granted <==> (if elapsed then 0 else w.count) < limit
  {
  }

  /** Once the period has elapsed the window restarts at `now` and the call
      is granted as the first of the new window. */
  lemma AdmitAfterPeriod(w: Window, now: int, period: nat, limit: nat)
    requires now - w.resetTime >= period && limit > 0
    ensures Admit(w, now, period, limit) == Admission(true, Window(1, now))
  {
  }

  /** Within one window the limiter grants exactly `limit - count` more calls
      however many are attempted: at most `limit` calls per window. */
  lemma {:induction false} AdmitWithinWindow(w: Window, times: seq<int>, period: nat, limit: nat)
    requires w.count <= limit
    requires forall i :: 0 <= i < |times| ==> times[i] - w.resetTime < period
    decreases |times|
    ensures var r := AdmitAll(w, times, period, limit);
      && r.grants == (if |times| <= limit - w.count then |times| else limit - w.count)
      && r.window.resetTime == w.resetTime
      && r.window.count == w.count + r.grants
  {
    if times != [] {
      var a := Admit(w, times[0], period, limit);
      assert a.window.resetTime == w.resetTime;
      assert forall i :: 0 <= i < |times[1..]| ==> times[1..][i] - a.window.resetTime < period by {
        forall i | 0 <= i < |times[1..]| ensures times[1..][i] - a.window.resetTime < period {
          assert times[1..][i] == times[i + 1];
        }
      }
      AdmitWithinWindow(a.window, times[1..], period, limit);
    }
  }

  // ---------------------------------------------------------------------------
  // The cache

  /** One cache file: a timestamped result, or a file that does not parse. */
  datatype CacheFile = Stored(timestamp: int, data: GeoResult) | Unreadable

  datatype FileCheck = FileCheck(result: Option<GeoResult>, files: map<string, CacheFile>)

  /** `checkFileCache`: a file younger than the TTL is a hit; an expired file
      is deleted; an unreadable file is logged and left in place. */
  function CheckFile(files: map<string, CacheFile>, ip: string, now: int): FileCheck
  {
    if ip !in files then FileCheck(None, files)
    else match files[ip]
      case Unreadable => FileCheck(None, files)
      case Stored(t, data) =>
        if now - t < CacheTtl then FileCheck(Some(data), files)
        else FileCheck(None, files - {ip})
  }

  /** A file entry is a hit exactly when it is stored and younger than the
      TTL; an expired entry is removed and every other entry is kept. */
  lemma CheckFileRules(files: map<string, CacheFile>, ip: string, now: int)
    ensures var c := CheckFile(files, ip, now);
      && (c.result.Some? <==> ip in files && files[ip].Stored? && now - files[ip].timestamp < CacheTtl)
      && (c.result.Some? ==> c.result.value == files[ip].data && c.files == files)
      && (ip in files && files[ip].Stored? && now - files[ip].timestamp >= CacheTtl ==> ip !in c.files)
      && (forall k :: k != ip ==> (k in c.files <==> k in files))
      && (forall k :: k in c.files ==> k in files && c.files[k] == files[k])
  {
  }

  // ---------------------------------------------------------------------------
  // The lookup, as a function of the state

  datatype GeoState = GeoState(
    memory: map<string, GeoResult>,
    files: map<string, CacheFile>,
    ipapi: Window,
    ipApi: Window)

  datatype Provider = Ipapi | IpApi

  /** The outcome of one lookup: the result, the new state and the provider
      requests made, in order. */
  datatype Lookup = Lookup(result: Option<GeoResult>, state: GeoState, calls: seq<Provider>)

  /** `cacheResult` with the file stamped `now`. */
  function CacheIn(s: GeoState, ip: string, g: GeoResult, now: int): GeoState
  {
    s.(memory := s.memory[ip := g], files := s.files[ip := Stored(now, g)])
  }

  predicate WithinLimits(s: GeoState)
  {
    s.ipapi.count <= IpapiRateLimit && s.ipApi.count <= IpApiRateLimit
  }

  /** Provider B's turn: its window check, the request when granted, and
      caching of a non-null answer. */
  function FallbackSpec(s: GeoState, ip: string, now: int, replyB: Reply<IpApiBody>): Lookup
  {
    var b := Admit(s.ipApi, now, IpApiPeriod, IpApiRateLimit);
    var rb := if b.granted then MapIpApi(ip, replyB) else None;
    var s1 := s.(ipApi := b.window);
    var calls := if b.granted then [IpApi] else [];
    if rb.Some? then Lookup(rb, CacheIn(s1, ip, rb.value, now), calls)
    else Lookup(None, s1, calls)
  }

  /** Provider A's turn, falling back to provider B when A is refused by its
      limiter or gives null. */
  function ProvidersSpec(s: GeoState, ip: string, now: int,
                         replyA: Reply<IpapiBody>, replyB: Reply<IpApiBody>): Lookup
  {
    var a := Admit(s.ipapi, now, IpapiPeriod, IpapiRateLimit);
    var ra := if a.granted then MapIpapi(ip, replyA) else None;
    var s1 := s.(ipapi := a.window);
    var callsA := if a.granted then [Ipapi] else [];
    if ra.Some? then Lookup(ra, CacheIn(s1, ip, ra.value, now), callsA)
    else
      var l := FallbackSpec(s1, ip, now, replyB);
      Lookup(l.result, l.state, callsA + l.calls)
  }

  /** `lookupIp` with one clock reading `now` and the replies each provider
      would give if asked. */
  function LookupSpec(s: GeoState, enabled: bool, ip: string, now: int,
                      replyA: Reply<IpapiBody>, replyB: Reply<IpApiBody>): Lookup
  {
    if Skipped(ip) || !enabled then Lookup(None, s, [])
    else if ip in s.memory then Lookup(Some(s.memory[ip]), s, [])
    else
      var c := CheckFile(s.files, ip, now);
      if c.result.Some? then Lookup(c.result, s.(memory := s.memory[ip := c.result.value]), [])
      else ProvidersSpec(s.(files := c.files), ip, now, replyA, replyB)
  }

  /** An empty, private or loopback address, or a disabled feature, yields
      null and leaves the caches and both rate counters untouched. */
  lemma LookupRefused(s: GeoState, enabled: bool, ip: string, now: int,
                      replyA: Reply<IpapiBody>, replyB: Reply<IpApiBody>)
    requires !enabled || ip == "" || ip == "localhost" || IsPrivateIp(ip)
    ensures LookupSpec(s, enabled, ip, now, replyA, replyB) == Lookup(None, s, [])
  {
  }

  /** A memory hit is returned as it is, whatever its age, and asks no
      provider. */
  lemma LookupMemoryHit(s: GeoState, enabled: bool, ip: string, now: int,
                        replyA: Reply<IpapiBody>, replyB: Reply<IpApiBody>)
    requires enabled && !Skipped(ip) && ip in s.memory
    ensures LookupSpec(s, enabled, ip, now, replyA, replyB) == Lookup(Some(s.memory[ip]), s, [])
  {
  }

  /** A valid file hit is promoted into memory and returned, asking no
      provider and charging no counter. */
  lemma LookupFileHit(s: GeoState, enabled: bool, ip: string, now: int,
                      replyA: Reply<IpapiBody>, replyB: Reply<IpApiBody>)
    requires enabled && !Skipped(ip) && ip !in s.memory
    requires ip in s.files && s.files[ip].Stored? && now - s.files[ip].timestamp < CacheTtl
    ensures var g := s.files[ip].data;
      LookupSpec(s, enabled, ip, now, replyA, replyB) == Lookup(Some(g), s.(memory := s.memory[ip := g]), [])
  {
  }

  /** The providers are asked at most once each and in the fixed order A then
      B; B only after A was refused by its limiter or gave null. The result
      is the last provider's answer, it carries the looked-up address, and a
      non-null answer is cached in both tiers stamped `now`. */
  lemma LookupProviderOrder(s: GeoState, enabled: bool, ip: string, now: int,
                            replyA: Reply<IpapiBody>, replyB: Reply<IpApiBody>)
    ensures var l := LookupSpec(s, enabled, ip, now, replyA, replyB);
      && (l.calls == [] || l.calls == [Ipapi] || l.calls == [IpApi] || l.calls == [Ipapi, IpApi])
      && (IpApi in l.calls ==> l.result == MapIpApi(ip, replyB))
      && (IpApi in l.calls && Ipapi in l.calls ==> MapIpapi(ip, replyA).None?)
      && (l.calls == [Ipapi] ==> l.result == MapIpapi(ip, replyA))
      && (l.calls != [] && l.result.Some? ==>
            && l.result.value.ip == ip
            && l.state.memory == s.memory[ip := l.result.value]
            && ip in l.state.files && l.state.files[ip] == Stored(now, l.result.value))
      && (l.calls != [] && l.result.None? ==> l.state.memory == s.memory)
  {
    if !Skipped(ip) && enabled && ip !in s.memory && CheckFile(s.files, ip, now).result.None? {
      ProvidersOrder(s.(files := CheckFile(s.files, ip, now).files), ip, now, replyA, replyB);
    }
  }

  /** Provider B's reply as the code is written: its URL is `http://`, which
      the HTTPS client refuses, and the rejection is caught by `lookupIp`'s
      `catch`. */
  const IpApiReplyAsWritten: Reply<IpApiBody> := NetworkError

  /** As written, provider B never answers: a lookup that reaches B yields
      null and caches nothing, though B's counter is still charged; every
      non-null answer from a request comes from provider A alone. */
  lemma IpApiAsWritten(s: GeoState, enabled: bool, ip: string, now: int, replyA: Reply<IpapiBody>)
    ensures var l := LookupSpec(s, enabled, ip, now, replyA, IpApiReplyAsWritten);
      && (IpApi in l.calls ==> l.result.None? && l.state.memory == s.memory)
      && (l.calls != [] && l.result.Some? ==> l.calls == [Ipapi] && l.result == MapIpapi(ip, replyA))
  {
    LookupProviderOrder(s, enabled, ip, now, replyA, IpApiReplyAsWritten);
    MapIpApiRules(ip, IpApiReplyAsWritten);
  }

  lemma ProvidersOrder(s: GeoState, ip: string, now: int, replyA: Reply<IpapiBody>, replyB: Reply<IpApiBody>)
    ensures var l := ProvidersSpec(s, ip, now, replyA, replyB);
      && (l.calls == [] || l.calls == [Ipapi] || l.calls == [IpApi] || l.calls == [Ipapi, IpApi])
      && (IpApi in l.calls ==> l.result == MapIpApi(ip, replyB))
      && (IpApi in l.calls && Ipapi in l.calls ==> MapIpapi(ip, replyA).None?)
      && (l.calls == [Ipapi] ==> l.result == MapIpapi(ip, replyA))
      && (l.calls != [] && l.result.Some? ==>
            && l.result.value.ip == ip
            && l.state.memory == s.memory[ip := l.result.value]
            && ip in l.state.files && l.state.files[ip] == Stored(now, l.result.value))
      && (l.calls != [] && l.result.None? ==> l.state.memory == s.memory)
  {
    var a := Admit(s.ipapi, now, IpapiPeriod, IpapiRateLimit);
    var ra := if a.granted then MapIpapi(ip, replyA) else None;
    if ra.None? {
      var f := FallbackSpec(s.(ipapi := a.window), ip, now, replyB);
      assert f.calls == [] || f.calls == [IpApi];
    }
  }

  /** Every provider request is charged to its window: a provider that was
      asked has its (possibly restarted) count one higher, and B's window is
      not even checked when A answered. */
  lemma LookupCharges(s: GeoState, enabled: bool, ip: string, now: int,
                      replyA: Reply<IpapiBody>, replyB: Reply<IpApiBody>)
    requires enabled && !Skipped(ip) && ip !in s.memory && CheckFile(s.files, ip, now).result.None?
    ensures var l := LookupSpec(s, enabled, ip, now, replyA, replyB);
      var baseA := if now - s.ipapi.resetTime >= IpapiPeriod then 0 else s.ipapi.count;
      var baseB := if now - s.ipApi.resetTime >= IpApiPeriod then 0 else s.ipApi.count;
      && l.state.ipapi.count == baseA + (if Ipapi in l.calls then 1 else 0)
      && (Ipapi in l.calls <==> baseA < IpapiRateLimit)
      && (l.result.Some? && Ipapi in l.calls && IpApi !in l.calls ==> l.state.ipApi == s.ipApi)
      && (IpApi in l.calls ==> l.state.ipApi.count == baseB + 1)
      && (IpApi in l.calls <==> (baseA >= IpapiRateLimit || MapIpapi(ip, replyA).None?) && baseB < IpApiRateLimit)
      && (l.calls == [] ==> l.result.None?)
  {
  }

  /** The rate counters stay within their limits. */
  lemma LookupKeepsLimits(s: GeoState, enabled: bool, ip: string, now: int,
                          replyA: Reply<IpapiBody>, replyB: Reply<IpApiBody>)
    requires WithinLimits(s)
    ensures WithinLimits(LookupSpec(s, enabled, ip, now, replyA, replyB).state)
  {
    AdmitBound(s.ipapi, now, IpapiPeriod, IpapiRateLimit);
    AdmitBound(s.ipApi, now, IpApiPeriod, IpApiRateLimit);
  }

  /** A lookup that found something makes the next lookup of the same
      address, at any later time and whatever the providers would say, a
      memory hit with the same result and no request. */
  lemma LookupRepeat(s: GeoState, enabled: bool, ip: string, now: int,
                     replyA: Reply<IpapiBody>, replyB: Reply<IpApiBody>,
                     later: int, replyA2: Reply<IpapiBody>, replyB2: Reply<IpApiBody>)
    requires LookupSpec(s, enabled, ip, now, replyA, replyB).result.Some?
    ensures var l := LookupSpec(s, enabled, ip, now, replyA, replyB);
      LookupSpec(l.state, enabled, ip, later, replyA2, replyB2) == Lookup(l.result, l.state, [])
  {
    var l := LookupSpec(s, enabled, ip, now, replyA, replyB);
    assert ip in l.state.memory && l.state.memory[ip] == l.result.value;
  }

  // ---------------------------------------------------------------------------
  // The module's state

  /** The module-level `config` object: the memory cache, the rate counters and
      their reset times, plus the cache directory's files. `requests` records
      the provider requests made. */
  class GeoLookup {
    const enabled: bool
    var memory: map<string, GeoResult>
    var files: map<string, CacheFile>
    var ipapiCount: nat
    var ipapiResetTime: int
    var ipApiCount: nat
    var ipApiResetTime: int
    ghost var requests: seq<Provider>

    function State(): GeoState
      reads this
    {
      GeoState(memory, files, Window(ipapiCount, ipapiResetTime), Window(ipApiCount, ipApiResetTime))
    }

    predicate Valid()
      reads this
    {
      WithinLimits(State())
    }

    /** Module load at `now`: empty memory, counters at zero, both windows
        starting now, and the files already in the cache directory. */
    constructor(enabled: bool, now: int, files: map<string, CacheFile>)
      ensures Valid() && this.enabled == enabled && requests == []
      ensures State() == GeoState(map[], files, Window(0, now), Window(0, now))
    {
      this.enabled := enabled;
      memory := map[];
      this.files := files;
      ipapiCount := 0;
      ipapiResetTime := now;
      ipApiCount := 0;
      ipApiResetTime := now;
      requests := [];
    }

    method CheckFileCache(ip: string, now: int) returns (r: Option<GeoResult>)
      modifies this
      ensures r == CheckFile(old(files), ip, now).result
      ensures files == CheckFile(old(files), ip, now).files
      ensures memory == old(memory) && requests == old(requests)
      ensures ipapiCount == old(ipapiCount) && ipapiResetTime == old(ipapiResetTime)
      ensures ipApiCount == old(ipApiCount) && ipApiResetTime == old(ipApiResetTime)
    {
      r := None;
      if ip in files {
        match files[ip]
        case Unreadable =>
        case Stored(t, data) =>
          if now - t < CacheTtl {
            r := Some(data);
          } else {
            files := files - {ip};
          }
      }
    }

    method CacheResult(ip: string, result: GeoResult, now: int)
      modifies this
      ensures State() == CacheIn(old(State()), ip, result, now)
      ensures requests == old(requests)
    {
      memory := memory[ip := result];
      files := files[ip := Stored(now, result)];
    }

    /** Provider B's turn of `lookupIp`. */
    method AskIpApi(ip: string, now: int, replyB: Reply<IpApiBody>) returns (r: Option<GeoResult>)
      modifies this
      ensures var l := FallbackSpec(old(State()), ip, now, replyB);
        r == l.result && State() == l.state && requests == old(requests) + l.calls
    {
      if now - ipApiResetTime >= IpApiPeriod {
        ipApiCount := 0;
        ipApiResetTime := now;
      }
      r := None;
      if ipApiCount < IpApiRateLimit {
        ipApiCount := ipApiCount + 1;
        requests := requests + [IpApi];
        var result := MapIpApi(ip, replyB);
        if result.Some? {
          CacheResult(ip, result.value, now);
          r := result;
        }
      }
    }

    /** Provider A's turn of `lookupIp`, then B's when A gave nothing. */
    method AskProviders(ip: string, now: int, replyA: Reply<IpapiBody>, replyB: Reply<IpApiBody>)
      returns (r: Option<GeoResult>)
      modifies this
      ensures var l := ProvidersSpec(old(State()), ip, now, replyA, replyB);
        r == l.result && State() == l.state && requests == old(requests) + l.calls
    {
      if now - ipapiResetTime >= IpapiPeriod {
        ipapiCount := 0;
        ipapiResetTime := now;
      }
      if ipapiCount < IpapiRateLimit {
        ipapiCount := ipapiCount + 1;
        requests := requests + [Ipapi];
        var result := MapIpapi(ip, replyA);
        if result.Some? {
          CacheResult(ip, result.value, now);
          return result;
        }
      }
      r := AskIpApi(ip, now, replyB);
    }

    /** `lookupIp` at the instant `now`. */
    method LookupIp(ip: string, now: int, replyA: Reply<IpapiBody>, replyB: Reply<IpApiBody>)
      returns (r: Option<GeoResult>)
      requires Valid()
      modifies this
      ensures Valid()
      ensures var l := LookupSpec(old(State()), enabled, ip, now, replyA, replyB);
        r == l.result && State() == l.state && requests == old(requests) + l.calls
    {
      LookupKeepsLimits(State(), enabled, ip, now, replyA, replyB);
      if ip == "" || IsPrivateIp(ip) || ip == "127.0.0.1" || ip == "localhost" {
        return None;
      }
      if !enabled {
        return None;
      }
      if ip in memory {
        return Some(memory[ip]);
      }
      var cached := CheckFileCache(ip, now);
      if cached.Some? {
        memory := memory[ip := cached.value];
        return cached;
      }
      r := AskProviders(ip, now, replyA, replyB);
    }
  }
}

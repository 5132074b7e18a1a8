/** Record normalisation of src/import.js: a raw CSV row, whose column names
    follow one of several naming schemes, becomes a flow record, a threat
    record, or (for any other record type) the row itself plus an id. */
module Normalize {
  import opened Js

  const FlowsKind := "flows"
  const ThreatsKind := "threats"

  // The column aliases of each field, in the order `||` tries them.
  const TimestampAliases := ["timestamp", "Timestamp", "Time"]
  const SourceIpAliases := ["sourceIP", "SourceIP", "Source Address"]
  const SourcePortAliases := ["sourcePort", "SourcePort", "Source Port"]
  const DestinationIpAliases := ["destinationIP", "DestinationIP", "Destination Address"]
  const DestinationPortAliases := ["destinationPort", "DestinationPort", "Destination Port"]
  const ProtocolAliases := ["protocol", "Protocol"]
  const ApplicationAliases := ["application", "Application"]
  const BytesAliases := ["bytes", "Bytes", "Data Transferred"]
  const PacketsAliases := ["packets", "Packets"]
  const DurationAliases := ["duration", "Duration"]
  const ActionAliases := ["action", "Action"]
  const ThreatTypeAliases := ["threatType", "ThreatType", "Threat Type"]
  const ThreatCategoryAliases := ["threatCategory", "ThreatCategory", "Threat Category"]
  const SeverityAliases := ["severity", "Severity"]

  /** What normalising one row needs from the host: the current instant, the
      native date parser, `parseFloat`, and the string `generateId()` would
      return for this row (a fresh random string). */
  datatype Env = Env(now: int, parseDate: DateParser, parseFloat: FloatParser, generatedId: string)

  datatype FlowRecord = FlowRecord(
    id: string,
    timestamp: Date,
    sourceIP: Option<string>,
    sourcePort: Number,
    destinationIP: Option<string>,
    destinationPort: Number,
    protocol: Option<string>,
    application: Option<string>,
    bytes: Number,
    packets: Number,
    duration: Float,
    action: string,
    raw: Row)

  datatype ThreatRecord = ThreatRecord(
    id: string,
    timestamp: Date,
    sourceIP: Option<string>,
    sourcePort: Number,
    destinationIP: Option<string>,
    destinationPort: Number,
    protocol: Option<string>,
    threatType: string,
    threatCategory: string,
    severity: string,
    action: string,
    raw: Row)

  datatype Record = Flow(flow: FlowRecord) | Threat(threat: ThreatRecord) | Untyped(fields: map<string, string>)

  /** `record.id || generateId()`. */
  function RecordId(row: Row, env: Env): string
  {
    OrElse(Get(row, "id"), env.generatedId)
  }

  /** `parseInt(a || b || ... || 0)`: the number `0` when no alias is truthy. */
  function IntColumn(row: Row, aliases: seq<string>): Number
    requires |aliases| > 0
  {
    var v := FirstTruthy(row, aliases);
    if Truthy(v) then ParseInt(v.value, Auto) else Int(0)
  }

  /** `parseFloat(a || b || 0)`. */
  function FloatColumn(row: Row, aliases: seq<string>, env: Env): Float
    requires |aliases| > 0
  {
    var v := FirstTruthy(row, aliases);
    if Truthy(v) then env.parseFloat(v.value) else Real(0.0)
  }

  /** `a || b || "default"`. */
  function TextColumn(row: Row, aliases: seq<string>, default: string): string
    requires |aliases| > 0
  {
    OrElse(FirstTruthy(row, aliases), default)
  }

  /** `parseTimestamp`: "now" for a falsy value; otherwise the native parse;
      if that is invalid, month/day/year read from the first three pieces
      between `/`, `-` and `:`; with fewer pieces the Invalid Date stays (the
      `catch` that would substitute "now" never fires for a string). */
  function ParseTimestamp(ts: Option<string>, env: Env): Date
  {
    if !Truthy(ts) then Instant(env.now)
    else match env.parseDate(ts.value)
      case Some(ms) => Instant(ms)
      case None =>
        var parts := SplitOnDateSeparators(ts.value);
        if |parts| >= 3 then
          LocalDate(ParseInt(parts[2], Auto), Pred(ParseInt(parts[0], Auto)), ParseInt(parts[1], Auto))
        else InvalidDate
  }

  function TransformFlow(row: Row, env: Env): FlowRecord
  {
    FlowRecord(
      id := RecordId(row, env),
      timestamp := ParseTimestamp(FirstTruthy(row, TimestampAliases), env),
      sourceIP := FirstTruthy(row, SourceIpAliases),
      sourcePort := IntColumn(row, SourcePortAliases),
      destinationIP := FirstTruthy(row, DestinationIpAliases),
      destinationPort := IntColumn(row, DestinationPortAliases),
      protocol := FirstTruthy(row, ProtocolAliases),
      application := FirstTruthy(row, ApplicationAliases),
      bytes := IntColumn(row, BytesAliases),
      packets := IntColumn(row, PacketsAliases),
      duration := FloatColumn(row, DurationAliases, env),
      action := TextColumn(row, ActionAliases, "unknown"),
      raw := row)
  }

  function TransformThreat(row: Row, env: Env): ThreatRecord
  {
    ThreatRecord(
      id := RecordId(row, env),
      timestamp := ParseTimestamp(FirstTruthy(row, TimestampAliases), env),
      sourceIP := FirstTruthy(row, SourceIpAliases),
      sourcePort := IntColumn(row, SourcePortAliases),
      destinationIP := FirstTruthy(row, DestinationIpAliases),
      destinationPort := IntColumn(row, DestinationPortAliases),
      protocol := FirstTruthy(row, ProtocolAliases),
      threatType := TextColumn(row, ThreatTypeAliases, "unknown"),
      threatCategory := TextColumn(row, ThreatCategoryAliases, "unknown"),
      severity := TextColumn(row, SeverityAliases, "medium"),
      action := TextColumn(row, ActionAliases, "blocked"),
      raw := row)
  }

  /** `transformRecord(record, type)`. The untyped case is `{ id, ...record }`:
      the spread comes second, so a row's own `id` column wins. */
  function TransformRecord(row: Row, kind: string, env: Env): Record
  {
    if kind == FlowsKind then Flow(TransformFlow(row, env))
    else if kind == ThreatsKind then Threat(TransformThreat(row, env))
    else Untyped(map["id" := RecordId(row, env)] + row)
  }

  // ---------------------------------------------------------------------------
  // Properties

  /** The record id is the row's `id` when truthy, and the generated id
      otherwise, for both record shapes. */
  lemma RecordIdChoice(row: Row, env: Env)
    ensures Truthy(Get(row, "id")) ==> TransformFlow(row, env).id == row["id"] == TransformThreat(row, env).id
    ensures !Truthy(Get(row, "id")) ==> TransformFlow(row, env).id == env.generatedId == TransformThreat(row, env).id
  {
  }

  /** The first truthy alias of each address and text field wins, whatever
      the later aliases hold; this holds for flows and threats alike. */
  lemma {:induction false} AddressAliasesFirstTruthyWins(row: Row, env: Env, k: int)
    ensures FirstTruthyAt(row, SourceIpAliases, k) ==>
      TransformFlow(row, env).sourceIP == Get(row, SourceIpAliases[k]) == TransformThreat(row, env).sourceIP
    ensures FirstTruthyAt(row, DestinationIpAliases, k) ==>
      TransformFlow(row, env).destinationIP == Get(row, DestinationIpAliases[k]) == TransformThreat(row, env).destinationIP
    ensures FirstTruthyAt(row, ProtocolAliases, k) ==>
      TransformFlow(row, env).protocol == Get(row, ProtocolAliases[k]) == TransformThreat(row, env).protocol
    ensures FirstTruthyAt(row, ApplicationAliases, k) ==>
      TransformFlow(row, env).application == Get(row, ApplicationAliases[k])
  {
    if FirstTruthyAt(row, SourceIpAliases, k) { FirstTruthyPicksFirst(row, SourceIpAliases, k); }
    if FirstTruthyAt(row, DestinationIpAliases, k) { FirstTruthyPicksFirst(row, DestinationIpAliases, k); }
    if FirstTruthyAt(row, ProtocolAliases, k) { FirstTruthyPicksFirst(row, ProtocolAliases, k); }
    if FirstTruthyAt(row, ApplicationAliases, k) { FirstTruthyPicksFirst(row, ApplicationAliases, k); }
  }

  /** A numeric field whose aliases are all absent or empty is the number 0;
      when some alias is truthy it is `parseInt` of the first truthy one. */
  lemma {:induction false} IntColumnRule(row: Row, aliases: seq<string>, k: int)
    requires |aliases| > 0
    ensures NoneTruthy(row, aliases) ==> IntColumn(row, aliases) == Int(0)
    ensures FirstTruthyAt(row, aliases, k) ==> IntColumn(row, aliases) == ParseInt(row[aliases[k]], Auto)
  {
    if NoneTruthy(row, aliases) { FirstTruthyNone(row, aliases); }
    if FirstTruthyAt(row, aliases, k) { FirstTruthyPicksFirst(row, aliases, k); }
  }

  /** Ports, byte and packet counts default to 0 in both record shapes. */
  lemma {:induction false} NumericDefaults(row: Row, env: Env)
    ensures NoneTruthy(row, SourcePortAliases) ==>
      TransformFlow(row, env).sourcePort == Int(0) == TransformThreat(row, env).sourcePort
    ensures NoneTruthy(row, DestinationPortAliases) ==>
      TransformFlow(row, env).destinationPort == Int(0) == TransformThreat(row, env).destinationPort
    ensures NoneTruthy(row, BytesAliases) ==> TransformFlow(row, env).bytes == Int(0)
    ensures NoneTruthy(row, PacketsAliases) ==> TransformFlow(row, env).packets == Int(0)
  {
    IntColumnRule(row, SourcePortAliases, 0);
    IntColumnRule(row, DestinationPortAliases, 0);
    IntColumnRule(row, BytesAliases, 0);
    IntColumnRule(row, PacketsAliases, 0);
  }

  /** Text fields with a default take it exactly when no alias is truthy, and
      otherwise keep the first truthy alias: a threat's type and category
      default to "unknown", its severity to "medium" and its action to
      "blocked"; a flow's action to "unknown". */
  lemma {:induction false} TextDefaults(row: Row, env: Env)
    ensures TransformThreat(row, env).threatType == "unknown" <==>
      (NoneTruthy(row, ThreatTypeAliases) || FirstTruthy(row, ThreatTypeAliases) == Some("unknown"))
    ensures !NoneTruthy(row, ThreatTypeAliases) ==>
      Some(TransformThreat(row, env).threatType) == FirstTruthy(row, ThreatTypeAliases)
    ensures NoneTruthy(row, ThreatCategoryAliases) ==> TransformThreat(row, env).threatCategory == "unknown"
    ensures NoneTruthy(row, SeverityAliases) ==> TransformThreat(row, env).severity == "medium"
    ensures NoneTruthy(row, ActionAliases) ==> TransformThreat(row, env).action == "blocked"
    ensures NoneTruthy(row, ActionAliases) ==> TransformFlow(row, env).action == "unknown"
    ensures !NoneTruthy(row, ActionAliases) ==> Some(TransformFlow(row, env).action) == FirstTruthy(row, ActionAliases)
    ensures !NoneTruthy(row, ThreatCategoryAliases) ==>
      Some(TransformThreat(row, env).threatCategory) == FirstTruthy(row, ThreatCategoryAliases)
    ensures !NoneTruthy(row, SeverityAliases) ==> Some(TransformThreat(row, env).severity) == FirstTruthy(row, SeverityAliases)
    ensures !NoneTruthy(row, ActionAliases) ==> Some(TransformThreat(row, env).action) == FirstTruthy(row, ActionAliases)
    ensures TransformFlow(row, env).action != "" && TransformThreat(row, env).action != ""
  {
    FirstTruthyCases(row, ThreatTypeAliases);
    FirstTruthyCases(row, ThreatCategoryAliases);
    FirstTruthyCases(row, SeverityAliases);
    FirstTruthyCases(row, ActionAliases);
  }

  /** An unknown record type keeps the row as it is, adding `id` only when the
      row has no `id` column at all (an empty one survives the spread). */
  lemma UntypedKeepsRow(row: Row, kind: string, env: Env)
    requires kind != FlowsKind && kind != ThreatsKind
    ensures "id" in row ==> TransformRecord(row, kind, env) == Untyped(row)
    ensures "id" !in row ==> TransformRecord(row, kind, env) == Untyped(row["id" := env.generatedId])
  {
    var fields := map["id" := RecordId(row, env)] + row;
    if "id" in row {
      assert fields == row;
    } else {
      assert fields == row["id" := env.generatedId];
    }
  }

  /** The timestamp rules: "now" for an empty or absent value, the native
      parse when it succeeds, month/day/year from the pieces otherwise, and an
      Invalid Date (not "now") when there are fewer than three pieces. */
  lemma TimestampRules(s: string, env: Env)
    ensures ParseTimestamp(None, env) == Instant(env.now) && ParseTimestamp(Some(""), env) == Instant(env.now)
    ensures s != [] && env.parseDate(s).Some? ==> ParseTimestamp(Some(s), env) == Instant(env.parseDate(s).value)
    ensures s != [] && env.parseDate(s).None? && SeparatorCount(s) >= 2 ==>
      var parts := SplitOnDateSeparators(s);
      var m, d, y := ParseInt(parts[0], Auto), ParseInt(parts[1], Auto), ParseInt(parts[2], Auto);
      && (m.Int? && d.Int? && y.Int? ==>
            ParseTimestamp(Some(s), env)
              == Calendar(if 0 <= y.value <= 99 then 1900 + y.value else y.value, m.value - 1, d.value))
      && (m.NaN? || d.NaN? || y.NaN? ==> ParseTimestamp(Some(s), env) == InvalidDate)
    ensures s != [] && env.parseDate(s).None? && SeparatorCount(s) < 2 ==> ParseTimestamp(Some(s), env) == InvalidDate
  {
  }

  /** A month/day/year date that the native parser rejects (such as
      "3/4/2024") becomes that calendar date with the zero-based month; years
      0 to 99 mean 19xx. */
  lemma MonthDayYearFallback(s: string, env: Env, m: nat, d: nat, y: nat)
    requires s == DecimalString(m) + "/" + DecimalString(d) + "/" + DecimalString(y)
    requires env.parseDate(s).None?
    ensures ParseTimestamp(Some(s), env) == Calendar(if y <= 99 then 1900 + y else y, m - 1, d)
  {
    SplitThree(DecimalString(m), DecimalString(d), DecimalString(y));
    ParseIntNatural(m, Auto);
    ParseIntNatural(d, Auto);
    ParseIntNatural(y, Auto);
    FallbackCalendar(s, env, DecimalString(m), DecimalString(d), DecimalString(y), m, d, y);
  }

  lemma FallbackCalendar(s: string, env: Env, p0: string, p1: string, p2: string, m: int, d: int, y: int)
    requires s != [] && env.parseDate(s).None? && SplitOnDateSeparators(s) == [p0, p1, p2]
    requires ParseInt(p0, Auto) == Int(m) && ParseInt(p1, Auto) == Int(d) && ParseInt(p2, Auto) == Int(y)
    ensures ParseTimestamp(Some(s), env) == Calendar(if 0 <= y <= 99 then 1900 + y else y, m - 1, d)
  {
    FallbackDate(s, env, p0, p1, p2, Int(m), Int(d), Int(y));
    LocalDateOfInts(y, m, d);
  }

  lemma FallbackDate(s: string, env: Env, p0: string, p1: string, p2: string, n0: Number, n1: Number, n2: Number)
    requires s != [] && env.parseDate(s).None? && SplitOnDateSeparators(s) == [p0, p1, p2]
    requires ParseInt(p0, Auto) == n0 && ParseInt(p1, Auto) == n1 && ParseInt(p2, Auto) == n2
    ensures ParseTimestamp(Some(s), env) == LocalDate(n2, Pred(n0), n1)
  {
  }

  lemma LocalDateOfInts(y: int, m: int, d: int)
    ensures LocalDate(Int(y), Pred(Int(m)), Int(d)) == Calendar(if 0 <= y <= 99 then 1900 + y else y, m - 1, d)
  {
  }

  predicate AllDigits(s: string)
  {
    forall i :: 0 <= i < |s| ==> '0' <= s[i] <= '9'
  }

  lemma SplitThree(a: string, b: string, c: string)
    requires AllDigits(a) && AllDigits(b) && AllDigits(c)
    ensures SplitOnDateSeparators(a + "/" + b + "/" + c) == [a, b, c]
  {
    var x := "/" + c;
    SplitSepPiece(c);
    var y := "/" + (b + x);
    SplitSepPieces(b, c);
    SplitConcat(a, y);
    AppendAssoc(a + "/" + b, "/", c);
    AppendAssoc(a + "/", b, x);
    AppendAssoc(a, "/", b + x);
  }

  lemma SplitSepPiece(c: string)
    requires AllDigits(c)
    ensures SplitOnDateSeparators("/" + c) == ["", c]
  {
    NoSeparatorSplit(c);
    SplitLeadingSeparator("/" + c);
    assert ("/" + c)[1..] == c;
  }

  lemma SplitSepPieces(b: string, c: string)
    requires AllDigits(b) && AllDigits(c)
    ensures SplitOnDateSeparators("/" + (b + ("/" + c))) == ["", b, c]
  {
    var x := "/" + c;
    SplitSepPiece(c);
    SplitConcat(b, x);
    var y := "/" + (b + x);
    SplitLeadingSeparator(y);
    assert y[1..] == b + x;
  }

  lemma SplitLeadingSeparator(s: string)
    requires s != [] && IsDateSeparator(s[0])
    ensures SplitOnDateSeparators(s) == [""] + SplitOnDateSeparators(s[1..])
  {
  }

  lemma {:induction false} NoSeparatorSplit(s: string)
    requires AllDigits(s)
    ensures SplitOnDateSeparators(s) == [s]
  {
    if s != [] {
      NoSeparatorSplit(s[1..]);
      assert [s[0]] + s[1..] == s;
    }
  }

  /** Splitting a separator-free piece followed by a separator-led rest. */
  lemma {:induction false} SplitConcat(a: string, b: string)
    requires AllDigits(a)
    requires b != [] && IsDateSeparator(b[0])
    ensures SplitOnDateSeparators(a + b) == [a] + SplitOnDateSeparators(b)[1..]
  {
    if a == [] {
      assert a + b == b;
    } else {
      assert (a + b)[0] == a[0];
      assert (a + b)[1..] == a[1..] + b;
      SplitConcat(a[1..], b);
      assert [a[0]] + a[1..] == a;
    }
  }
}

/** The document-store side of src/database.js: the document stored for a CSV
    row, the import loop that inserts documents in batches of 1000, and the
    query objects `queryFlows` and `getTopByField` hand to the store. The
    store itself is the sequence of insert calls it received. */
module DocumentStore {
  import opened Js

  /** What the module exports. `saveFlow`, `saveThreat` and `updateStatus`
      are not among them. */
  const Exports: set<string> := {"flowsDb", "importFlowsFromCsv", "queryFlows", "getStats", "getTopByField"}

  const BatchSize: nat := 1000

  // ---------------------------------------------------------------------------
  // Documents

  datatype FlowDocument = FlowDocument(
    timestamp: Date,
    sourceAddress: Option<string>,
    destinationAddress: Option<string>,
    sourcePort: Number,
    destinationPort: Number,
    protocol: Option<string>,
    application: Option<string>,
    category: Option<string>,
    bytes: Number,
    packets: Number,
    direction: Option<string>,
    clientName: Option<string>,
    sessionId: Option<string>,
    importedAt: Date)

  /** `parseInt(row[key] || 0, 10)`. */
  function DecimalColumn(row: Row, key: string): Number
  {
    var v := Get(row, key);
    if Truthy(v) then ParseInt(v.value, Ten) else Int(0)
  }

  /** `formatFlowDocument(row)` at the instant `now`. */
  function FormatFlowDocument(row: Row, parseDate: DateParser, now: int): FlowDocument
  {
    FlowDocument(
      timestamp := NewDate(parseDate, Get(row, "timestamp")),
      sourceAddress := Get(row, "sourceAddress"),
      destinationAddress := Get(row, "destinationAddress"),
      sourcePort := DecimalColumn(row, "sourcePort"),
      destinationPort := DecimalColumn(row, "destinationPort"),
      protocol := Get(row, "protocol"),
      application := Get(row, "application"),
      category := Get(row, "category"),
      bytes := DecimalColumn(row, "bytes"),
      packets := DecimalColumn(row, "packets"),
      direction := Get(row, "direction"),
      clientName := Get(row, "clientName"),
      sessionId := Get(row, "sessionId"),
      importedAt := Instant(now))
  }

  /** A numeric column that is absent or empty is 0; a column holding the
      decimal text of a number is that number. */
  lemma DecimalColumnRule(row: Row, key: string, n: int)
    ensures !Truthy(Get(row, key)) ==> DecimalColumn(row, key) == Int(0)
    ensures Get(row, key) == Some(IntText(n))
            ==> DecimalColumn(row, key) == Int(n)
  {
    ParseIntText(n, Ten);
  }

  /** The four counts default to 0; the text columns are copied as they are
      (undefined stays undefined); the timestamp is the row's own, parsed
      natively, and `importedAt` the current instant. */
  lemma FormatDefaults(row: Row, parseDate: DateParser, now: int)
    ensures var d := FormatFlowDocument(row, parseDate, now);
      && (!Truthy(Get(row, "bytes")) ==> d.bytes == Int(0))
      && (!Truthy(Get(row, "packets")) ==> d.packets == Int(0))
      && (!Truthy(Get(row, "sourcePort")) ==> d.sourcePort == Int(0))
      && (!Truthy(Get(row, "destinationPort")) ==> d.destinationPort == Int(0))
      && d.sourceAddress == Get(row, "sourceAddress") && d.destinationAddress == Get(row, "destinationAddress")
      && d.protocol == Get(row, "protocol") && d.application == Get(row, "application")
      && d.category == Get(row, "category") && d.direction == Get(row, "direction")
      && d.clientName == Get(row, "clientName") && d.sessionId == Get(row, "sessionId")
      && ("timestamp" !in row ==> d.timestamp == InvalidDate)
      && d.importedAt == Instant(now)
  {
  }

  // ---------------------------------------------------------------------------
  // Batching

  /** `s` cut into consecutive pieces of `n`, the last one possibly shorter. */
  function Chunks<T>(s: seq<T>, n: nat): seq<seq<T>>
    requires n > 0
    decreases |s|
  {
    if s == [] then []
    else if |s| <= n then [s]
    else [s[..n]] + Chunks(s[n..], n)
  }

  function Flatten<T>(ss: seq<seq<T>>): seq<T>
  {
    if ss == [] then [] else Flatten(ss[..|ss| - 1]) + ss[|ss| - 1]
  }

  lemma {:induction false} FlattenAppend<T>(a: seq<seq<T>>, b: seq<seq<T>>)
    ensures Flatten(a + b) == Flatten(a) + Flatten(b)
    decreases |b|
  {
    if b == [] {
      assert a + b == a;
    } else {
      assert (a + b)[..|a + b| - 1] == a + b[..|b| - 1];
      assert (a + b)[|a + b| - 1] == b[|b| - 1];
      FlattenAppend(a, b[..|b| - 1]);
      AppendAssoc(Flatten(a), Flatten(b[..|b| - 1]), b[|b| - 1]);
    }
  }

  /** The pieces put back together are the sequence; each piece is
      non-empty, and every piece but the last holds exactly `n` elements. */
  lemma {:induction false} ChunksPartition<T>(s: seq<T>, n: nat)
    requires n > 0
    ensures Flatten(Chunks(s, n)) == s
    ensures forall i :: 0 <= i < |Chunks(s, n)| ==> 0 < |Chunks(s, n)[i]| <= n
    ensures forall i :: 0 <= i < |Chunks(s, n)| - 1 ==> |Chunks(s, n)[i]| == n
    decreases |s|
  {
    if s == [] {
    } else if |s| <= n {
      assert Flatten([s]) == Flatten([]) + s;
    } else {
      ChunksPartition(s[n..], n);
      FlattenAppend([s[..n]], Chunks(s[n..], n));
      assert Flatten([s[..n]]) == Flatten([]) + s[..n];
      assert s[..n] + s[n..] == s;
    }
  }

  /** Cutting a sequence whose first part is a whole number `k` of batches
      cuts the two parts separately. */
  lemma {:induction false} ChunksAppend<T>(a: seq<T>, b: seq<T>, k: nat)
    requires |a| == k * BatchSize
    ensures Chunks(a + b, BatchSize) == Chunks(a, BatchSize) + Chunks(b, BatchSize)
    decreases k
  {
    if k == 0 {
      assert a + b == b;
    } else {
      assert (a + b)[..BatchSize] == a[..BatchSize];
      assert (a + b)[BatchSize..] == a[BatchSize..] + b;
      if k == 1 {
        assert Chunks(a, BatchSize) == [a];
        if b == [] {
          assert a + b == a;
        } else {
          assert a[BatchSize..] == [];
          assert (a + b)[BatchSize..] == b;
        }
      } else {
        ChunksAppend(a[BatchSize..], b, k - 1);
      }
    }
  }

  /** The documents of a stream of rows, row `i` formatted at `clock(i)`. */
  function Documents(rows: seq<Row>, parseDate: DateParser, clock: nat -> int): (docs: seq<FlowDocument>)
    ensures |docs| == |rows|
  {
    if rows == [] then []
    else Documents(rows[..|rows| - 1], parseDate, clock)
         + [FormatFlowDocument(rows[|rows| - 1], parseDate, clock(|rows| - 1))]
  }

  datatype ImportError = StreamError

  /** The `flowsDb` collection, seen as the batches handed to `insert`, in
      call order. Every insert is taken to succeed: a full batch's rejection
      is only logged, and a failing final insert is not modelled. */
  class FlowsDb {
    var inserts: seq<seq<FlowDocument>>

    constructor()
      ensures inserts == []
    {
      inserts := [];
    }

    /** `importFlowsFromCsv`: every row is formatted and buffered; a buffer
        that reaches 1000 documents is inserted and emptied; at the end of the
        stream any remainder is inserted and the count of rows is returned.
        A stream that reports an error (`streamFails`, after the rows it did
        deliver) rejects without the final insert. */
    method ImportFlowsFromCsv(rows: seq<Row>, streamFails: bool, parseDate: DateParser, clock: nat -> int)
      returns (r: Result<nat, ImportError>)
      modifies this
      ensures var docs := Documents(rows, parseDate, clock);
        var whole := |rows| / BatchSize * BatchSize;
        && (streamFails ==> r == Err(StreamError) && inserts == old(inserts) + Chunks(docs[..whole], BatchSize))
        && (!streamFails ==> r == Ok(|rows|) && inserts == old(inserts) + Chunks(docs, BatchSize))
    {
      var records: seq<FlowDocument> := [];
      var count := 0;
      while count < |rows|
        invariant 0 <= count <= |rows|
        invariant var docs := Documents(rows[..count], parseDate, clock);
          var whole := count / BatchSize * BatchSize;
          && inserts == old(inserts) + Chunks(docs[..whole], BatchSize)
          && records == docs[whole..]
          && |records| < BatchSize
      {
        ghost var before := Documents(rows[..count], parseDate, clock);
        records := records + [FormatFlowDocument(rows[count], parseDate, clock(count))];
        ghost var after := Documents(rows[..count + 1], parseDate, clock);
        assert rows[..count + 1][..count] == rows[..count];
        assert after == before + [FormatFlowDocument(rows[count], parseDate, clock(count))];
        count := count + 1;
        BatchStep(before, after, count);
        if |records| >= BatchSize {
          AppendAssoc(old(inserts), Chunks(before[..(count - 1) / BatchSize * BatchSize], BatchSize), [records]);
          inserts := inserts + [records];
          records := [];
        }
      }
      assert rows[..count] == rows;
      if streamFails {
        return Err(StreamError);
      }
      ghost var docs := Documents(rows, parseDate, clock);
      ghost var whole := count / BatchSize * BatchSize;
      RemainderStep(docs, whole);
      AppendAssoc(old(inserts), Chunks(docs[..whole], BatchSize), if |records| > 0 then [records] else []);
      if |records| > 0 {
        inserts := inserts + [records];
      }
      r := Ok(count);
    }
  }

  /** The loop's bookkeeping across one row: either the buffer just filled,
      and the whole pieces grow by that buffer, or the pieces stay. */
  lemma BatchStep(before: seq<FlowDocument>, after: seq<FlowDocument>, count: nat)
    requires count > 0 && |before| == count - 1 && |after| == count && after == before + [after[count - 1]]
    requires |before[(count - 1) / BatchSize * BatchSize..]| < BatchSize
    ensures var w0 := (count - 1) / BatchSize * BatchSize;
      var w1 := count / BatchSize * BatchSize;
      && w0 <= w1 <= count
      && (count % BatchSize == 0 ==>
            w1 == count && Chunks(after[..w1], BatchSize) == Chunks(before[..w0], BatchSize) + [after[w0..]])
      && (count % BatchSize != 0 ==> w1 == w0 && after[..w1] == before[..w0])
      && after[w0..] == before[w0..] + [after[count - 1]]
      && (count % BatchSize == 0 <==> |after[w0..]| >= BatchSize)
  {
    var w0 := (count - 1) / BatchSize * BatchSize;
    var w1 := count / BatchSize * BatchSize;
    if count % BatchSize == 0 {
      assert w1 == count;
      assert w0 == count - BatchSize;
      assert after[..w1] == after[..w0] + after[w0..];
      assert after[..w0] == before[..w0];
      assert |after[w0..]| == BatchSize;
      ChunksAppend(after[..w0], after[w0..], (count - 1) / BatchSize);
      assert Chunks(after[w0..], BatchSize) == [after[w0..]];
    } else {
      assert w1 == w0;
      assert after[..w1] == before[..w0];
    }
  }

  /** At the end of the stream the remainder is the last, short piece. */
  lemma RemainderStep(docs: seq<FlowDocument>, whole: nat)
    requires whole == |docs| / BatchSize * BatchSize
    ensures Chunks(docs, BatchSize)
         == Chunks(docs[..whole], BatchSize) + (if |docs[whole..]| > 0 then [docs[whole..]] else [])
  {
    assert docs == docs[..whole] + docs[whole..];
    ChunksAppend(docs[..whole], docs[whole..], |docs| / BatchSize);
    assert |docs[whole..]| < BatchSize;
  }

  /** Every document of the stream is inserted exactly once and in order, in
      batches of 1000 and a shorter last one. */
  lemma ImportInsertsEverything(rows: seq<Row>, parseDate: DateParser, clock: nat -> int)
    ensures var batches := Chunks(Documents(rows, parseDate, clock), BatchSize);
      && Flatten(batches) == Documents(rows, parseDate, clock)
      && (forall i :: 0 <= i < |batches| ==> 0 < |batches[i]| <= BatchSize)
      && (forall i :: 0 <= i < |batches| - 1 ==> |batches[i]| == BatchSize)
  {
    ChunksPartition(Documents(rows, parseDate, clock), BatchSize);
  }

  // ---------------------------------------------------------------------------
  // Query construction

  /** A query constraint: equality with a filter value, or a time range. */
  datatype Constraint = Equals(value: string) | TimeRange(gte: Option<Date>, lte: Option<Date>)

  type Query = map<string, Constraint>

  type Filters = map<string, string>

  /** The `timestamp` constraint of `filters.from` and `filters.to`. */
  function TimeConstraint(filters: Filters, parseDate: DateParser): Option<Constraint>
  {
    var from, to := Get(filters, "from"), Get(filters, "to");
    if Truthy(from) && Truthy(to) then Some(TimeRange(Some(NewDate(parseDate, from)), Some(NewDate(parseDate, to))))
    else if Truthy(from) then Some(TimeRange(Some(NewDate(parseDate, from)), None))
    else if Truthy(to) then Some(TimeRange(None, Some(NewDate(parseDate, to))))
    else None
  }

  /** `if (filters.k) query.k = filters.k` for each `k` of `keys` in turn. */
  function CopyFilters(filters: Filters, keys: seq<string>, query: Query): (q: Query)
    ensures forall k :: k in q <==> k in query || (k in keys && Truthy(Get(filters, k)))
    ensures forall k :: k in keys && Truthy(Get(filters, k)) ==> q[k] == Equals(filters[k])
    ensures forall k :: k in query && !(k in keys && Truthy(Get(filters, k))) ==> q[k] == query[k]
    decreases |keys|
  {
    if keys == [] then query
    else
      var k := keys[0];
      var next := if Truthy(Get(filters, k)) then query[k := Equals(filters[k])] else query;
      CopyFilters(filters, keys[1..], next)
  }

  const FlowFilterKeys := ["sourceAddress", "destinationAddress", "application", "protocol", "clientName"]
  const TopFilterKeys := ["sourceAddress", "destinationAddress", "protocol"]

  function BuildQuery(filters: Filters, keys: seq<string>, parseDate: DateParser): Query
  {
    var time := TimeConstraint(filters, parseDate);
    var base: Query := if time.Some? then map["timestamp" := time.value] else map[];
    CopyFilters(filters, keys, base)
  }

  /** The time range holds `$gte` exactly when `from` is truthy and `$lte`
      exactly when `to` is, and there is no range when neither is. */
  lemma TimeConstraintRule(filters: Filters, parseDate: DateParser)
    ensures var from, to := Get(filters, "from"), Get(filters, "to");
      var c := TimeConstraint(filters, parseDate);
      && (c.None? <==> !Truthy(from) && !Truthy(to))
      && (c.Some? ==>
            && c.value.TimeRange?
            && (c.value.gte.Some? <==> Truthy(from))
            && (c.value.lte.Some? <==> Truthy(to))
            && (Truthy(from) ==> c.value.gte.value == NewDate(parseDate, from))
            && (Truthy(to) ==> c.value.lte.value == NewDate(parseDate, to)))
  {
  }

  /** The query holds a constraint exactly for each truthy filter among
      `keys` (equal to the filter's value) and for `timestamp` when a bound
      is given; nothing else. */
  lemma BuildQueryContents(filters: Filters, keys: seq<string>, parseDate: DateParser)
    requires "timestamp" !in keys
    ensures var q := BuildQuery(filters, keys, parseDate);
      && (forall k :: k in q <==>
            || (k in keys && Truthy(Get(filters, k)))
            || (k == "timestamp" && (Truthy(Get(filters, "from")) || Truthy(Get(filters, "to")))))
      && (forall k :: k in keys && Truthy(Get(filters, k)) ==> q[k] == Equals(filters[k]))
      && ("timestamp" in q ==> q["timestamp"] == TimeConstraint(filters, parseDate).value)
  {
    TimeConstraintRule(filters, parseDate);
  }

  datatype FindOptions = FindOptions(limit: Option<Number>, skip: Option<Number>, sort: Option<map<string, int>>)

  /** What `queryFlows` hands to `find(...).sort(...).skip(...).limit(...)`. */
  datatype FindRequest = FindRequest(query: Query, sort: map<string, int>, skip: Number, limit: Number)

  /** `value || default` on a number-or-undefined option. */
  function NumberOr(v: Option<Number>, default: int): Number
  {
    if v.Some? && NumTruthy(v.value) then v.value else Int(default)
  }

  function QueryFlows(filters: Filters, options: FindOptions, parseDate: DateParser): FindRequest
  {
    FindRequest(
      BuildQuery(filters, FlowFilterKeys, parseDate),
      if options.sort.Some? then options.sort.value else map["timestamp" := -1],
      NumberOr(options.skip, 0),
      NumberOr(options.limit, 100))
  }

  /** The defaults: a falsy or missing limit is 100, skip 0, and the sort
      newest first; given values are used as they are. */
  lemma QueryFlowsDefaults(filters: Filters, options: FindOptions, parseDate: DateParser)
    ensures var r := QueryFlows(filters, options, parseDate);
      && (options.limit.None? || !NumTruthy(options.limit.value) ==> r.limit == Int(100))
      && (options.limit.Some? && NumTruthy(options.limit.value) ==> r.limit == options.limit.value)
      && (options.skip.None? || !NumTruthy(options.skip.value) ==> r.skip == Int(0))
      && (options.skip.Some? && NumTruthy(options.skip.value) ==> r.skip == options.skip.value)
      && (options.sort.None? ==> r.sort == map["timestamp" := -1])
      && (options.sort.Some? ==> r.sort == options.sort.value)
  {
  }

  /** `queryFlows` filters on the two addresses, the application, the
      protocol and the client name. */
  lemma QueryFlowsFilters(filters: Filters, options: FindOptions, parseDate: DateParser)
    ensures var q := QueryFlows(filters, options, parseDate).query;
      forall k :: k != "timestamp" ==> (k in q <==> k in FlowFilterKeys && Truthy(Get(filters, k)))
  {
    BuildQueryContents(filters, FlowFilterKeys, parseDate);
  }

  /** An aggregation accumulator: the sum of a field, or of a constant. */
  datatype Accumulator = SumOf(field: string) | SumConst(value: int)

  datatype Stage =
    | MatchStage(query: Query)
    | GroupStage(id: string, accumulators: map<string, Accumulator>)
    | SortStage(order: map<string, int>)
    | LimitStage(limit: Number)

  /** `getTopByField(field, filters, limit)`: `limit` is `None` when the
      argument is undefined, which is when the default 10 applies. */
  function GetTopByField(field: string, filters: Filters, limit: Option<Number>, parseDate: DateParser): seq<Stage>
  {
    var n := if limit.Some? then limit.value else Int(10);
    [ MatchStage(BuildQuery(filters, TopFilterKeys, parseDate)),
      GroupStage("$" + field, map["bytes" := SumOf("$bytes"), "packets" := SumOf("$packets"), "count" := SumConst(1)]),
      SortStage(map["bytes" := -1]),
      LimitStage(n) ]
  }

  /** The fixed four stages: match, group by the field summing bytes, packets
      and a count, sort by bytes descending, and the limit (10 only when none
      is passed; any passed value, even 0, is kept). Only the two addresses
      and the protocol are filtered. */
  lemma TopByFieldPipeline(field: string, filters: Filters, limit: Option<Number>, parseDate: DateParser)
    ensures var p := GetTopByField(field, filters, limit, parseDate);
      && |p| == 4
      && p[0].MatchStage?
      && (forall k :: k != "timestamp" ==> (k in p[0].query <==> k in TopFilterKeys && Truthy(Get(filters, k))))
      && p[1] == GroupStage("$" + field,
           map["bytes" := SumOf("$bytes"), "packets" := SumOf("$packets"), "count" := SumConst(1)])
      && p[2] == SortStage(map["bytes" := -1])
      && p[3] == LimitStage(if limit.None? then Int(10) else limit.value)
  {
    BuildQueryContents(filters, TopFilterKeys, parseDate);
  }

  /** The two builders share the time range and address filters but
      `getTopByField` ignores the application and client-name filters. */
  lemma TopIgnoresApplication(field: string, filters: Filters, limit: Option<Number>, parseDate: DateParser, app: string)
    ensures GetTopByField(field, filters["application" := app], limit, parseDate)
         == GetTopByField(field, filters, limit, parseDate)
  {
    var f2 := filters["application" := app];
    assert Get(f2, "from") == Get(filters, "from") && Get(f2, "to") == Get(filters, "to");
    assert TimeConstraint(f2, parseDate) == TimeConstraint(filters, parseDate);
    var time := TimeConstraint(filters, parseDate);
    var base: Query := if time.Some? then map["timestamp" := time.value] else map[];
    CopyFiltersReadsOnlyKeys(f2, filters, TopFilterKeys, base);
  }

  /** The query built by `CopyFilters` depends only on the filters it is
      told to copy. */
  lemma {:induction false} CopyFiltersReadsOnlyKeys(f1: Filters, f2: Filters, keys: seq<string>, query: Query)
    requires forall k :: k in keys ==> Get(f1, k) == Get(f2, k)
    ensures CopyFilters(f1, keys, query) == CopyFilters(f2, keys, query)
    decreases |keys|
  {
    if keys != [] {
      var k := keys[0];
      var next := if Truthy(Get(f1, k)) then query[k := Equals(f1[k])] else query;
      CopyFiltersReadsOnlyKeys(f1, f2, keys[1..], next);
    }
  }
}

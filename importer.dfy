/** The import driver of src/import.js: the counters `importCsvFile` keeps
    while it consumes CSV rows, the batch path `importCsvData` takes when the
    time-series store is on, and the directory walk of `importDirectory`.
    Parsed CSV rows are given; the document-store functions the driver calls
    exist exactly when `src/database.js` exports them. */
module Importer {
  import opened Js
  import opened Normalize
  import opened TimeSeries
  import DocumentStore

  /** The `results` object: `total`, `imported`, `errors` and `type`. */
  datatype ImportResult = ImportResult(total: nat, imported: nat, errors: nat, kind: string)

  datatype ImportError =
    | FileNotFound(path: string)
    | NotAFunction(name: string)   // the TypeError of calling a missing export
    | InfluxDisabled
    | StoreFailed(cause: StoreError)

  /** What the host supplies per row: the instant `new Date()` reads and the
      string `generateId()` returns while row `i` is transformed, and the
      native date and float parsers. */
  datatype Host = Host(clock: nat -> int, freshId: nat -> string, parseDate: DateParser, parseFloat: FloatParser)

  function RowEnv(host: Host, i: nat): Env
  {
    Env(host.clock(i), host.parseDate, host.parseFloat, host.freshId(i))
  }

  // ---------------------------------------------------------------------------
  // importCsvFile: what one row does to the counters and the store

  /** Whether the row counted as imported, and the points it wrote. */
  datatype RowOutcome = RowOutcome(imported: bool, points: seq<Point>)

  /** The body of the `data` handler for one row. With the time-series store
      on, a flow or threat row is imported unless writing its point throws
      (`rejects`); with it off, a flow or threat row calls `db.saveFlow` or
      `db.saveThreat`, which throws when the module does not export it. Rows
      of any other type count as imported in both modes. */
  function RowStep(row: Row, kind: string, env: Env, influx: bool, geoipEnabled: bool,
                   exports: set<string>, rejects: bool): RowOutcome
  {
    var record := TransformRecord(row, kind, env);
    if influx then
      if kind == FlowsKind then
        if rejects then RowOutcome(false, [])
        else RowOutcome(true, [FlowPoint(record.flow, geoipEnabled, UnawaitedLookup, UnawaitedLookup)])
      else if kind == ThreatsKind then
        if rejects then RowOutcome(false, [])
        else RowOutcome(true, [ThreatPoint(record.threat, geoipEnabled, UnawaitedLookup, UnawaitedLookup)])
      else RowOutcome(true, [])
    else if kind == FlowsKind then RowOutcome("saveFlow" in exports, [])
    else if kind == ThreatsKind then RowOutcome("saveThreat" in exports, [])
    else RowOutcome(true, [])
  }

  /** The counters and the points after the rows so far. */
  datatype Tally = Tally(results: ImportResult, points: seq<Point>)

  /** Every row is counted once, either as imported or as an error. */
  function Consume(rows: seq<Row>, kind: string, host: Host, influx: bool, geoipEnabled: bool,
                   exports: set<string>, rejects: nat -> bool): (t: Tally)
    ensures t.results.total == |rows|
    ensures t.results.imported + t.results.errors == |rows|
    ensures t.results.kind == kind
    decreases |rows|
  {
    if rows == [] then Tally(ImportResult(0, 0, 0, kind), [])
    else
      var n := |rows| - 1;
      var t := Consume(rows[..n], kind, host, influx, geoipEnabled, exports, rejects);
      var step := RowStep(rows[n], kind, RowEnv(host, n), influx, geoipEnabled, exports, rejects(n));
      Tally(Count(t.results, step.imported), t.points + step.points)
  }

  /** `total++`, then `imported++` or `errors++`. */
  function Count(r: ImportResult, imported: bool): ImportResult
  {
    if imported then r.(total := r.total + 1, imported := r.imported + 1)
    else r.(total := r.total + 1, errors := r.errors + 1)
  }

  /** One more row extends the tally by that row's step. */
  lemma ConsumeStep(rows: seq<Row>, i: nat, kind: string, host: Host, influx: bool, geoipEnabled: bool,
                    exports: set<string>, rejects: nat -> bool)
    requires i < |rows|
    ensures var t := Consume(rows[..i], kind, host, influx, geoipEnabled, exports, rejects);
      var step := RowStep(rows[i], kind, RowEnv(host, i), influx, geoipEnabled, exports, rejects(i));
      Consume(rows[..i + 1], kind, host, influx, geoipEnabled, exports, rejects)
        == Tally(Count(t.results, step.imported), t.points + step.points)
  {
    assert rows[..i + 1][..i] == rows[..i];
  }

  /** The number of rows among the first `n` whose point the library rejects. */
  function RejectedCount(rejects: nat -> bool, n: nat): (c: nat)
    ensures c <= n
  {
    if n == 0 then 0 else RejectedCount(rejects, n - 1) + (if rejects(n - 1) then 1 else 0)
  }

  /** The flow records of the rows, in order. */
  function FlowRecords(rows: seq<Row>, host: Host): (rs: seq<FlowRecord>)
    ensures |rs| == |rows|
  {
    if rows == [] then []
    else FlowRecords(rows[..|rows| - 1], host) + [TransformFlow(rows[|rows| - 1], RowEnv(host, |rows| - 1))]
  }

  /** The threat records of the rows, in order. */
  function ThreatRecords(rows: seq<Row>, host: Host): (rs: seq<ThreatRecord>)
    ensures |rs| == |rows|
  {
    if rows == [] then []
    else ThreatRecords(rows[..|rows| - 1], host) + [TransformThreat(rows[|rows| - 1], RowEnv(host, |rows| - 1))]
  }

  /** With the document store as written, no flow or threat row is ever
      imported and nothing reaches the time-series store; rows of any other
      type are all imported. */
  lemma {:induction false} DocumentModeAsWritten(rows: seq<Row>, kind: string, host: Host, geoipEnabled: bool,
                                                 rejects: nat -> bool)
    ensures var t := Consume(rows, kind, host, false, geoipEnabled, DocumentStore.Exports, rejects);
      && t.points == []
      && (kind == FlowsKind || kind == ThreatsKind ==> t.results.imported == 0 && t.results.errors == |rows|)
      && (kind != FlowsKind && kind != ThreatsKind ==> t.results.imported == |rows| && t.results.errors == 0)
    decreases |rows|
  {
    if rows != [] {
      DocumentModeAsWritten(rows[..|rows| - 1], kind, host, geoipEnabled, rejects);
    }
  }

  /** With the time-series store on, the errors are exactly the rows whose
      point the library rejected (none for untyped rows). */
  lemma {:induction false} InfluxModeErrors(rows: seq<Row>, kind: string, host: Host, geoipEnabled: bool,
                                            exports: set<string>, rejects: nat -> bool)
    ensures Consume(rows, kind, host, true, geoipEnabled, exports, rejects).results.errors
         == (if kind == FlowsKind || kind == ThreatsKind then RejectedCount(rejects, |rows|) else 0)
    decreases |rows|
  {
    if rows != [] {
      InfluxModeErrors(rows[..|rows| - 1], kind, host, geoipEnabled, exports, rejects);
    }
  }

  /** A flow row whose point is accepted writes the point of its flow record. */
  lemma RowStepFlow(row: Row, env: Env, geoipEnabled: bool, exports: set<string>)
    ensures RowStep(row, FlowsKind, env, true, geoipEnabled, exports, false)
         == RowOutcome(true, [FlowPoint(TransformFlow(row, env), geoipEnabled, UnawaitedLookup, UnawaitedLookup)])
  {
  }

  /** The last flow row, accepted, appends the point of its flow record. */
  lemma ConsumeFlowSnoc(rows: seq<Row>, host: Host, geoipEnabled: bool, exports: set<string>, rejects: nat -> bool)
    requires rows != [] && !rejects(|rows| - 1)
    ensures Consume(rows, FlowsKind, host, true, geoipEnabled, exports, rejects).points
         == Consume(rows[..|rows| - 1], FlowsKind, host, true, geoipEnabled, exports, rejects).points
            + [FlowPoint(TransformFlow(rows[|rows| - 1], RowEnv(host, |rows| - 1)), geoipEnabled, UnawaitedLookup, UnawaitedLookup)]
  {
    RowStepFlow(rows[|rows| - 1], RowEnv(host, |rows| - 1), geoipEnabled, exports);
  }

  /** The points of the flow records grow by the last row's point. */
  lemma FlowRecordPointsSnoc(rows: seq<Row>, host: Host, geoipEnabled: bool)
    requires rows != []
    ensures FlowPoints(FlowRecords(rows, host), geoipEnabled)
         == FlowPoints(FlowRecords(rows[..|rows| - 1], host), geoipEnabled)
            + [FlowPoint(TransformFlow(rows[|rows| - 1], RowEnv(host, |rows| - 1)), geoipEnabled, UnawaitedLookup, UnawaitedLookup)]
  {
    var rs := FlowRecords(rows, host);
    assert rs[..|rows| - 1] == FlowRecords(rows[..|rows| - 1], host);
  }

  /** With the time-series store on and no rejection, the flow rows write
      exactly the points of their flow records, in row order. */
  lemma {:induction false} InfluxModeFlowPoints(rows: seq<Row>, host: Host, geoipEnabled: bool,
                                                exports: set<string>, rejects: nat -> bool)
    requires forall i :: 0 <= i < |rows| ==> !rejects(i)
    ensures Consume(rows, FlowsKind, host, true, geoipEnabled, exports, rejects).points
         == FlowPoints(FlowRecords(rows, host), geoipEnabled)
    decreases |rows|
  {
    if rows != [] {
      InfluxModeFlowPoints(rows[..|rows| - 1], host, geoipEnabled, exports, rejects);
      ConsumeFlowSnoc(rows, host, geoipEnabled, exports, rejects);
      FlowRecordPointsSnoc(rows, host, geoipEnabled);
    }
  }

  /** A threat row whose point is accepted writes the point of its threat record. */
  lemma RowStepThreat(row: Row, env: Env, geoipEnabled: bool, exports: set<string>)
    ensures RowStep(row, ThreatsKind, env, true, geoipEnabled, exports, false)
         == RowOutcome(true, [ThreatPoint(TransformThreat(row, env), geoipEnabled, UnawaitedLookup, UnawaitedLookup)])
  {
  }

  /** The last threat row, accepted, appends the point of its threat record. */
  lemma ConsumeThreatSnoc(rows: seq<Row>, host: Host, geoipEnabled: bool, exports: set<string>, rejects: nat -> bool)
    requires rows != [] && !rejects(|rows| - 1)
    ensures Consume(rows, ThreatsKind, host, true, geoipEnabled, exports, rejects).points
         == Consume(rows[..|rows| - 1], ThreatsKind, host, true, geoipEnabled, exports, rejects).points
            + [ThreatPoint(TransformThreat(rows[|rows| - 1], RowEnv(host, |rows| - 1)), geoipEnabled, UnawaitedLookup, UnawaitedLookup)]
  {
    RowStepThreat(rows[|rows| - 1], RowEnv(host, |rows| - 1), geoipEnabled, exports);
  }

  /** The points of the threat records grow by the last row's point. */
  lemma ThreatRecordPointsSnoc(rows: seq<Row>, host: Host, geoipEnabled: bool)
    requires rows != []
    ensures ThreatPoints(ThreatRecords(rows, host), geoipEnabled)
         == ThreatPoints(ThreatRecords(rows[..|rows| - 1], host), geoipEnabled)
            + [ThreatPoint(TransformThreat(rows[|rows| - 1], RowEnv(host, |rows| - 1)), geoipEnabled, UnawaitedLookup, UnawaitedLookup)]
  {
    var rs := ThreatRecords(rows, host);
    assert rs[..|rows| - 1] == ThreatRecords(rows[..|rows| - 1], host);
  }

  /** With the time-series store on and no rejection, the threat rows write
      exactly the points of their threat records, in row order. */
  lemma {:induction false} InfluxModeThreatPoints(rows: seq<Row>, host: Host, geoipEnabled: bool,
                                                  exports: set<string>, rejects: nat -> bool)
    requires forall i :: 0 <= i < |rows| ==> !rejects(i)
    ensures Consume(rows, ThreatsKind, host, true, geoipEnabled, exports, rejects).points
         == ThreatPoints(ThreatRecords(rows, host), geoipEnabled)
    decreases |rows|
  {
    if rows != [] {
      InfluxModeThreatPoints(rows[..|rows| - 1], host, geoipEnabled, exports, rejects);
      ConsumeThreatSnoc(rows, host, geoipEnabled, exports, rejects);
      ThreatRecordPointsSnoc(rows, host, geoipEnabled);
    }
  }

  /** What the `end` handler settles the promise with: it calls
      `db.updateStatus`, so the results are delivered only when that exists. */
  function EndOutcome(exports: set<string>, results: ImportResult): (r: Result<ImportResult, ImportError>)
    ensures r.Ok? <==> "updateStatus" in exports
    ensures r.Ok? ==> r.value == results
  {
    if "updateStatus" in exports then Ok(results) else Err(NotAFunction("updateStatus"))
  }

  /** The `data` handler for one row. */
  method ConsumeRow(row: Row, kind: string, env: Env, exports: set<string>, rejects: bool, store: TimeSeriesStore)
    returns (imported: bool)
    modifies store
    ensures var step := RowStep(row, kind, env, store.enabled, store.geoipEnabled, exports, rejects);
      imported == step.imported && store.points == old(store.points) + step.points
    ensures store.flushes == old(store.flushes)
  {
    var record := TransformRecord(row, kind, env);
    imported := true;
    if store.enabled {
      if kind == FlowsKind {
        imported := store.WriteFlowPoint(record.flow, rejects);
      } else if kind == ThreatsKind {
        imported := store.WriteThreatPoint(record.threat, rejects);
      }
    } else if kind == FlowsKind {
      imported := "saveFlow" in exports;
    } else if kind == ThreatsKind {
      imported := "saveThreat" in exports;
    }
  }

  /** One turn of the loop in `ConsumeRows`: the next row extends the tally. */
  method ConsumeNext(rows: seq<Row>, i: nat, kind: string, host: Host, exports: set<string>, rejects: nat -> bool,
                     store: TimeSeriesStore, ghost base: seq<Point>, results: ImportResult)
    returns (next: ImportResult)
    requires i < |rows|
    requires var t := Consume(rows[..i], kind, host, store.enabled, store.geoipEnabled, exports, rejects);
      results == t.results && store.points == base + t.points
    modifies store
    ensures var t := Consume(rows[..i + 1], kind, host, store.enabled, store.geoipEnabled, exports, rejects);
      next == t.results && store.points == base + t.points
    ensures store.flushes == old(store.flushes)
  {
    ConsumeStep(rows, i, kind, host, store.enabled, store.geoipEnabled, exports, rejects);
    var imported := ConsumeRow(rows[i], kind, RowEnv(host, i), exports, rejects(i), store);
    AppendAssoc(base, Consume(rows[..i], kind, host, store.enabled, store.geoipEnabled, exports, rejects).points,
                RowStep(rows[i], kind, RowEnv(host, i), store.enabled, store.geoipEnabled, exports, rejects(i)).points);
    next := Count(results, imported);
  }

  /** The `data` handler applied to every row in order, with the store
      playing `influxdb`. */
  method ConsumeRows(rows: seq<Row>, kind: string, host: Host, exports: set<string>, rejects: nat -> bool,
                     store: TimeSeriesStore)
    returns (results: ImportResult)
    modifies store
    ensures var t := Consume(rows, kind, host, store.enabled, store.geoipEnabled, exports, rejects);
      results == t.results && store.points == old(store.points) + t.points
    ensures store.flushes == old(store.flushes)
  {
    results := ImportResult(0, 0, 0, kind);
    var i := 0;
    while i < |rows|
      invariant 0 <= i <= |rows|
      invariant var t := Consume(rows[..i], kind, host, store.enabled, store.geoipEnabled, exports, rejects);
        results == t.results && store.points == old(store.points) + t.points
      invariant store.flushes == old(store.flushes)
    {
      results := ConsumeNext(rows, i, kind, host, exports, rejects, store, old(store.points), results);
      i := i + 1;
    }
    assert rows[..i] == rows;
  }

  /** `importCsvFile`: a missing file rejects at once; otherwise every row is
      consumed and the promise settles as the `end` handler decides. */
  method ImportCsvFile(path: string, kind: string, fileExists: bool, rows: seq<Row>, host: Host,
                       exports: set<string>, rejects: nat -> bool, store: TimeSeriesStore)
    returns (r: Result<ImportResult, ImportError>)
    modifies store
    ensures !fileExists ==> r == Err(FileNotFound(path)) && store.points == old(store.points)
    ensures fileExists ==>
      var t := Consume(rows, kind, host, store.enabled, store.geoipEnabled, exports, rejects);
      && store.points == old(store.points) + t.points
      && r == EndOutcome(exports, t.results)
    ensures store.flushes == old(store.flushes)
  {
    if !fileExists {
      return Err(FileNotFound(path));
    }
    var results := ConsumeRows(rows, kind, host, exports, rejects, store);
    r := EndOutcome(exports, results);
  }

  /** As written the promise of `importCsvFile` rejects for every existing
      file, since the document store does not export `updateStatus`. */
  lemma ImportCsvFileAsWritten(results: ImportResult)
    ensures EndOutcome(DocumentStore.Exports, results) == Err(NotAFunction("updateStatus"))
  {
  }

  // ---------------------------------------------------------------------------
  // importCsvData

  /** The records the `data` handler collects, in row order. */
  function Transformed(rows: seq<Row>, kind: string, host: Host): (rs: seq<Record>)
    ensures |rs| == |rows|
  {
    if rows == [] then []
    else Transformed(rows[..|rows| - 1], kind, host) + [TransformRecord(rows[|rows| - 1], kind, RowEnv(host, |rows| - 1))]
  }

  /** The flow records among some records, in order. */
  function FlowsOf(records: seq<Record>): seq<FlowRecord>
  {
    if records == [] then []
    else FlowsOf(records[..|records| - 1])
         + (if records[|records| - 1].Flow? then [records[|records| - 1].flow] else [])
  }

  /** The threat records among some records, in order. */
  function ThreatsOf(records: seq<Record>): seq<ThreatRecord>
  {
    if records == [] then []
    else ThreatsOf(records[..|records| - 1])
         + (if records[|records| - 1].Threat? then [records[|records| - 1].threat] else [])
  }

  /** Collecting flow rows gives exactly their flow records. */
  lemma {:induction false} FlowsOfTransformed(rows: seq<Row>, host: Host)
    ensures FlowsOf(Transformed(rows, FlowsKind, host)) == FlowRecords(rows, host)
    decreases |rows|
  {
    if rows != [] {
      var n := |rows| - 1;
      FlowsOfTransformed(rows[..n], host);
      assert Transformed(rows, FlowsKind, host)[..n] == Transformed(rows[..n], FlowsKind, host);
    }
  }

  /** Collecting threat rows gives exactly their threat records. */
  lemma {:induction false} ThreatsOfTransformed(rows: seq<Row>, host: Host)
    ensures ThreatsOf(Transformed(rows, ThreatsKind, host)) == ThreatRecords(rows, host)
    decreases |rows|
  {
    if rows != [] {
      var n := |rows| - 1;
      ThreatsOfTransformed(rows[..n], host);
      assert Transformed(rows, ThreatsKind, host)[..n] == Transformed(rows[..n], ThreatsKind, host);
    }
  }

  /** `importCsvData`: refused unless the time-series store is on; then
      every row is transformed and collected, the batch goes to
      `storeFlowRecords` or `storeThreatRecords`, `imported` is what that
      returns (it stays 0 for any other type), and `errors` is the rest. A
      rejection of the batch writer rejects the import. */
  method ImportCsvData(kind: string, rows: seq<Row>, host: Host, rejects: nat -> bool, flushRejects: bool,
                       store: TimeSeriesStore)
    returns (r: Result<ImportResult, ImportError>)
    modifies store
    ensures !store.enabled ==> r == Err(InfluxDisabled) && store.points == old(store.points) && store.flushes == old(store.flushes)
    ensures store.enabled && kind != FlowsKind && kind != ThreatsKind ==>
      && r == Ok(ImportResult(|rows|, 0, |rows|, kind))
      && store.points == old(store.points) && store.flushes == old(store.flushes)
    ensures store.enabled && kind == FlowsKind ==>
      var k := FirstRejected(rejects, |rows|, 0);
      && store.points == old(store.points) + FlowPoints(FlowRecords(rows, host)[..k], store.geoipEnabled)
      && (k < |rows| ==> r == Err(StoreFailed(WriteRejected(k))))
      && (k == |rows| ==>
            r == if flushRejects then Err(StoreFailed(FlushRejected)) else Ok(ImportResult(|rows|, |rows|, 0, kind)))
    ensures store.enabled && kind == ThreatsKind ==>
      var k := FirstRejected(rejects, |rows|, 0);
      && store.points == old(store.points) + ThreatPoints(ThreatRecords(rows, host)[..k], store.geoipEnabled)
      && (k < |rows| ==> r == Err(StoreFailed(WriteRejected(k))))
      && (k == |rows| ==>
            r == if flushRejects then Err(StoreFailed(FlushRejected)) else Ok(ImportResult(|rows|, |rows|, 0, kind)))
  {
    if !store.enabled {
      return Err(InfluxDisabled);
    }
    var total := 0;
    var records: seq<Record> := [];
    while total < |rows|
      invariant 0 <= total <= |rows|
      invariant records == Transformed(rows[..total], kind, host)
    {
      assert rows[..total + 1][..total] == rows[..total];
      records := records + [TransformRecord(rows[total], kind, RowEnv(host, total))];
      total := total + 1;
    }
    assert rows[..total] == rows;
    var imported := 0;
    if kind == FlowsKind {
      FlowsOfTransformed(rows, host);
      var stored := store.StoreFlowRecords(FlowsOf(records), rejects, flushRejects);
      if stored.Err? {
        return Err(StoreFailed(stored.error));
      }
      imported := stored.value;
    } else if kind == ThreatsKind {
      ThreatsOfTransformed(rows, host);
      var stored := store.StoreThreatRecords(ThreatsOf(records), rejects, flushRejects);
      if stored.Err? {
        return Err(StoreFailed(stored.error));
      }
      imported := stored.value;
    }
    r := Ok(ImportResult(total, imported, total - imported, kind));
  }

  // ---------------------------------------------------------------------------
  // importDirectory

  /** The directory entries ending in `.csv`, in listing order. */
  function CsvFiles(names: seq<string>): (files: seq<string>)
    ensures forall i :: 0 <= i < |files| ==> EndsWith(files[i], ".csv")
    ensures forall f :: f in files <==> f in names && EndsWith(f, ".csv")
    ensures |files| <= |names|
  {
    if names == [] then []
    else CsvFiles(names[..|names| - 1])
         + (if EndsWith(names[|names| - 1], ".csv") then [names[|names| - 1]] else [])
  }

  /** The first `.csv` entry of the listing is the first file imported. */
  lemma {:induction false} CsvFilesFirst(names: seq<string>, k: nat)
    requires k < |names| && EndsWith(names[k], ".csv")
    requires forall j :: 0 <= j < k ==> !EndsWith(names[j], ".csv")
    ensures CsvFiles(names) != [] && CsvFiles(names)[0] == names[k]
    decreases |names|
  {
    var prefix := names[..|names| - 1];
    if k < |names| - 1 {
      assert prefix[k] == names[k];
      CsvFilesFirst(prefix, k);
    }
  }

  /** The record type a file name selects: a name containing `threat` in any
      letter case holds threats, every other name flows. */
  function KindOfFile(name: string): (kind: string)
    ensures kind == ThreatsKind || kind == FlowsKind
  {
    if Contains(Lower(name), "threat") then ThreatsKind else FlowsKind
  }

  /** The letter case of the name does not matter. */
  lemma KindOfFileIgnoresCase(name: string)
    ensures KindOfFile(Lower(name)) == KindOfFile(name)
  {
    var l := Lower(name);
    assert Lower(l) == l by {
      assert forall i :: 0 <= i < |l| ==> Lower(l)[i] == l[i];
    }
  }

  /** The points the imports of some files write, one file after another. */
  function FilesPoints(files: seq<string>, rowsOf: string -> seq<Row>, host: Host, influx: bool, geoipEnabled: bool,
                       exports: set<string>, rejects: nat -> bool): seq<Point>
  {
    if files == [] then []
    else
      var last := files[|files| - 1];
      FilesPoints(files[..|files| - 1], rowsOf, host, influx, geoipEnabled, exports, rejects)
        + Consume(rowsOf(last), KindOfFile(last), host, influx, geoipEnabled, exports, rejects).points
  }

  /** One more file appends the points of its import. */
  lemma FilesPointsSnoc(files: seq<string>, file: string, rowsOf: string -> seq<Row>, host: Host, influx: bool,
                        geoipEnabled: bool, exports: set<string>, rejects: nat -> bool)
    ensures FilesPoints(files + [file], rowsOf, host, influx, geoipEnabled, exports, rejects)
         == FilesPoints(files, rowsOf, host, influx, geoipEnabled, exports, rejects)
            + Consume(rowsOf(file), KindOfFile(file), host, influx, geoipEnabled, exports, rejects).points
  {
    assert (files + [file])[..|files|] == files;
  }

  /** One turn of the loop in `ImportDirectory`: the import of the next file,
      which resolves exactly when the store exports `updateStatus`. */
  method ImportNextFile(attempted: seq<string>, file: string, rowsOf: string -> seq<Row>, host: Host,
                        exports: set<string>, rejects: nat -> bool, store: TimeSeriesStore, ghost base: seq<Point>)
    returns (resolved: bool)
    requires store.points == base + FilesPoints(attempted, rowsOf, host, store.enabled, store.geoipEnabled, exports, rejects)
    modifies store
    ensures resolved == ("updateStatus" in exports)
    ensures store.points
         == base + FilesPoints(attempted + [file], rowsOf, host, store.enabled, store.geoipEnabled, exports, rejects)
    ensures store.flushes == old(store.flushes)
  {
    ghost var before := store.points;
    var r := ImportCsvFile(file, KindOfFile(file), true, rowsOf(file), host, exports, rejects, store);
    FilesPointsSnoc(attempted, file, rowsOf, host, store.enabled, store.geoipEnabled, exports, rejects);
    AppendStep(before, base,
               FilesPoints(attempted, rowsOf, host, store.enabled, store.geoipEnabled, exports, rejects),
               Consume(rowsOf(file), KindOfFile(file), host, store.enabled, store.geoipEnabled, exports, rejects).points,
               FilesPoints(attempted + [file], rowsOf, host, store.enabled, store.geoipEnabled, exports, rejects),
               store.points);
    resolved := r.Ok?;
  }

  /** `importDirectory`: nothing when the directory is missing; otherwise
      each CSV entry in order, with the type its name selects, until an
      import rejects, which ends the walk. `attempted` lists the files whose
      import was started. */
  method ImportDirectory(dirExists: bool, names: seq<string>, rowsOf: string -> seq<Row>, host: Host,
                         exports: set<string>, rejects: nat -> bool, store: TimeSeriesStore)
    returns (attempted: seq<string>)
    modifies store
    ensures !dirExists ==> attempted == [] && store.points == old(store.points)
    ensures dirExists ==>
      store.points == old(store.points)
        + FilesPoints(attempted, rowsOf, host, store.enabled, store.geoipEnabled, exports, rejects)
    ensures dirExists && "updateStatus" in exports ==> attempted == CsvFiles(names)
    ensures dirExists && "updateStatus" !in exports ==>
      attempted == CsvFiles(names)[..if CsvFiles(names) == [] then 0 else 1]
    ensures store.flushes == old(store.flushes)
  {
    if !dirExists {
      return [];
    }
    var files := CsvFiles(names);
    attempted := [];
    var i := 0;
    while i < |files|
      invariant 0 <= i <= |files|
      invariant attempted == files[..i]
      invariant i > 0 ==> "updateStatus" in exports
      invariant store.points
             == old(store.points) + FilesPoints(attempted, rowsOf, host, store.enabled, store.geoipEnabled, exports, rejects)
      invariant store.flushes == old(store.flushes)
    {
      var file := files[i];
      var resolved := ImportNextFile(attempted, file, rowsOf, host, exports, rejects, store, old(store.points));
      PrefixSnoc(files, i);
      attempted := attempted + [file];
      if !resolved {
        return;
      }
      i := i + 1;
    }
  }

  /** Without `updateStatus` the walk imports only the first CSV file. */
  lemma FirstFileOnly(file: string, rowsOf: string -> seq<Row>, host: Host, influx: bool, geoipEnabled: bool,
                      exports: set<string>, rejects: nat -> bool)
    ensures FilesPoints([file], rowsOf, host, influx, geoipEnabled, exports, rejects)
         == Consume(rowsOf(file), KindOfFile(file), host, influx, geoipEnabled, exports, rejects).points
  {
    FilesPointsSnoc([], file, rowsOf, host, influx, geoipEnabled, exports, rejects);
  }
}

/** The export controller: one export session that writes the selected
    city objects to one file, or to one file per tile, reacting to the
    counter and interrupt events the workers report. What its collaborators
    do (the database, the pools, the writer, the file system) comes in as
    `TileRun` answers; the calls it makes on them are recorded in order in
    `effects`. */
module ExportController {
  import opened Wrappers
  import opened Beans
  import opened ApplicationExceptions
  import opened Strings
  import opened TileNaming
  import opened ExportRules
  import opened ExportCounters
  import opened ExportSession

  /** `current` holds the counts of `counter` plus the report's increments
      for the keys of the report that are no longer to do. */
  ghost predicate CountsSoFar<K(!new)>(counter: map<K, int>, report: map<K, int>, todo: set<K>, current: map<K, int>)
  {
    && (forall j :: j in current <==> j in counter || (j in report && j !in todo))
    && (forall j :: j in current ==> current[j] == Count(counter, j) + (if j in todo then 0 else Count(report, j)))
  }

  /** Once no key of the report is left to do, the counts are the merge of
      the counter with the report. */
  lemma CountsDone<K(!new)>(counter: map<K, int>, report: map<K, int>, current: map<K, int>)
    requires CountsSoFar(counter, report, {}, current)
    ensures current == Merge(counter, report)
  {
    var m := Merge(counter, report);
    assert forall j :: j in m ==> m[j] == Count(m, j);
  }

  /** Applies one counter report to a counter: each key's count grows by
      the reported increment, a key without a count starts at the
      increment. */
  method AddReport<K(!new)>(counter: map<K, int>, report: map<K, int>) returns (counter': map<K, int>)
    ensures counter' == Merge(counter, report)
  {
    counter' := counter;
    var todo := report.Keys;
    while todo != {}
      invariant todo <= report.Keys
      invariant CountsSoFar(counter, report, todo, counter')
      decreases |todo|
    {
      var k :| k in todo;
      var value := report[k];
      counter' := counter'[k := if k in counter' then counter'[k] + value else value];
      todo := todo - {k};
    }
    CountsDone(counter, report, counter');
  }

  /** The rows and columns of the tiling and how its tiles are named. */
  datatype Tiling = Tiling(rows: int, columns: int, options: TilingOptions)

  /** The rows of the tile loop: one without tiling. */
  function GridRows(tiling: Option<Tiling>): int
  {
    if tiling.Some? then tiling.value.rows else 1
  }

  /** The columns of the tile loop: one without tiling. */
  function GridColumns(tiling: Option<Tiling>): int
  {
    if tiling.Some? then tiling.value.columns else 1
  }

  /** The tile at (r, c) comes before the position (row, column) in the
      row-major order of the tile loop. */
  predicate Before(r: nat, c: nat, row: int, column: int)
  {
    r < row || (r == row && c < column)
  }

  /** Every tile of the grid before the position (row, column) passed. */
  ghost predicate PassedBefore(useTiling: bool, textureFolder: string, runs: (nat, nat) -> TileRun,
                               columns: int, row: int, column: int)
  {
    forall r: nat, c: nat :: c < columns && Before(r, c, row, column) ==> Passed(useTiling, textureFolder, runs, r, c)
  }

  /** The tile at (row, column) threw nothing but stopped the session,
      which now holds what the tile's pass recorded. */
  ghost predicate Stopped(useTiling: bool, textureFolder: string, runs: (nat, nat) -> TileRun,
                          row: nat, column: nat, exception: Option<ApplicationException>)
  {
    && TileFailure(useTiling, runs(row, column), textureFolder, row, column).None?
    && !TileGoesOn(runs(row, column))
    && exception == StopRecord(runs(row, column))
  }

  /** The counters of the tile loop before the position (row, column),
      none of the earlier tiles having thrown: the tile counters cleared
      and, when tiling, the totals having taken the reports of those tiles,
      tile by tile. */
  ghost function CountersBefore(useTiling: bool, runs: (nat, nat) -> TileRun, totals0: Counters,
                                columns: int, row: nat, column: int): Counters
  {
    var events := TileEvents(runs);
    if useTiling
    then Counters(map[], map[], RowObjectTotals(events, GridObjectTotals(events, totals0.totalObjects, row, columns), row, column),
                  RowGeometryTotals(events, GridGeometryTotals(events, totals0.totalGeometries, row, columns), row, column))
    else Counters(map[], map[], totals0.totalObjects, totals0.totalGeometries)
  }

  /** Marks a tile position at which a table of loop counters is read; it
      holds everywhere. */
  predicate Position(row: nat, column: nat)
  {
    true
  }

  /** `at` gives, for each position, the loop's counters before it. The
      quantifier is instantiated only at marked positions, so the tile
      loop passes the table along without unfolding the totals. */
  ghost predicate CountersTable(at: (nat, nat) -> Counters, useTiling: bool, runs: (nat, nat) -> TileRun, totals0: Counters, columns: int)
  {
    forall row: nat, column: nat {:trigger Position(row, column)} ::
      Position(row, column) ==> at(row, column) == CountersBefore(useTiling, runs, totals0, columns, row, column)
  }

  /** The table of the counters the loop has before each position. */
  ghost function CountersTableOf(useTiling: bool, runs: (nat, nat) -> TileRun, totals0: Counters, columns: int): (nat, nat) -> Counters
  {
    (row: nat, column: nat) => CountersBefore(useTiling, runs, totals0, columns, row, column)
  }

  lemma CountersTableOfIsTable(useTiling: bool, runs: (nat, nat) -> TileRun, totals0: Counters, columns: int)
    ensures CountersTable(CountersTableOf(useTiling, runs, totals0, columns), useTiling, runs, totals0, columns)
  {
  }

  /** Reading a table at a position. */
  lemma CountersTableAt(at: (nat, nat) -> Counters, useTiling: bool, runs: (nat, nat) -> TileRun, totals0: Counters, columns: int,
                        row: nat, column: nat)
    requires CountersTable(at, useTiling, runs, totals0, columns)
    ensures at(row, column) == CountersBefore(useTiling, runs, totals0, columns, row, column)
  {
    assert Position(row, column);
  }

  /** Before the first tile the tile counters are cleared and the totals
      are those the loop started with. */
  lemma CountersTableStart(at: (nat, nat) -> Counters, useTiling: bool, runs: (nat, nat) -> TileRun, totals0: Counters, columns: int)
    requires CountersTable(at, useTiling, runs, totals0, columns)
    ensures at(0, 0) == totals0.(objects := map[], geometries := map[])
  {
    assert Position(0, 0);
  }


  /** The pass of a tile that throws nothing, started while the session
      goes on with nothing recorded: afterwards the session goes on exactly
      when the pass met no interrupt and no teardown failure, and otherwise
      holds what the pass recorded; an interrupted session is stopped. */
  lemma TileStep(c: Control, p: Pools, run: TileRun, folder: Option<string>, fileName: string)
    requires c.shouldRun && !c.interrupted && c.exception.None?
    ensures var r := TileControl(c, p, run, folder, fileName);
            && (r.interrupted ==> !r.shouldRun)
            && (r.shouldRun <==> TileGoesOn(run))
            && r.exception == if r.shouldRun then None else StopRecord(run)
  {
    TileControlFacts(c, p, run, folder, fileName);
  }

  /** A tile whose pass throws nothing, with its counters cleared after the
      pass, moves the loop's counters one tile on. */
  lemma CountersTableStep(at: (nat, nat) -> Counters, useTiling: bool, runs: (nat, nat) -> TileRun, totals0: Counters,
                          columns: int, row: nat, column: nat)
    requires CountersTable(at, useTiling, runs, totals0, columns)
    ensures at(row, column + 1)
         == CountEvents(useTiling, at(row, column), HandledEvents(runs(row, column), true)).(objects := map[], geometries := map[])
  {
    assert Position(row, column) && Position(row, column + 1);
    var k, tile := at(row, column), HandledEvents(runs(row, column), true);
    assert TileEvents(runs)(row, column) == tile;
    CountEventsObjects(useTiling, k, tile);
    CountEventsGeometries(useTiling, k, tile);
  }

  /** Past the row's last column the counters are those before the next
      row. */
  lemma CountersTableRowEnd(at: (nat, nat) -> Counters, useTiling: bool, runs: (nat, nat) -> TileRun, totals0: Counters,
                            columns: int, row: nat)
    requires CountersTable(at, useTiling, runs, totals0, columns)
    ensures at(row, Width(columns)) == at(row + 1, 0)
  {
    assert Position(row, Width(columns)) && Position(row + 1, 0);
  }

  /** The totals the loop keeps are the totals at its start merged with
      the reports among the events of the tiles before (row, column), in
      row-major order. */
  lemma LoopTotalsInOrder(events: (nat, nat) -> seq<Event>, totals0: Counters, columns: int, row: nat, column: int)
    ensures RowObjectTotals(events, GridObjectTotals(events, totals0.totalObjects, row, columns), row, column)
         == MergeAll(totals0.totalObjects, ObjectReports(EventsBefore(events, columns, row, column)))
    ensures RowGeometryTotals(events, GridGeometryTotals(events, totals0.totalGeometries, row, columns), row, column)
         == MergeAll(totals0.totalGeometries, GeometryReports(EventsBefore(events, columns, row, column)))
  {
    var grid, inRow := GridEvents(events, row, columns), RowEvents(events, row, column);
    GridObjectTotalsInOrder(events, totals0.totalObjects, row, columns);
    GridGeometryTotalsInOrder(events, totals0.totalGeometries, row, columns);
    RowObjectTotalsInOrder(events, GridObjectTotals(events, totals0.totalObjects, row, columns), row, column);
    RowGeometryTotalsInOrder(events, GridGeometryTotals(events, totals0.totalGeometries, row, columns), row, column);
    ReportsAppend(grid, inRow);
    MergeAllAppend(totals0.totalObjects, ObjectReports(grid), ObjectReports(inRow));
    MergeAllAppend(totals0.totalGeometries, GeometryReports(grid), GeometryReports(inRow));
  }

  /** One more passed tile of the row extends the tiles that passed. */
  lemma PassedBeforeStep(useTiling: bool, textureFolder: string, runs: (nat, nat) -> TileRun, columns: int, row: nat, column: nat)
    requires PassedBefore(useTiling, textureFolder, runs, columns, row, column)
    requires Passed(useTiling, textureFolder, runs, row, column)
    ensures PassedBefore(useTiling, textureFolder, runs, columns, row, column + 1)
  {
  }

  /** Once the row went past its last column, all its tiles passed. */
  lemma PassedBeforeRowEnd(useTiling: bool, textureFolder: string, runs: (nat, nat) -> TileRun, columns: int, row: nat)
    requires PassedBefore(useTiling, textureFolder, runs, columns, row, Width(columns))
    ensures PassedBefore(useTiling, textureFolder, runs, columns, row + 1, 0)
  {
  }

  /** All tiles of a grid passed exactly when every tile of its row-major
      order did. */
  lemma PassedInOrder(useTiling: bool, textureFolder: string, runs: (nat, nat) -> TileRun, rows: int, columns: int)
    ensures PassedBefore(useTiling, textureFolder, runs, columns, rows, 0)
        <==> forall t :: t in RowMajor(rows, columns) ==> Passed(useTiling, textureFolder, runs, t.0, t.1)
  {
    forall t: (nat, nat) {:trigger t in RowMajor(rows, columns)}
      ensures t in RowMajor(rows, columns) <==> t.0 < rows && t.1 < columns
    {
      RowMajorCovers(rows, columns, t);
    }
    if forall t :: t in RowMajor(rows, columns) ==> Passed(useTiling, textureFolder, runs, t.0, t.1) {
      forall r: nat, c: nat | c < columns && Before(r, c, rows, 0)
        ensures Passed(useTiling, textureFolder, runs, r, c)
      {
        assert (r, c) in RowMajor(rows, columns);
      }
    }
  }

  /** The outcome of a session that the given tile stopped: what the tile
      threw, else what its pass recorded, if anything. */
  function StopOutcome(useTiling: bool, textureFolder: string, runs: (nat, nat) -> TileRun, t: (nat, nat)): SessionOutcome
  {
    var failure := TileFailure(useTiling, runs(t.0, t.1), textureFolder, t.0, t.1);
    if failure.Some? then Thrown(failure.value) else Finish(false, StopRecord(runs(t.0, t.1)))
  }

  /** The passes a tile starts: one unless the tiling cannot compute it. */
  function Started(useTiling: bool, run: TileRun): nat
  {
    if TileUnavailable(useTiling, run) then 0 else 1
  }

  /** The number of passes the tile loop started: one per tile of the grid,
      or, when a tile ended the loop, one per tile before it and one for it
      unless the tiling could not compute it. */
  function Passes(useTiling: bool, runs: (nat, nat) -> TileRun, rows: int, columns: int, last: Option<(nat, nat)>): int
  {
    if last.None? then TilesBefore(rows, Width(columns))
    else TilesBefore(last.value.0, Width(columns)) + last.value.1 + Started(useTiling, runs(last.value.0, last.value.1))
  }

  /** The position just past the last tile the loop visited: past the
      grid, or past the tile that ended the loop. */
  function LoopEnd(rows: int, last: Option<(nat, nat)>): (nat, nat)
  {
    if last.None? then (Width(rows), 0) else (last.value.0, last.value.1 + 1)
  }

  /** The tiles of the rows before `row`, each `width` tiles wide, counted
      row by row. */
  function TilesBefore(row: int, width: nat): nat
    decreases row
  {
    if row <= 0 then 0 else TilesBefore(row - 1, width) + width
  }

  /** Counted row by row, the tiles of the first rows are their product. */
  lemma {:induction false} TilesBeforeProduct(row: nat, width: nat)
    ensures TilesBefore(row, width) == row * width
  {
    if row > 0 {
      TilesBeforeProduct(row - 1, width);
    }
  }

  class Exporter {
    var useTiling: bool
    var shouldRun: bool
    var exception: Option<ApplicationException>
    var isInterrupted: bool
    /** Object counts of the current tile, by object class id. */
    var objectCounter: map<int, int>
    /** Geometry counts of the current tile, by GML class. */
    var geometryCounter: map<GmlClass, int>
    /** Object counts of the whole session (kept only when tiling). */
    var totalObjectCounter: map<int, int>
    /** Geometry counts of the whole session (kept only when tiling). */
    var totalGeometryCounter: map<GmlClass, int>
    /** Whether the splitter and the two worker pools have been created. */
    var hasSplitter: bool
    var hasDbPool: bool
    var hasXlinkPool: bool
    /** Whether the pools have terminated after their graceful shutdown. */
    var dbPoolTerminated: bool
    var xlinkPoolTerminated: bool
    /** The remaining-tiles counts reported, in order. */
    var remainingTileReports: seq<int>
    /** The calls made on the collaborators, in order. */
    var effects: seq<Effect>

    /** An interrupted session is stopped. */
    ghost predicate Valid()
      reads this`isInterrupted, this`shouldRun
    {
      isInterrupted ==> !shouldRun
    }

    constructor()
      ensures Valid()
      ensures shouldRun && !isInterrupted && exception.None?
      ensures objectCounter == map[] && geometryCounter == map[]
      ensures totalObjectCounter == map[] && totalGeometryCounter == map[]
      ensures !hasSplitter && !hasDbPool && !hasXlinkPool
      ensures remainingTileReports == [] && effects == []
    {
      useTiling := false;
      shouldRun := true;
      exception := None;
      isInterrupted := false;
      objectCounter, geometryCounter := map[], map[];
      totalObjectCounter, totalGeometryCounter := map[], map[];
      hasSplitter, hasDbPool, hasXlinkPool := false, false, false;
      dbPoolTerminated, xlinkPoolTerminated := false, false;
      remainingTileReports := [];
      effects := [];
    }

    /** Records an exception unless one is recorded already. */
    method SetException(message: string, cause: Option<Cause>)
      modifies this`exception
      ensures exception == FirstRecorded(old(exception), [ExportError(message, cause)])
    {
      if exception.None? {
        exception := Some(ExportError(message, cause));
      }
    }

    /** Adds an object-count report to the tile counter and, when tiling,
        to the session total. */
    method CountObjects(report: map<int, int>)
      modifies this`objectCounter, this`totalObjectCounter
      ensures objectCounter == Merge(old(objectCounter), report)
      ensures totalObjectCounter == if useTiling then Merge(old(totalObjectCounter), report) else old(totalObjectCounter)
    {
      objectCounter := AddReport(objectCounter, report);
      if useTiling {
        totalObjectCounter := AddReport(totalObjectCounter, report);
      }
    }

    /** Adds a geometry-count report to the tile counter and, when tiling,
        to the session total. */
    method CountGeometries(report: map<GmlClass, int>)
      modifies this`geometryCounter, this`totalGeometryCounter
      ensures geometryCounter == Merge(old(geometryCounter), report)
      ensures totalGeometryCounter == if useTiling then Merge(old(totalGeometryCounter), report) else old(totalGeometryCounter)
    {
      geometryCounter := AddReport(geometryCounter, report);
      if useTiling {
        totalGeometryCounter := AddReport(totalGeometryCounter, report);
      }
    }

    /** The first interrupt stops the session, records its cause if it has
        one, stops the splitter and drains the pools that exist; later
        interrupts change nothing. */
    method Interrupt(cause: Option<Cause>)
      requires Valid()
      modifies this`shouldRun, this`isInterrupted, this`exception, this`effects
      ensures Valid() && isInterrupted && !shouldRun
      ensures exception == if old(isInterrupted) || cause.None? then old(exception) else FirstRecorded(old(exception), [AbortError(cause.value)])
      ensures effects == old(effects) + if old(isInterrupted) then [] else InterruptEffects(hasSplitter, hasDbPool, hasXlinkPool)
    {
      if !isInterrupted {
        isInterrupted := true;
        shouldRun := false;
        if cause.Some? {
          SetException(AbortMessage, cause);
        }
        effects := effects + InterruptEffects(hasSplitter, hasDbPool, hasXlinkPool);
      }
    }

    /** The session's counters. */
    function CountersState(): Counters
      reads this`objectCounter, this`geometryCounter, this`totalObjectCounter, this`totalGeometryCounter
    {
      Counters(objectCounter, geometryCounter, totalObjectCounter, totalGeometryCounter)
    }

    /** The part of the session that interrupts change. */
    function ControlState(): Control
      reads this`shouldRun, this`isInterrupted, this`exception, this`effects
    {
      Control(shouldRun, isInterrupted, exception, effects)
    }

    /** Which of the splitter and the pools exist. */
    function Existing(): Stoppable
      reads this`hasSplitter, this`hasDbPool, this`hasXlinkPool
    {
      Stoppable(hasSplitter, hasDbPool, hasXlinkPool)
    }

    /** The splitter and the pools. */
    function PoolState(): Pools
      reads this`hasSplitter, this`hasDbPool, this`hasXlinkPool, this`dbPoolTerminated, this`xlinkPoolTerminated
    {
      Pools(hasSplitter, hasDbPool, hasXlinkPool, dbPoolTerminated, xlinkPoolTerminated)
    }

    /** Handles one event by its kind. */
    method HandleEvent(e: Event)
      requires Valid()
      modifies this`objectCounter, this`geometryCounter, this`totalObjectCounter, this`totalGeometryCounter
      modifies this`shouldRun, this`isInterrupted, this`exception, this`effects
      ensures Valid()
      ensures CountersState() == CountEvent(useTiling, old(CountersState()), e)
      ensures ControlState() == ControlEvent(Existing(), old(ControlState()), e)
    {
      match e
      case ObjectCounter(report) => CountObjects(report);
      case GeometryCounter(report) => CountGeometries(report);
      case Interrupt(cause) => Interrupt(cause);
    }

    /** Handles the event at position `i` after the ones before it. */
    method HandleNext(events: seq<Event>, i: nat, ghost counters0: Counters, ghost control0: Control)
      requires Valid() && i < |events|
      requires CountersState() == CountEvents(useTiling, counters0, events[..i])
      requires ControlState() == ControlEvents(Existing(), control0, events[..i])
      modifies this`objectCounter, this`geometryCounter, this`totalObjectCounter, this`totalGeometryCounter
      modifies this`shouldRun, this`isInterrupted, this`exception, this`effects
      ensures Valid()
      ensures CountersState() == CountEvents(useTiling, counters0, events[..i + 1])
      ensures ControlState() == ControlEvents(Existing(), control0, events[..i + 1])
    {
      CountEventsSnoc(useTiling, counters0, events, i);
      ControlEventsSnoc(Existing(), control0, events, i);
      HandleEvent(events[i]);
    }

    /** Handles the events one after the other: the counters take every
        report, and only the first interrupt of the session has an effect. */
    method HandleEvents(events: seq<Event>)
      requires Valid()
      modifies this`objectCounter, this`geometryCounter, this`totalObjectCounter, this`totalGeometryCounter
      modifies this`shouldRun, this`isInterrupted, this`exception, this`effects
      ensures Valid()
      ensures CountersState() == CountEvents(useTiling, old(CountersState()), events)
      ensures ControlState() == ControlEvents(Existing(), old(ControlState()), events)
    {
      ghost var counters0, control0 := CountersState(), ControlState();
      var i := 0;
      while i < |events|
        invariant 0 <= i <= |events| && Valid()
        invariant CountersState() == CountEvents(useTiling, counters0, events[..i])
        invariant ControlState() == ControlEvents(Existing(), control0, events[..i])
      {
        HandleNext(events, i, counters0, control0);
        i := i + 1;
      }
      assert events[..i] == events;
    }

    /** The first steps of a pass: create the output file, the texture
        folder when one is needed, the writer, the cache-table manager and
        the id caches, stopping at the first that fails. Returns what
        exists at that point and the exception thrown, if any. */
    method OpenResources(run: TileRun, textureFolder: string, folder: Option<string>, fileName: string)
      returns (acquired: Acquired, thrown: Option<ApplicationException>)
      modifies this`effects
      ensures effects == old(effects) + [CreateOutputFile(folder, fileName)]
      ensures acquired == AcquiredBy(run)
      ensures thrown.None? <==> ReachesPools(run)
      ensures thrown.Some? ==> thrown == PassFailure(run, textureFolder, true)
    {
      acquired := Acquired(false, false, false, false);
      effects := effects + [CreateOutputFile(folder, fileName)];
      if run.createFile.Fail? {
        return acquired, Some(ExportError(CreateFileError(run.outputPath), Some(run.createFile.error)));
      }
      acquired := acquired.(file := true);
      if run.textureFolder.Some? && run.textureFolder.value.Fail? {
        return acquired, Some(ExportError(TextureFolderError(textureFolder), Some(run.textureFolder.value.error)));
      }
      if run.openWriter.Fail? {
        return acquired, Some(ExportError(OpenFileError(run.outputPath), Some(run.openWriter.error)));
      }
      acquired := acquired.(writer := true);
      if run.cacheManager.Fail? {
        return acquired, Some(ExportError(CacheManagerError, Some(run.cacheManager.error)));
      }
      acquired := acquired.(cacheTables := true, idCaches := true);
      if run.idCaches.Fail? {
        return acquired, Some(ExportError(IdCachesError, Some(run.idCaches.error)));
      }
      thrown := None;
    }

    /** Creates the two worker pools, which report their first events
        while the splitter is as it was. */
    method StartPools(run: TileRun)
      requires Valid()
      modifies this`objectCounter, this`geometryCounter, this`totalObjectCounter, this`totalGeometryCounter
      modifies this`shouldRun, this`isInterrupted, this`exception, this`effects
      modifies this`hasDbPool, this`hasXlinkPool, this`dbPoolTerminated, this`xlinkPoolTerminated
      ensures Valid() && hasDbPool && hasXlinkPool && !dbPoolTerminated && !xlinkPoolTerminated
      ensures CountersState() == CountEvents(useTiling, old(CountersState()), run.earlyEvents)
      ensures ControlState() == ControlEvents(Stoppable(hasSplitter, true, true), old(ControlState()), run.earlyEvents)
    {
      hasXlinkPool, hasDbPool := true, true;
      xlinkPoolTerminated, dbPoolTerminated := false, false;
      HandleEvents(run.earlyEvents);
    }

    /** Starts the query and handles the events reported while it runs.
        Returns the exception the query throws, if any. */
    method RunQuery(run: TileRun) returns (thrown: Option<ApplicationException>)
      requires Valid()
      modifies this`objectCounter, this`geometryCounter, this`totalObjectCounter, this`totalGeometryCounter
      modifies this`shouldRun, this`isInterrupted, this`exception, this`effects
      ensures Valid()
      ensures thrown == if run.query.Fail? then Some(QueryError(run.query.error)) else None
      ensures CountersState() == CountEvents(useTiling, old(CountersState()), run.queryEvents)
      ensures ControlState() == ControlEvents(Existing(), old(ControlState()).(effects := old(effects) + [StartQuery]), run.queryEvents)
    {
      effects := effects + [StartQuery];
      HandleEvents(run.queryEvents);
      thrown := if run.query.Fail? then Some(QueryError(run.query.error)) else None;
    }

    /** Waits for the database pool, then the xlink pool, to shut down
        gracefully. Returns the exception thrown when one does not. */
    method ShutdownPools(run: TileRun) returns (thrown: Option<ApplicationException>)
      modifies this`dbPoolTerminated, this`xlinkPoolTerminated
      ensures thrown == ShutdownFailure(run)
      ensures dbPoolTerminated == run.dbPoolShutdown.Pass?
      ensures xlinkPoolTerminated == (run.dbPoolShutdown.Pass? && run.xlinkPoolShutdown.Pass?)
    {
      dbPoolTerminated, xlinkPoolTerminated := false, false;
      if run.dbPoolShutdown.Fail? {
        return Some(ExportError(PoolShutdownError, Some(run.dbPoolShutdown.error)));
      }
      dbPoolTerminated := true;
      if run.xlinkPoolShutdown.Fail? {
        return Some(ExportError(PoolShutdownError, Some(run.xlinkPoolShutdown.error)));
      }
      xlinkPoolTerminated := true;
      thrown := None;
    }

    /** The pass once a database worker started: create the splitter,
        start the query unless the session was stopped (handling its
        events), then wait for the pools to shut down. Returns the exception
        thrown, if any. */
    method RunSplitter(run: TileRun) returns (thrown: Option<ApplicationException>)
      requires Valid() && hasDbPool && hasXlinkPool
      modifies this`objectCounter, this`geometryCounter, this`totalObjectCounter, this`totalGeometryCounter
      modifies this`shouldRun, this`isInterrupted, this`exception, this`effects
      modifies this`hasSplitter, this`dbPoolTerminated, this`xlinkPoolTerminated
      ensures Valid() && hasSplitter
      ensures thrown == if old(shouldRun) && run.query.Fail? then Some(QueryError(run.query.error)) else ShutdownFailure(run)
      ensures CountersState() == if old(shouldRun) then CountEvents(useTiling, old(CountersState()), run.queryEvents) else old(CountersState())
      ensures ControlState() ==
                if old(shouldRun)
                then ControlEvents(Stoppable(true, true, true), old(ControlState()).(effects := old(effects) + [StartQuery]), run.queryEvents)
                else old(ControlState())
      ensures dbPoolTerminated == ((!old(shouldRun) || run.query.Pass?) && run.dbPoolShutdown.Pass?)
      ensures xlinkPoolTerminated == ((!old(shouldRun) || run.query.Pass?) && run.dbPoolShutdown.Pass? && run.xlinkPoolShutdown.Pass?)
    {
      hasSplitter := true;
      thrown := None;
      dbPoolTerminated, xlinkPoolTerminated := false, false;
      if shouldRun {
        thrown := RunQuery(run);
      }
      if thrown.None? {
        thrown := ShutdownPools(run);
      }
    }

    /** The rest of a pass once its resources exist: create the two pools
        (handling the events they report), fail when no database worker
        started, then run the splitter. Returns the exception thrown, if
        any. */
    method RunWorkers(run: TileRun) returns (thrown: Option<ApplicationException>)
      requires Valid() && shouldRun && ReachesPools(run)
      modifies this`objectCounter, this`geometryCounter, this`totalObjectCounter, this`totalGeometryCounter
      modifies this`shouldRun, this`isInterrupted, this`exception, this`effects
      modifies this`hasSplitter, this`hasDbPool, this`hasXlinkPool, this`dbPoolTerminated, this`xlinkPoolTerminated
      ensures Valid()
      ensures thrown == WorkersFailure(run, true)
      ensures CountersState() == CountEvents(useTiling, old(CountersState()), HandledEvents(run, true))
      ensures ControlState() == PassControl(old(hasSplitter), old(ControlState()), run)
      ensures PoolState() == PassPools(old(PoolState()), run)
    {
      ghost var counters0, control0 := CountersState(), ControlState();
      ghost var early, during := run.earlyEvents, run.queryEvents;
      StartPools(run);
      ControlEventsShouldRun(Stoppable(old(hasSplitter), true, true), control0, early);
      if run.workerPoolSize == 0 {
        assert HandledEvents(run, true) == early;
        thrown := Some(ExportError(WorkerPoolError, None));
      } else {
        if shouldRun {
          assert HandledEvents(run, true) == early + during;
          CountEventsAppend(useTiling, counters0, early, during);
        } else {
          assert HandledEvents(run, true) == early;
        }
        thrown := RunSplitter(run);
      }
    }

    /** A teardown step on a resource: when the resource exists it is
        closed; a failure to close records an exception and stops the
        session, without throwing. */
    method CloseStep(made: bool, call: Effect, outcome: Outcome<Cause>, message: string)
      requires Valid()
      modifies this`effects, this`exception, this`shouldRun
      ensures Valid()
      ensures ControlState() == CloseStepControl(old(ControlState()), made, call, outcome, message)
    {
      if made {
        effects := effects + [call];
        if outcome.Fail? {
          SetException(message, Some(outcome.error));
          shouldRun := false;
        }
      }
    }

    /** Closes the writer before the file it writes to. */
    method CloseOutput(acquired: Acquired, run: TileRun)
      requires Valid()
      modifies this`effects, this`exception, this`shouldRun
      ensures Valid()
      ensures ControlState() == CloseOutputControl(old(ControlState()), acquired, run)
    {
      CloseStep(acquired.writer, CloseWriter, run.closeWriter, CloseWriterError);
      CloseStep(acquired.file, CloseFile, run.closeFile, CloseFileError);
    }

    /** Shuts down the pools that still run, then flushes the events. */
    method StopPools()
      modifies this`effects
      ensures ControlState() == StopPoolsControl(old(ControlState()), hasXlinkPool && !xlinkPoolTerminated, hasDbPool && !dbPoolTerminated)
    {
      if hasXlinkPool && !xlinkPoolTerminated {
        effects := effects + [ShutdownNowXlinkPool];
      }
      if hasDbPool && !dbPoolTerminated {
        effects := effects + [ShutdownNowDbPool];
      }
      effects := effects + [FlushEvents];
    }

    /** Shuts down the id caches, then drops the cache tables. */
    method CleanCaches(acquired: Acquired, run: TileRun)
      requires Valid()
      modifies this`effects, this`exception, this`shouldRun
      ensures Valid()
      ensures ControlState() == CleanCachesControl(old(ControlState()), acquired, run)
    {
      CloseStep(acquired.idCaches, ShutdownIdCaches, run.idCacheShutdown, IdCacheCleanError);
      CloseStep(acquired.cacheTables, DropCacheTables, run.cacheTablesDrop, CacheTablesCleanError);
    }

    /** The teardown after every pass: close the writer, then the file,
        shut down the pools that still run, flush the events, shut down the
        id caches and drop the cache tables. */
    method Teardown(acquired: Acquired, run: TileRun)
      requires Valid()
      modifies this`effects, this`exception, this`shouldRun
      ensures Valid()
      ensures ControlState() == TeardownControl(old(ControlState()), acquired, run,
                                                hasXlinkPool && !xlinkPoolTerminated, hasDbPool && !dbPoolTerminated)
    {
      CloseOutput(acquired, run);
      StopPools();
      CleanCaches(acquired, run);
    }

    /** A pass up to its teardown: acquire the resources, then, when they
        all exist, run the workers. Returns what was acquired and the
        exception thrown, if any. */
    method RunPass(run: TileRun, textureFolder: string, folder: Option<string>, fileName: string)
      returns (acquired: Acquired, thrown: Option<ApplicationException>)
      requires Valid() && shouldRun
      modifies this`objectCounter, this`geometryCounter, this`totalObjectCounter, this`totalGeometryCounter
      modifies this`shouldRun, this`isInterrupted, this`exception, this`effects
      modifies this`hasSplitter, this`hasDbPool, this`hasXlinkPool, this`dbPoolTerminated, this`xlinkPoolTerminated
      ensures Valid()
      ensures acquired == AcquiredBy(run)
      ensures thrown == PassFailure(run, textureFolder, true)
      ensures CountersState() == CountEvents(useTiling, old(CountersState()), HandledEvents(run, true))
      ensures ControlState() == PassState(old(hasSplitter), old(ControlState()).(effects := old(effects) + [CreateOutputFile(folder, fileName)]), run)
      ensures PoolState() == PassPools(old(PoolState()), run)
    {
      acquired, thrown := OpenResources(run, textureFolder, folder, fileName);
      if thrown.None? {
        thrown := RunWorkers(run);
      } else {
        assert HandledEvents(run, true) == [];
      }
    }

    /** One pass of the tile loop once the tile is known: export to the
        pass's file, then tear down whatever the pass acquired. Returns the exception the pass throws, if any;
        the teardown's failures are recorded, not thrown. */
    method ExportTile(run: TileRun, textureFolder: string, folder: Option<string>, fileName: string)
      returns (thrown: Option<ApplicationException>)
      requires Valid() && shouldRun
      modifies this`objectCounter, this`geometryCounter, this`totalObjectCounter, this`totalGeometryCounter
      modifies this`shouldRun, this`isInterrupted, this`exception, this`effects
      modifies this`hasSplitter, this`hasDbPool, this`hasXlinkPool, this`dbPoolTerminated, this`xlinkPoolTerminated
      ensures Valid()
      ensures thrown == PassFailure(run, textureFolder, true)
      ensures CountersState() == CountEvents(useTiling, old(CountersState()), HandledEvents(run, true))
      ensures ControlState() == TileControl(old(ControlState()), old(PoolState()), run, folder, fileName)
      ensures PoolState() == PassPools(old(PoolState()), run)
    {
      var acquired;
      acquired, thrown := RunPass(run, textureFolder, folder, fileName);
      Teardown(acquired, run);
    }

    /** The pass of a tile the loop can export, started while the session
        goes on with nothing recorded: report the remaining tiles, export
        the pass, and clear the tile counters unless the pass threw. */
    method PassTile(textureFolder: string, run: TileRun, folder: Option<string>, fileName: string, remaining: int)
      returns (thrown: Option<ApplicationException>)
      requires Valid() && shouldRun && exception.None?
      modifies this`objectCounter, this`geometryCounter, this`totalObjectCounter, this`totalGeometryCounter
      modifies this`shouldRun, this`isInterrupted, this`exception, this`effects, this`remainingTileReports
      modifies this`hasSplitter, this`hasDbPool, this`hasXlinkPool, this`dbPoolTerminated, this`xlinkPoolTerminated
      ensures Valid()
      ensures thrown == PassFailure(run, textureFolder, true)
      ensures remainingTileReports == old(remainingTileReports) + [remaining]
      ensures thrown.None? ==> && (shouldRun <==> TileGoesOn(run))
                               && exception == (if shouldRun then None else StopRecord(run))
                               && CountersState() == CountEvents(useTiling, old(CountersState()), HandledEvents(run, true))
                                                       .(objects := map[], geometries := map[])
    {
      TileStep(ControlState(), PoolState(), run, folder, fileName);
      remainingTileReports := remainingTileReports + [remaining];
      thrown := ExportTile(run, textureFolder, folder, fileName);
      if thrown.None? {
        objectCounter, geometryCounter := map[], map[];
      }
    }

    /** One tile of the loop, after `n` passes out of `total`: compute the
        tile (when tiling) and its output name, then export its pass.
        Returns what the tile throws, if anything, and the remaining-tiles
        count. */
    method VisitTile(tiling: Option<Tiling>, fileName: string, textureFolder: string, runs: (nat, nat) -> TileRun,
                     row: nat, column: nat, remaining: int, ghost total: int, ghost n: nat,
                     ghost reports0: seq<int>, ghost totals0: Counters, ghost at: (nat, nat) -> Counters)
      returns (thrown: Option<ApplicationException>, remaining': int)
      requires Valid() && useTiling == tiling.Some? && shouldRun && exception.None?
      requires CountersTable(at, useTiling, runs, totals0, GridColumns(tiling)) && CountersState() == at(row, column)
      requires remaining == total - n
      requires remainingTileReports == reports0 + Countdown(total, n)
      modifies this`objectCounter, this`geometryCounter, this`totalObjectCounter, this`totalGeometryCounter
      modifies this`shouldRun, this`isInterrupted, this`exception, this`effects, this`remainingTileReports
      modifies this`hasSplitter, this`hasDbPool, this`hasXlinkPool, this`dbPoolTerminated, this`xlinkPoolTerminated
      ensures Valid()
      ensures thrown == TileFailure(useTiling, runs(row, column), textureFolder, row, column)
      ensures remaining' == total - (n + Started(useTiling, runs(row, column)))
      ensures remainingTileReports == reports0 + Countdown(total, n + Started(useTiling, runs(row, column)))
      ensures thrown.None? ==> && Started(useTiling, runs(row, column)) == 1
                               && (shouldRun <==> Passed(useTiling, textureFolder, runs, row, column))
                               && (shouldRun ==> exception.None?)
                               && (!shouldRun ==> Stopped(useTiling, textureFolder, runs, row, column, exception))
                               && CountersState() == at(row, column + 1)
    {
      var run := runs(row, column);
      if useTiling && run.tile.Failure? {
        return Some(ExportError(TileError(row, column), Some(run.tile.error))), remaining;
      }
      var name := if tiling.Some? && run.tile.Success?
                  then OutputName(true, tiling.value.options, run.tile.value, row, column, fileName)
                  else (None, fileName);
      remaining' := remaining - 1;
      CountersTableStep(at, useTiling, runs, totals0, GridColumns(tiling), row, column);
      CountdownStep(remainingTileReports, reports0, total, n);
      thrown := PassTile(textureFolder, run, name.0, name.1, remaining');
    }

    /** One step of a row: the tile at (row, column), after the `n` tiles
        before it in row-major order, all of which passed. */
    method RowTile(tiling: Option<Tiling>, fileName: string, textureFolder: string, runs: (nat, nat) -> TileRun,
                   row: nat, column: nat, remaining: int, ghost total: int, ghost n: nat,
                   ghost reports0: seq<int>, ghost totals0: Counters, ghost at: (nat, nat) -> Counters)
      returns (thrown: Option<ApplicationException>, remaining': int)
      requires Valid() && useTiling == tiling.Some? && shouldRun && exception.None?
      requires column < GridColumns(tiling) && n == TilesBefore(row, Width(GridColumns(tiling))) + column
      requires PassedBefore(useTiling, textureFolder, runs, GridColumns(tiling), row, column)
      requires CountersTable(at, useTiling, runs, totals0, GridColumns(tiling)) && CountersState() == at(row, column)
      requires remaining == total - n
      requires remainingTileReports == reports0 + Countdown(total, n)
      modifies this`objectCounter, this`geometryCounter, this`totalObjectCounter, this`totalGeometryCounter
      modifies this`shouldRun, this`isInterrupted, this`exception, this`effects, this`remainingTileReports
      modifies this`hasSplitter, this`hasDbPool, this`hasXlinkPool, this`dbPoolTerminated, this`xlinkPoolTerminated
      ensures Valid()
      ensures thrown == TileFailure(useTiling, runs(row, column), textureFolder, row, column)
      ensures remaining' == total - (n + Started(useTiling, runs(row, column)))
      ensures remainingTileReports == reports0 + Countdown(total, n + Started(useTiling, runs(row, column)))
      ensures thrown.None? ==> && Started(useTiling, runs(row, column)) == 1
                               && CountersState() == at(row, column + 1)
                               && (shouldRun ==> exception.None? && PassedBefore(useTiling, textureFolder, runs, GridColumns(tiling), row, column + 1))
                               && (!shouldRun ==> Stopped(useTiling, textureFolder, runs, row, column, exception))
    {
      ghost var columns := GridColumns(tiling);
      thrown, remaining' := VisitTile(tiling, fileName, textureFolder, runs, row, column, remaining, total, n, reports0, totals0, at);
      if thrown.None? && shouldRun {
        PassedBeforeStep(useTiling, textureFolder, runs, columns, row, column);
      }
    }

    /** One row of the tile loop, after the `n` tiles of the rows before
        it: its tiles in column order while the session goes on. Returns
        what a tile threw, if any, the remaining-tiles count and, as ghost,
        the passes started so far and the column of the tile that ended the
        loop, if one did. */
    method ProcessRow(tiling: Option<Tiling>, fileName: string, textureFolder: string, runs: (nat, nat) -> TileRun,
                      row: nat, remaining: int, ghost total: int, ghost n: nat, ghost reports0: seq<int>, ghost totals0: Counters,
                      ghost at: (nat, nat) -> Counters)
      returns (thrown: Option<ApplicationException>, remaining': int, ghost passes: nat, ghost last: Option<nat>)
      requires Valid() && useTiling == tiling.Some? && shouldRun && exception.None?
      requires row < GridRows(tiling) && n == TilesBefore(row, Width(GridColumns(tiling)))
      requires PassedBefore(useTiling, textureFolder, runs, GridColumns(tiling), row, 0)
      requires CountersTable(at, useTiling, runs, totals0, GridColumns(tiling)) && CountersState() == at(row, 0)
      requires remaining == total - n
      requires remainingTileReports == reports0 + Countdown(total, n)
      modifies this`objectCounter, this`geometryCounter, this`totalObjectCounter, this`totalGeometryCounter
      modifies this`shouldRun, this`isInterrupted, this`exception, this`effects, this`remainingTileReports
      modifies this`hasSplitter, this`hasDbPool, this`hasXlinkPool, this`dbPoolTerminated, this`xlinkPoolTerminated
      ensures Valid()
      ensures remaining' == total - passes
      ensures remainingTileReports == reports0 + Countdown(total, passes)
      ensures last.None? ==> && thrown.None? && shouldRun && exception.None?
                             && passes == n + Width(GridColumns(tiling))
                             && PassedBefore(useTiling, textureFolder, runs, GridColumns(tiling), row + 1, 0)
                             && CountersState() == at(row + 1, 0)
      ensures last.Some? ==> && last.value < GridColumns(tiling)
                             && passes == n + last.value + Started(useTiling, runs(row, last.value))
                             && PassedBefore(useTiling, textureFolder, runs, GridColumns(tiling), row, last.value)
      ensures thrown.Some? ==> last.Some? && thrown == TileFailure(useTiling, runs(row, last.value), textureFolder, row, last.value)
      ensures last.Some? && thrown.None? ==> && !shouldRun && Stopped(useTiling, textureFolder, runs, row, last.value, exception)
                                             && CountersState() == at(row, last.value + 1)
    {
      var columns := GridColumns(tiling);
      ghost var width := Width(columns);
      remaining', thrown, last, passes := remaining, None, None, n;
      var column: nat := 0;
      while shouldRun && column < columns
        invariant Valid() && useTiling == tiling.Some? && shouldRun && exception.None? && thrown.None?
        invariant column <= width && passes == n + column
        invariant remaining' == total - passes
        invariant remainingTileReports == reports0 + Countdown(total, passes)
        invariant PassedBefore(useTiling, textureFolder, runs, columns, row, column)
        invariant CountersState() == at(row, column)
      {
        thrown, remaining' := RowTile(tiling, fileName, textureFolder, runs, row, column, remaining', total, passes, reports0, totals0, at);
        passes := passes + Started(useTiling, runs(row, column));
        if thrown.Some? || !shouldRun {
          // the loop ends with this tile: it threw, or the session stopped
          last := Some(column);
          return;
        }
        column := column + 1;
      }
      PassedBeforeRowEnd(useTiling, textureFolder, runs, columns, row);
      CountersTableRowEnd(at, useTiling, runs, totals0, columns, row);
    }

    /** The tile loop: the tiles row by row, one pass each, while the
        session goes on. Returns the exception of the tile that threw, if
        any, and, as ghost, the passes started and the tile that ended the
        loop, if one did. The loop's counters are read off the table `at`. */
    method ProcessTiles(tiling: Option<Tiling>, fileName: string, textureFolder: string, runs: (nat, nat) -> TileRun,
                        ghost totals0: Counters, ghost at: (nat, nat) -> Counters)
      returns (thrown: Option<ApplicationException>, ghost passes: nat, ghost last: Option<(nat, nat)>)
      requires Valid() && shouldRun && exception.None?
      requires CountersTable(at, tiling.Some?, runs, totals0, GridColumns(tiling)) && CountersState() == at(0, 0)
      modifies this
      ensures useTiling == tiling.Some?
      ensures passes == Passes(useTiling, runs, GridRows(tiling), GridColumns(tiling), last)
      ensures remainingTileReports == old(remainingTileReports) + Countdown(GridRows(tiling) * GridColumns(tiling), passes)
      ensures last.None? ==> && thrown.None? && shouldRun && exception.None?
                             && PassedBefore(useTiling, textureFolder, runs, GridColumns(tiling), GridRows(tiling), 0)
                             && CountersState() == at(Width(GridRows(tiling)), 0)
      ensures last.Some? ==> && last.value.0 < GridRows(tiling) && last.value.1 < GridColumns(tiling)
                             && PassedBefore(useTiling, textureFolder, runs, GridColumns(tiling), last.value.0, last.value.1)
      ensures thrown.Some? ==> last.Some? && thrown == TileFailure(useTiling, runs(last.value.0, last.value.1), textureFolder, last.value.0, last.value.1)
      ensures last.Some? && thrown.None? ==> && !shouldRun && Stopped(useTiling, textureFolder, runs, last.value.0, last.value.1, exception)
                                             && CountersState() == at(last.value.0, last.value.1 + 1)
    {
      useTiling := tiling.Some?;
      var rows, columns := GridRows(tiling), GridColumns(tiling);
      var remainingTiles := rows * columns;
      ghost var total, reports0, width := remainingTiles, remainingTileReports, Width(columns);
      last, passes, thrown := None, 0, None;
      var row: nat := 0;
      while shouldRun && row < rows
        invariant Valid() && useTiling == tiling.Some? && shouldRun && exception.None? && thrown.None?
        invariant row <= Width(rows) && passes == TilesBefore(row, width)
        invariant remainingTiles == total - passes
        invariant remainingTileReports == reports0 + Countdown(total, passes)
        invariant PassedBefore(useTiling, textureFolder, runs, columns, row, 0)
        invariant CountersState() == at(row, 0)
      {
        ghost var rowLast;
        thrown, remainingTiles, passes, rowLast := ProcessRow(tiling, fileName, textureFolder, runs, row, remainingTiles, total, passes, reports0, totals0, at);
        if thrown.Some? || !shouldRun {
          // the loop ends with this row's tile that threw or stopped the session
          last := Some((row, rowLast.value));
          assert passes == Passes(useTiling, runs, rows, columns, last);
          return;
        }
        row := row + 1;
      }
      assert row == Width(rows);
      assert passes == Passes(useTiling, runs, rows, columns, last);
    }

    /** The tile loop, with its outcome and the counters it leaves stated
        outright: a tile that throws ends the loop with its exception;
        otherwise the session's outcome follows from whether it goes on and
        what it recorded. The counters it leaves are those of the position
        just past the last tile visited in the table `at` of `CountersBefore`:
        the tile counters cleared and, when tiling, the totals having taken the
        reports of every tile the loop visited. */
    method Process(tiling: Option<Tiling>, fileName: string, textureFolder: string, runs: (nat, nat) -> TileRun)
      returns (outcome: SessionOutcome, ghost passes: nat, ghost last: Option<(nat, nat)>, ghost at: (nat, nat) -> Counters)
      requires Valid() && shouldRun && exception.None?
      requires objectCounter == map[] && geometryCounter == map[]
      modifies this
      ensures useTiling == tiling.Some?
      ensures last.Some? ==> last.value.0 < GridRows(tiling) && last.value.1 < GridColumns(tiling)
      ensures last.None? ==> PassedBefore(useTiling, textureFolder, runs, GridColumns(tiling), GridRows(tiling), 0)
      ensures last.Some? ==> PassedBefore(useTiling, textureFolder, runs, GridColumns(tiling), last.value.0, last.value.1)
      ensures outcome == Returned(true) <==> last.None?
      ensures last.Some? ==> outcome == StopOutcome(useTiling, textureFolder, runs, last.value)
      ensures passes == Passes(useTiling, runs, GridRows(tiling), GridColumns(tiling), last)
      ensures remainingTileReports == old(remainingTileReports) + Countdown(GridRows(tiling) * GridColumns(tiling), passes)
      ensures outcome.Returned? ==> var end := LoopEnd(GridRows(tiling), last);
                                    CountersState() == at(end.0, end.1)
      ensures at == CountersTableOf(useTiling, runs, old(CountersState()), GridColumns(tiling))
    {
      ghost var totals0, columns := CountersState(), GridColumns(tiling);
      at := CountersTableOf(tiling.Some?, runs, totals0, columns);
      CountersTableOfIsTable(tiling.Some?, runs, totals0, columns);
      CountersTableStart(at, tiling.Some?, runs, totals0, columns);
      var thrown;
      thrown, passes, last := ProcessTiles(tiling, fileName, textureFolder, runs, totals0, at);
      outcome := if thrown.Some? then Thrown(thrown.value) else Finish(shouldRun, exception);
      if last.None? {
        assert outcome == Returned(true);
      } else if thrown.None? {
        assert outcome == Finish(false, StopRecord(runs(last.value.0, last.value.1)));
      }
    }

    /** The export session: an output file without a file name is refused
        before anything else; then the interrupts reported while the export
        prepares are handled; then the first preparation step that fails is
        thrown; otherwise an interrupt during the preparation skips the tile
        loop, and without one the tile loop runs and decides the outcome. */
    method DoExport(outputFile: Option<OutputPath>, prep: Preparation, prepInterrupts: seq<Option<Cause>>,
                    tiling: Option<Tiling>, runs: (nat, nat) -> TileRun)
      returns (outcome: SessionOutcome, ghost last: Option<(nat, nat)>)
      requires Valid() && shouldRun && exception.None?
      requires objectCounter == map[] && geometryCounter == map[]
      requires prep.tiling == tiling.Some?
      modifies this
      ensures CheckOutputFile(outputFile).Fail? ==>
                outcome == Thrown(CheckOutputFile(outputFile).error) && CountersState() == old(CountersState())
      ensures CheckOutputFile(outputFile).Pass? && PreparationFailure(prep).Some? ==>
                outcome == Thrown(PreparationFailure(prep).value) && CountersState() == old(CountersState())
      ensures CheckOutputFile(outputFile).Pass? && PreparationFailure(prep).None? && prepInterrupts != [] ==>
                && last.None? && CountersState() == old(CountersState())
                && outcome == if prepInterrupts[0].Some? then Thrown(AbortError(prepInterrupts[0].value)) else Returned(false)
      ensures outcome == Returned(true) <==>
                CheckOutputFile(outputFile).Pass? && PreparationFailure(prep).None? && prepInterrupts == [] && last.None?
      ensures last.Some? ==>
                && CheckOutputFile(outputFile).Pass? && PreparationFailure(prep).None? && prepInterrupts == []
                && last.value.0 < GridRows(tiling) && last.value.1 < GridColumns(tiling)
                && PassedBefore(prep.tiling, prep.textureFolder, runs, GridColumns(tiling), last.value.0, last.value.1)
                && outcome == StopOutcome(prep.tiling, prep.textureFolder, runs, last.value)
      ensures outcome == Returned(true) ==>
                PassedBefore(prep.tiling, prep.textureFolder, runs, GridColumns(tiling), GridRows(tiling), 0)
    {
      var checked := CheckOutputFile(outputFile);
      if checked.Fail? {
        return Thrown(checked.error), None;
      }
      // the handlers are registered: interrupts during the preparation are handled
      var events := InterruptsOf(prepInterrupts);
      ghost var counters0, control0 := CountersState(), ControlState();
      HandleEvents(events);
      CountInterruptsKeeps(useTiling, counters0, events);
      ControlEventsInterrupts(Existing(), control0, events);
      FirstOfInterrupts(prepInterrupts);
      var failure := PreparationFailure(prep);
      if failure.Some? {
        return Thrown(failure.value), None;
      }
      if !shouldRun {
        return Finish(shouldRun, exception), None;
      }
      ghost var passes, at;
      outcome, passes, last, at := Process(tiling, outputFile.value.fileName.value, prep.textureFolder, runs);
    }
  }
}

/** The rules of one export session, as functions of what its
    collaborators answer: the events workers report, what each tile pass
    acquires and where it fails, the teardown that follows every pass, the
    order tiles are visited in, and the session's outcome. The `Exporter`
    class carries these out step by step. */
module ExportSession {
  import opened Wrappers
  import opened Beans
  import opened ApplicationExceptions
  import opened Strings
  import opened TileNaming
  import opened ExportRules
  import opened ExportCounters

  // The messages of the exceptions a tile pass throws or records.
  const AbortMessage := "Aborting export due to errors."
  const WorkerPoolError := "Failed to start database export worker pool. Check the database connection pool settings."
  const CacheManagerError := "Failed to initialize internal cache manager."
  const IdCachesError := "Failed to initialize internal gml:id caches."
  const DatabaseQueryError := "Failed to query the database."
  const OutputWriteError := "Failed to write to output file."
  const UnexpectedError := "An unexpected error occurred."
  const PoolShutdownError := "Failed to shutdown worker pools."
  const CloseWriterError := "Failed to close output writer."
  const CloseFileError := "Failed to close output file."
  const IdCacheCleanError := "Failed to clean the gml:id caches."
  const CacheTablesCleanError := "Failed to clean the temporary cache."

  function CreateFileError(path: string): string
  {
    "Failed to create output file '" + path + "'."
  }

  function OpenFileError(path: string): string
  {
    "Failed to open file '" + path + "' for writing."
  }

  /** GML geometry classes, by name. */
  type GmlClass = string

  /** The events the session listens to: counter reports from the workers
      (object counts by object class id, geometry counts by GML class) and
      the interrupt raised when the export must stop. */
  datatype Event =
    | ObjectCounter(objects: map<int, int>)
    | GeometryCounter(geometries: map<GmlClass, int>)
    | Interrupt(cause: Option<Cause>)

  /** The cause carried by the first interrupt among the events, if any. */
  function FirstInterrupt(events: seq<Event>): (r: Option<Option<Cause>>)
    ensures r.None? <==> forall i :: 0 <= i < |events| ==> !events[i].Interrupt?
    ensures r.Some? ==> exists i :: && 0 <= i < |events| && events[i] == Interrupt(r.value)
                                    && forall j :: 0 <= j < i ==> !events[j].Interrupt?
  {
    if events == [] then None
    else if events[0].Interrupt? then Some(events[0].cause)
    else
      var r := FirstInterrupt(events[1..]);
      assert forall i :: 0 <= i < |events[1..]| ==> events[1..][i] == events[i + 1];
      assert r.Some? ==> exists i :: && 0 <= i < |events| && events[i] == Interrupt(r.value)
                                     && forall j :: 0 <= j < i ==> !events[j].Interrupt? by {
        if r.Some? {
          var k :| && 0 <= k < |events[1..]| && events[1..][k] == Interrupt(r.value)
                   && forall j :: 0 <= j < k ==> !events[1..][j].Interrupt?;
          assert events[k + 1] == Interrupt(r.value);
          assert forall j :: 0 <= j < k + 1 ==> !events[j].Interrupt? by {
            forall j | 0 <= j < k + 1 ensures !events[j].Interrupt? {
              if j > 0 { assert events[j] == events[1..][j - 1]; }
            }
          }
        }
      }
      r
  }

  lemma {:induction false} FirstInterruptSnoc(events: seq<Event>, e: Event)
    ensures FirstInterrupt(events + [e]) ==
              if FirstInterrupt(events).Some? then FirstInterrupt(events)
              else if e.Interrupt? then Some(e.cause) else None
  {
    if events == [] {
      assert [e][1..] == [];
    } else {
      assert (events + [e])[1..] == events[1..] + [e];
      FirstInterruptSnoc(events[1..], e);
    }
  }

  /** The first interrupt of two runs of events is the first run's, or the
      second run's when the first has none. */
  lemma {:induction false} FirstInterruptAppend(a: seq<Event>, b: seq<Event>)
    ensures FirstInterrupt(a + b) == if FirstInterrupt(a).Some? then FirstInterrupt(a) else FirstInterrupt(b)
  {
    if a != [] {
      assert (a + b)[0] == a[0];
      assert (a + b)[1..] == a[1..] + b;
      FirstInterruptAppend(a[1..], b);
    } else {
      assert a + b == b;
    }
  }

  /** The exception an interrupt with a cause records. */
  function AbortError(cause: Cause): (e: ApplicationException)
    ensures e.errorCode == Unknown && e.cause == Some(cause)
  {
    ExportError(AbortMessage, Some(cause))
  }

  /** The recorded exception after the session handles the events: only the
      first interrupt of the session counts, and it records its cause, if it
      carries one, unless an exception is already recorded. */
  function InterruptRecord(interrupted: bool, recorded: Option<ApplicationException>, events: seq<Event>): (r: Option<ApplicationException>)
    ensures interrupted ==> r == recorded
    ensures recorded.Some? ==> r == recorded
    ensures r != recorded <==> !interrupted && recorded.None? && FirstInterrupt(events).Some? && FirstInterrupt(events).value.Some?
  {
    match FirstInterrupt(events)
    case Some(Some(cause)) => if interrupted then recorded else FirstRecorded(recorded, [AbortError(cause)])
    case _ => recorded
  }

  /** Handling two runs of events one after the other records what handling
      their concatenation records. */
  lemma InterruptRecordAppend(interrupted: bool, recorded: Option<ApplicationException>, a: seq<Event>, b: seq<Event>)
    ensures InterruptRecord(interrupted || FirstInterrupt(a).Some?, InterruptRecord(interrupted, recorded, a), b)
            == InterruptRecord(interrupted, recorded, a + b)
  {
    FirstInterruptAppend(a, b);
  }

  /** One more event records the abort error only when it is the session's
      first interrupt and carries a cause. */
  lemma InterruptRecordSnoc(interrupted: bool, recorded: Option<ApplicationException>, events: seq<Event>, e: Event)
    ensures InterruptRecord(interrupted, recorded, events + [e]) ==
              if interrupted || FirstInterrupt(events).Some? || !e.Interrupt? || e.cause.None?
              then InterruptRecord(interrupted, recorded, events)
              else FirstRecorded(InterruptRecord(interrupted, recorded, events), [AbortError(e.cause.value)])
  {
    FirstInterruptSnoc(events, e);
  }

  /** The object-count reports among the events, in order. */
  function ObjectReports(events: seq<Event>): (r: seq<map<int, int>>)
    ensures |r| <= |events|
    ensures forall m :: m in r <==> ObjectCounter(m) in events
  {
    if events == [] then []
    else
      var e := events[|events| - 1];
      var init := events[..|events| - 1];
      assert events == init + [e];
      ObjectReports(init) + (if e.ObjectCounter? then [e.objects] else [])
  }

  /** The geometry-count reports among the events, in order. */
  function GeometryReports(events: seq<Event>): (r: seq<map<GmlClass, int>>)
    ensures |r| <= |events|
    ensures forall m :: m in r <==> GeometryCounter(m) in events
  {
    if events == [] then []
    else
      var e := events[|events| - 1];
      var init := events[..|events| - 1];
      assert events == init + [e];
      GeometryReports(init) + (if e.GeometryCounter? then [e.geometries] else [])
  }

  /** One more event adds its own report, if it is one. */
  lemma ReportsSnoc(events: seq<Event>, e: Event)
    ensures ObjectReports(events + [e]) == ObjectReports(events) + if e.ObjectCounter? then [e.objects] else []
    ensures GeometryReports(events + [e]) == GeometryReports(events) + if e.GeometryCounter? then [e.geometries] else []
  {
    assert (events + [e])[..|events|] == events;
  }

  /** A counter that has taken the reports of some events takes one more
      event's report, if it is one. */
  lemma CountersSnoc(objects: map<int, int>, geometries: map<GmlClass, int>, events: seq<Event>, e: Event)
    ensures MergeAll(objects, ObjectReports(events + [e])) ==
              if e.ObjectCounter? then Merge(MergeAll(objects, ObjectReports(events)), e.objects)
              else MergeAll(objects, ObjectReports(events))
    ensures MergeAll(geometries, GeometryReports(events + [e])) ==
              if e.GeometryCounter? then Merge(MergeAll(geometries, GeometryReports(events)), e.geometries)
              else MergeAll(geometries, GeometryReports(events))
  {
    ReportsSnoc(events, e);
    if e.ObjectCounter? {
      MergeAllSnoc(objects, ObjectReports(events), e.objects);
    } else {
      assert ObjectReports(events + [e]) == ObjectReports(events);
    }
    if e.GeometryCounter? {
      MergeAllSnoc(geometries, GeometryReports(events), e.geometries);
    } else {
      assert GeometryReports(events + [e]) == GeometryReports(events);
    }
  }

  /** The reports of two runs of events are those of the first run followed
      by those of the second. */
  lemma {:induction false} ReportsAppend(a: seq<Event>, b: seq<Event>)
    ensures ObjectReports(a + b) == ObjectReports(a) + ObjectReports(b)
    ensures GeometryReports(a + b) == GeometryReports(a) + GeometryReports(b)
  {
    if b == [] {
      assert a + b == a;
    } else {
      assert (a + b)[..|a + b| - 1] == a + b[..|b| - 1];
      ReportsAppend(a, b[..|b| - 1]);
    }
  }

  /** Calls the session makes on its collaborators, in the order made. */
  datatype Effect =
    | CreateOutputFile(folder: Option<string>, fileName: string)
    | StartQuery
    | ShutdownSplitter
    | DrainDbPool
    | DrainXlinkPool
    | CloseWriter
    | CloseFile
    | ShutdownNowXlinkPool
    | ShutdownNowDbPool
    | FlushEvents
    | ShutdownIdCaches
    | DropCacheTables

  /** Position of each call an interrupt makes in the order it makes
      them: the splitter first, then the database pool, then the xlink
      pool; any other call ranks after them. */
  function InterruptRank(e: Effect): nat
  {
    match e
    case ShutdownSplitter => 0
    case DrainDbPool => 1
    case DrainXlinkPool => 2
    case _ => 3
  }

  /** What the interrupt stops: the splitter and the queues of the pools
      the session has created. */
  function InterruptEffects(hasSplitter: bool, hasDbPool: bool, hasXlinkPool: bool): (r: seq<Effect>)
    ensures ShutdownSplitter in r <==> hasSplitter
    ensures DrainDbPool in r <==> hasDbPool
    ensures DrainXlinkPool in r <==> hasXlinkPool
  {
    (if hasSplitter then [ShutdownSplitter] else [])
    + (if hasDbPool then [DrainDbPool] else [])
    + (if hasXlinkPool then [DrainXlinkPool] else [])
  }

  /** The interrupt makes each of its calls once, in the order splitter,
      database pool, xlink pool, and no other call. */
  lemma InterruptEffectsOrdered(hasSplitter: bool, hasDbPool: bool, hasXlinkPool: bool)
    ensures var r := InterruptEffects(hasSplitter, hasDbPool, hasXlinkPool);
            && (forall i :: 0 <= i < |r| ==> InterruptRank(r[i]) < 3)
            && (forall i, j :: 0 <= i < j < |r| ==> InterruptRank(r[i]) < InterruptRank(r[j]))
  {
  }

  /** The session's counters: the tile's object and geometry counters and
      the session totals. */
  datatype Counters = Counters(
    objects: map<int, int>,
    geometries: map<GmlClass, int>,
    totalObjects: map<int, int>,
    totalGeometries: map<GmlClass, int>)

  /** Counting one event: a counter report goes into the tile counter and,
      when tiling, into the session total; an interrupt counts nothing. */
  function CountEvent(useTiling: bool, c: Counters, e: Event): Counters
  {
    match e
    case ObjectCounter(report) =>
      c.(objects := Merge(c.objects, report),
         totalObjects := if useTiling then Merge(c.totalObjects, report) else c.totalObjects)
    case GeometryCounter(report) =>
      c.(geometries := Merge(c.geometries, report),
         totalGeometries := if useTiling then Merge(c.totalGeometries, report) else c.totalGeometries)
    case Interrupt(_) => c
  }

  /** Counting the events one after the other. */
  function CountEvents(useTiling: bool, c: Counters, events: seq<Event>): Counters
  {
    if events == [] then c else CountEvent(useTiling, CountEvents(useTiling, c, events[..|events| - 1]), events[|events| - 1])
  }

  /** Counting a prefix of events one event longer. */
  lemma CountEventsSnoc(useTiling: bool, c: Counters, events: seq<Event>, i: int)
    requires 0 <= i < |events|
    ensures CountEvents(useTiling, c, events[..i + 1]) == CountEvent(useTiling, CountEvents(useTiling, c, events[..i]), events[i])
  {
    assert events[..i + 1][..i] == events[..i];
  }

  /** The object counters after a run of events have taken every
      object-count report of the run, in order; the total has too when
      tiling, and is untouched otherwise. */
  lemma {:induction false} CountEventsObjects(useTiling: bool, c: Counters, events: seq<Event>)
    ensures CountEvents(useTiling, c, events).objects == MergeAll(c.objects, ObjectReports(events))
    ensures CountEvents(useTiling, c, events).totalObjects ==
              if useTiling then MergeAll(c.totalObjects, ObjectReports(events)) else c.totalObjects
  {
    if events != [] {
      var init, e := events[..|events| - 1], events[|events| - 1];
      assert events == init + [e];
      CountEventsObjects(useTiling, c, init);
      CountersSnoc(c.objects, c.geometries, init, e);
      CountersSnoc(c.totalObjects, c.totalGeometries, init, e);
    }
  }

  /** The geometry counters after a run of events have taken every
      geometry-count report of the run, in order; the total has too when
      tiling, and is untouched otherwise. */
  lemma {:induction false} CountEventsGeometries(useTiling: bool, c: Counters, events: seq<Event>)
    ensures CountEvents(useTiling, c, events).geometries == MergeAll(c.geometries, GeometryReports(events))
    ensures CountEvents(useTiling, c, events).totalGeometries ==
              if useTiling then MergeAll(c.totalGeometries, GeometryReports(events)) else c.totalGeometries
  {
    if events != [] {
      var init, e := events[..|events| - 1], events[|events| - 1];
      assert events == init + [e];
      CountEventsGeometries(useTiling, c, init);
      CountersSnoc(c.objects, c.geometries, init, e);
      CountersSnoc(c.totalObjects, c.totalGeometries, init, e);
    }
  }

  /** Counting two runs of events one after the other is counting their
      concatenation. */
  lemma {:induction false} CountEventsAppend(useTiling: bool, c: Counters, a: seq<Event>, b: seq<Event>)
    ensures CountEvents(useTiling, CountEvents(useTiling, c, a), b) == CountEvents(useTiling, c, a + b)
  {
    if b == [] {
      assert a + b == a;
    } else {
      assert (a + b)[..|a + b| - 1] == a + b[..|b| - 1];
      CountEventsAppend(useTiling, c, a, b[..|b| - 1]);
    }
  }

  /** The interrupts reported while the export prepares, with their causes,
      as events. */
  function InterruptsOf(causes: seq<Option<Cause>>): (events: seq<Event>)
    ensures |events| == |causes|
    ensures forall i :: 0 <= i < |causes| ==> events[i] == Interrupt(causes[i])
  {
    seq(|causes|, i requires 0 <= i < |causes| => Interrupt(causes[i]))
  }

  /** Interrupts count nothing: the counters stay as they were. */
  lemma {:induction false} CountInterruptsKeeps(useTiling: bool, c: Counters, events: seq<Event>)
    requires forall i :: 0 <= i < |events| ==> events[i].Interrupt?
    ensures CountEvents(useTiling, c, events) == c
  {
    if events != [] {
      CountInterruptsKeeps(useTiling, c, events[..|events| - 1]);
    }
  }

  /** The first interrupt of a run of interrupts is the first of them, and
      the exception it records on a session that had none is the abort with
      its cause, if it carries one. */
  lemma FirstOfInterrupts(causes: seq<Option<Cause>>)
    ensures FirstInterrupt(InterruptsOf(causes)) == if causes == [] then None else Some(causes[0])
    ensures InterruptRecord(false, None, InterruptsOf(causes)) ==
              if causes != [] && causes[0].Some? then Some(AbortError(causes[0].value)) else None
  {
  }

  /** The part of the session that interrupts change: whether the session
      goes on, whether it was interrupted, the recorded exception and the
      calls made so far. */
  datatype Control = Control(
    shouldRun: bool,
    interrupted: bool,
    exception: Option<ApplicationException>,
    effects: seq<Effect>)

  /** Which of the splitter and the pools exist when an event comes. */
  datatype Stoppable = Stoppable(hasSplitter: bool, hasDbPool: bool, hasXlinkPool: bool)

  /** Reacting to one event: the session's first interrupt stops it,
      records its cause if it has one, stops the splitter and drains the
      pools that exist; a later interrupt and a counter report change
      nothing here. */
  function ControlEvent(s: Stoppable, c: Control, e: Event): Control
  {
    if !e.Interrupt? || c.interrupted then c
    else
      c.(shouldRun := false, interrupted := true,
         exception := if e.cause.Some? then FirstRecorded(c.exception, [AbortError(e.cause.value)]) else c.exception,
         effects := c.effects + InterruptEffects(s.hasSplitter, s.hasDbPool, s.hasXlinkPool))
  }

  /** Reacting to the events one after the other. */
  function ControlEvents(s: Stoppable, c: Control, events: seq<Event>): Control
  {
    if events == [] then c else ControlEvent(s, ControlEvents(s, c, events[..|events| - 1]), events[|events| - 1])
  }

  /** Reacting to a prefix of events one event longer. */
  lemma ControlEventsSnoc(s: Stoppable, c: Control, events: seq<Event>, i: int)
    requires 0 <= i < |events|
    ensures ControlEvents(s, c, events[..i + 1]) == ControlEvent(s, ControlEvents(s, c, events[..i]), events[i])
  {
    assert events[..i + 1][..i] == events[..i];
  }

  /** After a run of events the session is interrupted, and stopped, exactly
      when it was before or the run holds an interrupt; only the session's
      first interrupt records an exception and stops the splitter and the
      pools. */
  lemma {:induction false} ControlEventsInterrupts(s: Stoppable, c: Control, events: seq<Event>)
    requires c.interrupted ==> !c.shouldRun
    ensures ControlEvents(s, c, events).interrupted == (c.interrupted || FirstInterrupt(events).Some?)
    ensures ControlEvents(s, c, events).shouldRun == (c.shouldRun && FirstInterrupt(events).None?)
    ensures ControlEvents(s, c, events).exception == InterruptRecord(c.interrupted, c.exception, events)
    ensures ControlEvents(s, c, events).effects ==
              if !c.interrupted && FirstInterrupt(events).Some?
              then c.effects + InterruptEffects(s.hasSplitter, s.hasDbPool, s.hasXlinkPool)
              else c.effects
  {
    if events != [] {
      var init, e := events[..|events| - 1], events[|events| - 1];
      assert events == init + [e];
      ControlEventsInterrupts(s, c, init);
      FirstInterruptSnoc(init, e);
      InterruptRecordSnoc(c.interrupted, c.exception, init, e);
    }
  }

  /** How the database query of a pass can fail. */
  datatype QueryFailure = DatabaseFailure(cause: Cause) | WriteFailure(cause: Cause) | UnexpectedFailure(cause: Cause)

  /** The exception a failed query throws: a database failure, a failure
      to write the output, or any other failure, each with its own message. */
  function QueryError(failure: QueryFailure): ApplicationException
  {
    match failure
    case DatabaseFailure(cause) => ExportError(DatabaseQueryError, Some(cause))
    case WriteFailure(cause) => ExportError(OutputWriteError, Some(cause))
    case UnexpectedFailure(cause) => ExportError(UnexpectedError, Some(cause))
  }

  /** What the collaborators of one pass answer: the tile (or why it could
      not be computed), how the output path prints, the outcome of each step
      (a texture folder to create or None when none is needed), the size the
      worker pool reached, the events reported before and while the query
      runs, and the outcome of each teardown step. */
  datatype TileRun = TileRun(
    tile: Result<Extent, Cause>,
    outputPath: string,
    createFile: Outcome<Cause>,
    textureFolder: Option<Outcome<Cause>>,
    openWriter: Outcome<Cause>,
    cacheManager: Outcome<Cause>,
    idCaches: Outcome<Cause>,
    earlyEvents: seq<Event>,
    workerPoolSize: nat,
    queryEvents: seq<Event>,
    query: Outcome<QueryFailure>,
    dbPoolShutdown: Outcome<Cause>,
    xlinkPoolShutdown: Outcome<Cause>,
    closeWriter: Outcome<Cause>,
    closeFile: Outcome<Cause>,
    idCacheShutdown: Outcome<Cause>,
    cacheTablesDrop: Outcome<Cause>)

  /** The pass creates its worker pools. */
  predicate ReachesPools(run: TileRun)
  {
    && run.createFile.Pass?
    && (run.textureFolder.None? || run.textureFolder.value.Pass?)
    && run.openWriter.Pass?
    && run.cacheManager.Pass?
    && run.idCaches.Pass?
  }

  /** The pass gets past the worker-pool check. */
  predicate ReachesQuery(run: TileRun)
  {
    ReachesPools(run) && run.workerPoolSize > 0
  }

  /** The query is started: it is reached and no interrupt stopped the
      session first. */
  predicate QueryRuns(run: TileRun, shouldRun: bool)
  {
    ReachesQuery(run) && shouldRun && FirstInterrupt(run.earlyEvents).None?
  }

  /** The pass reaches the graceful shutdown of its pools. */
  predicate ReachesShutdown(run: TileRun, shouldRun: bool)
  {
    ReachesQuery(run) && (!QueryRuns(run, shouldRun) || run.query.Pass?)
  }

  /** The events the session handles during a pass. */
  function HandledEvents(run: TileRun, shouldRun: bool): seq<Event>
  {
    (if ReachesPools(run) then run.earlyEvents else [])
    + (if QueryRuns(run, shouldRun) then run.queryEvents else [])
  }

  /** The calls a pass makes on the splitter and the pools between creating
      its output file and its teardown: the interrupt's stops, when the first
      interrupt of the session comes during the pass, and the query start.
      The pools exist once the pass reaches them; the splitter exists from
      the query on, or from an earlier pass. */
  function PassEffects(run: TileRun, hasSplitter: bool): seq<Effect>
  {
    if !ReachesPools(run) then []
    else if FirstInterrupt(run.earlyEvents).Some? then InterruptEffects(hasSplitter, true, true)
    else if run.workerPoolSize == 0 then []
    else [StartQuery] + if FirstInterrupt(run.queryEvents).Some? then InterruptEffects(true, true, true) else []
  }

  /** A pass starts the query exactly when the query runs, and makes no
      call on the splitter or the pools when it does not reach the pools. */
  lemma PassEffectsStartQuery(run: TileRun, hasSplitter: bool)
    ensures StartQuery in PassEffects(run, hasSplitter) <==> QueryRuns(run, true)
    ensures !ReachesPools(run) ==> PassEffects(run, hasSplitter) == []
  {
    var r := PassEffects(run, hasSplitter);
    if QueryRuns(run, true) {
      assert r[0] == StartQuery;
    }
  }

  /** After a run of events the session goes on exactly when it did before
      and the run holds no interrupt. */
  lemma ControlEventsShouldRun(s: Stoppable, c: Control, events: seq<Event>)
    requires c.interrupted ==> !c.shouldRun
    ensures ControlEvents(s, c, events).shouldRun == (c.shouldRun && FirstInterrupt(events).None?)
  {
    ControlEventsInterrupts(s, c, events);
  }

  /** The control part of a pass that reaches its pools: the session
      reacts to the pools' events with the splitter as it was; when a worker
      started and no interrupt stopped the session, the query starts and the
      session reacts to its events with the splitter present. */
  function PassControl(hasSplitter: bool, c: Control, run: TileRun): Control
  {
    var c1 := ControlEvents(Stoppable(hasSplitter, true, true), c, run.earlyEvents);
    if run.workerPoolSize > 0 && c1.shouldRun
    then ControlEvents(Stoppable(true, true, true), c1.(effects := c1.effects + [StartQuery]), run.queryEvents)
    else c1
  }

  /** The session goes on after a pass exactly when none of the events it
      handled is an interrupt, and the first interrupt records its cause. */
  lemma PassControlStops(hasSplitter: bool, c: Control, run: TileRun)
    requires ReachesPools(run) && c.shouldRun && !c.interrupted
    ensures var r := PassControl(hasSplitter, c, run);
            var events := HandledEvents(run, true);
            && r.shouldRun == FirstInterrupt(events).None?
            && r.interrupted == !r.shouldRun
            && r.exception == InterruptRecord(false, c.exception, events)
  {
    var early, during := run.earlyEvents, run.queryEvents;
    var c1 := ControlEvents(Stoppable(hasSplitter, true, true), c, early);
    ControlEventsInterrupts(Stoppable(hasSplitter, true, true), c, early);
    if run.workerPoolSize > 0 && c1.shouldRun {
      ControlEventsInterrupts(Stoppable(true, true, true), c1.(effects := c1.effects + [StartQuery]), during);
      assert HandledEvents(run, true) == early + during;
      FirstInterruptAppend(early, during);
      InterruptRecordAppend(false, c.exception, early, during);
    } else {
      assert HandledEvents(run, true) == early;
    }
  }

  /** The calls a pass makes on the splitter and the pools are those of
      `PassEffects`. */
  lemma PassControlEffects(hasSplitter: bool, c: Control, run: TileRun)
    requires ReachesPools(run) && c.shouldRun && !c.interrupted
    ensures PassControl(hasSplitter, c, run).effects == c.effects + PassEffects(run, hasSplitter)
  {
    var early, during := run.earlyEvents, run.queryEvents;
    var c1 := ControlEvents(Stoppable(hasSplitter, true, true), c, early);
    ControlEventsInterrupts(Stoppable(hasSplitter, true, true), c, early);
    if FirstInterrupt(early).Some? {
      assert PassControl(hasSplitter, c, run) == c1;
      assert PassEffects(run, hasSplitter) == InterruptEffects(hasSplitter, true, true);
    } else if run.workerPoolSize == 0 {
      assert PassControl(hasSplitter, c, run) == c1;
      assert PassEffects(run, hasSplitter) == [];
      assert c.effects + [] == c.effects;
    } else {
      var c2 := c1.(effects := c.effects + [StartQuery]);
      assert PassControl(hasSplitter, c, run) == ControlEvents(Stoppable(true, true, true), c2, during);
      QueryEventsEffects(c2, during, c.effects);
    }
  }

  /** The calls made while the query runs follow the query's start. */
  lemma QueryEventsEffects(c: Control, during: seq<Event>, before: seq<Effect>)
    requires !c.interrupted && c.effects == before + [StartQuery]
    ensures ControlEvents(Stoppable(true, true, true), c, during).effects ==
              before + ([StartQuery] + if FirstInterrupt(during).Some? then InterruptEffects(true, true, true) else [])
  {
    ControlEventsInterrupts(Stoppable(true, true, true), c, during);
    var x := if FirstInterrupt(during).Some? then InterruptEffects(true, true, true) else [];
    assert before + [StartQuery] + x == before + ([StartQuery] + x);
  }

  /** Which of the pass's resources exist (are non-null) at teardown. */
  datatype Acquired = Acquired(writer: bool, file: bool, idCaches: bool, cacheTables: bool)

  /** The resources a pass acquires: the output file, then the writer, then
      the cache-table manager together with the id-cache manager. */
  function AcquiredBy(run: TileRun): (a: Acquired)
    ensures a.file <==> run.createFile.Pass?
    ensures a.writer ==> a.file
    ensures a.cacheTables ==> a.writer
    ensures a.idCaches <==> a.cacheTables
    ensures ReachesPools(run) ==> a == Acquired(true, true, true, true)
  {
    var file := run.createFile.Pass?;
    var writer := file && (run.textureFolder.None? || run.textureFolder.value.Pass?) && run.openWriter.Pass?;
    var caches := writer && run.cacheManager.Pass?;
    Acquired(writer, file, caches, caches)
  }

  /** The exception a pass throws, if any: the first step that fails. */
  function PassFailure(run: TileRun, textureFolder: string, shouldRun: bool): (r: Option<ApplicationException>)
    ensures r.None? <==> ReachesShutdown(run, shouldRun) && run.dbPoolShutdown.Pass? && run.xlinkPoolShutdown.Pass?
    ensures r.Some? ==> r.value.errorCode == Unknown
    ensures run.createFile.Fail? ==> r == Some(ExportError(CreateFileError(run.outputPath), Some(run.createFile.error)))
    ensures ReachesPools(run) && run.workerPoolSize == 0 ==>
              r == Some(ExportError(WorkerPoolError, None))
  {
    if run.createFile.Fail? then
      Some(ExportError(CreateFileError(run.outputPath), Some(run.createFile.error)))
    else if run.textureFolder.Some? && run.textureFolder.value.Fail? then
      Some(ExportError(TextureFolderError(textureFolder), Some(run.textureFolder.value.error)))
    else if run.openWriter.Fail? then
      Some(ExportError(OpenFileError(run.outputPath), Some(run.openWriter.error)))
    else if run.cacheManager.Fail? then
      Some(ExportError(CacheManagerError, Some(run.cacheManager.error)))
    else if run.idCaches.Fail? then
      Some(ExportError(IdCachesError, Some(run.idCaches.error)))
    else WorkersFailure(run, shouldRun)
  }

  /** The exception a pass throws once its pools exist: no database worker
      started, the query failed, or a pool did not shut down. */
  function WorkersFailure(run: TileRun, shouldRun: bool): Option<ApplicationException>
  {
    if run.workerPoolSize == 0 then
      Some(ExportError(WorkerPoolError, None))
    else if QueryRuns(run, shouldRun) && run.query.Fail? then
      Some(QueryError(run.query.error))
    else ShutdownFailure(run)
  }

  /** The exception the graceful shutdown of the pools throws: the database
      pool is waited for first, then the xlink pool. */
  function ShutdownFailure(run: TileRun): Option<ApplicationException>
  {
    if run.dbPoolShutdown.Fail? then
      Some(ExportError(PoolShutdownError, Some(run.dbPoolShutdown.error)))
    else if run.xlinkPoolShutdown.Fail? then
      Some(ExportError(PoolShutdownError, Some(run.xlinkPoolShutdown.error)))
    else None
  }

  /** A teardown call that is made only when its condition holds. */
  function Step(made: bool, e: Effect): seq<Effect>
  {
    if made then [e] else []
  }

  /** The teardown calls, in the order made: close the writer, then the
      file, stop pools that are still running, flush the events, then shut
      down the id caches and drop the cache tables. Only what exists is
      closed; the event flush always happens. */
  function TeardownEffects(acquired: Acquired, stopXlinkPool: bool, stopDbPool: bool): seq<Effect>
  {
    TeardownHead(acquired, stopXlinkPool, stopDbPool) + [FlushEvents]
    + Step(acquired.idCaches, ShutdownIdCaches) + Step(acquired.cacheTables, DropCacheTables)
  }

  /** The teardown calls made before the events are flushed. */
  function TeardownHead(acquired: Acquired, stopXlinkPool: bool, stopDbPool: bool): seq<Effect>
  {
    Step(acquired.writer, CloseWriter) + Step(acquired.file, CloseFile)
    + Step(stopXlinkPool, ShutdownNowXlinkPool) + Step(stopDbPool, ShutdownNowDbPool)
  }

  /** Position of each teardown call in the fixed teardown order. */
  function TeardownRank(e: Effect): nat
  {
    match e
    case CloseWriter => 0
    case CloseFile => 1
    case ShutdownNowXlinkPool => 2
    case ShutdownNowDbPool => 3
    case FlushEvents => 4
    case ShutdownIdCaches => 5
    case DropCacheTables => 6
    case _ => 7
  }

  /** Each call has a higher teardown rank than the one just before it. */
  predicate Ascending(t: seq<Effect>)
  {
    |t| <= 1 || (Ascending(t[..|t| - 1]) && TeardownRank(t[|t| - 2]) < TeardownRank(t[|t| - 1]))
  }

  /** The effects come in strictly increasing teardown rank. */
  predicate InTeardownOrder(t: seq<Effect>)
  {
    forall i, j :: 0 <= i < j < |t| ==> TeardownRank(t[i]) < TeardownRank(t[j])
  }

  /** Ranks rising from each call to the next rise over the whole sequence. */
  lemma {:induction false} AscendingInOrder(t: seq<Effect>)
    requires Ascending(t)
    ensures InTeardownOrder(t)
  {
    if |t| > 1 {
      var p := t[..|t| - 1];
      AscendingInOrder(p);
      forall i, j | 0 <= i < j < |t|
        ensures TeardownRank(t[i]) < TeardownRank(t[j])
      {
        if j < |t| - 1 {
          assert t[i] == p[i] && t[j] == p[j];
        } else if i < |t| - 2 {
          assert t[i] == p[i] && t[|t| - 2] == p[|p| - 1];
        }
      }
    }
  }

  /** Appending a call whose rank exceeds a bound on the last rank keeps the
      calls ascending, and the new last rank is bounded by the call's. */
  lemma StepKeepsAscending(t: seq<Effect>, made: bool, e: Effect, bound: nat)
    requires Ascending(t)
    requires t != [] ==> TeardownRank(t[|t| - 1]) <= bound
    requires bound < TeardownRank(e)
    ensures Ascending(t + Step(made, e))
    ensures t + Step(made, e) != [] ==> TeardownRank((t + Step(made, e))[|t + Step(made, e)| - 1]) <= TeardownRank(e)
  {
    if made {
      var u := t + [e];
      assert u[..|u| - 1] == t;
      assert Step(made, e) == [e];
      assert u[|u| - 1] == e;
      if t != [] {
        assert u[|u| - 2] == t[|t| - 1];
      }
    } else {
      assert t + Step(made, e) == t;
    }
  }

  /** The calls before the flush come in teardown order. */
  lemma TeardownHeadOrder(acquired: Acquired, stopXlinkPool: bool, stopDbPool: bool)
    ensures var h := TeardownHead(acquired, stopXlinkPool, stopDbPool);
            Ascending(h) && (h != [] ==> TeardownRank(h[|h| - 1]) <= TeardownRank(ShutdownNowDbPool))
  {
    var t1 := Step(acquired.writer, CloseWriter);
    assert t1 != [] ==> TeardownRank(t1[|t1| - 1]) <= 0;
    StepKeepsAscending(t1, acquired.file, CloseFile, 0);
    var t2 := t1 + Step(acquired.file, CloseFile);
    StepKeepsAscending(t2, stopXlinkPool, ShutdownNowXlinkPool, 1);
    var t3 := t2 + Step(stopXlinkPool, ShutdownNowXlinkPool);
    StepKeepsAscending(t3, stopDbPool, ShutdownNowDbPool, 2);
  }

  /** The teardown order is fixed (the writer is closed before the file it
      writes to, the pools are stopped before the events are flushed, the
      caches go last), so every call happens at most once; the events are
      always flushed. */
  lemma TeardownOrder(acquired: Acquired, stopXlinkPool: bool, stopDbPool: bool)
    ensures var t := TeardownEffects(acquired, stopXlinkPool, stopDbPool);
            InTeardownOrder(t) && FlushEvents in t
  {
    TeardownAscending(acquired, stopXlinkPool, stopDbPool);
    var t := TeardownEffects(acquired, stopXlinkPool, stopDbPool);
    AscendingInOrder(t);
    assert t[|TeardownHead(acquired, stopXlinkPool, stopDbPool)|] == FlushEvents;
  }

  /** Each teardown call ranks above the one before it. */
  lemma TeardownAscending(acquired: Acquired, stopXlinkPool: bool, stopDbPool: bool)
    ensures Ascending(TeardownEffects(acquired, stopXlinkPool, stopDbPool))
  {
    TeardownHeadOrder(acquired, stopXlinkPool, stopDbPool);
    var h := TeardownHead(acquired, stopXlinkPool, stopDbPool);
    StepKeepsAscending(h, true, FlushEvents, 3);
    assert Step(true, FlushEvents) == [FlushEvents];
    var t5 := h + [FlushEvents];
    StepKeepsAscending(t5, acquired.idCaches, ShutdownIdCaches, 4);
    var t6 := t5 + Step(acquired.idCaches, ShutdownIdCaches);
    StepKeepsAscending(t6, acquired.cacheTables, DropCacheTables, 5);
  }

  /** Whether teardown makes a call: a close when what it closes exists, a
      stop when what it stops is still running; the flush always. */
  function TeardownMakes(acquired: Acquired, stopXlinkPool: bool, stopDbPool: bool, e: Effect): bool
  {
    match e
    case CloseWriter => acquired.writer
    case CloseFile => acquired.file
    case ShutdownNowXlinkPool => stopXlinkPool
    case ShutdownNowDbPool => stopDbPool
    case FlushEvents => true
    case ShutdownIdCaches => acquired.idCaches
    case DropCacheTables => acquired.cacheTables
    case _ => false
  }

  /** A call is in a step exactly when the step is made and is that call. */
  lemma StepHas(made: bool, e: Effect, x: Effect)
    ensures x in Step(made, e) <==> made && x == e
  {
  }

  /** Teardown makes a call exactly when what it closes exists or what it
      stops is still running, and no other calls. */
  lemma TeardownCalls(acquired: Acquired, stopXlinkPool: bool, stopDbPool: bool, e: Effect)
    ensures e in TeardownEffects(acquired, stopXlinkPool, stopDbPool) <==> TeardownMakes(acquired, stopXlinkPool, stopDbPool, e)
  {
    StepHas(acquired.writer, CloseWriter, e);
    StepHas(acquired.file, CloseFile, e);
    StepHas(stopXlinkPool, ShutdownNowXlinkPool, e);
    StepHas(stopDbPool, ShutdownNowDbPool, e);
    StepHas(acquired.idCaches, ShutdownIdCaches, e);
    StepHas(acquired.cacheTables, DropCacheTables, e);
  }

  /** The exception one teardown step records: one when the step is made
      and fails. */
  function StepFailure(made: bool, outcome: Outcome<Cause>, message: string): seq<ApplicationException>
  {
    if made && outcome.Fail? then [ExportError(message, Some(outcome.error))] else []
  }

  /** The exceptions the teardown steps record, in order. */
  function TeardownFailures(acquired: Acquired, run: TileRun): (r: seq<ApplicationException>)
    ensures r == [] <==> (acquired.writer ==> run.closeWriter.Pass?) && (acquired.file ==> run.closeFile.Pass?)
                         && (acquired.idCaches ==> run.idCacheShutdown.Pass?)
                         && (acquired.cacheTables ==> run.cacheTablesDrop.Pass?)
  {
    StepFailure(acquired.writer, run.closeWriter, CloseWriterError)
    + StepFailure(acquired.file, run.closeFile, CloseFileError)
    + StepFailure(acquired.idCaches, run.idCacheShutdown, IdCacheCleanError)
    + StepFailure(acquired.cacheTables, run.cacheTablesDrop, CacheTablesCleanError)
  }

  /** One teardown step on the control state: when made, the call is
      recorded, and a failure records its exception (unless one is
      recorded already) and stops the session. */
  function CloseStepControl(c: Control, made: bool, call: Effect, outcome: Outcome<Cause>, message: string): Control
  {
    if !made then c
    else if outcome.Pass? then c.(effects := c.effects + [call])
    else c.(effects := c.effects + [call], shouldRun := false,
            exception := FirstRecorded(c.exception, [ExportError(message, Some(outcome.error))]))
  }

  /** Closing the writer, then the file. */
  function CloseOutputControl(c: Control, acquired: Acquired, run: TileRun): Control
  {
    var c1 := CloseStepControl(c, acquired.writer, CloseWriter, run.closeWriter, CloseWriterError);
    CloseStepControl(c1, acquired.file, CloseFile, run.closeFile, CloseFileError)
  }

  /** Shutting down the pools still running, then flushing the events. */
  function StopPoolsControl(c: Control, stopXlinkPool: bool, stopDbPool: bool): Control
  {
    c.(effects := c.effects + Step(stopXlinkPool, ShutdownNowXlinkPool) + Step(stopDbPool, ShutdownNowDbPool) + [FlushEvents])
  }

  /** Shutting down the id caches, then dropping the cache tables. */
  function CleanCachesControl(c: Control, acquired: Acquired, run: TileRun): Control
  {
    var c1 := CloseStepControl(c, acquired.idCaches, ShutdownIdCaches, run.idCacheShutdown, IdCacheCleanError);
    CloseStepControl(c1, acquired.cacheTables, DropCacheTables, run.cacheTablesDrop, CacheTablesCleanError)
  }

  /** The whole teardown on the control state: close the writer and the
      file, stop the pools still running, flush the events, shut down the
      id caches and drop the cache tables. */
  function TeardownControl(c: Control, acquired: Acquired, run: TileRun, stopXlinkPool: bool, stopDbPool: bool): Control
  {
    CleanCachesControl(StopPoolsControl(CloseOutputControl(c, acquired, run), stopXlinkPool, stopDbPool), acquired, run)
  }

  /** A teardown step appends its call when made, records its failure
      first-wins, and stops the session exactly when it fails. */
  lemma CloseStepFacts(c: Control, made: bool, call: Effect, outcome: Outcome<Cause>, message: string)
    ensures var r := CloseStepControl(c, made, call, outcome, message);
            && r.effects == c.effects + Step(made, call)
            && r.exception == FirstRecorded(c.exception, StepFailure(made, outcome, message))
            && r.shouldRun == (c.shouldRun && StepFailure(made, outcome, message) == [])
            && r.interrupted == c.interrupted
  {
    if !made {
      assert c.effects + Step(made, call) == c.effects;
    }
  }

  /** The teardown makes the calls of `TeardownEffects`, records its
      failures first-wins after what was recorded before, and stops the
      session exactly when one of its steps fails; it never changes whether
      the session was interrupted. */
  lemma TeardownControlFacts(c: Control, acquired: Acquired, run: TileRun, stopXlinkPool: bool, stopDbPool: bool)
    ensures var r := TeardownControl(c, acquired, run, stopXlinkPool, stopDbPool);
            && r.effects == c.effects + TeardownEffects(acquired, stopXlinkPool, stopDbPool)
            && r.exception == FirstRecorded(c.exception, TeardownFailures(acquired, run))
            && r.shouldRun == (c.shouldRun && TeardownFailures(acquired, run) == [])
            && r.interrupted == c.interrupted
  {
    var c1 := CloseStepControl(c, acquired.writer, CloseWriter, run.closeWriter, CloseWriterError);
    var c3 := StopPoolsControl(CloseOutputControl(c, acquired, run), stopXlinkPool, stopDbPool);
    var c4 := CloseStepControl(c3, acquired.idCaches, ShutdownIdCaches, run.idCacheShutdown, IdCacheCleanError);
    CloseStepFacts(c, acquired.writer, CloseWriter, run.closeWriter, CloseWriterError);
    CloseStepFacts(c1, acquired.file, CloseFile, run.closeFile, CloseFileError);
    CloseStepFacts(c3, acquired.idCaches, ShutdownIdCaches, run.idCacheShutdown, IdCacheCleanError);
    CloseStepFacts(c4, acquired.cacheTables, DropCacheTables, run.cacheTablesDrop, CacheTablesCleanError);
    TeardownEffectsSteps(c.effects, acquired, stopXlinkPool, stopDbPool);
    TeardownFailuresSteps(c.exception, acquired, run);
  }

  /** The teardown calls appended one step at a time. */
  lemma TeardownEffectsSteps(before: seq<Effect>, acquired: Acquired, stopXlinkPool: bool, stopDbPool: bool)
    ensures before + TeardownEffects(acquired, stopXlinkPool, stopDbPool) ==
            before + Step(acquired.writer, CloseWriter) + Step(acquired.file, CloseFile)
            + Step(stopXlinkPool, ShutdownNowXlinkPool) + Step(stopDbPool, ShutdownNowDbPool) + [FlushEvents]
            + Step(acquired.idCaches, ShutdownIdCaches) + Step(acquired.cacheTables, DropCacheTables)
  {
    var s1, s2, s3, s4 := Step(acquired.writer, CloseWriter), Step(acquired.file, CloseFile),
                          Step(stopXlinkPool, ShutdownNowXlinkPool), Step(stopDbPool, ShutdownNowDbPool);
    var s5, s6 := Step(acquired.idCaches, ShutdownIdCaches), Step(acquired.cacheTables, DropCacheTables);
    calc {
      before + TeardownEffects(acquired, stopXlinkPool, stopDbPool);
      before + (s1 + s2 + s3 + s4 + [FlushEvents] + s5 + s6);
      { SeqAssoc(before, s1 + s2 + s3 + s4 + [FlushEvents] + s5, s6);
        SeqAssoc(before, s1 + s2 + s3 + s4 + [FlushEvents], s5);
        SeqAssoc(before, s1 + s2 + s3 + s4, [FlushEvents]);
        SeqAssoc(before, s1 + s2 + s3, s4);
        SeqAssoc(before, s1 + s2, s3);
        SeqAssoc(before, s1, s2); }
      before + s1 + s2 + s3 + s4 + [FlushEvents] + s5 + s6;
    }
  }

  /** Concatenation is associative. */
  lemma SeqAssoc<T>(a: seq<T>, b: seq<T>, c: seq<T>)
    ensures a + (b + c) == a + b + c
  {
  }

  /** The teardown's failures recorded one step at a time: the first one
      is recorded unless an exception already was, and the session stops
      exactly when one of them happens. */
  lemma TeardownFailuresSteps(recorded: Option<ApplicationException>, acquired: Acquired, run: TileRun)
    ensures var f1, f2 := StepFailure(acquired.writer, run.closeWriter, CloseWriterError), StepFailure(acquired.file, run.closeFile, CloseFileError);
            var f3 := StepFailure(acquired.idCaches, run.idCacheShutdown, IdCacheCleanError);
            var f4 := StepFailure(acquired.cacheTables, run.cacheTablesDrop, CacheTablesCleanError);
            && FirstRecorded(recorded, TeardownFailures(acquired, run)) ==
               FirstRecorded(FirstRecorded(FirstRecorded(FirstRecorded(recorded, f1), f2), f3), f4)
            && (TeardownFailures(acquired, run) == [] <==> f1 == [] && f2 == [] && f3 == [] && f4 == [])
  {
    var f1, f2 := StepFailure(acquired.writer, run.closeWriter, CloseWriterError), StepFailure(acquired.file, run.closeFile, CloseFileError);
    var f3 := StepFailure(acquired.idCaches, run.idCacheShutdown, IdCacheCleanError);
    var f4 := StepFailure(acquired.cacheTables, run.cacheTablesDrop, CacheTablesCleanError);
    FirstRecordedAppend(recorded, f1, f2);
    FirstRecordedAppend(recorded, f1 + f2, f3);
    FirstRecordedAppend(recorded, f1 + f2 + f3, f4);
  }

  /** Whether the xlink pool still runs when a pass is torn down: the
      pass's own pool unless both pools shut down gracefully, or, when the
      pass did not get to its pools, an earlier pass's pool that did not
      terminate. */
  function XlinkPoolRunning(run: TileRun, hadPool: bool, terminated: bool): bool
  {
    if ReachesPools(run) then !(ReachesShutdown(run, true) && run.dbPoolShutdown.Pass? && run.xlinkPoolShutdown.Pass?)
    else hadPool && !terminated
  }

  /** Whether the database pool still runs when a pass is torn down, in
      the same terms. */
  function DbPoolRunning(run: TileRun, hadPool: bool, terminated: bool): bool
  {
    if ReachesPools(run) then !(ReachesShutdown(run, true) && run.dbPoolShutdown.Pass?)
    else hadPool && !terminated
  }

  /** A pass that throws nothing leaves no pool running, so its teardown
      does not shut a pool down. */
  lemma CleanPassStopsPools(run: TileRun, textureFolder: string, hadXlinkPool: bool, xlinkTerminated: bool,
                            hadDbPool: bool, dbTerminated: bool)
    requires PassFailure(run, textureFolder, true).None?
    ensures !XlinkPoolRunning(run, hadXlinkPool, xlinkTerminated) && !DbPoolRunning(run, hadDbPool, dbTerminated)
  {
    assert ReachesPools(run);
  }

  /** The control part of a whole pass before its teardown: a pass that
      does not reach its pools handles no event and changes nothing here. */
  function PassState(hasSplitter: bool, c: Control, run: TileRun): Control
  {
    if ReachesPools(run) then PassControl(hasSplitter, c, run) else c
  }

  /** Before its teardown, a pass has stopped the session exactly when one
      of the events it handled is an interrupt; the first interrupt records
      its cause; the calls on the splitter and pools are `PassEffects`. */
  lemma PassStateFacts(hasSplitter: bool, c: Control, run: TileRun)
    requires c.shouldRun && !c.interrupted
    ensures var r := PassState(hasSplitter, c, run);
            var events := HandledEvents(run, true);
            && r.shouldRun == FirstInterrupt(events).None?
            && r.interrupted == !r.shouldRun
            && r.exception == InterruptRecord(false, c.exception, events)
            && r.effects == c.effects + PassEffects(run, hasSplitter)
  {
    if ReachesPools(run) {
      PassControlStops(hasSplitter, c, run);
      PassControlEffects(hasSplitter, c, run);
    } else {
      assert HandledEvents(run, true) == [];
      assert c.effects + PassEffects(run, hasSplitter) == c.effects;
    }
  }

  /** Which of the splitter and the pools exist, and whether each pool has
      terminated after its graceful shutdown. */
  datatype Pools = Pools(hasSplitter: bool, hasDbPool: bool, hasXlinkPool: bool, dbPoolTerminated: bool, xlinkPoolTerminated: bool)

  /** The pools after a pass: a pass that reaches its pools creates both
      (and the splitter when a worker started); a pool has terminated when
      the pass waited for it successfully. */
  function PassPools(p: Pools, run: TileRun): Pools
  {
    if !ReachesPools(run) then p
    else Pools(p.hasSplitter || run.workerPoolSize > 0, true, true,
               ReachesShutdown(run, true) && run.dbPoolShutdown.Pass?,
               ReachesShutdown(run, true) && run.dbPoolShutdown.Pass? && run.xlinkPoolShutdown.Pass?)
  }

  /** A whole pass on the control state: the output file is created, the
      pass runs, then the teardown stops the pools still running. */
  function TileControl(c: Control, p: Pools, run: TileRun, folder: Option<string>, fileName: string): Control
  {
    var q := PassPools(p, run);
    TeardownControl(PassState(p.hasSplitter, c.(effects := c.effects + [CreateOutputFile(folder, fileName)]), run),
                    AcquiredBy(run), run, q.hasXlinkPool && !q.xlinkPoolTerminated, q.hasDbPool && !q.dbPoolTerminated)
  }

  /** After a whole pass the session was interrupted exactly when an event
      it handled is an interrupt; it goes on exactly when it was not
      interrupted and no teardown step failed; the interrupt's cause is
      recorded before the teardown's failures, first-wins; the calls made
      are the file creation, the pass's calls on the splitter and pools, and
      the teardown's. */
  lemma TileControlFacts(c: Control, p: Pools, run: TileRun, folder: Option<string>, fileName: string)
    requires c.shouldRun && !c.interrupted
    ensures var r := TileControl(c, p, run, folder, fileName);
            var events := HandledEvents(run, true);
            var failures := TeardownFailures(AcquiredBy(run), run);
            && r.interrupted == FirstInterrupt(events).Some?
            && r.shouldRun == (FirstInterrupt(events).None? && failures == [])
            && r.exception == FirstRecorded(InterruptRecord(false, c.exception, events), failures)
            && r.effects == c.effects + [CreateOutputFile(folder, fileName)] + PassEffects(run, p.hasSplitter)
                            + TeardownEffects(AcquiredBy(run), XlinkPoolRunning(run, p.hasXlinkPool, p.xlinkPoolTerminated),
                                              DbPoolRunning(run, p.hasDbPool, p.dbPoolTerminated))
  {
    var created := c.(effects := c.effects + [CreateOutputFile(folder, fileName)]);
    var q := PassPools(p, run);
    PassStateFacts(p.hasSplitter, created, run);
    TeardownControlFacts(PassState(p.hasSplitter, created, run), AcquiredBy(run), run,
                         q.hasXlinkPool && !q.xlinkPoolTerminated, q.hasDbPool && !q.dbPoolTerminated);
  }

  /** The message of a tile the tiling cannot compute. */
  function TileError(row: nat, column: nat): string
  {
    "Failed to get tile at [" + NatToString(row) + "," + NatToString(column) + "]."
  }

  /** The recorded exception after further failures: the first one ever
      recorded is kept. */
  function FirstRecorded(recorded: Option<ApplicationException>, failures: seq<ApplicationException>): (r: Option<ApplicationException>)
    ensures recorded.Some? ==> r == recorded
    ensures recorded.None? ==> (r.None? <==> failures == [])
    ensures recorded.None? && failures != [] ==> r == Some(failures[0])
  {
    if recorded.Some? then recorded else if failures == [] then None else Some(failures[0])
  }

  /** Recording two runs of failures one after the other records what
      recording their concatenation records. */
  lemma FirstRecordedAppend(recorded: Option<ApplicationException>, a: seq<ApplicationException>, b: seq<ApplicationException>)
    ensures FirstRecorded(FirstRecorded(recorded, a), b) == FirstRecorded(recorded, a + b)
  {
    if a != [] {
      assert (a + b)[0] == a[0];
    }
  }

  datatype SessionOutcome = Returned(completed: bool) | Thrown(error: ApplicationException)

  /** The session's result once the tile loop ends: completed when it was
      not stopped; otherwise the recorded exception, or "not completed" when
      none was recorded. */
  function Finish(shouldRun: bool, recorded: Option<ApplicationException>): (r: SessionOutcome)
    ensures r == Returned(true) <==> shouldRun
    ensures r == Returned(false) <==> !shouldRun && recorded.None?
    ensures r.Thrown? <==> !shouldRun && recorded.Some?
    ensures r.Thrown? ==> r.error == recorded.value
  {
    if shouldRun then Returned(true) else if recorded.Some? then Thrown(recorded.value) else Returned(false)
  }

  /** The remaining-tiles counts reported for the first n tiles started out
      of `total`. */
  function Countdown(total: int, n: nat): (r: seq<int>)
    ensures |r| == n
  {
    if n == 0 then [] else Countdown(total, n - 1) + [total - n]
  }

  /** The i-th tile started reports the tiles left after it. */
  lemma {:induction false} CountdownAt(total: int, n: nat, i: nat)
    requires i < n
    ensures Countdown(total, n)[i] == total - (i + 1)
  {
    if i < n - 1 {
      CountdownAt(total, n - 1, i);
    }
  }

  /** Reporting the count for one more tile extends the countdown. */
  lemma CountdownStep(reports: seq<int>, reports0: seq<int>, total: int, n: nat)
    requires reports == reports0 + Countdown(total, n)
    ensures reports + [total - (n + 1)] == reports0 + Countdown(total, n + 1)
  {
    SeqAssoc(reports0, Countdown(total, n), [total - (n + 1)]);
  }

  /** The number of rows or columns the loop runs through: none when the
      count is not positive. */
  function Width(n: int): nat
  {
    if n > 0 then n else 0
  }

  /** The tiles of one row. */
  function Row(row: nat, columns: int): (r: seq<(nat, nat)>)
    ensures |r| == Width(columns)
    ensures forall j {:trigger r[j]} :: 0 <= j < |r| ==> r[j] == (row, j)
  {
    if columns <= 0 then [] else Row(row, columns - 1) + [(row, columns - 1)]
  }

  /** All tiles, row by row. */
  function RowMajor(rows: int, columns: int): seq<(nat, nat)>
  {
    if rows <= 0 then [] else RowMajor(rows - 1, columns) + Row(rows - 1, columns)
  }

  /** The row-major sequence holds exactly the tiles of the grid. */
  lemma {:induction false} RowMajorCovers(rows: int, columns: int, t: (int, int))
    ensures t in RowMajor(rows, columns) <==> 0 <= t.0 < rows && 0 <= t.1 < columns
  {
    if rows > 0 {
      RowMajorCovers(rows - 1, columns, t);
      if t.0 == rows - 1 && 0 <= t.1 < columns {
        assert Row(rows - 1, columns)[t.1] == t;
      }
    }
  }

  /** Every tile is visited at most once. */
  lemma {:induction false} RowMajorDistinct(rows: int, columns: int)
    ensures forall i, j :: 0 <= i < j < |RowMajor(rows, columns)| ==> RowMajor(rows, columns)[i] != RowMajor(rows, columns)[j]
  {
    if rows > 0 {
      RowMajorDistinct(rows - 1, columns);
      var init, last := RowMajor(rows - 1, columns), Row(rows - 1, columns);
      forall i | 0 <= i < |init| ensures init[i].0 < rows - 1 {
        RowMajorCovers(rows - 1, columns, init[i]);
      }
      assert RowMajor(rows, columns) == init + last;
    }
  }

  /** The tiles of fewer rows come first. */
  lemma {:induction false} RowMajorPrefix(fewer: int, rows: int, columns: int)
    requires 0 <= fewer <= rows
    ensures RowMajor(fewer, columns) <= RowMajor(rows, columns)
    decreases rows - fewer
  {
    if fewer < rows {
      RowMajorPrefix(fewer, rows - 1, columns);
    }
  }

  /** The tiling cannot compute the tile, so no pass starts for it. */
  predicate TileUnavailable(useTiling: bool, run: TileRun)
  {
    useTiling && run.tile.Failure?
  }

  /** What one tile of the loop throws, if anything: the tile the tiling
      cannot compute, else the first failing step of its pass. */
  function TileFailure(useTiling: bool, run: TileRun, textureFolder: string, row: nat, column: nat): Option<ApplicationException>
  {
    if TileUnavailable(useTiling, run) then Some(ExportError(TileError(row, column), Some(run.tile.error)))
    else PassFailure(run, textureFolder, true)
  }

  /** After a pass that threw nothing the session goes on when no interrupt
      came and no teardown step failed. */
  predicate TileGoesOn(run: TileRun)
  {
    FirstInterrupt(HandledEvents(run, true)).None? && TeardownFailures(AcquiredBy(run), run) == []
  }

  /** The exception recorded by the pass that stopped the session, if any. */
  function StopRecord(run: TileRun): Option<ApplicationException>
  {
    FirstRecorded(InterruptRecord(false, None, HandledEvents(run, true)), TeardownFailures(AcquiredBy(run), run))
  }

  /** The tile passed: it threw nothing and the session went on. */
  predicate Passed(useTiling: bool, textureFolder: string, runs: (nat, nat) -> TileRun, row: nat, column: nat)
  {
    TileFailure(useTiling, runs(row, column), textureFolder, row, column).None? && TileGoesOn(runs(row, column))
  }

  /** The events each tile's pass hands to the session, by position. */
  function TileEvents(runs: (nat, nat) -> TileRun): (nat, nat) -> seq<Event>
  {
    (row: nat, column: nat) => HandledEvents(runs(row, column), true)
  }

  /** The events of the given tiles, tile by tile. */
  function VisitedEvents(events: (nat, nat) -> seq<Event>, tiles: seq<(nat, nat)>): (r: seq<seq<Event>>)
    ensures |r| == |tiles|
    ensures forall i {:trigger r[i]} :: 0 <= i < |tiles| ==> r[i] == events(tiles[i].0, tiles[i].1)
  {
    seq(|tiles|, i requires 0 <= i < |tiles| => events(tiles[i].0, tiles[i].1))
  }

  /** Visiting two runs of tiles one after the other. */
  lemma VisitedEventsAppend(events: (nat, nat) -> seq<Event>, a: seq<(nat, nat)>, b: seq<(nat, nat)>)
    ensures VisitedEvents(events, a + b) == VisitedEvents(events, a) + VisitedEvents(events, b)
  {
    var l, r := VisitedEvents(events, a + b), VisitedEvents(events, a) + VisitedEvents(events, b);
    forall i | 0 <= i < |l|
      ensures l[i] == r[i]
    {
      if i < |a| { assert (a + b)[i] == a[i]; } else { assert (a + b)[i] == b[i - |a|]; }
    }
  }

  /** The events of all tiles, tile after tile. */
  function Concat(tiles: seq<seq<Event>>): seq<Event>
  {
    if tiles == [] then [] else Concat(tiles[..|tiles| - 1]) + tiles[|tiles| - 1]
  }

  /** The events of the tiles before and after a split, one after the
      other. */
  lemma {:induction false} ConcatAppend(a: seq<seq<Event>>, b: seq<seq<Event>>)
    ensures Concat(a + b) == Concat(a) + Concat(b)
    decreases |b|
  {
    if b == [] {
      assert a + b == a;
    } else {
      var init, last := b[..|b| - 1], b[|b| - 1];
      ConcatAppend(a, init);
      assert (a + b)[..|a + b| - 1] == a + init;
      SeqAssoc(Concat(a), Concat(init), last);
    }
  }

  /** The events of the tiles of a row, tile after tile. */
  function RowEvents(events: (nat, nat) -> seq<Event>, row: nat, columns: int): seq<Event>
    decreases columns
  {
    if columns <= 0 then [] else RowEvents(events, row, columns - 1) + events(row, columns - 1)
  }

  /** The events of the tiles of the first rows, row after row. */
  function GridEvents(events: (nat, nat) -> seq<Event>, rows: int, columns: int): seq<Event>
    decreases rows
  {
    if rows <= 0 then [] else GridEvents(events, rows - 1, columns) + RowEvents(events, rows - 1, columns)
  }

  /** The events of the tiles before (row, column) in row-major order. */
  function EventsBefore(events: (nat, nat) -> seq<Event>, columns: int, row: nat, column: int): seq<Event>
  {
    GridEvents(events, row, columns) + RowEvents(events, row, column)
  }

  /** A row's tiles taken in column order are the row's events. */
  lemma {:induction false} RowEventsInOrder(events: (nat, nat) -> seq<Event>, row: nat, columns: int)
    ensures RowEvents(events, row, columns) == Concat(VisitedEvents(events, Row(row, columns)))
    decreases columns
  {
    if columns > 0 {
      var init := Row(row, columns - 1);
      RowEventsInOrder(events, row, columns - 1);
      assert VisitedEvents(events, Row(row, columns)) == VisitedEvents(events, init) + [events(row, columns - 1)];
      ConcatAppend(VisitedEvents(events, init), [events(row, columns - 1)]);
    }
  }

  /** The grid's events, row after row, are the events of its tiles in
      row-major order. */
  lemma {:induction false} GridEventsInOrder(events: (nat, nat) -> seq<Event>, rows: int, columns: int)
    ensures GridEvents(events, rows, columns) == Concat(VisitedEvents(events, RowMajor(rows, columns)))
    decreases rows
  {
    if rows > 0 {
      GridEventsInOrder(events, rows - 1, columns);
      RowEventsInOrder(events, rows - 1, columns);
      VisitedConcatAppend(events, RowMajor(rows - 1, columns), Row(rows - 1, columns),
                          GridEvents(events, rows - 1, columns), RowEvents(events, rows - 1, columns));
    }
  }

  /** The events of two runs of tiles, one after the other, are those of
      the tiles of both runs. */
  lemma VisitedConcatAppend(events: (nat, nat) -> seq<Event>, a: seq<(nat, nat)>, b: seq<(nat, nat)>,
                            eventsA: seq<Event>, eventsB: seq<Event>)
    requires eventsA == Concat(VisitedEvents(events, a)) && eventsB == Concat(VisitedEvents(events, b))
    ensures eventsA + eventsB == Concat(VisitedEvents(events, a + b))
  {
    VisitedEventsAppend(events, a, b);
    ConcatAppend(VisitedEvents(events, a), VisitedEvents(events, b));
  }

  /** The session's object totals after the tiles of a row up to `column`,
      from `start`: each tile's object-count reports merged in turn. */
  function RowObjectTotals(events: (nat, nat) -> seq<Event>, start: map<int, int>, row: nat, column: int): map<int, int>
    decreases column
  {
    if column <= 0 then start
    else MergeAll(RowObjectTotals(events, start, row, column - 1), ObjectReports(events(row, column - 1)))
  }

  /** The session's geometry totals after the tiles of a row up to
      `column`, from `start`. */
  function RowGeometryTotals(events: (nat, nat) -> seq<Event>, start: map<GmlClass, int>, row: nat, column: int): map<GmlClass, int>
    decreases column
  {
    if column <= 0 then start
    else MergeAll(RowGeometryTotals(events, start, row, column - 1), GeometryReports(events(row, column - 1)))
  }

  /** The session's object totals after the first rows, row after row. */
  function GridObjectTotals(events: (nat, nat) -> seq<Event>, totals0: map<int, int>, rows: int, columns: int): map<int, int>
    decreases rows
  {
    if rows <= 0 then totals0 else RowObjectTotals(events, GridObjectTotals(events, totals0, rows - 1, columns), rows - 1, columns)
  }

  /** The session's geometry totals after the first rows, row after row. */
  function GridGeometryTotals(events: (nat, nat) -> seq<Event>, totals0: map<GmlClass, int>, rows: int, columns: int): map<GmlClass, int>
    decreases rows
  {
    if rows <= 0 then totals0 else RowGeometryTotals(events, GridGeometryTotals(events, totals0, rows - 1, columns), rows - 1, columns)
  }

  /** Merged tile by tile, a row's object totals take the object-count
      reports among the row's events. */
  lemma {:induction false} RowObjectTotalsInOrder(events: (nat, nat) -> seq<Event>, objects: map<int, int>, row: nat, column: int)
    ensures RowObjectTotals(events, objects, row, column) == MergeAll(objects, ObjectReports(RowEvents(events, row, column)))
    decreases column
  {
    if column > 0 {
      var before, tile := RowEvents(events, row, column - 1), events(row, column - 1);
      RowObjectTotalsInOrder(events, objects, row, column - 1);
      ReportsAppend(before, tile);
      MergeAllAppend(objects, ObjectReports(before), ObjectReports(tile));
    }
  }

  /** Merged tile by tile, a row's geometry totals take the geometry-count
      reports among the row's events. */
  lemma {:induction false} RowGeometryTotalsInOrder(events: (nat, nat) -> seq<Event>, geometries: map<GmlClass, int>, row: nat, column: int)
    ensures RowGeometryTotals(events, geometries, row, column) == MergeAll(geometries, GeometryReports(RowEvents(events, row, column)))
    decreases column
  {
    if column > 0 {
      var before, tile := RowEvents(events, row, column - 1), events(row, column - 1);
      RowGeometryTotalsInOrder(events, geometries, row, column - 1);
      ReportsAppend(before, tile);
      MergeAllAppend(geometries, GeometryReports(before), GeometryReports(tile));
    }
  }

  /** Merged row by row, the grid's object totals take the object-count
      reports among the grid's events. */
  lemma {:induction false} GridObjectTotalsInOrder(events: (nat, nat) -> seq<Event>, objects: map<int, int>, rows: int, columns: int)
    ensures GridObjectTotals(events, objects, rows, columns) == MergeAll(objects, ObjectReports(GridEvents(events, rows, columns)))
    decreases rows
  {
    if rows > 0 {
      var r: nat := rows - 1;
      var before, row := GridEvents(events, r, columns), RowEvents(events, r, columns);
      GridObjectTotalsInOrder(events, objects, r, columns);
      RowObjectTotalsInOrder(events, GridObjectTotals(events, objects, r, columns), r, columns);
      ReportsAppend(before, row);
      MergeAllAppend(objects, ObjectReports(before), ObjectReports(row));
    }
  }

  /** Merged row by row, the grid's geometry totals take the
      geometry-count reports among the grid's events. */
  lemma {:induction false} GridGeometryTotalsInOrder(events: (nat, nat) -> seq<Event>, geometries: map<GmlClass, int>, rows: int, columns: int)
    ensures GridGeometryTotals(events, geometries, rows, columns) == MergeAll(geometries, GeometryReports(GridEvents(events, rows, columns)))
    decreases rows
  {
    if rows > 0 {
      var r: nat := rows - 1;
      var before, row := GridEvents(events, r, columns), RowEvents(events, r, columns);
      GridGeometryTotalsInOrder(events, geometries, r, columns);
      RowGeometryTotalsInOrder(events, GridGeometryTotals(events, geometries, r, columns), r, columns);
      ReportsAppend(before, row);
      MergeAllAppend(geometries, GeometryReports(before), GeometryReports(row));
    }
  }

  /** The reports among all tiles' events are the reports of each tile,
      tile after tile. */
  lemma {:induction false} ReportsConcat(tiles: seq<seq<Event>>)
    ensures ObjectReports(Concat(tiles)) == Flatten(TileObjectReports(tiles))
    ensures GeometryReports(Concat(tiles)) == Flatten(TileGeometryReports(tiles))
  {
    if tiles != [] {
      var init := tiles[..|tiles| - 1];
      ReportsConcat(init);
      ReportsAppend(Concat(init), tiles[|tiles| - 1]);
      assert TileObjectReports(tiles)[..|tiles| - 1] == TileObjectReports(init);
      assert TileGeometryReports(tiles)[..|tiles| - 1] == TileGeometryReports(init);
    }
  }

  /** The object-count reports of each tile's events. */
  function TileObjectReports(tiles: seq<seq<Event>>): (r: seq<seq<map<int, int>>>)
    ensures |r| == |tiles|
    ensures forall i :: 0 <= i < |tiles| ==> r[i] == ObjectReports(tiles[i])
  {
    seq(|tiles|, i requires 0 <= i < |tiles| => ObjectReports(tiles[i]))
  }

  /** The geometry-count reports of each tile's events. */
  function TileGeometryReports(tiles: seq<seq<Event>>): (r: seq<seq<map<GmlClass, int>>>)
    ensures |r| == |tiles|
    ensures forall i :: 0 <= i < |tiles| ==> r[i] == GeometryReports(tiles[i])
  {
    seq(|tiles|, i requires 0 <= i < |tiles| => GeometryReports(tiles[i]))
  }
}

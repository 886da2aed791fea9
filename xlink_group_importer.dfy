/** Batched writer of deferred group-membership references. Each record
    becomes one row (GROUP_ID, GMLID, IS_PARENT, ROLE) added to the batch of
    a prepared insert into a temporary cache table; a counter of rows added
    since the last flush triggers a flush when it reaches the cache
    adapter's maximum batch size. */
module XlinkGroupImporter {
  import opened Wrappers

  /** A deferred group membership: the group's database id, the member's
      gml:id, whether the member is the group's parent, and its role. */
  datatype GroupToCityObject = GroupToCityObject(groupId: int, gmlId: Option<string>, isParent: bool, role: Option<string>)

  /** One row of the cache table; IS_PARENT is stored as 1 or 0. */
  datatype Row = Row(groupId: int, gmlId: Option<string>, isParent: int, role: Option<string>)

  /** The row a record is stored as, with no other transformation. */
  function RowOf(entry: GroupToCityObject): (row: Row)
    ensures row.groupId == entry.groupId && row.gmlId == entry.gmlId && row.role == entry.role
    ensures row.isParent == 1 <==> entry.isParent
    ensures row.isParent == 0 <==> !entry.isParent
  {
    Row(entry.groupId, entry.gmlId, if entry.isParent then 1 else 0, entry.role)
  }

  /** The writer's state: the batch counter, the rows in the statement's
      batch, and the rows already sent to the database, in order. */
  datatype BatchState = BatchState(counter: int, pending: seq<Row>, flushed: seq<Row>)

  const Empty := BatchState(0, [], [])

  /** `executeBatch`: every pending row is sent and the counter reset. */
  function Flush(s: BatchState): (r: BatchState)
    ensures r.counter == 0 && r.pending == []
    ensures r.flushed + r.pending == s.flushed + s.pending
  {
    BatchState(0, [], s.flushed + s.pending)
  }

  /** `insert`: the row joins the batch, and the batch is flushed when the
      incremented counter equals the maximum batch size. */
  function InsertStep(s: BatchState, row: Row, maxBatchSize: int): (r: BatchState)
    ensures r.flushed + r.pending == s.flushed + s.pending + [row]
    ensures s.counter + 1 == maxBatchSize ==> r.counter == 0 && r.pending == []
    ensures s.counter + 1 != maxBatchSize ==> r.counter == s.counter + 1 && r.flushed == s.flushed && r.pending == s.pending + [row]
  {
    var counter := s.counter + 1;
    var pending := s.pending + [row];
    if counter == maxBatchSize then Flush(BatchState(counter, pending, s.flushed))
    else BatchState(counter, pending, s.flushed)
  }

  /** Inserting rows one after another. */
  function InsertAll(s: BatchState, rows: seq<Row>, maxBatchSize: int): BatchState
  {
    if rows == [] then s
    else InsertStep(InsertAll(s, rows[..|rows| - 1], maxBatchSize), rows[|rows| - 1], maxBatchSize)
  }

  lemma MulAtLeast(x: int, m: int)
    requires x >= 1 && m >= 1
    ensures x * m >= m
  {
  }

  /** The remainder is determined by any decomposition a = q*m + r. */
  lemma ModOfDecomposition(a: int, m: int, q: int, r: int)
    requires m >= 1 && 0 <= r < m && a == q * m + r
    ensures a % m == r
  {
    var q', r' := a / m, a % m;
    assert (q - q') * m == r' - r;
    if q > q' {
      MulAtLeast(q - q', m);
    } else if q < q' {
      MulAtLeast(q' - q, m);
    }
  }

  lemma ModSuccessor(n: nat, m: int)
    requires m >= 1
    ensures (n % m) + 1 == m ==> (n + 1) % m == 0
    ensures (n % m) + 1 != m ==> (n + 1) % m == (n % m) + 1
  {
    var q, r := n / m, n % m;
    if r + 1 == m {
      ModOfDecomposition(n + 1, m, q + 1, 0);
    } else {
      ModOfDecomposition(n + 1, m, q, r + 1);
    }
  }

  /** The last rows of a sequence one row longer end with that row; the
      rows before them are unchanged. */
  lemma SuffixSnoc(rows: seq<Row>, k: int)
    requires 0 <= k < |rows|
    ensures rows[..|rows| - 1][|rows| - 1 - k..] + [rows[|rows| - 1]] == rows[|rows| - 1 - k..]
    ensures rows[..|rows| - 1][..|rows| - 1 - k] == rows[..|rows| - 1 - k]
  {
  }

  /** A writer whose pending rows are the last `counter` rows inserted and
      whose flushed rows are all the earlier ones. */
  predicate HoldsTail(s: BatchState, rows: seq<Row>, maxBatchSize: int)
  {
    && 0 <= s.counter < maxBatchSize && s.counter <= |rows|
    && s.pending == rows[|rows| - s.counter..]
    && s.flushed == rows[..|rows| - s.counter]
  }

  /** Inserting one more row keeps the writer holding the tail. */
  lemma InsertStepHoldsTail(prev: BatchState, rows: seq<Row>, maxBatchSize: int)
    requires rows != [] && HoldsTail(prev, rows[..|rows| - 1], maxBatchSize)
    ensures HoldsTail(InsertStep(prev, rows[|rows| - 1], maxBatchSize), rows, maxBatchSize)
  {
    var n, k := |rows|, prev.counter;
    var init, last := rows[..n - 1], rows[n - 1];
    var s := InsertStep(prev, last, maxBatchSize);
    SuffixSnoc(rows, k);
    if k + 1 == maxBatchSize {
      assert init == prev.flushed + prev.pending;
      assert s.flushed == init + [last];
      assert init + [last] == rows;
    } else {
      assert s.pending == rows[n - 1 - k..];
    }
  }

  /** Starting from an empty writer with a positive maximum, the counter
      stays below the maximum and equals the number of pending rows, which
      are the last rows inserted; every earlier row has been flushed, in
      insertion order. */
  lemma {:induction false} InsertAllFromEmpty(rows: seq<Row>, maxBatchSize: int)
    requires maxBatchSize >= 1
    ensures HoldsTail(InsertAll(Empty, rows, maxBatchSize), rows, maxBatchSize)
  {
    if rows != [] {
      InsertAllFromEmpty(rows[..|rows| - 1], maxBatchSize);
      InsertStepHoldsTail(InsertAll(Empty, rows[..|rows| - 1], maxBatchSize), rows, maxBatchSize);
    }
  }

  /** ... and the counter is the number of rows inserted modulo the maximum. */
  lemma {:induction false} InsertAllCounter(rows: seq<Row>, maxBatchSize: int)
    requires maxBatchSize >= 1
    ensures InsertAll(Empty, rows, maxBatchSize).counter == |rows| % maxBatchSize
  {
    if rows != [] {
      var n := |rows|;
      InsertAllCounter(rows[..n - 1], maxBatchSize);
      InsertAllFromEmpty(rows[..n - 1], maxBatchSize);
      ModSuccessor(n - 1, maxBatchSize);
    }
  }

  class GroupToCityObjectImporter {
    /** The cache adapter's maximum batch size. */
    const maxBatchSize: int
    var batchCounter: int
    /** The rows added to the prepared statement's batch. */
    var pending: seq<Row>
    /** The rows the statement has executed, in order. */
    var flushed: seq<Row>
    /** Every row ever inserted, in order. */
    ghost var inserted: seq<Row>

    /** The counter always equals the number of rows in the batch; nothing
        inserted is lost or reordered; with a positive maximum the counter
        stays below it between calls. */
    ghost predicate Valid()
      reads this
    {
      && batchCounter == |pending|
      && flushed + pending == inserted
      && (maxBatchSize >= 1 ==> 0 <= batchCounter < maxBatchSize)
    }

    function State(): BatchState
      reads this
    {
      BatchState(batchCounter, pending, flushed)
    }

    constructor (maxBatchSize: int)
      ensures Valid() && this.maxBatchSize == maxBatchSize
      ensures State() == Empty && inserted == []
    {
      this.maxBatchSize := maxBatchSize;
      batchCounter := 0;
      pending, flushed := [], [];
      inserted := [];
    }

    method Insert(entry: GroupToCityObject) returns (ok: bool)
      requires Valid()
      modifies this
      ensures Valid() && ok
      ensures State() == InsertStep(old(State()), RowOf(entry), maxBatchSize)
      ensures inserted == old(inserted) + [RowOf(entry)]
    {
      pending := pending + [RowOf(entry)];
      inserted := inserted + [RowOf(entry)];
      batchCounter := batchCounter + 1;
      if batchCounter == maxBatchSize {
        ExecuteBatch();
      }
      return true;
    }

    /** Sends every pending row and resets the counter; on an empty batch
        nothing changes. */
    method ExecuteBatch()
      requires batchCounter == |pending| && flushed + pending == inserted
      modifies this`pending, this`flushed, this`batchCounter
      ensures Valid()
      ensures State() == Flush(old(State()))
      ensures old(pending) == [] ==> flushed == old(flushed)
    {
      flushed := flushed + pending;
      pending := [];
      batchCounter := 0;
    }
  }
}
